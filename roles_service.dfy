/**
 * The role table a node caches: derived from the users section when that is
 * present, else from the roles section, always seeded with the superuser, and
 * recomputed when one of the three role-related metadata sections changes.
 */
module Roles {
  import opened Wrappers
  import opened RoleMetadata

  type UsersSource = Option<map<string, Option<SecureHash>>>
  type RolesSource = Option<map<string, Role>>
  type PrivilegesSource = Option<map<string, set<Privilege>>>

  /**
   * The privileges a derived role carries: the stored set, or null when the
   * privileges section is absent or has no entry for the name.
   */
  function PrivilegesFor(privileges: PrivilegesSource, name: string): Option<set<Privilege>>
  {
    if privileges.Some? && name in privileges.value then Some(privileges.value[name]) else None
  }

  /** The names roles are derived from: the users section's if present, else the roles section's. */
  function SourceNames(users: UsersSource, roles: RolesSource): set<string>
  {
    if users.Some? then users.value.Keys
    else if roles.Some? then roles.value.Keys
    else {}
  }

  /** The role derived for one source name. */
  function Derived(users: UsersSource, roles: RolesSource, privileges: PrivilegesSource, name: string): Role
    requires name in SourceNames(users, roles)
  {
    if users.Some? then UserOf(name, PrivilegesFor(privileges, name), users.value[name])
    else RoleOf(name, roles.value[name].isUser, PrivilegesFor(privileges, name), roles.value[name].password)
  }

  /** The name-to-role map after the source names in `done` have been put over the superuser seed. */
  function PartialTable(users: UsersSource, roles: RolesSource, privileges: PrivilegesSource, done: set<string>): map<string, Role>
    requires done <= SourceNames(users, roles)
  {
    map name | name in done + {CRATE_USER_NAME} ::
      if name in done then Derived(users, roles, privileges, name) else CRATE_USER
  }

  /** The complete name-to-role map `getRoles` builds. */
  function RoleTable(users: UsersSource, roles: RolesSource, privileges: PrivilegesSource): map<string, Role>
  {
    PartialTable(users, roles, privileges, SourceNames(users, roles))
  }

  /** The privileges section after every listed name without an entry got an empty set. */
  function WithEmptyPrivileges(privileges: map<string, set<Privilege>>, names: set<string>): map<string, set<Privilege>>
  {
    map name | name in privileges.Keys + names :: if name in privileges then privileges[name] else {}
  }

  /**
   * `getRoles`: the set of roles for the given sections. Names of the source
   * section without an entry in a present privileges section get an empty
   * privilege set there, while their role still carries null privileges.
   */
  method GetRoles(usersMetadata: UsersMetadata?, rolesMetadata: RolesMetadata?, privilegesMetadata: UsersPrivilegesMetadata?)
    returns (result: set<Role>)
    modifies privilegesMetadata
    ensures result == RoleTable(UsersView(usersMetadata), RolesView(rolesMetadata), old(PrivilegesView(privilegesMetadata))).Values
    ensures privilegesMetadata != null ==>
      privilegesMetadata.privileges
        == WithEmptyPrivileges(old(privilegesMetadata.privileges), SourceNames(UsersView(usersMetadata), RolesView(rolesMetadata)))
  {
    ghost var users := UsersView(usersMetadata);
    ghost var rolesSource := RolesView(rolesMetadata);
    ghost var privileges0 := PrivilegesView(privilegesMetadata);
    var roles: map<string, Role> := map[CRATE_USER_NAME := CRATE_USER];
    assert roles == PartialTable(users, rolesSource, privileges0, {});
    ghost var names := SourceNames(users, rolesSource);
    if usersMetadata != null {
      var remaining := usersMetadata.users.Keys;
      ghost var done: set<string> := {};
      while remaining != {}
        invariant done + remaining == names && done !! remaining
        invariant roles == PartialTable(users, rolesSource, privileges0, done)
        invariant privilegesMetadata != null ==>
          privilegesMetadata.privileges == WithEmptyPrivileges(privileges0.value, done)
        decreases remaining
      {
        var userName :| userName in remaining;
        var password := usersMetadata.users[userName];
        var privileges := FetchPrivileges(privilegesMetadata, userName, privileges0, done);
        StepTable(users, rolesSource, privileges0, done, userName);
        roles := roles[userName := UserOf(userName, privileges, password)];
        remaining := remaining - {userName};
        done := done + {userName};
      }
    } else if rolesMetadata != null {
      var remaining := rolesMetadata.roles.Keys;
      ghost var done: set<string> := {};
      while remaining != {}
        invariant done + remaining == names && done !! remaining
        invariant rolesSource == RolesView(rolesMetadata)
        invariant roles == PartialTable(users, rolesSource, privileges0, done)
        invariant privilegesMetadata != null ==>
          privilegesMetadata.privileges == WithEmptyPrivileges(privileges0.value, done)
        decreases remaining
      {
        var userName :| userName in remaining;
        var role := rolesMetadata.roles[userName];
        var password := role.password;
        var privileges := FetchPrivileges(privilegesMetadata, userName, privileges0, done);
        StepTable(users, rolesSource, privileges0, done, userName);
        roles := roles[userName := RoleOf(userName, role.isUser, privileges, password)];
        remaining := remaining - {userName};
        done := done + {userName};
      }
    }
    result := roles.Values;
  }

  /**
   * The privilege lookup both branches of `getRoles` perform for one name:
   * null without a privileges section; otherwise the stored set, and when
   * there is none, an empty set is created in the section while null is
   * returned.
   */
  method FetchPrivileges(privilegesMetadata: UsersPrivilegesMetadata?, userName: string,
                         ghost privileges0: PrivilegesSource, ghost done: set<string>)
    returns (privileges: Option<set<Privilege>>)
    requires privileges0.Some? <==> privilegesMetadata != null
    requires privilegesMetadata != null ==> privilegesMetadata.privileges == WithEmptyPrivileges(privileges0.value, done)
    requires userName !in done
    modifies privilegesMetadata
    ensures privileges == PrivilegesFor(privileges0, userName)
    ensures privilegesMetadata != null ==> privilegesMetadata.privileges == WithEmptyPrivileges(privileges0.value, done + {userName})
  {
    privileges := None;
    if privilegesMetadata != null {
      privileges := privilegesMetadata.GetUserPrivileges(userName);
      if privileges.None? {
        privilegesMetadata.CreatePrivileges(userName, {});
      }
    }
  }

  /** Putting one more source name extends the partial table by that name's derived role. */
  lemma StepTable(users: UsersSource, roles: RolesSource, privileges: PrivilegesSource, done: set<string>, name: string)
    requires done <= SourceNames(users, roles)
    requires name in SourceNames(users, roles) && name !in done
    ensures PartialTable(users, roles, privileges, done + {name})
      == PartialTable(users, roles, privileges, done)[name := Derived(users, roles, privileges, name)]
  {
  }

  /** True when one of the three sections `clusterChanged` watches is a different object. */
  predicate SectionsChanged(previous: Metadata, current: Metadata)
  {
    previous.users != current.users
    || previous.roles != current.roles
    || previous.usersPrivileges != current.usersPrivileges
  }

  /** The node-local cache of roles, kept up to date from cluster state changes. */
  class RolesService {
    var roles: set<Role>

    /** The cache starts out holding only the superuser. */
    constructor ()
      ensures roles == {CRATE_USER}
    {
      roles := {CRATE_USER};
    }

    /** `roles()`: the cached set, as it currently is. */
    function Roles(): set<Role>
      reads this
    {
      roles
    }

    /**
     * `clusterChanged`: recomputes the cache from the new sections when one of
     * them changed, and otherwise leaves the cache and the sections alone.
     */
    method ClusterChanged(previous: Metadata, current: Metadata)
      modifies this, current.usersPrivileges
      ensures SectionsChanged(previous, current) ==>
        roles == RoleTable(UsersView(current.users), RolesView(current.roles), old(PrivilegesView(current.usersPrivileges))).Values
      ensures SectionsChanged(previous, current) && current.usersPrivileges != null ==>
        current.usersPrivileges.privileges
          == WithEmptyPrivileges(old(current.usersPrivileges.privileges), SourceNames(UsersView(current.users), RolesView(current.roles)))
      ensures !SectionsChanged(previous, current) ==> roles == old(roles)
      ensures !SectionsChanged(previous, current) && current.usersPrivileges != null ==>
        current.usersPrivileges.privileges == old(current.usersPrivileges.privileges)
    {
      if SectionsChanged(previous, current) {
        roles := GetRoles(current.users, current.roles, current.usersPrivileges);
      }
    }
  }

  /** With neither a users nor a roles section, the table holds the superuser alone. */
  lemma NoSectionsYieldSuperuserOnly(privileges: PrivilegesSource)
    ensures RoleTable(None, None, privileges) == map[CRATE_USER_NAME := CRATE_USER]
    ensures RoleTable(None, None, privileges).Values == {CRATE_USER}
  {
    var t := RoleTable(None, None, privileges);
    assert t == map[CRATE_USER_NAME := CRATE_USER];
    assert CRATE_USER in t.Values by { assert t[CRATE_USER_NAME] == CRATE_USER; }
  }

  /** A present users section decides the table on its own: the roles section is ignored. */
  lemma UsersSectionShadowsRoles(users: UsersSource, roles1: RolesSource, roles2: RolesSource, privileges: PrivilegesSource)
    requires users.Some?
    ensures RoleTable(users, roles1, privileges) == RoleTable(users, roles2, privileges)
  {
  }

  /** The table's names are the source names plus the superuser's, and each role carries its own name. */
  lemma TableKeys(users: UsersSource, roles: RolesSource, privileges: PrivilegesSource)
    ensures RoleTable(users, roles, privileges).Keys == SourceNames(users, roles) + {CRATE_USER_NAME}
    ensures forall name :: name in RoleTable(users, roles, privileges) ==> RoleTable(users, roles, privileges)[name].name == name
  {
  }

  /** The superuser seed is kept unless the source section has an entry named `crate`, which replaces it. */
  lemma SuperuserSeed(users: UsersSource, roles: RolesSource, privileges: PrivilegesSource)
    ensures CRATE_USER_NAME !in SourceNames(users, roles) ==> RoleTable(users, roles, privileges)[CRATE_USER_NAME] == CRATE_USER
    ensures CRATE_USER_NAME in SourceNames(users, roles) ==>
      RoleTable(users, roles, privileges)[CRATE_USER_NAME] == Derived(users, roles, privileges, CRATE_USER_NAME)
  {
  }

  /** From a users section every entry becomes a user with that entry's password and its stored privileges. */
  lemma UsersBranchEntries(users: UsersSource, roles: RolesSource, privileges: PrivilegesSource)
    requires users.Some?
    ensures forall name :: name in users.value ==>
      var role := RoleTable(users, roles, privileges)[name];
      role.name == name && role.isUser && role.password == users.value[name]
      && role.privileges == PrivilegesFor(privileges, name)
  {
  }

  /** From a roles section every entry keeps its user flag and password and gets its stored privileges. */
  lemma RolesBranchEntries(roles: RolesSource, privileges: PrivilegesSource)
    requires roles.Some?
    ensures forall name :: name in roles.value ==>
      var role := RoleTable(None, roles, privileges)[name];
      role.name == name && role.isUser == roles.value[name].isUser
      && role.password == roles.value[name].password
      && role.privileges == PrivilegesFor(privileges, name)
  {
  }

  /** Without a privileges section, or without an entry for a name, the derived role has null privileges. */
  lemma MissingPrivilegesAreNull(users: UsersSource, roles: RolesSource, privileges: PrivilegesSource)
    ensures forall name :: name in SourceNames(users, roles) && (privileges.None? || name !in privileges.value) ==>
      RoleTable(users, roles, privileges)[name].privileges.None?
  {
  }

  /** Every role in the returned set is the table's entry for its own name, so there is one role per name. */
  lemma OneRolePerName(users: UsersSource, roles: RolesSource, privileges: PrivilegesSource)
    ensures forall role :: role in RoleTable(users, roles, privileges).Values ==>
      role.name in RoleTable(users, roles, privileges) && RoleTable(users, roles, privileges)[role.name] == role
  {
    var t := RoleTable(users, roles, privileges);
    forall role | role in t.Values
      ensures role.name in t && t[role.name] == role
    {
      var name :| name in t && t[name] == role;
      TableKeys(users, roles, privileges);
    }
  }
}
