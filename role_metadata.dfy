/**
 * The role and privilege records and the custom cluster metadata sections
 * (users, roles, user privileges) that the role code reads and writes.
 * Their own classes are not part of this model; only the parts the role
 * code touches are given here.
 */
module RoleMetadata {
  import opened Wrappers

  /** A stored password hash; its encoding is not modelled. */
  datatype SecureHash = SecureHash(digest: string)

  /** A granted or denied privilege; its fields are not modelled. */
  datatype Privilege = Privilege(descriptor: string)

  /**
   * A user or role. `privileges` and `password` are nullable in the source,
   * hence `Option`.
   */
  datatype Role = Role(
    name: string,
    isUser: bool,
    privileges: Option<set<Privilege>>,
    password: Option<SecureHash>)

  const CRATE_USER_NAME: string := "crate"

  /** The built-in superuser. Only its name and user flag matter to the role code. */
  const CRATE_USER: Role := Role(CRATE_USER_NAME, true, None, None)

  /** `Role.userOf(name, privileges, password)`. */
  function UserOf(name: string, privileges: Option<set<Privilege>>, password: Option<SecureHash>): Role
  {
    Role(name, true, privileges, password)
  }

  /** `Role.of(name, isUser, privileges, password)`. */
  function RoleOf(name: string, isUser: bool, privileges: Option<set<Privilege>>, password: Option<SecureHash>): Role
  {
    Role(name, isUser, privileges, password)
  }

  /** The legacy users section: user name to (nullable) password hash. Never changed in place. */
  class UsersMetadata {
    const users: map<string, Option<SecureHash>>

    constructor (users: map<string, Option<SecureHash>>)
      ensures this.users == users
    {
      this.users := users;
    }
  }

  /** The roles section: role name to role. */
  class RolesMetadata {
    var roles: map<string, Role>

    constructor (roles: map<string, Role>)
      ensures this.roles == roles
    {
      this.roles := roles;
    }
  }

  /** The user privileges section: user name to privilege set. */
  class UsersPrivilegesMetadata {
    var privileges: map<string, set<Privilege>>

    constructor (privileges: map<string, set<Privilege>>)
      ensures this.privileges == privileges
    {
      this.privileges := privileges;
    }

    /** `getUserPrivileges(name)`: null when there is no entry. */
    function GetUserPrivileges(name: string): Option<set<Privilege>>
      reads this
    {
      if name in privileges then Some(privileges[name]) else None
    }

    /** `createPrivileges(name, privileges)`: installs the set for `name`. */
    method CreatePrivileges(name: string, privileges: set<Privilege>)
      modifies this
      ensures this.privileges == old(this.privileges)[name := privileges]
    {
      this.privileges := this.privileges[name := privileges];
    }
  }

  /** The three custom sections of one cluster metadata snapshot; each may be absent. */
  datatype Metadata = Metadata(
    users: UsersMetadata?,
    roles: RolesMetadata?,
    usersPrivileges: UsersPrivilegesMetadata?)

  /** A metadata builder, restricted to the two custom sections the role code reads and writes. */
  class MetadataBuilder {
    var users: UsersMetadata?
    var roles: RolesMetadata?

    constructor (users: UsersMetadata?, roles: RolesMetadata?)
      ensures this.users == users && this.roles == roles
    {
      this.users := users;
      this.roles := roles;
    }
  }

  /** The users section as a value; null becomes `None`. */
  function UsersView(m: UsersMetadata?): (r: Option<map<string, Option<SecureHash>>>)
    ensures r.Some? <==> m != null
  {
    if m == null then None else Some(m.users)
  }

  /** The roles section as a value; null becomes `None`. */
  function RolesView(m: RolesMetadata?): (r: Option<map<string, Role>>)
    reads m
    ensures r.Some? <==> m != null
  {
    if m == null then None else Some(m.roles)
  }

  /** The privileges section as a value; null becomes `None`. */
  function PrivilegesView(m: UsersPrivilegesMetadata?): (r: Option<map<string, set<Privilege>>>)
    reads m
    ensures r.Some? <==> m != null
  {
    if m == null then None else Some(m.privileges)
  }
}
