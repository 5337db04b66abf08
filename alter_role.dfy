/**
 * ALTER ROLE on the master node: a version guard, and the metadata update
 * that sets a role's password hash in the roles section.
 */
module AlterRole {
  import opened Wrappers
  import opened RoleMetadata

  datatype AlterError =
    | UnsupportedFeature(message: string)
    | IllegalState(message: string)
      /** The `NullPointerException` thrown when the migrated section has no entry for a known name. */
    | NullPointer

  const PASSWORD_ON_ROLE_MESSAGE: string := "Setting a password to a ROLE is not allowed"
  const NOT_UPGRADED_MESSAGE: string := "Cannot alter users/roles until all nodes are upgraded to 5.6"

  /**
   * The roles-section operations `alterRole` calls and whose bodies are not
   * part of this model: `RolesMetadata.of` (the roles section built from the
   * users and roles sections) and `RolesMetadata.put(name, flag, hash)`.
   */
  datatype RolesMetadataOps = RolesMetadataOps(
    of: (Option<map<string, Option<SecureHash>>>, Option<map<string, Role>>) -> map<string, Role>,
    put: (map<string, Role>, string, bool, Option<SecureHash>) -> map<string, Role>)

  /** A name is known when one of the two sections is present and contains it. */
  predicate Known(users: Option<map<string, Option<SecureHash>>>, roles: Option<map<string, Role>>, name: string)
  {
    (users.Some? && name in users.value) || (roles.Some? && name in roles.value)
  }

  /** The known-name test on the sections a builder currently holds. */
  predicate KnownIn(builder: MetadataBuilder, name: string)
    reads builder, builder.roles
  {
    Known(UsersView(builder.users), RolesView(builder.roles), name)
  }

  /** The roles section `RolesMetadata.of` builds from what the builder holds. */
  function Migrated(builder: MetadataBuilder, ops: RolesMetadataOps): map<string, Role>
    reads builder, builder.roles
  {
    ops.of(UsersView(builder.users), RolesView(builder.roles))
  }

  /**
   * `alterRole`: false, with nothing written, when neither section knows the
   * name. Otherwise the roles section is migrated with `RolesMetadata.of`;
   * looking the name up in it throws a null pointer exception when `of`
   * dropped the name, and an error is raised when a password is given for
   * an entry that is not a user, both with nothing written. Otherwise a
   * fresh roles section holding the result of `put(roleName, true,
   * secureHash)` is stored and the result is true. Because `of` is given
   * the two sections rather than the builder, the users slot stays as it was.
   */
  method AlterRoleMetadata(builder: MetadataBuilder, roleName: string, secureHash: Option<SecureHash>, ops: RolesMetadataOps)
    returns (r: Result<bool, AlterError>)
    modifies builder
    ensures builder.users == old(builder.users)
    ensures !old(KnownIn(builder, roleName)) ==>
      r == Ok(false) && builder.roles == old(builder.roles)
    ensures old(KnownIn(builder, roleName)) && roleName !in old(Migrated(builder, ops)) ==>
      r == Err(NullPointer) && builder.roles == old(builder.roles)
    ensures (old(KnownIn(builder, roleName)) && roleName in old(Migrated(builder, ops))
             && !old(Migrated(builder, ops))[roleName].isUser && secureHash.Some?) ==>
      r == Err(UnsupportedFeature(PASSWORD_ON_ROLE_MESSAGE)) && builder.roles == old(builder.roles)
    ensures (old(KnownIn(builder, roleName)) && roleName in old(Migrated(builder, ops))
             && (old(Migrated(builder, ops))[roleName].isUser || secureHash.None?)) ==>
      && r == Ok(true)
      && builder.roles != null && fresh(builder.roles)
      && builder.roles != old(builder.roles)
      && builder.roles.roles == ops.put(old(Migrated(builder, ops)), roleName, true, secureHash)
  {
    var oldRolesMetadata := builder.roles;
    var oldUsersMetadata := builder.users;
    if (oldUsersMetadata == null || roleName !in oldUsersMetadata.users) &&
       (oldRolesMetadata == null || roleName !in oldRolesMetadata.roles) {
      return Ok(false);
    }
    var newMetadata := new RolesMetadata(ops.of(UsersView(oldUsersMetadata), RolesView(oldRolesMetadata)));
    if roleName !in newMetadata.roles {
      return Err(NullPointer);
    }
    if !newMetadata.roles[roleName].isUser && secureHash.Some? {
      return Err(UnsupportedFeature(PASSWORD_ON_ROLE_MESSAGE));
    }
    newMetadata.roles := ops.put(newMetadata.roles, roleName, true, secureHash);
    builder.roles := newMetadata;
    return Ok(true);
  }

  /** The error `alterRole` raises for a known name, if any: a missing migrated entry, or a password on a non-user. */
  function AlterFailure(migrated: map<string, Role>, roleName: string, secureHash: Option<SecureHash>): Option<AlterError>
  {
    if roleName !in migrated then Some(NullPointer)
    else if !migrated[roleName].isUser && secureHash.Some? then Some(UnsupportedFeature(PASSWORD_ON_ROLE_MESSAGE))
    else None
  }

  /** A node version; versions are ordered by major, then minor, then revision. */
  datatype Version = Version(major: nat, minor: nat, revision: nat)

  const V_5_6_0: Version := Version(5, 6, 0)

  /** `v.onOrAfter(other)`: `v` is not older than `other`. */
  predicate OnOrAfter(v: Version, other: Version)
  {
    v.major > other.major
    || (v.major == other.major && v.minor > other.minor)
    || (v.major == other.major && v.minor == other.minor && v.revision >= other.revision)
  }

  /** The guard `masterOperation` applies before submitting the update: an error while any node predates 5.6. */
  function CheckMinNodeVersion(minNodeVersion: Version): Option<AlterError>
  {
    if OnOrAfter(minNodeVersion, V_5_6_0) then None else Some(IllegalState(NOT_UPGRADED_MESSAGE))
  }

  /** The guard passes exactly for versions 5.6 and later, and otherwise asks for the upgrade. */
  lemma GuardPassesFromFiveSix(minNodeVersion: Version)
    ensures CheckMinNodeVersion(minNodeVersion).None?
      <==> minNodeVersion.major > 5 || (minNodeVersion.major == 5 && minNodeVersion.minor >= 6)
    ensures CheckMinNodeVersion(minNodeVersion).Some? ==>
      CheckMinNodeVersion(minNodeVersion).value == IllegalState(NOT_UPGRADED_MESSAGE)
  {
  }

  /** The answer sent back once the update is acknowledged. */
  datatype WriteRoleResponse = WriteRoleResponse(acknowledged: bool, roleExists: bool)

  /** The cluster state update task `masterOperation` submits for one request. */
  class AlterRoleTask {
    const roleName: string
    const secureHash: Option<SecureHash>
    var roleExists: bool

    constructor (roleName: string, secureHash: Option<SecureHash>)
      ensures this.roleName == roleName && this.secureHash == secureHash && roleExists
    {
      this.roleName := roleName;
      this.secureHash := secureHash;
      roleExists := true;
    }

    /**
     * `execute`: runs `alterRole` on a builder over the current metadata and
     * records whether the role existed. On an error the flag keeps its value.
     */
    method Execute(current: Metadata, ops: RolesMetadataOps) returns (r: Result<Metadata, AlterError>)
      modifies this
      ensures var known := Known(UsersView(current.users), RolesView(current.roles), roleName);
              var migrated := ops.of(UsersView(current.users), RolesView(current.roles));
        && (r.Err? <==> known && AlterFailure(migrated, roleName, secureHash).Some?)
        && (r.Err? ==> r.error == AlterFailure(migrated, roleName, secureHash).value && roleExists == old(roleExists))
        && (r.Ok? ==> roleExists == known)
        && (r.Ok? ==> r.value.users == current.users && r.value.usersPrivileges == current.usersPrivileges)
        && (r.Ok? && !known ==> r.value == current)
        && (r.Ok? && known ==>
              r.value.roles != null && r.value.roles.roles == ops.put(migrated, roleName, true, secureHash))
    {
      var mdBuilder := new MetadataBuilder(current.users, current.roles);
      var altered := AlterRoleMetadata(mdBuilder, roleName, secureHash, ops);
      match altered
      case Err(e) =>
        r := Err(e);
      case Ok(found) =>
        roleExists := found;
        r := Ok(Metadata(mdBuilder.users, mdBuilder.roles, current.usersPrivileges));
    }

    /** `newResponse`: the acknowledgement together with the recorded flag. */
    function NewResponse(acknowledged: bool): WriteRoleResponse
      reads this
    {
      WriteRoleResponse(acknowledged, roleExists)
    }
  }
}
