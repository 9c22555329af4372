/** Client-certificate mappings (src/common/account_mtls.c). */
module Mtls {
  import opened Base
  import opened Schema
  import Access

  datatype Config = Config(fingerprint: seq<byte>, userId: UserId, role: int, subject: seq<byte>, issuer: seq<byte>,
                           notBefore: nat, notAfter: nat)

  predicate NameValid(name: seq<byte>) {
    0 < |name| <= CERTIFICATE_NAME_MAX
  }

  /** A user identifier of zero and a role of zero both mean "not given". */
  predicate ConfigValid(config: Config) {
    && |config.fingerprint| == 32
    && (config.userId != 0) != (config.role != 0)
    && config.userId <= INT64_MAX
    && (config.role != 0 ==> Access.RoleValid(config.role))
    && NameValid(config.subject) && NameValid(config.issuer)
    && 0 < config.notBefore <= config.notAfter <= INT64_MAX
  }

  function MappingCreate(db: Db, config: Config, now: nat, id: nat): Tx<Mapping> {
    if !Positive64(now) || !ConfigValid(config) then Tx(db, Err(EINVAL))
    else if config.notBefore > now || config.notAfter < now then Tx(db, Err(EACCES))
    else if config.userId != 0 && config.userId !in db.users then Tx(db, Err(ENOENT))
    else if exists m :: m in db.mappings && db.mappings[m].fingerprint == config.fingerprint then Tx(db, Err(EEXIST))
    else
      var mapping := Mapping(config.fingerprint, if config.userId != 0 then Some(config.userId) else None,
                             if config.role != 0 then Some(config.role) else None, true, now, config.subject,
                             config.issuer, config.notBefore, config.notAfter, None, 1);
      var db' := db.(mappings := db.mappings[id := mapping]);
      Tx(db', if MappingRowOk(id, mapping, db.users) then Ok(mapping) else Err(EILSEQ))
  }

  /** Revoking again only clears the flag again; time and revision stay. */
  function Revoked(mapping: Mapping, now: nat): Mapping {
    if mapping.revokedAt.Some? then mapping.(enabled := false)
    else mapping.(enabled := false, revokedAt := Some(now), revision := mapping.revision + 1)
  }

  function MappingRevoke(db: Db, id: nat, now: nat): Tx<()> {
    if !Positive64(id) || !Positive64(now) then Tx(db, Err(EINVAL))
    else if id !in db.mappings then Tx(db, Err(ENOENT))
    else if db.mappings[id].revokedAt.None? && now < db.mappings[id].createdAt then Tx(db, Err(EIO))
    else Tx(db.(mappings := db.mappings[id := Revoked(db.mappings[id], now)]), Ok(()))
  }

  /** One mapping authorises the user at a time. */
  predicate Authorizes(mapping: Mapping, roles: seq<int>, fingerprint: seq<byte>, userId: UserId, now: nat) {
    && mapping.fingerprint == fingerprint
    && mapping.enabled && mapping.revokedAt.None?
    && mapping.notBefore <= now <= mapping.notAfter
    && (mapping.userId == Some(userId) || (mapping.roleId.Some? && mapping.roleId.value in roles))
  }

  function MappingAuthorize(db: Db, fingerprint: seq<byte>, userId: UserId, now: nat): Result<()> {
    if |fingerprint| != 32 || !Positive64(userId) || !Positive64(now) then Err(EINVAL)
    else if exists m :: m in db.mappings
                        && Authorizes(db.mappings[m], RoleRows(db.roles, userId), fingerprint, userId, now)
    then Ok(()) else Err(EACCES)
  }
}
