/** API tokens (src/common/account_token.c). */
module Tokens {
  import opened Base
  import opened Schema
  import Access
  import Net = Network

  const TOUCH_INTERVAL: nat := 60

  datatype Config = Config(name: seq<byte>, permissions: Access.Mask, expiresAt: nat, source: Option<Schema.Network>,
                           rate: nat)

  /** `token_config_validate`; an `expiresAt` of zero means no expiry. */
  predicate ConfigValid(config: Config, now: nat) {
    && TokenNameValid(config.name)
    && config.permissions != {} && config.permissions <= Access.PERMISSION_ALL
    && TOKEN_RATE_MIN <= config.rate <= TOKEN_RATE_MAX
    && (config.expiresAt != 0 ==> now < config.expiresAt <= INT64_MAX)
    && (config.source.Some? ==> NetworkOk(config.source.value))
  }

  /** Host bits are cleared before a network is stored. */
  function StoredNetwork(source: Option<Schema.Network>): Option<Schema.Network>
    requires source.Some? ==> NetworkOk(source.value)
  {
    if source.None? then None
    else Some(Schema.Network(Net.Canonical(source.value.address, source.value.prefix), source.value.prefix))
  }

  datatype Issued = Issued(tokenId: nat, secret: Secret)

  /** `id` is the row identifier that SQLite assigns, `secret` the fresh secret. */
  function TokenIssue(db: Db, userId: UserId, config: Config, now: nat, id: nat, secret: Secret): Tx<Issued> {
    if !Positive64(userId) || !Positive64(now) || !ConfigValid(config, now) then Tx(db, Err(EINVAL))
    else if userId !in db.users then Tx(db, Err(ENOENT))
    else match LoadPermissions(db.roles, userId)
      case Err(e) => Tx(db, Err(e))
      case Ok(owner) =>
        if !db.users[userId].enabled || !Access.Grants(owner, config.permissions) then Tx(db, Err(EACCES))
        else if exists t :: t in db.tokens && db.tokens[t].digest == Digest(secret) then Tx(db, Err(EIO))
        else
          var token := Token(userId, config.name, Digest(secret), Access.Print(config.permissions), now,
                             if config.expiresAt == 0 then None else Some(config.expiresAt), None, None,
                             StoredNetwork(config.source), config.rate, 1);
          Tx(db.(tokens := db.tokens[id := token]), Ok(Issued(id, secret)))
  }

  predicate SourceMatches(source: Option<Schema.Network>, remote: seq<byte>)
    requires source.Some? ==> NetworkOk(source.value)
  {
    source.Some? ==> Net.Matches(source.value.address, source.value.prefix, remote)
  }

  /** What a stored token grants a peer now. */
  function Authorize(db: Db, id: nat, now: nat, remote: seq<byte>): Result<Identity>
    requires id in db.tokens && db.tokens[id].userId in db.users
  {
    var token := db.tokens[id];
    var user := db.users[token.userId];
    if !TokenRowOk(id, token, user) || Access.Parse(token.scopes).Err? then Err(EILSEQ)
    else if token.revokedAt.Some? || !user.enabled || user.forceChange
            || (token.expiresAt.Some? && token.expiresAt.value <= now)
            || !SourceMatches(token.source, remote) then Err(EACCES)
    else match LoadPermissions(db.roles, token.userId)
      case Err(e) => Err(e)
      case Ok(owner) =>
        var granted := owner * Access.Parse(token.scopes).value;
        if granted == {} then Err(EACCES)
        else Ok(Identity(token.userId, user.username, granted, user.revision, user.epoch, false, false, true))
  }

  predicate HasDigest(tokens: map<nat, Token>, id: nat, digest: Digest) {
    id in tokens && tokens[id].digest == digest
  }

  datatype Validated = Validated(identity: Identity, tokenId: nat, rate: nat)

  ghost function FindToken(tokens: map<nat, Token>, digest: Digest): Option<nat> {
    if exists t :: HasDigest(tokens, t, digest) then Some(var t :| HasDigest(tokens, t, digest); t) else None
  }

  ghost function TokenValidate(db: Db, secret: Secret, now: nat, remote: seq<byte>): Result<Validated> {
    if |secret| != SECRET_TEXT_SIZE || !Positive64(now) || !AddressSize(|remote|) then Err(EINVAL)
    else match FindToken(db.tokens, Digest(secret))
      case None => Err(EACCES)
      case Some(t) =>
        if db.tokens[t].userId !in db.users then Err(EACCES)
        else match Authorize(db, t, now, remote)
          case Err(e) => Err(e)
          case Ok(identity) => Ok(Validated(identity, t, db.tokens[t].rate))
  }

  function TokenReauthorize(db: Db, id: nat, now: nat, remote: seq<byte>): Result<Identity> {
    if !Positive64(id) || !Positive64(now) || !AddressSize(|remote|) then Err(EINVAL)
    else if id !in db.tokens || db.tokens[id].userId !in db.users then Err(EACCES)
    else Authorize(db, id, now, remote)
  }

  function TokenTouch(db: Db, id: nat, now: nat): Tx<()> {
    if !Positive64(id) || !Positive64(now) then Tx(db, Err(EINVAL))
    else if id !in db.tokens
            || (db.tokens[id].lastUsedAt.Some?
                && db.tokens[id].lastUsedAt.value > (if now >= TOUCH_INTERVAL then now - TOUCH_INTERVAL else 0))
    then Tx(db, Ok(()))
    else if now < db.tokens[id].createdAt then Tx(db, Err(EIO))
    else Tx(db.(tokens := db.tokens[id := db.tokens[id].(lastUsedAt := Some(now))]), Ok(()))
  }

  function TokenRevoke(db: Db, id: nat, now: nat): Tx<()> {
    if !Positive64(id) || !Positive64(now) then Tx(db, Err(EINVAL))
    else if id !in db.tokens then Tx(db, Err(ENOENT))
    else if db.tokens[id].revokedAt.None? && now < db.tokens[id].createdAt then Tx(db, Err(EIO))
    else Tx(db.(tokens := db.tokens[id := Revoked(db.tokens[id], now)]), Ok(()))
  }
}
