/** The account tables and the checks their readers make.
    Columns follow the STRICT schema of src/common/database.c; a nullable column
    is an `Option`. Timestamps and identifiers are unbounded naturals here, and
    the operations refuse the values the source refuses.
    Cryptography is symbolic: a digest remembers its preimage, a password hash
    the password it was made from, a sealed secret the key it was sealed under. */
module Schema {
  import opened Base
  import Access

  type Secret = seq<byte>
  type Password = seq<byte>
  type UserId = nat

  const SECRET_TEXT_SIZE: nat := 43
  const USERNAME_MAX: nat := 128
  const FAILED_LOGIN_MAX: nat := 1_000_000
  const TOKEN_NAME_MAX: nat := 128
  const TOKEN_RATE_MIN: nat := 1
  const TOKEN_RATE_MAX: nat := 60000
  const CERTIFICATE_NAME_MAX: nat := 1023

  datatype Digest = Digest(secret: Secret)

  datatype PasswordHash = PasswordHash(password: Password, cost: nat, salt: nat)

  datatype Sealed = Sealed(key: nat, nonce: nat, secret: Secret)

  datatype User = User(
    username: string,
    hash: PasswordHash,
    enabled: bool,
    failedLogins: nat,
    lockedUntil: Option<nat>,
    createdAt: nat,
    passwordChangedAt: nat,
    lastLoginAt: Option<nat>,
    forceChange: bool,
    revision: nat,
    epoch: nat)

  datatype Session = Session(
    userId: UserId,
    csrf: Digest,
    createdAt: nat,
    expiresAt: nat,
    lastSeenAt: nat,
    remote: Option<seq<byte>>,
    epoch: nat)

  datatype Network = Network(address: seq<byte>, prefix: nat)

  datatype Token = Token(
    userId: UserId,
    name: seq<byte>,
    digest: Digest,
    scopes: string,
    createdAt: nat,
    expiresAt: Option<nat>,
    lastUsedAt: Option<nat>,
    revokedAt: Option<nat>,
    source: Option<Network>,
    rate: nat,
    revision: nat)

  datatype Credential = Credential(sealed: Sealed, enabled: bool, createdAt: nat)

  datatype RecoveryCode = RecoveryCode(createdAt: nat, usedAt: Option<nat>)

  datatype Bootstrap = Bootstrap(digest: Digest, createdAt: nat, expiresAt: nat, consumedAt: Option<nat>)

  datatype Mapping = Mapping(
    fingerprint: seq<byte>,
    userId: Option<UserId>,
    roleId: Option<int>,
    enabled: bool,
    createdAt: nat,
    subject: seq<byte>,
    issuer: seq<byte>,
    notBefore: nat,
    notAfter: nat,
    revokedAt: Option<nat>,
    revision: nat)

  /** Every account table. `roles` groups the `user_roles` rows by user, `codes`
      the `recovery_codes` rows; `sessions` is keyed by its unique digest. */
  datatype Db = Db(
    users: map<UserId, User>,
    roles: map<UserId, seq<int>>,
    sessions: map<Digest, Session>,
    tokens: map<nat, Token>,
    totp: map<UserId, Credential>,
    codes: map<UserId, map<Digest, RecoveryCode>>,
    bootstrap: Option<Bootstrap>,
    mappings: map<nat, Mapping>)

  const EMPTY: Db := Db(map[], map[], map[], map[], map[], map[], None, map[])

  /** Outcome of a transaction: the tables afterwards and what the caller gets. */
  datatype Tx<+T> = Tx(db: Db, result: Result<T>)

  /** The administrative view of a user (`struct jg_account_user`). */
  datatype Account = Account(
    userId: UserId,
    username: string,
    role: int,
    revision: nat,
    createdAt: nat,
    passwordChangedAt: nat,
    lastLoginAt: nat,
    lockedUntil: nat,
    failedLogins: nat,
    enabled: bool,
    forceChange: bool,
    totpEnabled: bool)

  /** An authenticated caller (`struct jg_account_identity`). */
  datatype Identity = Identity(
    userId: UserId,
    username: string,
    permissions: Access.Mask,
    revision: nat,
    epoch: nat,
    forceChange: bool,
    totpEnabled: bool,
    mfaComplete: bool)

  // ---- Field checks ----

  predicate Alphanumeric(c: char) {
    'A' <= c <= 'Z' || 'a' <= c <= 'z' || '0' <= c <= '9'
  }

  predicate UsernameValid(name: string) {
    && 0 < |name| <= USERNAME_MAX
    && Alphanumeric(name[0])
    && forall k :: 0 <= k < |name| ==> Alphanumeric(name[k]) || name[k] in {'.', '_', '-'}
  }

  predicate TokenNameValid(name: seq<byte>) {
    && 0 < |name| <= TOKEN_NAME_MAX
    && forall k :: 0 <= k < |name| ==> name[k] >= 0x20 && name[k] != 0x7f
  }

  predicate AddressSize(n: nat) {
    n == 4 || n == 16
  }

  predicate RemoteValid(remote: Option<seq<byte>>) {
    remote.Some? ==> AddressSize(|remote.value|)
  }

  // ---- What the readers of each table accept ----

  predicate UserRowOk(id: UserId, user: User, roles: seq<int>) {
    && id > 0 && UsernameValid(user.username)
    && user.failedLogins <= 0xffff_ffff
    && user.revision > 0
    && |roles| == 1 && Access.RoleValid(roles[0])
  }

  predicate AuthenticationRowOk(id: UserId, user: User) {
    id > 0 && user.failedLogins <= FAILED_LOGIN_MAX && user.revision > 0 && user.epoch > 0
  }

  predicate SessionRowOk(session: Session, user: User) {
    && session.userId > 0 && RemoteValid(session.remote) && session.epoch > 0
    && 0 < |user.username| <= USERNAME_MAX && user.revision > 0 && user.epoch > 0
  }

  predicate NetworkOk(network: Network) {
    AddressSize(|network.address|) && network.prefix <= 8 * |network.address|
  }

  /** `load_api_token`: everything but the scope text. */
  predicate TokenRowOk(id: nat, token: Token, user: User) {
    && id > 0 && token.userId > 0
    && (token.source.Some? ==> NetworkOk(token.source.value))
    && TOKEN_RATE_MIN <= token.rate <= TOKEN_RATE_MAX
    && 0 < |user.username| <= USERNAME_MAX && user.revision > 0 && user.epoch > 0
  }

  /** `decode_token_row`: the administrative listing checks more. */
  predicate TokenListingOk(id: nat, token: Token, user: User) {
    && TokenRowOk(id, token, user)
    && token.revision > 0
    && TokenNameValid(token.name) && UsernameValid(user.username)
    && Access.Parse(token.scopes).Ok?
  }

  /** `decode_mtls_mapping_row`, with the joined user row when one is named. */
  predicate MappingRowOk(id: nat, mapping: Mapping, users: map<UserId, User>) {
    && id > 0 && |mapping.fingerprint| == 32
    && mapping.userId.Some? != mapping.roleId.Some?
    && |mapping.subject| <= CERTIFICATE_NAME_MAX && |mapping.issuer| <= CERTIFICATE_NAME_MAX
    && mapping.notBefore <= mapping.notAfter && mapping.revision > 0
    && mapping.enabled == mapping.revokedAt.None?
    && (mapping.revokedAt.Some? ==> mapping.createdAt <= mapping.revokedAt.value)
    && (mapping.userId.Some? ==>
          mapping.userId.value > 0 && mapping.userId.value in users
          && UsernameValid(users[mapping.userId.value].username))
    && (mapping.roleId.Some? ==> Access.RoleValid(mapping.roleId.value))
  }

  // ---- Shared reads ----

  function RoleRows(roles: map<UserId, seq<int>>, id: UserId): seq<int> {
    if id in roles then roles[id] else []
  }

  predicate TotpEnabled(totp: map<UserId, Credential>, id: UserId) {
    id in totp && totp[id].enabled
  }

  function CodesOf(codes: map<UserId, map<Digest, RecoveryCode>>, id: UserId): map<Digest, RecoveryCode> {
    if id in codes then codes[id] else map[]
  }

  function OrZero(t: Option<nat>): nat {
    if t.Some? then t.value else 0
  }

  function LoadUser(db: Db, id: UserId): Result<Account> {
    if id !in db.users then Err(ENOENT)
    else
      var user, roles := db.users[id], RoleRows(db.roles, id);
      if !UserRowOk(id, user, roles) then Err(EILSEQ)
      else Ok(Account(id, user.username, roles[0], user.revision, user.createdAt, user.passwordChangedAt,
                      OrZero(user.lastLoginAt), OrZero(user.lockedUntil), user.failedLogins,
                      user.enabled, user.forceChange, TotpEnabled(db.totp, id)))
  }

  /** Union of the permissions of the given role rows; an unknown role is corrupt. */
  function RoleUnion(rows: seq<int>): Result<Access.Mask> {
    if rows == [] then Ok({})
    else if !Access.RoleValid(rows[|rows| - 1]) then Err(EILSEQ)
    else match RoleUnion(rows[..|rows| - 1])
      case Ok(granted) => Ok(granted + Access.RolePermissions(rows[|rows| - 1]))
      case Err(e) => Err(e)
  }

  /** Permissions from the role rows; having none is corrupt. */
  function LoadPermissions(roles: map<UserId, seq<int>>, id: UserId): Result<Access.Mask> {
    var union := RoleUnion(RoleRows(roles, id));
    if union == Ok({}) then Err(EILSEQ) else union
  }

  predicate DigestsUnique(tokens: map<nat, Token>) {
    forall t, t' :: t in tokens && t' in tokens && tokens[t].digest == tokens[t'].digest ==> t == t'
  }

  // ---- Shared writes ----

  /** Advances a user's epoch and revision together. SQLite turns an increment
      past the signed 64-bit limit into a real, which the STRICT column refuses. */
  predicate CanAdvance(user: User) {
    user.revision < INT64_MAX && user.epoch < INT64_MAX
  }

  function Advanced(user: User): User {
    user.(revision := user.revision + 1, epoch := user.epoch + 1)
  }

  function WithoutSessionsOf(sessions: map<Digest, Session>, id: UserId): map<Digest, Session> {
    map d | d in sessions && sessions[d].userId != id :: sessions[d]
  }

  /** The unrevoked tokens of a user can all be revoked at `now` without breaking
      the schema's `revoked_at >= created_at`. */
  predicate CanRevokeTokens(tokens: map<nat, Token>, id: UserId, now: nat) {
    forall t :: t in tokens && tokens[t].userId == id && tokens[t].revokedAt.None? ==> tokens[t].createdAt <= now
  }

  function Revoked(token: Token, now: nat): Token {
    if token.revokedAt.None? then token.(revokedAt := Some(now), revision := token.revision + 1) else token
  }

  function TokensRevoked(tokens: map<nat, Token>, id: UserId, now: nat): map<nat, Token> {
    map t | t in tokens :: if tokens[t].userId == id then Revoked(tokens[t], now) else tokens[t]
  }
}
