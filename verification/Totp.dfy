/** Second factors (src/common/account_totp.c). Enrolment, disabling and recovery
    are write transactions. Completing a login with a TOTP code makes four reads
    and no transaction, so it is a function of four database states. */
module Totp {
  import opened Base
  import opened Schema

  const RECOVERY_CODE_COUNT: nat := 10
  const CODE_LIMIT: nat := 1_000_000

  /** Whether a code is right for a secret at a time. */
  type Oracle = (Secret, nat, nat) -> bool

  function TotpProvision(db: Db, id: UserId, key: nat, nonce: nat, secret: Secret, now: nat): Tx<Secret> {
    if !Positive64(id) || !Positive64(now) then Tx(db, Err(EINVAL))
    else if id !in db.users then Tx(db, Err(ENOENT))
    else match LoadPermissions(db.roles, id)
      case Err(e) => Tx(db, Err(e))
      case Ok(_) =>
        if !db.users[id].enabled then Tx(db, Err(EACCES))
        else if TotpEnabled(db.totp, id) then Tx(db, Err(EEXIST))
        else Tx(db.(totp := db.totp[id := Credential(Sealed(key, nonce, secret), false, now)],
                    codes := db.codes - {id}), Ok(secret))
  }

  predicate AllDistinct<T(==)>(s: seq<T>) {
    forall j, k :: 0 <= j < k < |s| ==> s[j] != s[k]
  }

  /** The rows written for a list of fresh recovery codes. */
  function NewCodes(secrets: seq<Secret>, now: nat): map<Digest, RecoveryCode> {
    map d: Digest | d in Digests(secrets) :: RecoveryCode(now, None)
  }

  function Digests(secrets: seq<Secret>): set<Digest> {
    set k | 0 <= k < |secrets| :: Digest(secrets[k])
  }

  /** `drawn` are the fresh secrets for the recovery codes. */
  function TotpConfirm(verify: Oracle, db: Db, id: UserId, key: nat, code: nat, now: nat, drawn: seq<Secret>)
    : Tx<seq<Secret>>
    requires |drawn| == RECOVERY_CODE_COUNT
  {
    if !Positive64(id) || code >= CODE_LIMIT || !Positive64(now) then Tx(db, Err(EINVAL))
    else if id !in db.totp then Tx(db, Err(ENOENT))
    else if db.totp[id].enabled then Tx(db, Err(EALREADY))
    else if db.totp[id].sealed.key != key then Tx(db, Err(EBADMSG))
    else if !verify(db.totp[id].sealed.secret, now, code) then Tx(db, Err(EACCES))
    else if !AllDistinct(drawn) then Tx(db, Err(EIO))
    else if id !in db.users then Tx(db, Err(ENOENT))
    else if !CanAdvance(db.users[id]) then Tx(db, Err(EIO))
    else Tx(db.(users := db.users[id := Advanced(db.users[id])],
                sessions := WithoutSessionsOf(db.sessions, id),
                totp := db.totp[id := db.totp[id].(enabled := true)],
                codes := db.codes[id := NewCodes(drawn, now)]), Ok(drawn))
  }

  /** Disabling; an `expected` revision of zero is not checked. */
  function TotpDisable(db: Db, id: UserId, expected: nat): Tx<Account> {
    if !Positive64(id) || expected > INT64_MAX then Tx(db, Err(EINVAL))
    else match LoadUser(db, id)
      case Err(e) => Tx(db, Err(e))
      case Ok(current) =>
        if expected != 0 && current.revision != expected then Tx(db, Err(ESTALE))
        else if id !in db.totp then Tx(db, Err(ENOENT))
        else if !CanAdvance(db.users[id]) then Tx(db, Err(EIO))
        else
          var db' := db.(users := db.users[id := Advanced(db.users[id])],
                         sessions := WithoutSessionsOf(db.sessions, id),
                         totp := db.totp - {id},
                         codes := db.codes - {id});
          match LoadUser(db', id)
          case Err(e) => Tx(db, Err(e))
          case Ok(account) => Tx(db', Ok(account))
  }

  // ---- Completing a password login ----

  /** The caller's password identity still denotes the current user. */
  predicate PasswordIdentityCurrent(password: Identity, current: Identity) {
    && password.userId == current.userId
    && password.revision == current.revision
    && password.epoch == current.epoch
    && password.username == current.username
    && password.totpEnabled && !password.mfaComplete && current.totpEnabled
  }

  /** First read: the user row. The other fields are filled in by later reads. */
  function ReadUser(db: Db, id: UserId): Result<Identity> {
    if id !in db.users then Err(ENOENT)
    else
      var user := db.users[id];
      if !(0 < |user.username| <= USERNAME_MAX && user.revision > 0 && user.epoch > 0) then Err(EILSEQ)
      else if !user.enabled then Err(EACCES)
      else Ok(Identity(id, user.username, {}, user.revision, user.epoch, user.forceChange, false, false))
  }

  /** Second read: the role rows. */
  function ReadRoles(db: Db, current: Identity): Result<Identity> {
    match LoadPermissions(db.roles, current.userId)
    case Err(e) => Err(e)
    case Ok(permissions) => Ok(current.(permissions := permissions))
  }

  /** Third read: whether TOTP is enabled. */
  function ReadFlag(db: Db, current: Identity): Identity {
    var enabled := TotpEnabled(db.totp, current.userId);
    current.(totpEnabled := enabled, mfaComplete := !enabled)
  }

  /** Fourth read: the credential, against which the code is checked. */
  function CheckCode(verify: Oracle, db: Db, current: Identity, key: nat, code: nat, now: nat): Result<Identity> {
    if !TotpEnabled(db.totp, current.userId) then Err(ENOENT)
    else
      var sealed := db.totp[current.userId].sealed;
      if sealed.key != key then Err(EBADMSG)
      else if !verify(sealed.secret, now, code) then Err(EACCES)
      else Ok(current.(mfaComplete := true))
  }

  /** The state each read found: one, or the result already settled. */
  function TotpAuthenticate(verify: Oracle, db1: Db, db2: Db, db3: Db, db4: Db, password: Identity, key: nat,
                            code: nat, now: nat): Result<Identity> {
    if password.userId == 0 || code >= CODE_LIMIT || now == 0 then Err(EINVAL)
    else match ReadUser(db1, password.userId)
      case Err(e) => Err(e)
      case Ok(user) =>
        match ReadRoles(db2, user)
        case Err(e) => Err(e)
        case Ok(authorized) =>
          var current := ReadFlag(db3, authorized);
          if !PasswordIdentityCurrent(password, current) then Err(EACCES)
          else CheckCode(verify, db4, current, key, code, now)
  }

  /** `load_current_identity` inside one transaction. */
  function CurrentIdentity(db: Db, id: UserId): Result<Identity> {
    match ReadUser(db, id)
    case Err(e) => Err(e)
    case Ok(user) =>
      match ReadRoles(db, user)
      case Err(e) => Err(e)
      case Ok(authorized) => Ok(ReadFlag(db, authorized))
  }

  function RecoveryAuthenticate(db: Db, password: Identity, code: Secret, now: nat): Tx<Identity> {
    if password.userId == 0 || |code| != SECRET_TEXT_SIZE || !Positive64(now) then Tx(db, Err(EINVAL))
    else match CurrentIdentity(db, password.userId)
      case Err(e) => Tx(db, Err(e))
      case Ok(current) =>
        var rows := CodesOf(db.codes, current.userId);
        if !PasswordIdentityCurrent(password, current) then Tx(db, Err(EACCES))
        else if Digest(code) !in rows || rows[Digest(code)].usedAt.Some? then Tx(db, Err(EACCES))
        else if now < rows[Digest(code)].createdAt then Tx(db, Err(EIO))
        else
          var used := rows[Digest(code) := rows[Digest(code)].(usedAt := Some(now))];
          Tx(db.(codes := db.codes[current.userId := used]), Ok(current.(mfaComplete := true)))
  }
}
