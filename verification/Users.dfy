/** Bootstrap, user administration and password login (src/common/account.c),
    as functions from the tables to the tables and a result. Each function is
    one write transaction, except that a login is two: `LoginRead` reads and
    verifies outside any transaction, `LoginCommit` re-reads and writes. */
module Users {
  import opened Base
  import opened Schema
  import Access

  const BOOTSTRAP_LIFETIME_MIN: nat := 60
  const BOOTSTRAP_LIFETIME_MAX: nat := 86400
  const LOCK_DELAY_MAX: nat := 3600
  const PASSWORD_MIN: nat := 12
  const PASSWORD_MAX: nat := 256

  // ---- Passwords ----

  datatype Policy = Policy(minimumLength: nat, maximumLength: nat, operations: nat, memory: nat) {
    predicate Valid() {
      && PASSWORD_MIN <= minimumLength <= maximumLength <= PASSWORD_MAX
      && 2 <= operations <= 10
      && 8 * 1024 * 1024 <= memory <= 1024 * 1024 * 1024
    }

    /** The work factor recorded in a hash made under this policy; memory counts in
        whole KiB. */
    function Cost(): nat {
      operations * 0x1_0000_0000 + memory / 1024
    }
  }

  function HashPassword(policy: Policy, password: Password, salt: nat): Result<PasswordHash> {
    if !policy.Valid() then Err(EINVAL)
    else if !(policy.minimumLength <= |password| <= policy.maximumLength) then Err(ERANGE)
    else Ok(PasswordHash(password, policy.Cost(), salt))
  }

  predicate Verifies(hash: PasswordHash, password: Password) {
    hash.password == password
  }

  // ---- Bootstrap ----

  function BootstrapIssue(db: Db, now: nat, lifetime: nat, secret: Secret): Tx<Secret> {
    if !Positive64(now) || !(BOOTSTRAP_LIFETIME_MIN <= lifetime <= BOOTSTRAP_LIFETIME_MAX) then Tx(db, Err(EINVAL))
    else if now + lifetime > INT64_MAX then Tx(db, Err(EOVERFLOW))
    else if db.users != map[] then Tx(db, Err(EEXIST))
    else Tx(db.(bootstrap := Some(Bootstrap(Digest(secret), now, now + lifetime, None))), Ok(secret))
  }

  predicate BootstrapAccepts(bootstrap: Option<Bootstrap>, token: Secret, now: nat) {
    && bootstrap.Some?
    && bootstrap.value.expiresAt > now
    && bootstrap.value.consumedAt.None?
    && bootstrap.value.digest == Digest(token)
  }

  function NewUser(username: string, hash: PasswordHash, forceChange: bool, now: nat): User {
    User(username, hash, true, 0, None, now, now, None, forceChange, 1, 1)
  }

  /** `id` is the row identifier that SQLite assigns. */
  function CreateInitialAdministrator(db: Db, token: Secret, username: string, password: Password, policy: Policy,
                                      salt: nat, now: nat, id: UserId): Tx<UserId> {
    if token == [] || |token| > SECRET_TEXT_SIZE || !UsernameValid(username) || !Positive64(now)
    then Tx(db, Err(EINVAL))
    else match HashPassword(policy, password, salt)
      case Err(e) => Tx(db, Err(e))
      case Ok(hash) =>
        if db.users != map[] then Tx(db, Err(EEXIST))
        else if !BootstrapAccepts(db.bootstrap, token, now) then Tx(db, Err(EACCES))
        else if now < db.bootstrap.value.createdAt then Tx(db, Err(EIO))
        else Tx(db.(users := db.users[id := NewUser(username, hash, false, now)],
                    roles := db.roles[id := [Access.ADMINISTRATOR]],
                    bootstrap := Some(db.bootstrap.value.(consumedAt := Some(now)))),
                Ok(id))
  }

  // ---- Administration ----

  predicate UsernameTaken(users: map<UserId, User>, username: string) {
    exists u :: u in users && users[u].username == username
  }

  function UserCreate(db: Db, username: string, password: Password, policy: Policy, role: int, forceChange: bool,
                      salt: nat, now: nat, id: UserId): Tx<Account> {
    if !UsernameValid(username) || !Access.RoleValid(role) || !Positive64(now) then Tx(db, Err(EINVAL))
    else match HashPassword(policy, password, salt)
      case Err(e) => Tx(db, Err(e))
      case Ok(hash) =>
        if UsernameTaken(db.users, username) then Tx(db, Err(EEXIST))
        else
          var db' := db.(users := db.users[id := NewUser(username, hash, forceChange, now)],
                         roles := db.roles[id := [role]]);
          match LoadUser(db', id)
          case Err(e) => Tx(db, Err(e))
          case Ok(account) => Tx(db', Ok(account))
  }

  function EnabledAdministrators(db: Db): set<UserId> {
    set u | u in db.users && db.users[u].enabled && Access.ADMINISTRATOR in RoleRows(db.roles, u)
  }

  datatype Update = Update(role: int, enabled: bool, forceChange: bool)

  function UserUpdate(db: Db, id: UserId, expected: nat, update: Update, now: nat): Tx<Account> {
    if !Positive64(id) || !Positive64(expected) || !Access.RoleValid(update.role) || !Positive64(now)
    then Tx(db, Err(EINVAL))
    else match LoadUser(db, id)
      case Err(e) => Tx(db, Err(e))
      case Ok(current) =>
        if current.revision != expected then Tx(db, Err(ESTALE))
        else if current.enabled && current.role == Access.ADMINISTRATOR
                && (!update.enabled || update.role != Access.ADMINISTRATOR)
                && |EnabledAdministrators(db)| <= 1 then Tx(db, Err(EPERM))
        else if !CanAdvance(db.users[id]) then Tx(db, Err(EIO))
        else if !update.enabled && !CanRevokeTokens(db.tokens, id, now) then Tx(db, Err(EIO))
        else
          var user := Advanced(db.users[id]).(enabled := update.enabled, forceChange := update.forceChange);
          var db' := db.(users := db.users[id := user],
                         roles := db.roles[id := [update.role]],
                         sessions := WithoutSessionsOf(db.sessions, id),
                         tokens := if update.enabled then db.tokens else TokensRevoked(db.tokens, id, now));
          match LoadUser(db', id)
          case Err(e) => Tx(db, Err(e))
          case Ok(account) => Tx(db', Ok(account))
  }

  function ResetPassword(db: Db, id: UserId, expected: nat, password: Password, policy: Policy, forceChange: bool,
                         salt: nat, now: nat): Tx<Account> {
    if !Positive64(id) || !Positive64(expected) || !Positive64(now) then Tx(db, Err(EINVAL))
    else match HashPassword(policy, password, salt)
      case Err(e) => Tx(db, Err(e))
      case Ok(hash) =>
        match LoadUser(db, id)
        case Err(e) => Tx(db, Err(e))
        case Ok(current) =>
          if current.revision != expected then Tx(db, Err(ESTALE))
          else if !CanAdvance(db.users[id]) || now < db.users[id].createdAt
                  || !CanRevokeTokens(db.tokens, id, now) then Tx(db, Err(EIO))
          else
            var user := Advanced(db.users[id]).(hash := hash, passwordChangedAt := now, forceChange := forceChange,
                                                failedLogins := 0, lockedUntil := None);
            var db' := db.(users := db.users[id := user],
                           sessions := WithoutSessionsOf(db.sessions, id),
                           tokens := TokensRevoked(db.tokens, id, now));
            match LoadUser(db', id)
            case Err(e) => Tx(db, Err(e))
            case Ok(account) => Tx(db', Ok(account))
  }

  // ---- Password login ----

  /** `login_lock_delay`: seconds before the next counted failure. */
  function LockDelay(failures: nat): nat {
    Min(Doubled(if failures > 0 then failures - 1 else 0), LOCK_DELAY_MAX)
  }

  /** Two to the power `n`. */
  function Doubled(n: nat): nat {
    if n == 0 then 1 else 2 * Doubled(n - 1)
  }

  /** A login between its first read and its transaction. */
  datatype Attempt = Attempt(
    username: string,
    password: Password,
    userId: UserId,
    record: User,
    valid: bool,
    replacement: Option<PasswordHash>,
    now: nat)

  datatype LoginStart = Refused(error: Error) | Begun(attempt: Attempt)

  ghost function FindUser(users: map<UserId, User>, username: string): Option<UserId> {
    if UsernameTaken(users, username) then Some(var u :| u in users && users[u].username == username; u) else None
  }

  /** The reads and password work before the login transaction. */
  ghost function LoginRead(db: Db, username: string, password: Password, policy: Policy, salt: nat, now: nat)
    : LoginStart
  {
    if |password| > PASSWORD_MAX then Refused(ERANGE)
    else if !UsernameValid(username) || now == 0 || now > INT64_MAX - LOCK_DELAY_MAX then Refused(EINVAL)
    else match FindUser(db.users, username)
      case None => Refused(if policy.Valid() then EACCES else EINVAL)
      case Some(id) => LoginVerify(id, db.users[id], username, password, policy, salt, now)
  }

  function LoginVerify(id: UserId, record: User, username: string, password: Password, policy: Policy, salt: nat,
                       now: nat): LoginStart {
    if !AuthenticationRowOk(id, record) then Refused(EILSEQ)
    else if !policy.Valid() then Refused(EINVAL)
    else if !record.enabled then Refused(EACCES)
    else
      var valid := Verifies(record.hash, password);
      if !valid && OrZero(record.lockedUntil) > now then Refused(EAGAIN)
      else if valid && record.hash.cost != policy.Cost() then
        match HashPassword(policy, password, salt)
        case Err(e) => Refused(e)
        case Ok(hash) => Begun(Attempt(username, password, id, record, valid, Some(hash), now))
      else Begun(Attempt(username, password, id, record, valid, None, now))
  }

  /** The verified record still denotes the stored credential. */
  predicate RecordMatches(attempt: Attempt, id: UserId, current: User) {
    && attempt.userId == id
    && attempt.record.revision == current.revision
    && attempt.record.epoch == current.epoch
    && attempt.record.enabled == current.enabled
    && attempt.record.forceChange == current.forceChange
    && attempt.record.hash == current.hash
  }

  function AfterFailure(current: User, now: nat): User {
    var failures := Min(current.failedLogins + 1, FAILED_LOGIN_MAX);
    current.(failedLogins := failures, lockedUntil := Some(now + LockDelay(failures)))
  }

  function AfterSuccess(current: User, attempt: Attempt): User {
    current.(failedLogins := 0, lockedUntil := None, lastLoginAt := Some(attempt.now),
             hash := if attempt.replacement.Some? then attempt.replacement.value else current.hash)
  }

  /** The login transaction. */
  ghost function LoginCommit(db: Db, attempt: Attempt): Tx<Identity> {
    match FindUser(db.users, attempt.username)
    case None => Tx(db, Err(EAGAIN))
    case Some(id) => LoginSettle(db, id, attempt)
  }

  function LoginSettle(db: Db, id: UserId, attempt: Attempt): Tx<Identity>
    requires id in db.users
  {
    var current := db.users[id];
    if !AuthenticationRowOk(id, current) then Tx(db, Err(EILSEQ))
    else if !RecordMatches(attempt, id, current) then Tx(db, Err(EAGAIN))
    else if !attempt.valid then
      if OrZero(current.lockedUntil) > attempt.now then Tx(db, Err(EAGAIN))
      else Tx(db.(users := db.users[id := AfterFailure(current, attempt.now)]), Err(EACCES))
    else if attempt.now < current.createdAt then Tx(db, Err(EIO))
    else match LoadPermissions(db.roles, id)
      case Err(e) => Tx(db, Err(e))
      case Ok(permissions) =>
        var enabled := TotpEnabled(db.totp, id);
        Tx(db.(users := db.users[id := AfterSuccess(current, attempt)]),
           Ok(Identity(id, attempt.username, permissions, current.revision, current.epoch, current.forceChange,
                       enabled, !enabled)))
  }
}
