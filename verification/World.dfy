/** The account database under any interleaving of its operations. A world is
    the tables plus a history: what was begun, handed out and issued so far. An
    action is one atomic step: a write transaction, or one read of an operation
    that reads outside a transaction. A run is any sequence of enabled actions,
    so unfinished logins and TOTP completions interleave freely with everything
    else (include/janusgate/account.h:13-14). */
module World {
  import opened Base
  import opened Schema
  import opened Users
  import opened Sessions
  import opened Totp
  import opened Mtls
  import Tokens
  import Access

  // ---- History ----

  /** The second factor behind an identity. A resumed identity comes from a
      validated session, to be completed by a TOTP code once more
      (src/daemon/management_identity.c:1986-2002). */
  datatype Factor =
    | NoFactor
    | Resumed
    | CodeFactor(credential: Credential, code: nat, at: nat)
    | RecoveryFactor(digest: Digest)

  /** An identity handed out by password, TOTP or recovery authentication: the
      password presented, the second factor, and the enrolment it was made under. */
  datatype Grant = Grant(identity: Identity, password: Password, factor: Factor, enrolment: nat)

  /** A TOTP completion after its first, second or third read. */
  datatype Reading = Reading(stage: nat, grant: Grant, current: Identity)

  /** What a token was issued for: the scopes asked, the owner's permissions and
      the network as configured. */
  datatype Request = Request(scopes: Access.Mask, owner: Access.Mask, source: Option<Schema.Network>)

  /** A user changing its own password from a session: the identity that the
      session validated as, the grant behind the session, and the revision to go on
      from, which is that of the session and, once the password is reset, the one that
      the reset returned (src/daemon/management_identity.c:793-908). */
  datatype Change = Change(identity: Identity, origin: Grant, revision: nat, done: bool)

  datatype History = History(
    attempts: set<Attempt>,
    readings: set<Reading>,
    changes: set<Change>,
    grants: set<Grant>,
    provenance: map<Digest, Grant>,
    digests: set<Digest>,
    passwords: map<UserId, Password>,
    failures: map<UserId, seq<nat>>,
    enrolments: map<UserId, nat>,
    uses: map<UserId, seq<Digest>>,
    redeemed: seq<(UserId, Digest)>,
    requests: map<nat, Request>,
    bootstrap: Option<(Digest, nat)>)

  datatype World = World(db: Db, hist: History)

  const INITIAL: World :=
    World(EMPTY, History({}, {}, {}, {}, map[], {}, map[], map[], map[], map[], [], map[], None))

  /** How often a user has confirmed a TOTP enrolment. */
  function Enrolment(enrolments: map<UserId, nat>, id: UserId): nat {
    if id in enrolments then enrolments[id] else 0
  }

  // ---- Actions ----

  datatype Action =
    | IssueBootstrap(now: nat, lifetime: nat, secret: Secret)
    | CreateFirst(token: Secret, username: string, password: Password, policy: Policy, salt: nat, now: nat, id: UserId)
    | CreateUser(username: string, password: Password, policy: Policy, role: int, forceChange: bool, salt: nat,
                 now: nat, id: UserId)
    | UpdateUser(id: UserId, expected: nat, update: Update, now: nat)
    | Reset(id: UserId, expected: nat, password: Password, policy: Policy, forceChange: bool, salt: nat, now: nat)
    | BeginLogin(username: string, password: Password, policy: Policy, salt: nat, now: nat)
    | CommitLogin(attempt: Attempt)
    | Provision(id: UserId, key: nat, nonce: nat, secret: Secret, now: nat)
    | Confirm(id: UserId, key: nat, code: nat, now: nat, drawn: seq<Secret>)
    | Disable(id: UserId, expected: nat)
    | ResumeSession(session: Secret, proof: Option<Secret>, now: nat, timeout: nat, remote: Option<seq<byte>>)
    | BeginChange(session: Secret, csrf: Secret, now: nat, timeout: nat, remote: Option<seq<byte>>)
    | ChangePassword(change: Change, login: Grant, password: Password, policy: Policy, salt: nat, now: nat)
    | RenewIdentity(change: Change, login: Grant)
    | BeginTotp(grant: Grant)
    | NextRead(reading: Reading)
    | FinishTotp(reading: Reading, key: nat, code: nat, now: nat)
    | Recover(grant: Grant, secret: Secret, now: nat)
    | IssueSession(grant: Grant, now: nat, lifetime: nat, remote: Option<seq<byte>>, session: Secret, csrf: Secret)
    | TouchSession(session: Secret, now: nat)
    | RevokeSession(session: Secret)
    | RevokeSessions(id: UserId)
    | IssueToken(id: UserId, config: Tokens.Config, now: nat, tokenId: nat, secret: Secret)
    | TouchToken(tokenId: nat, now: nat)
    | RevokeToken(tokenId: nat, now: nat)
    | CreateMapping(mapping: Mtls.Config, now: nat, mappingId: nat)
    | RevokeMapping(mappingId: nat, now: nat)

  /** Premises on the environment: SQLite assigns unused row identifiers, drawn
      secrets have digests never issued before, and an unfinished operation or an
      identity used by a caller is one that an earlier step produced. A resumed
      identity is only ever completed by a TOTP code. A password change goes on with
      identities of password logins. */
  ghost predicate Enabled(w: World, a: Action) {
    match a
    case CreateFirst(_, _, _, _, _, _, id) => Positive64(id) && id !in w.db.users
    case CreateUser(_, _, _, _, _, _, _, id) => Positive64(id) && id !in w.db.users
    case CommitLogin(attempt) => attempt in w.hist.attempts
    case Confirm(_, _, _, _, drawn) =>
      |drawn| == RECOVERY_CODE_COUNT && Digests(drawn) !! w.hist.digests
    case ChangePassword(change, login, _, _, _, _) =>
      change in w.hist.changes && !change.done && login in w.hist.grants && login.factor.NoFactor?
    case RenewIdentity(change, login) =>
      change in w.hist.changes && change.done && login in w.hist.grants && login.factor.NoFactor?
    case BeginTotp(grant) => grant in w.hist.grants
    case NextRead(reading) => reading in w.hist.readings && reading.stage < 3
    case FinishTotp(reading, _, _, _) => reading in w.hist.readings && reading.stage == 3
    case Recover(grant, _, _) => grant in w.hist.grants && !grant.factor.Resumed?
    case IssueSession(grant, _, _, _, session, _) =>
      grant in w.hist.grants && !grant.factor.Resumed? && Digest(session) !in w.hist.digests
    case IssueToken(_, _, _, tokenId, secret) =>
      Positive64(tokenId) && tokenId !in w.db.tokens && Digest(secret) !in w.hist.digests
    case CreateMapping(_, _, mappingId) => Positive64(mappingId) && mappingId !in w.db.mappings
    case _ => true
  }

  // ---- Steps ----

  ghost function StepIssueBootstrap(w: World, now: nat, lifetime: nat, secret: Secret): World {
    var tx := BootstrapIssue(w.db, now, lifetime, secret);
    if tx.result.Err? then w
    else World(tx.db, w.hist.(bootstrap := Some((Digest(secret), now + lifetime))))
  }

  function Joined(hist: History, id: UserId, password: Password): History {
    hist.(passwords := hist.passwords[id := password], failures := hist.failures[id := []])
  }

  ghost function StepCreateFirst(w: World, token: Secret, username: string, password: Password, policy: Policy,
                                 salt: nat, now: nat, id: UserId): World {
    var tx := CreateInitialAdministrator(w.db, token, username, password, policy, salt, now, id);
    if tx.result.Err? then w else World(tx.db, Joined(w.hist, id, password))
  }

  ghost function StepCreateUser(w: World, username: string, password: Password, policy: Policy, role: int,
                                forceChange: bool, salt: nat, now: nat, id: UserId): World {
    var tx := UserCreate(w.db, username, password, policy, role, forceChange, salt, now, id);
    if tx.result.Err? then w else World(tx.db, Joined(w.hist, id, password))
  }

  ghost function StepReset(w: World, id: UserId, expected: nat, password: Password, policy: Policy,
                           forceChange: bool, salt: nat, now: nat): World {
    var tx := ResetPassword(w.db, id, expected, password, policy, forceChange, salt, now);
    if tx.result.Err? then w else World(tx.db, Joined(w.hist, id, password))
  }

  ghost function StepBeginLogin(w: World, username: string, password: Password, policy: Policy, salt: nat, now: nat)
    : World
  {
    match LoginRead(w.db, username, password, policy, salt, now)
    case Refused(_) => w
    case Begun(attempt) => w.(hist := w.hist.(attempts := w.hist.attempts + {attempt}))
  }

  /** A failure is counted when the transaction wrote one; a success hands out an
      identity and starts the count again. */
  ghost function StepCommitLogin(w: World, attempt: Attempt): World {
    var tx := LoginCommit(w.db, attempt);
    var id := attempt.userId;
    if tx.result.Ok? then
      World(tx.db, w.hist.(grants := w.hist.grants + {Grant(tx.result.value, attempt.password, NoFactor, 0)},
                           failures := w.hist.failures[id := []]))
    else if tx.db != w.db then
      World(tx.db, w.hist.(failures := w.hist.failures[id := FailuresOf(w.hist.failures, id) + [attempt.now]]))
    else w
  }

  function FailuresOf(failures: map<UserId, seq<nat>>, id: UserId): seq<nat> {
    if id in failures then failures[id] else []
  }

  ghost function StepConfirm(verify: Oracle, w: World, id: UserId, key: nat, code: nat, now: nat, drawn: seq<Secret>)
    : World
    requires |drawn| == RECOVERY_CODE_COUNT
  {
    var tx := TotpConfirm(verify, w.db, id, key, code, now, drawn);
    if tx.result.Err? then w
    else World(tx.db, ConfirmedHistory(w.hist, id, drawn))
  }

  function ConfirmedHistory(hist: History, id: UserId, drawn: seq<Secret>): History {
    hist.(enrolments := hist.enrolments[id := Enrolment(hist.enrolments, id) + 1],
          uses := hist.uses[id := []],
          digests := hist.digests + Digests(drawn))
  }

  /** The validated identity with its completion cleared, for the password that
      opened the session. */
  function StepResume(w: World, session: Secret, csrf: Option<Secret>, now: nat, timeout: nat,
                      remote: Option<seq<byte>>): World {
    match SessionValidate(w.db, session, csrf, now, timeout, remote)
    case Err(_) => w
    case Ok(identity) =>
      if Digest(session) !in w.hist.provenance then w
      else
        var grant := Grant(identity.(mfaComplete := false), w.hist.provenance[Digest(session)].password, Resumed, 0);
        w.(hist := w.hist.(grants := w.hist.grants + {grant}))
  }

  function StepBeginChange(w: World, session: Secret, csrf: Secret, now: nat, timeout: nat,
                           remote: Option<seq<byte>>): World {
    match SessionValidate(w.db, session, Some(csrf), now, timeout, remote)
    case Err(_) => w
    case Ok(identity) =>
      if Digest(session) !in w.hist.provenance then w
      else
        var change := Change(identity, w.hist.provenance[Digest(session)], identity.revision, false);
        w.(hist := w.hist.(changes := w.hist.changes + {change}))
  }

  /** The login by the current password found the account of the session. */
  predicate SameAccount(login: Identity, session: Identity) {
    && login.userId == session.userId && login.revision == session.revision
    && login.epoch == session.epoch && login.username == session.username
  }

  /** The reset of a password change; `login` presented the current password. */
  function ChangeReset(db: Db, change: Change, login: Grant, password: Password, policy: Policy, salt: nat, now: nat)
    : Tx<Account>
  {
    if login.password == password then Tx(db, Err(EINVAL))
    else if !SameAccount(login.identity, change.identity) then Tx(db, Err(ESTALE))
    else ResetPassword(db, change.identity.userId, change.identity.revision, password, policy, false, salt, now)
  }

  function StepChangePassword(w: World, change: Change, login: Grant, password: Password, policy: Policy, salt: nat,
                              now: nat): World {
    var tx := ChangeReset(w.db, change, login, password, policy, salt, now);
    if tx.result.Err? then w
    else
      var next := change.(revision := tx.result.value.revision, done := true);
      World(tx.db, Joined(w.hist, change.identity.userId, password).(changes := w.hist.changes + {next}))
  }

  /** The login by the new password found the account as the reset left it. */
  predicate Renewable(change: Change, login: Identity) {
    && login.userId == change.identity.userId && login.revision == change.revision
    && login.totpEnabled == change.identity.totpEnabled
  }

  /** The identity of that login, as complete as the session was: what stands behind
      it is the new password and the second factor of the session. */
  function Renewed(change: Change, login: Grant): Grant {
    Grant(login.identity.(mfaComplete := change.identity.mfaComplete), login.password, change.origin.factor,
          change.origin.enrolment)
  }

  function StepRenew(w: World, change: Change, login: Grant): World {
    if !Renewable(change, login.identity) then w
    else w.(hist := w.hist.(grants := w.hist.grants + {Renewed(change, login)}))
  }

  function StepBeginTotp(w: World, grant: Grant): World {
    match ReadUser(w.db, grant.identity.userId)
    case Err(_) => w
    case Ok(current) => w.(hist := w.hist.(readings := w.hist.readings + {Reading(1, grant, current)}))
  }

  function NextReading(db: Db, reading: Reading): Option<Reading> {
    if reading.stage == 1 then
      match ReadRoles(db, reading.current)
      case Err(_) => None
      case Ok(current) => Some(reading.(stage := 2, current := current))
    else
      var current := ReadFlag(db, reading.current);
      if !PasswordIdentityCurrent(reading.grant.identity, current) then None
      else Some(reading.(stage := 3, current := current))
  }

  function StepNextRead(w: World, reading: Reading): World {
    match NextReading(w.db, reading)
    case None => w
    case Some(next) => w.(hist := w.hist.(readings := w.hist.readings + {next}))
  }

  function StepFinishTotp(verify: Oracle, w: World, reading: Reading, key: nat, code: nat, now: nat): World {
    match CheckCode(verify, w.db, reading.current, key, code, now)
    case Err(_) => w
    case Ok(identity) =>
      if code >= CODE_LIMIT || now == 0 || identity.userId !in w.db.totp then w
      else
        var factor := CodeFactor(w.db.totp[identity.userId], code, now);
        var grant := Grant(identity, reading.grant.password, factor, Enrolment(w.hist.enrolments, identity.userId));
        w.(hist := w.hist.(grants := w.hist.grants + {grant}))
  }

  function StepRecover(w: World, grant: Grant, secret: Secret, now: nat): World {
    var tx := RecoveryAuthenticate(w.db, grant.identity, secret, now);
    if tx.result.Err? then w
    else
      var id := tx.result.value.userId;
      var won := Grant(tx.result.value, grant.password, RecoveryFactor(Digest(secret)),
                       Enrolment(w.hist.enrolments, id));
      World(tx.db, w.hist.(grants := w.hist.grants + {won},
                           uses := w.hist.uses[id := UsesOf(w.hist.uses, id) + [Digest(secret)]],
                           redeemed := w.hist.redeemed + [(id, Digest(secret))]))
  }

  function UsesOf(uses: map<UserId, seq<Digest>>, id: UserId): seq<Digest> {
    if id in uses then uses[id] else []
  }

  function StepIssueSession(w: World, grant: Grant, now: nat, lifetime: nat, remote: Option<seq<byte>>,
                            session: Secret, csrf: Secret): World {
    var tx := SessionIssue(w.db, grant.identity, now, lifetime, remote, session, csrf);
    if tx.result.Err? then w
    else World(tx.db, w.hist.(provenance := w.hist.provenance[Digest(session) := grant],
                              digests := w.hist.digests + {Digest(session)}))
  }

  ghost function StepIssueToken(w: World, id: UserId, config: Tokens.Config, now: nat, tokenId: nat, secret: Secret)
    : World
  {
    var tx := Tokens.TokenIssue(w.db, id, config, now, tokenId, secret);
    if tx.result.Err? then w
    else match LoadPermissions(w.db.roles, id)
      case Err(_) => w
      case Ok(owner) =>
        World(tx.db, w.hist.(requests := w.hist.requests[tokenId := Request(config.permissions, owner, config.source)],
                             digests := w.hist.digests + {Digest(secret)}))
  }

  ghost function Next(verify: Oracle, w: World, a: Action): World
    requires Enabled(w, a)
  {
    match a
    case IssueBootstrap(now, lifetime, secret) => StepIssueBootstrap(w, now, lifetime, secret)
    case CreateFirst(token, username, password, policy, salt, now, id) =>
      StepCreateFirst(w, token, username, password, policy, salt, now, id)
    case CreateUser(username, password, policy, role, forceChange, salt, now, id) =>
      StepCreateUser(w, username, password, policy, role, forceChange, salt, now, id)
    case UpdateUser(id, expected, update, now) => w.(db := UserUpdate(w.db, id, expected, update, now).db)
    case Reset(id, expected, password, policy, forceChange, salt, now) =>
      StepReset(w, id, expected, password, policy, forceChange, salt, now)
    case BeginLogin(username, password, policy, salt, now) => StepBeginLogin(w, username, password, policy, salt, now)
    case CommitLogin(attempt) => StepCommitLogin(w, attempt)
    case Provision(id, key, nonce, secret, now) => w.(db := TotpProvision(w.db, id, key, nonce, secret, now).db)
    case Confirm(id, key, code, now, drawn) => StepConfirm(verify, w, id, key, code, now, drawn)
    case Disable(id, expected) => w.(db := TotpDisable(w.db, id, expected).db)
    case ResumeSession(session, csrf, now, timeout, remote) => StepResume(w, session, csrf, now, timeout, remote)
    case BeginChange(session, csrf, now, timeout, remote) => StepBeginChange(w, session, csrf, now, timeout, remote)
    case ChangePassword(change, login, password, policy, salt, now) =>
      StepChangePassword(w, change, login, password, policy, salt, now)
    case RenewIdentity(change, login) => StepRenew(w, change, login)
    case BeginTotp(grant) => StepBeginTotp(w, grant)
    case NextRead(reading) => StepNextRead(w, reading)
    case FinishTotp(reading, key, code, now) => StepFinishTotp(verify, w, reading, key, code, now)
    case Recover(grant, secret, now) => StepRecover(w, grant, secret, now)
    case IssueSession(grant, now, lifetime, remote, session, csrf) =>
      StepIssueSession(w, grant, now, lifetime, remote, session, csrf)
    case TouchSession(session, now) => w.(db := SessionTouch(w.db, session, now).db)
    case RevokeSession(session) => w.(db := SessionRevoke(w.db, session).db)
    case RevokeSessions(id) => w.(db := SessionsRevokeAll(w.db, id).db)
    case IssueToken(id, config, now, tokenId, secret) => StepIssueToken(w, id, config, now, tokenId, secret)
    case TouchToken(tokenId, now) => w.(db := Tokens.TokenTouch(w.db, tokenId, now).db)
    case RevokeToken(tokenId, now) => w.(db := Tokens.TokenRevoke(w.db, tokenId, now).db)
    case CreateMapping(mapping, now, mappingId) => w.(db := MappingCreate(w.db, mapping, now, mappingId).db)
    case RevokeMapping(mappingId, now) => w.(db := MappingRevoke(w.db, mappingId, now).db)
  }

  // ---- Runs ----

  /** States and the actions between them. */
  datatype Run = Run(states: seq<World>, actions: seq<Action>)

  ghost predicate StepAt(verify: Oracle, run: Run, i: nat)
    requires i < |run.actions| && |run.states| == |run.actions| + 1
  {
    Enabled(run.states[i], run.actions[i])
    && run.states[i + 1] == Next(verify, run.states[i], run.actions[i])
  }

  /** A run from the empty database. */
  ghost predicate IsRun(verify: Oracle, run: Run) {
    && |run.states| == |run.actions| + 1
    && run.states[0] == INITIAL
    && forall i :: 0 <= i < |run.actions| ==> StepAt(verify, run, i)
  }
}
