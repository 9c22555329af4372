/** A password change that nothing comes between goes through: it ends the session it
    was made from and issues one for the same user that is as complete, on the second
    factor of the first (src/daemon/management_identity.c:793-908). */
module Renewal {
  import opened Base
  import opened Schema
  import opened Users
  import opened Sessions
  import opened Totp
  import opened World
  import opened Invariant
  import opened KeepLogin
  import opened KeepChange
  import opened Reach
  import opened Backoff
  import opened Witnesses

  // ---- A login in between ----

  predicate LoginTime(user: User, now: nat) {
    user.createdAt <= now && 0 < now <= INT64_MAX - LOCK_DELAY_MAX
  }

  /** What a login leaves alone in a user row. */
  predicate StandsAs(before: User, after: User) {
    && after.username == before.username && after.enabled == before.enabled
    && after.epoch == before.epoch && after.revision == before.revision
    && after.createdAt == before.createdAt && after.forceChange == before.forceChange
    && after.hash.password == before.hash.password
  }

  lemma LoginShape(db: Db, id: UserId, password: Password, policy: Policy, salt: nat, now: nat)
    requires TablesOk(db) && id in db.users && db.users[id].hash.password == password && db.users[id].enabled
    requires Fits(password, policy) && LoginTime(db.users[id], now)
    ensures LoginRead(db, db.users[id].username, password, policy, salt, now).Begun?
    ensures var attempt := LoginRead(db, db.users[id].username, password, policy, salt, now).attempt;
            var tx := LoginCommit(db, attempt);
            && attempt.userId == id && attempt.password == password && tx.result.Ok?
            && id in tx.db.users && tx.db == db.(users := db.users[id := tx.db.users[id]])
            && StandsAs(db.users[id], tx.db.users[id])
            && LoadPermissions(db.roles, id).Ok? && tx.result.value == IdentityNow(db, id)
  {
    var attempt := LoginRead(db, db.users[id].username, password, policy, salt, now).attempt;
    RightPasswordBegins(db, id, password, policy, salt, now);
    BegunAttempt(db, db.users[id].username, password, policy, salt, now);
    FoundByName(db.users, id);
    CommitShape(db, attempt);
  }

  /** What a password login hands out for this user. */
  function IdentityNow(db: Db, id: UserId): Identity
    requires id in db.users && LoadPermissions(db.roles, id).Ok?
  {
    var user := db.users[id];
    Identity(id, user.username, LoadPermissions(db.roles, id).value, user.revision, user.epoch, user.forceChange,
             TotpEnabled(db.totp, id), !TotpEnabled(db.totp, id))
  }

  /** A world after a login of the user: its row stands as before, and the identity
      of the login is there. */
  ghost predicate LoggedIn(w: World, w': World, id: UserId, password: Password)
    requires id in w.db.users
  {
    && id in w'.db.users && w'.db == w.db.(users := w.db.users[id := w'.db.users[id]])
    && StandsAs(w.db.users[id], w'.db.users[id])
    && LoadPermissions(w.db.roles, id).Ok?
    && w'.hist == w.hist.(attempts := w'.hist.attempts, failures := w'.hist.failures,
                          grants := w.hist.grants + {Grant(IdentityNow(w.db, id), password, NoFactor, 0)})
  }

  lemma CommitLogsIn(w: World, w': World, attempt: Attempt)
    requires w' == w.(hist := w.hist.(attempts := w'.hist.attempts))
    requires var tx, id := LoginCommit(w.db, attempt), attempt.userId;
             && id in w.db.users && tx.result.Ok?
             && id in tx.db.users && tx.db == w.db.(users := w.db.users[id := tx.db.users[id]])
             && StandsAs(w.db.users[id], tx.db.users[id])
             && LoadPermissions(w.db.roles, id).Ok? && tx.result.value == IdentityNow(w.db, id)
    ensures LoggedIn(w, StepCommitLogin(w', attempt), attempt.userId, attempt.password)
  {
  }

  lemma EndTables(verify: Oracle, run: Run)
    requires IsRun(verify, run)
    ensures TablesOk(End(run).db)
  {
    RunKeeps(verify, run, |run.actions|);
  }

  lemma LoginWorks(verify: Oracle, run: Run, id: UserId, password: Password, policy: Policy, salt: nat, now: nat)
    returns (longer: Run)
    requires IsRun(verify, run) && id in End(run).db.users
    requires End(run).db.users[id].hash.password == password && End(run).db.users[id].enabled
    requires Fits(password, policy) && LoginTime(End(run).db.users[id], now)
    ensures IsRun(verify, longer) && run.states <= longer.states
    ensures LoggedIn(End(run), End(longer), id, password)
  {
    var w := End(run);
    var username := w.db.users[id].username;
    EndTables(verify, run);
    LoginShape(w.db, id, password, policy, salt, now);
    var attempt := LoginRead(w.db, username, password, policy, salt, now).attempt;
    var begun := BeginExtends(verify, run, username, password, policy, salt, now);
    longer := CommitExtends(verify, begun, attempt);
    CommitLogsIn(w, End(begun), attempt);
  }

  // ---- The reset ----

  lemma ResetWorks(db: Db, change: Change, login: Grant, password: Password, policy: Policy, salt: nat, now: nat)
    requires TablesOk(db) && login.password != password && SameAccount(login.identity, change.identity)
    requires change.identity.userId in db.users && Fits(password, policy) && Positive64(now)
    requires var user := db.users[change.identity.userId];
             user.revision == change.identity.revision && CanAdvance(user) && user.createdAt <= now
    requires CanRevokeTokens(db.tokens, change.identity.userId, now)
    ensures ChangeReset(db, change, login, password, policy, salt, now).result.Ok?
    ensures var id, db' := change.identity.userId, ChangeReset(db, change, login, password, policy, salt, now).db;
            id in db'.users && !db'.users[id].forceChange && db'.users[id].createdAt == db.users[id].createdAt
  {
    var id := change.identity.userId;
    assert UserOk(id, db.users[id]) && RolesOk(db.roles[id]);
  }

  /** A world after the reset of a password change. */
  ghost predicate ResetTo(w: World, w': World, id: UserId, password: Password)
    requires id in w.db.users
  {
    && id in w'.db.users && w'.db.roles == w.db.roles && w'.db.totp == w.db.totp
    && w'.db.sessions == WithoutSessionsOf(w.db.sessions, id)
    && w'.hist.digests == w.hist.digests && w'.hist.provenance == w.hist.provenance
    && var user, user' := w.db.users[id], w'.db.users[id];
    && user'.username == user.username && user'.enabled == user.enabled && user'.createdAt == user.createdAt
    && user'.epoch == user.epoch + 1 && user'.revision == user.revision + 1 && !user'.forceChange
    && user'.hash.password == password
  }

  /** The change is at the account of the session and can be made now. */
  predicate Changeable(w: World, change: Change, now: nat) {
    && change in w.hist.changes && !change.done && change.identity.userId in w.db.users
    && var id := change.identity.userId;
    && var user := w.db.users[id];
    && user.enabled && user.username == change.identity.username
    && user.revision == change.identity.revision && user.epoch == change.identity.epoch
    && CanAdvance(user) && LoginTime(user, now) && CanRevokeTokens(w.db.tokens, id, now)
  }

  lemma ResetStep(w: World, change: Change, login: Grant, password: Password, policy: Policy, salt: nat, now: nat)
    requires TablesOk(w.db) && Changeable(w, change, now) && Fits(password, policy)
    requires login.password != password && SameAccount(login.identity, change.identity)
    ensures var w' := StepChangePassword(w, change, login, password, policy, salt, now);
            && ResetTo(w, w', change.identity.userId, password)
            && change.(revision := change.identity.revision + 1, done := true) in w'.hist.changes
  {
    ResetWorks(w.db, change, login, password, policy, salt, now);
    ChangeShape(w.db, change, login, password, policy, salt, now);
    assert UserOk(change.identity.userId, w.db.users[change.identity.userId]);
  }

  lemma ResetExtends(verify: Oracle, run: Run, change: Change, login: Grant, password: Password, policy: Policy,
                     salt: nat, now: nat) returns (longer: Run)
    requires IsRun(verify, run) && Changeable(End(run), change, now) && Fits(password, policy)
    requires login in End(run).hist.grants && login.factor == NoFactor && login.password != password
    requires SameAccount(login.identity, change.identity)
    ensures IsRun(verify, longer) && run.states <= longer.states
    ensures ResetTo(End(run), End(longer), change.identity.userId, password)
    ensures change.(revision := change.identity.revision + 1, done := true) in End(longer).hist.changes
  {
    var w, a := End(run), ChangePassword(change, login, password, policy, salt, now);
    EndTables(verify, run);
    ResetStep(w, change, login, password, policy, salt, now);
    ExtendIsRun(verify, run, a);
    longer := Extend(verify, run, a);
    assert End(longer) == StepChangePassword(w, change, login, password, policy, salt, now);
  }

  /** The login by the current password and the reset. */
  lemma ResetFollows(verify: Oracle, run: Run, change: Change, current: Password, password: Password, policy: Policy,
                     salt: nat, now: nat) returns (longer: Run)
    requires IsRun(verify, run) && Changeable(End(run), change, now)
    requires End(run).db.users[change.identity.userId].hash.password == current
    requires Fits(current, policy) && Fits(password, policy) && current != password
    ensures IsRun(verify, longer) && run.states <= longer.states
    ensures ResetTo(End(run), End(longer), change.identity.userId, password)
    ensures change.(revision := change.identity.revision + 1, done := true) in End(longer).hist.changes
  {
    var id := change.identity.userId;
    var within := LoginWorks(verify, run, id, current, policy, salt, now);
    var login := Grant(IdentityNow(End(run).db, id), current, NoFactor, 0);
    longer := ResetExtends(verify, within, change, login, password, policy, salt, now);
  }

  // ---- The new session ----

  /** A world in which the change handed out this grant for the user as it is. */
  ghost predicate RenewedIn(w: World, w': World, change: Change, grant: Grant) {
    var id := change.identity.userId;
    && grant in w'.hist.grants && id in w.db.users && LoadPermissions(w.db.roles, id).Ok?
    && grant == Renewed(change, Grant(IdentityNow(w.db, id), grant.password, NoFactor, 0))
    && id in w'.db.users && w'.db == w.db.(users := w.db.users[id := w'.db.users[id]])
    && StandsAs(w.db.users[id], w'.db.users[id])
    && w'.hist.digests == w.hist.digests && w'.hist.provenance == w.hist.provenance
  }

  /** The login by the new password and the identity made of it. */
  lemma RenewalFollows(verify: Oracle, run: Run, change: Change, password: Password, policy: Policy, salt: nat,
                       now: nat) returns (longer: Run, grant: Grant)
    requires IsRun(verify, run) && change in End(run).hist.changes && change.done
    requires change.identity.userId in End(run).db.users && Fits(password, policy)
    requires var user := End(run).db.users[change.identity.userId];
             user.hash.password == password && user.enabled && user.revision == change.revision && LoginTime(user, now)
    requires TotpEnabled(End(run).db.totp, change.identity.userId) == change.identity.totpEnabled
    ensures IsRun(verify, longer) && run.states <= longer.states
    ensures RenewedIn(End(run), End(longer), change, grant)
  {
    var id := change.identity.userId;
    var within := LoginWorks(verify, run, id, password, policy, salt, now);
    var login := Grant(IdentityNow(End(run).db, id), password, NoFactor, 0);
    var a := RenewIdentity(change, login);
    ExtendIsRun(verify, within, a);
    longer := Extend(verify, within, a);
    grant := Renewed(change, login);
  }

  /** What a caller brings for the new session. */
  predicate Issuable(hist: History, now: nat, lifetime: nat, session: Secret, csrf: Secret) {
    && |session| == SECRET_TEXT_SIZE && |csrf| == SECRET_TEXT_SIZE && Digest(session) !in hist.digests
    && LIFETIME_MIN <= lifetime <= LIFETIME_MAX && now + lifetime <= INT64_MAX
  }

  /** A world in which a session was issued from this grant. */
  ghost predicate IssuedIn(w: World, w': World, grant: Grant, now: nat, lifetime: nat, remote: Option<seq<byte>>,
                           session: Secret, csrf: Secret) {
    && w'.db == w.db.(sessions := w.db.sessions[Digest(session) :=
         Session(grant.identity.userId, Digest(csrf), now, now + lifetime, now, remote, grant.identity.epoch)])
    && w'.hist == w.hist.(provenance := w.hist.provenance[Digest(session) := grant],
                          digests := w.hist.digests + {Digest(session)})
  }

  lemma EndFresh(verify: Oracle, run: Run, session: Secret)
    requires IsRun(verify, run) && Digest(session) !in End(run).hist.digests
    ensures Digest(session) !in End(run).db.sessions && UsersOk(End(run).db.users, End(run).db.roles)
  {
    RunKeeps(verify, run, |run.actions|);
  }

  lemma IssueWorks(w: World, grant: Grant, now: nat, lifetime: nat, remote: Option<seq<byte>>,
                   session: Secret, csrf: Secret)
    requires UsersOk(w.db.users, w.db.roles) && Digest(session) !in w.db.sessions
    requires grant.identity.userId in w.db.users && w.db.users[grant.identity.userId].enabled
    requires grant.identity.totpEnabled ==> grant.identity.mfaComplete
    requires grant.identity.epoch == w.db.users[grant.identity.userId].epoch
    requires Positive64(now) && RemoteValid(remote) && Issuable(w.hist, now, lifetime, session, csrf)
    ensures IssuedIn(w, StepIssueSession(w, grant, now, lifetime, remote, session, csrf), grant, now, lifetime, remote,
                     session, csrf)
  {
    assert UserOk(grant.identity.userId, w.db.users[grant.identity.userId]);
  }

  lemma IssueExtends(verify: Oracle, run: Run, grant: Grant, now: nat, lifetime: nat, remote: Option<seq<byte>>,
                     session: Secret, csrf: Secret) returns (longer: Run)
    requires IsRun(verify, run) && grant in End(run).hist.grants && grant.factor != Resumed
    requires grant.identity.totpEnabled ==> grant.identity.mfaComplete
    requires grant.identity.userId in End(run).db.users && End(run).db.users[grant.identity.userId].enabled
    requires grant.identity.epoch == End(run).db.users[grant.identity.userId].epoch
    requires Positive64(now) && RemoteValid(remote) && Issuable(End(run).hist, now, lifetime, session, csrf)
    ensures IsRun(verify, longer) && run.states <= longer.states
    ensures IssuedIn(End(run), End(longer), grant, now, lifetime, remote, session, csrf)
  {
    var a := IssueSession(grant, now, lifetime, remote, session, csrf);
    EndFresh(verify, run, session);
    IssueWorks(End(run), grant, now, lifetime, remote, session, csrf);
    ExtendIsRun(verify, run, a);
    longer := Extend(verify, run, a);
    assert End(longer) == StepIssueSession(End(run), grant, now, lifetime, remote, session, csrf);
  }

  /** A session just issued validates as its user is now. */
  lemma IssuedValidates(db: Db, id: UserId, session: Secret, csrf: Secret, now: nat, lifetime: nat, timeout: nat,
                        remote: Option<seq<byte>>)
    requires UsersOk(db.users, db.roles) && id in db.users && db.users[id].enabled
    requires |session| == SECRET_TEXT_SIZE && |csrf| == SECRET_TEXT_SIZE && LIFETIME_MIN <= lifetime
    requires Positive64(now) && RemoteValid(remote) && INACTIVITY_MIN <= timeout <= INACTIVITY_MAX
    requires Digest(session) in db.sessions
    requires db.sessions[Digest(session)] ==
               Session(id, Digest(csrf), now, now + lifetime, now, remote, db.users[id].epoch)
    ensures LoadPermissions(db.roles, id).Ok?
    ensures SessionValidate(db, session, Some(csrf), now, timeout, remote)
            == Ok(IdentityNow(db, id).(mfaComplete := true))
  {
    assert UserOk(id, db.users[id]) && RolesOk(db.roles[id]);
    PermissionsLoad(db.roles, id);
  }

  // ---- From one session to the next ----

  lemma ValidatesAs(db: Db, session: Secret, csrf: Secret, now: nat, timeout: nat, remote: Option<seq<byte>>)
    requires SessionValidate(db, session, Some(csrf), now, timeout, remote).Ok?
    ensures var identity := SessionValidate(db, session, Some(csrf), now, timeout, remote).value;
            && Digest(session) in db.sessions && db.sessions[Digest(session)].userId == identity.userId
            && identity.userId in db.users && LoadPermissions(db.roles, identity.userId).Ok?
            && identity == IdentityNow(db, identity.userId).(mfaComplete := true)
            && db.users[identity.userId].enabled
  {
  }

  lemma BeginWorks(w: World, session: Secret, csrf: Secret, now: nat, timeout: nat,
                   remote: Option<seq<byte>>)
    requires ProvenanceOk(w.db.sessions, w.hist)
    requires SessionValidate(w.db, session, Some(csrf), now, timeout, remote).Ok?
    ensures var identity := SessionValidate(w.db, session, Some(csrf), now, timeout, remote).value;
            && identity.userId in w.db.users && LoadPermissions(w.db.roles, identity.userId).Ok?
            && identity == IdentityNow(w.db, identity.userId).(mfaComplete := true)
            && w.db.users[identity.userId].enabled && Digest(session) in w.hist.provenance
            && Digest(session) in w.hist.digests && Digest(session) in w.db.sessions
            && w.db.sessions[Digest(session)].userId == identity.userId
            && var change := Change(identity, w.hist.provenance[Digest(session)], identity.revision, false);
            StepBeginChange(w, session, csrf, now, timeout, remote)
            == w.(hist := w.hist.(changes := w.hist.changes + {change}))
  {
    ValidatesAs(w.db, session, csrf, now, timeout, remote);
  }

  /** The session, its user and the second factor behind it. */
  lemma ChangeBegins(verify: Oracle, run: Run, session: Secret, csrf: Secret, now: nat, timeout: nat,
                     remote: Option<seq<byte>>) returns (longer: Run, change: Change)
    requires IsRun(verify, run) && SessionValidate(End(run).db, session, Some(csrf), now, timeout, remote).Ok?
    ensures IsRun(verify, longer) && run.states <= longer.states
    ensures var w, identity := End(run), SessionValidate(End(run).db, session, Some(csrf), now, timeout, remote).value;
            && identity.userId in w.db.users && LoadPermissions(w.db.roles, identity.userId).Ok?
            && identity == IdentityNow(w.db, identity.userId).(mfaComplete := true)
            && w.db.users[identity.userId].enabled && Digest(session) in w.hist.provenance
            && Digest(session) in w.hist.digests && Digest(session) in w.db.sessions
            && w.db.sessions[Digest(session)].userId == identity.userId
            && change == Change(identity, w.hist.provenance[Digest(session)], identity.revision, false)
            && End(longer) == w.(hist := w.hist.(changes := w.hist.changes + {change}))
  {
    var w, a := End(run), BeginChange(session, csrf, now, timeout, remote);
    RunKeeps(verify, run, |run.actions|);
    BeginWorks(w, session, csrf, now, timeout, remote);
    var identity := SessionValidate(w.db, session, Some(csrf), now, timeout, remote).value;
    change := Change(identity, w.hist.provenance[Digest(session)], identity.revision, false);
    ExtendIsRun(verify, run, a);
    longer := Extend(verify, run, a);
    assert End(longer) == StepBeginChange(w, session, csrf, now, timeout, remote);
  }

  /** The new session validates as the user is after the reset, and nothing else was
      stored or removed. */
  ghost predicate NewSession(w: World, w': World, change: Change, now: nat, timeout: nat, remote: Option<seq<byte>>,
                             session: Secret, csrf: Secret)
    requires change.identity.userId in w.db.users && LoadPermissions(w.db.roles, change.identity.userId).Ok?
  {
    && w'.db.sessions.Keys == w.db.sessions.Keys + {Digest(session)}
    && SessionValidate(w'.db, session, Some(csrf), now, timeout, remote)
       == Ok(IdentityNow(w.db, change.identity.userId).(mfaComplete := true))
    && Digest(session) in w'.hist.provenance
    && w'.hist.provenance[Digest(session)].factor == change.origin.factor
    && w'.hist.provenance[Digest(session)].enrolment == change.origin.enrolment
  }

  lemma SessionHolds(w: World, w1: World, w': World, change: Change, grant: Grant, now: nat, lifetime: nat,
                     timeout: nat, remote: Option<seq<byte>>, session: Secret, csrf: Secret)
    requires RenewedIn(w, w1, change, grant) && IssuedIn(w1, w', grant, now, lifetime, remote, session, csrf)
    requires w.db.users[change.identity.userId].enabled && UsersOk(w'.db.users, w'.db.roles) && Positive64(now)
    requires Issuable(w1.hist, now, lifetime, session, csrf)
    requires RemoteValid(remote) && INACTIVITY_MIN <= timeout <= INACTIVITY_MAX
    ensures NewSession(w, w', change, now, timeout, remote, session, csrf)
  {
    IssuedValidates(w'.db, change.identity.userId, session, csrf, now, lifetime, timeout, remote);
  }

  /** From the reset on. */
  lemma SessionFollows(verify: Oracle, run: Run, change: Change, password: Password, policy: Policy, salt: nat,
                       now: nat, lifetime: nat, timeout: nat, remote: Option<seq<byte>>, session: Secret, csrf: Secret)
    returns (longer: Run)
    requires IsRun(verify, run) && change in End(run).hist.changes && change.done && change.identity.mfaComplete
    requires change.origin.factor != Resumed
    requires change.identity.userId in End(run).db.users && Fits(password, policy)
    requires var user := End(run).db.users[change.identity.userId];
             user.hash.password == password && user.enabled && user.revision == change.revision && LoginTime(user, now)
    requires TotpEnabled(End(run).db.totp, change.identity.userId) == change.identity.totpEnabled
    requires Issuable(End(run).hist, now, lifetime, session, csrf)
    requires RemoteValid(remote) && INACTIVITY_MIN <= timeout <= INACTIVITY_MAX
    ensures IsRun(verify, longer) && run.states <= longer.states
    ensures LoadPermissions(End(run).db.roles, change.identity.userId).Ok?
    ensures NewSession(End(run), End(longer), change, now, timeout, remote, session, csrf)
  {
    var renewed, grant := RenewalFollows(verify, run, change, password, policy, salt, now);
    longer := IssueExtends(verify, renewed, grant, now, lifetime, remote, session, csrf);
    EndTables(verify, longer);
    SessionHolds(End(run), End(renewed), End(longer), change, grant, now, lifetime, timeout, remote, session, csrf);
  }

  /** A world after the reset, and the change that goes on from it. */
  ghost predicate ResetDone(w: World, w': World, change: Change, session: Secret, identity: Identity,
                              password: Password) {
    && change in w'.hist.changes && change.done && change.identity == identity
    && change.revision == identity.revision + 1
    && identity.mfaComplete && !change.origin.factor.Resumed?
    && Digest(session) in w.hist.provenance && change.origin == w.hist.provenance[Digest(session)]
    && Digest(session) in w.hist.digests && Digest(session) !in w'.db.sessions
    && identity.userId in w.db.users && w.db.users[identity.userId].enabled
    && LoadPermissions(w.db.roles, identity.userId).Ok?
    && identity == IdentityNow(w.db, identity.userId).(mfaComplete := true)
    && ResetTo(w, w', identity.userId, password)
  }

  lemma UpToReset(verify: Oracle, run: Run, session: Secret, csrf: Secret, timeout: nat, remote: Option<seq<byte>>,
                  current: Password, password: Password, policy: Policy, salt: nat, now: nat)
    returns (longer: Run, change: Change)
    requires IsRun(verify, run) && SessionValidate(End(run).db, session, Some(csrf), now, timeout, remote).Ok?
    requires Fits(current, policy) && Fits(password, policy) && current != password
    requires var w := End(run);
             var id := SessionValidate(w.db, session, Some(csrf), now, timeout, remote).value.userId;
             && id in w.db.users && Verifies(w.db.users[id].hash, current) && CanAdvance(w.db.users[id])
             && LoginTime(w.db.users[id], now) && CanRevokeTokens(w.db.tokens, id, now)
    ensures IsRun(verify, longer) && run.states <= longer.states
    ensures ResetDone(End(run), End(longer), change, session,
                        SessionValidate(End(run).db, session, Some(csrf), now, timeout, remote).value, password)
  {
    var begun, first := ChangeBegins(verify, run, session, csrf, now, timeout, remote);
    longer := ResetFollows(verify, begun, first, current, password, policy, salt, now);
    change := first.(revision := first.identity.revision + 1, done := true);
    ChangeHeldAt(verify, longer, change);
  }

  /** For every session that validates at the end of a run: if its user knows the
      current password, the new one is another and both fit the policy, the change goes
      through. The old session is gone; the new one validates as the same user with the
      same permissions, complete, one revision and epoch later, on the second factor
      behind the old one. */
  lemma PasswordChangeRenews(verify: Oracle, run: Run, session: Secret, csrf: Secret, timeout: nat,
                             remote: Option<seq<byte>>, current: Password, password: Password, policy: Policy,
                             salt: nat, now: nat, lifetime: nat, session': Secret, csrf': Secret)
    returns (longer: Run)
    requires IsRun(verify, run) && SessionValidate(End(run).db, session, Some(csrf), now, timeout, remote).Ok?
    requires Fits(current, policy) && Fits(password, policy) && current != password
    requires var w := End(run);
             var id := SessionValidate(w.db, session, Some(csrf), now, timeout, remote).value.userId;
             && id in w.db.users && Verifies(w.db.users[id].hash, current) && CanAdvance(w.db.users[id])
             && LoginTime(w.db.users[id], now) && CanRevokeTokens(w.db.tokens, id, now)
    requires Issuable(End(run).hist, now, lifetime, session', csrf')
    ensures IsRun(verify, longer) && run.states <= longer.states
    ensures var w, w' := End(run), End(longer);
            var before := SessionValidate(w.db, session, Some(csrf), now, timeout, remote).value;
            && SessionValidate(w'.db, session', Some(csrf'), now, timeout, remote)
               == Ok(before.(revision := before.revision + 1, epoch := before.epoch + 1, forceChange := false))
            && SessionValidate(w'.db, session, Some(csrf), now, timeout, remote).Err?
            && Digest(session) in w.hist.provenance && Digest(session') in w'.hist.provenance
            && w'.hist.provenance[Digest(session')].factor == w.hist.provenance[Digest(session)].factor
  {
    var reset, change := UpToReset(verify, run, session, csrf, timeout, remote, current, password, policy, salt, now);
    longer := SessionFollows(verify, reset, change, password, policy, salt, now, lifetime, timeout, remote, session',
                             csrf');
  }

  lemma ChangeHeldAt(verify: Oracle, run: Run, change: Change)
    requires IsRun(verify, run) && change in End(run).hist.changes
    ensures !change.origin.factor.Resumed? && change.identity.mfaComplete
  {
    RunKeeps(verify, run, |run.actions|);
    assert ChangeStarted(change);
  }
}
