/** What no step ever undoes: issued digests, identities handed out, the origin
    of a session, the end of a session, the revocation of a token or a mapping,
    and the existence of an enabled administrator. */
module Growth {
  import opened Base
  import opened Schema
  import opened Users
  import opened Sessions
  import opened Totp
  import opened Mtls
  import opened World
  import opened Invariant
  import opened Keep
  import opened KeepUsers
  import opened KeepLogin
  import opened KeepFactors
  import opened KeepRest
  import opened KeepChange
  import opened Reach
  import Access
  import Tokens

  // ---- Rows over time ----

  /** A later row of the same session: only its last activity moves, and by at
      least the touch interval. */
  predicate SessionContinues(before: Session, after: Session) {
    && after == before.(lastSeenAt := after.lastSeenAt)
    && (after.lastSeenAt == before.lastSeenAt || before.lastSeenAt + Sessions.TOUCH_INTERVAL <= after.lastSeenAt)
  }

  /** A session whose digest was issued before is one that was there before. */
  predicate SessionsContinue(digests: set<Digest>, sessions: map<Digest, Session>, sessions': map<Digest, Session>) {
    forall d :: d in digests && d in sessions' ==> d in sessions && SessionContinues(sessions[d], sessions'[d])
  }

  /** A later row of the same token: its grant is fixed, and once revoked it
      stays revoked at the same time and revision. */
  predicate TokenContinues(before: Token, after: Token) {
    && after == before.(lastUsedAt := after.lastUsedAt, revokedAt := after.revokedAt, revision := after.revision)
    && (before.revokedAt.Some? ==> after.revokedAt == before.revokedAt && after.revision == before.revision)
    && (before.revokedAt.None? ==> after.revision == before.revision + if after.revokedAt.Some? then 1 else 0)
  }

  predicate TokensContinue(tokens: map<nat, Token>, tokens': map<nat, Token>) {
    forall t :: t in tokens ==> t in tokens' && TokenContinues(tokens[t], tokens'[t])
  }

  /** A later row of the same mapping: revocation is final. */
  predicate MappingContinues(before: Mapping, after: Mapping) {
    && after == before.(enabled := after.enabled, revokedAt := after.revokedAt, revision := after.revision)
    && (!before.enabled ==> !after.enabled)
    && (before.revokedAt.Some? ==> after.revokedAt == before.revokedAt && after.revision == before.revision)
  }

  predicate OneMappingEach(mappings: map<nat, Mapping>) {
    forall m, n :: m in mappings && n in mappings && mappings[m].fingerprint == mappings[n].fingerprint ==> m == n
  }

  /** A certificate that once had a mapping gets no other. */
  predicate MappingsContinue(mappings: map<nat, Mapping>, mappings': map<nat, Mapping>) {
    && (forall m :: m in mappings ==> m in mappings' && MappingContinues(mappings[m], mappings'[m]))
    && (forall m, n :: m in mappings && n in mappings' && mappings'[n].fingerprint == mappings[m].fingerprint ==>
          n in mappings)
    && (OneMappingEach(mappings) ==> OneMappingEach(mappings'))
  }

  predicate RowsContinue(digests: set<Digest>, db: Db, db': Db) {
    && SessionsContinue(digests, db.sessions, db'.sessions)
    && TokensContinue(db.tokens, db'.tokens)
    && MappingsContinue(db.mappings, db'.mappings)
    && (EnabledAdministrators(db) != {} ==> EnabledAdministrators(db') != {})
  }

  /** Either the user enrolled anew, or the log of recovery logins only grew. */
  ghost predicate UsesContinue(hist: History, hist': History) {
    forall u ::
      || Enrolment(hist.enrolments, u) < Enrolment(hist'.enrolments, u)
      || (Enrolment(hist.enrolments, u) == Enrolment(hist'.enrolments, u)
          && UsesOf(hist.uses, u) <= UsesOf(hist'.uses, u))
  }

  ghost predicate HistoryGrows(w: World, w': World) {
    && w.hist.digests <= w'.hist.digests
    && w.hist.grants <= w'.hist.grants
    && w.hist.redeemed <= w'.hist.redeemed
    && UsesContinue(w.hist, w'.hist)
    && (forall d :: d in w.hist.digests && d in w.hist.provenance ==>
          d in w'.hist.provenance && w'.hist.provenance[d] == w.hist.provenance[d])
    && (forall t :: t in w.db.tokens && t in w.hist.requests ==>
          t in w'.hist.requests && w'.hist.requests[t] == w.hist.requests[t])
  }

  ghost predicate Continues(w: World, w': World) {
    RowsContinue(w.hist.digests, w.db, w'.db) && HistoryGrows(w, w')
  }

  lemma ContinuesTransitive(w: World, w': World, w'': World)
    requires Continues(w, w') && Continues(w', w'')
    ensures Continues(w, w'')
  {
    UsesTransitive(w.hist, w'.hist, w''.hist);
    MappingsTransitive(w.db.mappings, w'.db.mappings, w''.db.mappings);
  }

  lemma UsesTransitive(hist: History, hist': History, hist'': History)
    requires UsesContinue(hist, hist') && UsesContinue(hist', hist'')
    ensures UsesContinue(hist, hist'')
  {
  }

  lemma MappingsTransitive(mappings: map<nat, Mapping>, mappings': map<nat, Mapping>, mappings'': map<nat, Mapping>)
    requires MappingsContinue(mappings, mappings') && MappingsContinue(mappings', mappings'')
    ensures MappingsContinue(mappings, mappings'')
  {
  }

  // ---- Administrators ----

  /** Users keep their standing: still there, as enabled as before, same roles. */
  predicate KeepsStanding(db: Db, db': Db) {
    forall u :: u in db.users ==>
      u in db'.users && db'.users[u].enabled == db.users[u].enabled
      && RoleRows(db'.roles, u) == RoleRows(db.roles, u)
  }

  lemma StandingKeepsAdministrators(db: Db, db': Db)
    requires KeepsStanding(db, db')
    ensures EnabledAdministrators(db) != {} ==> EnabledAdministrators(db') != {}
  {
    assert EnabledAdministrators(db) <= EnabledAdministrators(db');
  }

  lemma SameRowsContinue(digests: set<Digest>, db: Db, db': Db)
    requires KeepsStanding(db, db')
    requires db'.sessions == db.sessions && db'.tokens == db.tokens && db'.mappings == db.mappings
    ensures RowsContinue(digests, db, db')
  {
    StandingKeepsAdministrators(db, db');
  }

  // ---- Steps on users ----

  lemma AddingContinues(digests: set<Digest>, db: Db, db': Db, id: UserId)
    requires AddsUser(db, db', id)
    ensures RowsContinue(digests, db, db')
  {
    SameRowsContinue(digests, db, db');
  }

  lemma BootstrapContinues(w: World, now: nat, lifetime: nat, secret: Secret)
    ensures Continues(w, StepIssueBootstrap(w, now, lifetime, secret))
  {
    var w' := StepIssueBootstrap(w, now, lifetime, secret);
    assert w'.db == w.db.(bootstrap := w'.db.bootstrap) && w'.hist == w.hist.(bootstrap := w'.hist.bootstrap);
    SameRowsContinue(w.hist.digests, w.db, w'.db);
  }

  lemma CreateFirstContinues(w: World, token: Secret, username: string, password: Password, policy: Policy, salt: nat,
                             now: nat, id: UserId)
    requires Positive64(id) && BootstrapOk(w.db.bootstrap, w.hist.bootstrap)
    ensures Continues(w, StepCreateFirst(w, token, username, password, policy, salt, now, id))
  {
    FirstShape(w, token, username, password, policy, salt, now, id);
    var tx := CreateInitialAdministrator(w.db, token, username, password, policy, salt, now, id);
    if tx.result.Ok? { AddingContinues(w.hist.digests, w.db, tx.db, id); }
  }

  lemma CreateContinues(w: World, username: string, password: Password, policy: Policy, role: int, forceChange: bool,
                        salt: nat, now: nat, id: UserId)
    requires Positive64(id) && id !in w.db.users
    ensures Continues(w, StepCreateUser(w, username, password, policy, role, forceChange, salt, now, id))
  {
    CreateShape(w.db, username, password, policy, role, forceChange, salt, now, id);
    var tx := UserCreate(w.db, username, password, policy, role, forceChange, salt, now, id);
    if tx.result.Ok? { AddingContinues(w.hist.digests, w.db, tx.db, id); }
  }

  lemma RevokingContinues(tokens: map<nat, Token>, id: UserId, now: nat)
    ensures TokensContinue(tokens, TokensRevoked(tokens, id, now))
  {
  }

  /** Sessions go, tokens may be revoked; what is left is who stays administrator. */
  lemma MovingContinues(digests: set<Digest>, db: Db, db': Db, id: UserId)
    requires MovesEpoch(db, db', id) && TokensContinue(db.tokens, db'.tokens)
    requires EnabledAdministrators(db) != {} ==> EnabledAdministrators(db') != {}
    ensures RowsContinue(digests, db, db')
  {
  }

  lemma UpdateContinues(digests: set<Digest>, db: Db, id: UserId, expected: nat, update: Update, now: nat)
    requires TablesOk(db)
    ensures RowsContinue(digests, db, UserUpdate(db, id, expected, update, now).db)
  {
    var tx := UserUpdate(db, id, expected, update, now);
    UpdateShape(db, id, expected, update, now);
    if tx.result.Ok? {
      RevokingContinues(db.tokens, id, now);
      UpdateKeepsAdministrators(db, id, expected, update, now);
      MovingContinues(digests, db, tx.db, id);
    }
  }

  /** The last enabled administrator is neither disabled nor demoted. */
  lemma UpdateKeepsAdministrators(db: Db, id: UserId, expected: nat, update: Update, now: nat)
    ensures EnabledAdministrators(db) != {} ==>
              EnabledAdministrators(UserUpdate(db, id, expected, update, now).db) != {}
  {
    var tx := UserUpdate(db, id, expected, update, now);
    var before := EnabledAdministrators(db);
    if tx.result.Ok? && before != {} {
      if id in before && (!update.enabled || update.role != Access.ADMINISTRATOR) {
        AnotherMember(before, id);
        var u :| u in before && u != id;
        assert u in EnabledAdministrators(tx.db);
      } else {
        var u :| u in before;
        assert u in EnabledAdministrators(tx.db);
      }
    }
  }

  lemma AnotherMember(s: set<UserId>, u: UserId)
    requires |s| > 1
    ensures exists v :: v in s && v != u
  {
    assert |s - {u}| >= |s| - 1 > 0;
    var v :| v in s - {u};
  }

  lemma ResetStanding(db: Db, id: UserId, expected: nat, password: Password, policy: Policy, forceChange: bool,
                      salt: nat, now: nat)
    ensures KeepsStanding(db, ResetPassword(db, id, expected, password, policy, forceChange, salt, now).db)
  {
    var db' := ResetPassword(db, id, expected, password, policy, forceChange, salt, now).db;
    assert db' == db || (id in db.users && id in db'.users && db'.users[id].enabled == db.users[id].enabled
                         && db' == db.(users := db.users[id := db'.users[id]], sessions := db'.sessions,
                                       tokens := db'.tokens));
  }

  lemma ResetContinues(w: World, id: UserId, expected: nat, password: Password, policy: Policy, forceChange: bool,
                       salt: nat, now: nat)
    requires TablesOk(w.db)
    ensures Continues(w, StepReset(w, id, expected, password, policy, forceChange, salt, now))
  {
    var tx := ResetPassword(w.db, id, expected, password, policy, forceChange, salt, now);
    ResetShape(w.db, id, expected, password, policy, forceChange, salt, now);
    if tx.result.Ok? {
      RevokingContinues(w.db.tokens, id, now);
      ResetStanding(w.db, id, expected, password, policy, forceChange, salt, now);
      StandingKeepsAdministrators(w.db, tx.db);
      MovingContinues(w.hist.digests, w.db, tx.db, id);
    }
  }

  // ---- Second factors ----

  lemma CommitContinues(w: World, attempt: Attempt)
    requires TablesOk(w.db) && AttemptOk(attempt)
    ensures Continues(w, StepCommitLogin(w, attempt))
  {
    CommitShape(w.db, attempt);
    SameRowsContinue(w.hist.digests, w.db, LoginCommit(w.db, attempt).db);
  }

  lemma ProvisionContinues(digests: set<Digest>, db: Db, id: UserId, key: nat, nonce: nat, secret: Secret, now: nat)
    ensures RowsContinue(digests, db, TotpProvision(db, id, key, nonce, secret, now).db)
  {
    ProvisionShape(db, id, key, nonce, secret, now);
    SameRowsContinue(digests, db, TotpProvision(db, id, key, nonce, secret, now).db);
  }

  lemma ConfirmStanding(verify: Oracle, db: Db, id: UserId, key: nat, code: nat, now: nat, drawn: seq<Secret>)
    requires |drawn| == RECOVERY_CODE_COUNT
    ensures KeepsStanding(db, TotpConfirm(verify, db, id, key, code, now, drawn).db)
  {
  }

  lemma ConfirmContinues(verify: Oracle, w: World, id: UserId, key: nat, code: nat, now: nat, drawn: seq<Secret>)
    requires TablesOk(w.db) && |drawn| == RECOVERY_CODE_COUNT
    ensures Continues(w, StepConfirm(verify, w, id, key, code, now, drawn))
  {
    var tx := TotpConfirm(verify, w.db, id, key, code, now, drawn);
    ConfirmShape(verify, w.db, id, key, code, now, drawn);
    if tx.result.Ok? {
      ConfirmStanding(verify, w.db, id, key, code, now, drawn);
      StandingKeepsAdministrators(w.db, tx.db);
      MovingContinues(w.hist.digests, w.db, tx.db, id);
    }
  }

  lemma DisableStanding(db: Db, id: UserId, expected: nat)
    ensures KeepsStanding(db, TotpDisable(db, id, expected).db)
  {
  }

  lemma DisableContinues(digests: set<Digest>, db: Db, id: UserId, expected: nat)
    requires TablesOk(db)
    ensures RowsContinue(digests, db, TotpDisable(db, id, expected).db)
  {
    var tx := TotpDisable(db, id, expected);
    DisableShape(db, id, expected);
    if tx.result.Ok? {
      DisableStanding(db, id, expected);
      StandingKeepsAdministrators(db, tx.db);
      MovingContinues(digests, db, tx.db, id);
    }
  }

  lemma RecoverContinues(w: World, grant: Grant, secret: Secret, now: nat)
    ensures Continues(w, StepRecover(w, grant, secret, now))
  {
    var tx := RecoveryAuthenticate(w.db, grant.identity, secret, now);
    RecoverShape(w.db, grant.identity, secret, now);
    SameRowsContinue(w.hist.digests, w.db, tx.db);
  }

  // ---- Sessions ----

  lemma OneTableContinues(digests: set<Digest>, db: Db, db': Db)
    requires db'.users == db.users && db'.roles == db.roles
    requires SessionsContinue(digests, db.sessions, db'.sessions)
    requires TokensContinue(db.tokens, db'.tokens)
    requires MappingsContinue(db.mappings, db'.mappings)
    ensures RowsContinue(digests, db, db')
  {
    StandingKeepsAdministrators(db, db');
  }

  lemma IssueSessionContinues(w: World, grant: Grant, now: nat, lifetime: nat, remote: Option<seq<byte>>,
                              session: Secret, csrf: Secret)
    requires Digest(session) !in w.hist.digests
    ensures Continues(w, StepIssueSession(w, grant, now, lifetime, remote, session, csrf))
  {
    IssueWrites(w.db, grant.identity, now, lifetime, remote, session, csrf);
    OneTableContinues(w.hist.digests, w.db,
                      SessionIssue(w.db, grant.identity, now, lifetime, remote, session, csrf).db);
  }

  lemma IssueWrites(db: Db, identity: Identity, now: nat, lifetime: nat, remote: Option<seq<byte>>, session: Secret,
                    csrf: Secret)
    ensures var tx := SessionIssue(db, identity, now, lifetime, remote, session, csrf);
            if tx.result.Err? then tx.db == db
            else tx.db == db.(sessions := db.sessions[Digest(session) :=
                   Session(identity.userId, Digest(csrf), now, now + lifetime, now, remote, identity.epoch)])
  {
  }

  lemma TouchContinues(digests: set<Digest>, db: Db, session: Secret, now: nat)
    requires SessionsOk(db.users, db.sessions)
    ensures RowsContinue(digests, db, SessionTouch(db, session, now).db)
  {
    TouchWrites(db, session, now);
    OneTableContinues(digests, db, SessionTouch(db, session, now).db);
  }

  lemma RevokeSessionContinues(digests: set<Digest>, db: Db, session: Secret)
    ensures RowsContinue(digests, db, SessionRevoke(db, session).db)
  {
    RevokeWrites(db, session);
    OneTableContinues(digests, db, SessionRevoke(db, session).db);
  }

  lemma RevokeWrites(db: Db, session: Secret)
    ensures var db' := SessionRevoke(db, session).db;
            db' == db || db' == db.(sessions := db.sessions - {Digest(session)})
  {
  }

  lemma RevokeAllContinues(digests: set<Digest>, db: Db, id: UserId)
    requires TablesOk(db)
    ensures RowsContinue(digests, db, SessionsRevokeAll(db, id).db)
  {
    var tx := SessionsRevokeAll(db, id);
    RevokeAllShape(db, id);
    if tx.result.Ok? {
      StandingKeepsAdministrators(db, tx.db);
      MovingContinues(digests, db, tx.db, id);
    }
  }

  // ---- Tokens and mappings ----

  lemma IssueTokenContinues(w: World, id: UserId, config: Tokens.Config, now: nat, tokenId: nat, secret: Secret)
    requires Positive64(tokenId) && tokenId !in w.db.tokens
    ensures Continues(w, StepIssueToken(w, id, config, now, tokenId, secret))
  {
    IssueTokenShape(w.db, id, config, now, tokenId, secret);
    OneTableContinues(w.hist.digests, w.db, Tokens.TokenIssue(w.db, id, config, now, tokenId, secret).db);
  }

  lemma TouchTokenContinues(digests: set<Digest>, db: Db, id: nat, now: nat)
    ensures RowsContinue(digests, db, Tokens.TokenTouch(db, id, now).db)
  {
    TokenWrites(db, id, now);
    OneTableContinues(digests, db, Tokens.TokenTouch(db, id, now).db);
  }

  lemma RevokeTokenContinues(digests: set<Digest>, db: Db, id: nat, now: nat)
    ensures RowsContinue(digests, db, Tokens.TokenRevoke(db, id, now).db)
  {
    TokenWrites(db, id, now);
    OneTableContinues(digests, db, Tokens.TokenRevoke(db, id, now).db);
  }

  lemma CreateMappingWrites(db: Db, config: Mtls.Config, now: nat, id: nat)
    ensures var db' := MappingCreate(db, config, now, id).db;
            db' == db || (&& id in db'.mappings && db' == db.(mappings := db.mappings[id := db'.mappings[id]])
                          && forall m :: m in db.mappings ==>
                               db.mappings[m].fingerprint != db'.mappings[id].fingerprint)
  {
  }

  lemma RevokeMappingWrites(db: Db, id: nat, now: nat)
    ensures var db' := MappingRevoke(db, id, now).db;
            db' == db || (id in db.mappings
                          && db' == db.(mappings := db.mappings[id := Mtls.Revoked(db.mappings[id], now)]))
  {
  }

  lemma CreateMappingContinues(digests: set<Digest>, db: Db, config: Mtls.Config, now: nat, id: nat)
    requires id !in db.mappings
    ensures RowsContinue(digests, db, MappingCreate(db, config, now, id).db)
  {
    CreateMappingWrites(db, config, now, id);
    OneTableContinues(digests, db, MappingCreate(db, config, now, id).db);
  }

  lemma RevokeMappingContinues(digests: set<Digest>, db: Db, id: nat, now: nat)
    ensures RowsContinue(digests, db, MappingRevoke(db, id, now).db)
  {
    RevokeMappingWrites(db, id, now);
    OneTableContinues(digests, db, MappingRevoke(db, id, now).db);
  }

  // ---- Every step ----

  lemma AdministrationContinues(verify: Oracle, w: World, a: Action)
    requires Inv(verify, w) && Enabled(w, a) && Administers(a)
    ensures Continues(w, Next(verify, w, a))
  {
    if a.IssueBootstrap? {
      BootstrapContinues(w, a.now, a.lifetime, a.secret);
    } else if a.CreateFirst? {
      CreateFirstContinues(w, a.token, a.username, a.password, a.policy, a.salt, a.now, a.id);
    } else if a.CreateUser? {
      CreateContinues(w, a.username, a.password, a.policy, a.role, a.forceChange, a.salt, a.now, a.id);
    } else if a.UpdateUser? {
      UpdateContinues(w.hist.digests, w.db, a.id, a.expected, a.update, a.now);
    } else {
      ResetContinues(w, a.id, a.expected, a.password, a.policy, a.forceChange, a.salt, a.now);
    }
  }

  /** Reads leave the tables alone and may hand out an identity. */
  lemma ReadContinues(w: World, hist: History)
    requires hist == w.hist.(attempts := hist.attempts, readings := hist.readings, changes := hist.changes,
                             grants := hist.grants)
    requires w.hist.grants <= hist.grants
    ensures Continues(w, w.(hist := hist))
  {
    SameRowsContinue(w.hist.digests, w.db, w.db);
  }

  lemma BeginLoginContinues(w: World, username: string, password: Password, policy: Policy, salt: nat, now: nat)
    ensures Continues(w, StepBeginLogin(w, username, password, policy, salt, now))
  {
    ReadContinues(w, StepBeginLogin(w, username, password, policy, salt, now).hist);
  }

  lemma ResumeContinues(w: World, session: Secret, csrf: Option<Secret>, now: nat, timeout: nat,
                        remote: Option<seq<byte>>)
    ensures Continues(w, StepResume(w, session, csrf, now, timeout, remote))
  {
    var w' := StepResume(w, session, csrf, now, timeout, remote);
    assert w' == w.(hist := w.hist.(grants := w'.hist.grants));
    ReadContinues(w, w'.hist);
  }

  lemma BeginTotpContinues(w: World, grant: Grant)
    ensures Continues(w, StepBeginTotp(w, grant))
  {
    ReadContinues(w, StepBeginTotp(w, grant).hist);
  }

  lemma NextReadContinues(w: World, reading: Reading)
    ensures Continues(w, StepNextRead(w, reading))
  {
    var w' := StepNextRead(w, reading);
    assert w' == w.(hist := w.hist.(readings := w'.hist.readings));
    ReadContinues(w, w'.hist);
  }

  lemma FinishContinues(verify: Oracle, w: World, reading: Reading, key: nat, code: nat, now: nat)
    ensures Continues(w, StepFinishTotp(verify, w, reading, key, code, now))
  {
    ReadContinues(w, StepFinishTotp(verify, w, reading, key, code, now).hist);
  }

  lemma LoginContinues(verify: Oracle, w: World, a: Action)
    requires Inv(verify, w) && Enabled(w, a) && LogsIn(a)
    ensures Continues(w, Next(verify, w, a))
  {
    if a.CommitLogin? {
      CommitContinues(w, a.attempt);
    } else if a.Recover? {
      RecoverContinues(w, a.grant, a.secret, a.now);
    } else if a.BeginLogin? {
      BeginLoginContinues(w, a.username, a.password, a.policy, a.salt, a.now);
    } else if a.ResumeSession? {
      ResumeContinues(w, a.session, a.proof, a.now, a.timeout, a.remote);
    } else if a.BeginTotp? {
      BeginTotpContinues(w, a.grant);
    } else if a.NextRead? {
      NextReadContinues(w, a.reading);
    } else {
      FinishContinues(verify, w, a.reading, a.key, a.code, a.now);
    }
  }

  lemma EnrolmentContinues(verify: Oracle, w: World, a: Action)
    requires Inv(verify, w) && Enabled(w, a) && Enrols(a)
    ensures Continues(w, Next(verify, w, a))
  {
    if a.Provision? {
      ProvisionContinues(w.hist.digests, w.db, a.id, a.key, a.nonce, a.secret, a.now);
    } else if a.Confirm? {
      ConfirmContinues(verify, w, a.id, a.key, a.code, a.now, a.drawn);
    } else if a.Disable? {
      DisableContinues(w.hist.digests, w.db, a.id, a.expected);
    } else if a.IssueSession? {
      IssueSessionContinues(w, a.grant, a.now, a.lifetime, a.remote, a.session, a.csrf);
    } else if a.TouchSession? {
      TouchContinues(w.hist.digests, w.db, a.session, a.now);
    } else {
      RevokeSessionContinues(w.hist.digests, w.db, a.session);
    }
  }

  lemma BeginChangeContinues(w: World, session: Secret, csrf: Secret, now: nat, timeout: nat,
                             remote: Option<seq<byte>>)
    ensures Continues(w, StepBeginChange(w, session, csrf, now, timeout, remote))
  {
    var w' := StepBeginChange(w, session, csrf, now, timeout, remote);
    assert w' == w.(hist := w.hist.(changes := w'.hist.changes));
    ReadContinues(w, w'.hist);
  }

  lemma ChangePasswordContinues(w: World, change: Change, login: Grant, password: Password, policy: Policy,
                                salt: nat, now: nat)
    requires TablesOk(w.db)
    ensures Continues(w, StepChangePassword(w, change, login, password, policy, salt, now))
  {
    var tx, id := ChangeReset(w.db, change, login, password, policy, salt, now), change.identity.userId;
    ChangeShape(w.db, change, login, password, policy, salt, now);
    if tx.result.Ok? {
      RevokingContinues(w.db.tokens, id, now);
      StandingKeepsAdministrators(w.db, tx.db);
      MovingContinues(w.hist.digests, w.db, tx.db, id);
    }
  }

  lemma RenewContinues(w: World, change: Change, login: Grant)
    ensures Continues(w, StepRenew(w, change, login))
  {
    ReadContinues(w, StepRenew(w, change, login).hist);
  }

  lemma ChangeContinues(verify: Oracle, w: World, a: Action)
    requires Inv(verify, w) && Enabled(w, a) && ChangesOwn(a)
    ensures Continues(w, Next(verify, w, a))
  {
    if a.BeginChange? {
      BeginChangeContinues(w, a.session, a.csrf, a.now, a.timeout, a.remote);
    } else if a.ChangePassword? {
      ChangePasswordContinues(w, a.change, a.login, a.password, a.policy, a.salt, a.now);
    } else {
      RenewContinues(w, a.change, a.login);
    }
  }

  lemma OthersContinue(verify: Oracle, w: World, a: Action)
    requires Inv(verify, w) && Enabled(w, a) && Remains(a)
    ensures Continues(w, Next(verify, w, a))
  {
    if a.RevokeSessions? {
      RevokeAllContinues(w.hist.digests, w.db, a.id);
    } else if a.IssueToken? {
      IssueTokenContinues(w, a.id, a.config, a.now, a.tokenId, a.secret);
    } else if a.TouchToken? {
      TouchTokenContinues(w.hist.digests, w.db, a.tokenId, a.now);
    } else if a.RevokeToken? {
      RevokeTokenContinues(w.hist.digests, w.db, a.tokenId, a.now);
    } else if a.CreateMapping? {
      CreateMappingContinues(w.hist.digests, w.db, a.mapping, a.now, a.mappingId);
    } else {
      RevokeMappingContinues(w.hist.digests, w.db, a.mappingId, a.now);
    }
  }

  lemma StepContinues(verify: Oracle, run: Run, i: nat)
    requires i < |run.actions| && |run.states| == |run.actions| + 1 && StepAt(verify, run, i)
    requires Inv(verify, run.states[i])
    ensures Continues(run.states[i], run.states[i + 1])
  {
    var w, a := run.states[i], run.actions[i];
    if Administers(a) { AdministrationContinues(verify, w, a); }
    else if LogsIn(a) { LoginContinues(verify, w, a); }
    else if Enrols(a) { EnrolmentContinues(verify, w, a); }
    else if ChangesOwn(a) { ChangeContinues(verify, w, a); }
    else { OthersContinue(verify, w, a); }
  }

  lemma RunStepContinues(verify: Oracle, run: Run, i: nat)
    requires IsRun(verify, run) && i < |run.actions|
    ensures Continues(run.states[i], run.states[i + 1])
  {
    RunKeeps(verify, run, i);
    StepContinues(verify, run, i);
  }

  lemma {:induction false} ChainContinues(worlds: seq<World>, i: nat, j: nat)
    requires i <= j < |worlds| && forall k :: i <= k < j ==> Continues(worlds[k], worlds[k + 1])
    ensures Continues(worlds[i], worlds[j])
    decreases j
  {
    if i < j {
      ChainContinues(worlds, i, j - 1);
      ContinuesTransitive(worlds[i], worlds[j - 1], worlds[j]);
    }
  }

  /** From any world of a run to any later one, ended sessions stay ended, revoked
      tokens and mappings stay revoked, and an administrator remains. */
  lemma RunContinues(verify: Oracle, run: Run, i: nat, j: nat)
    requires IsRun(verify, run) && i <= j < |run.states|
    ensures Continues(run.states[i], run.states[j])
  {
    forall k: nat | i <= k < j ensures Continues(run.states[k], run.states[k + 1]) {
      RunStepContinues(verify, run, k);
    }
    ChainContinues(run.states, i, j);
  }
}
