/** A run in which a session is live whose second factor was accepted under an
    earlier epoch: an administrator enrols, logs in with a recovery code, and changes
    the password. */
module OlderFactor {
  import opened Base
  import opened Schema
  import opened Users
  import opened Sessions
  import opened Totp
  import opened World
  import opened Invariant
  import opened KeepFactors
  import opened Reach
  import opened Growth
  import opened Recovery
  import opened Handouts
  import opened Origins
  import opened Witnesses
  import opened Renewal

  const NOW: nat := 1

  // ---- Enrolment ----

  lemma ProvisionExtends(verify: Oracle, run: Run, id: UserId, key: nat, nonce: nat, secret: Secret, now: nat)
    returns (longer: Run)
    requires IsRun(verify, run) && id in End(run).db.users && End(run).db.users[id].enabled
    requires !TotpEnabled(End(run).db.totp, id) && Positive64(now)
    ensures IsRun(verify, longer) && run.states <= longer.states
    ensures var db := End(run).db;
            var credential := Credential(Sealed(key, nonce, secret), false, now);
            End(longer) == End(run).(db := db.(totp := db.totp[id := credential], codes := db.codes - {id}))
  {
    var a := Provision(id, key, nonce, secret, now);
    RunKeeps(verify, run, |run.actions|);
    var db := End(run).db;
    assert UserOk(id, db.users[id]) && RolesOk(db.roles[id]);
    PermissionsLoad(db.roles, id);
    ExtendIsRun(verify, run, a);
    longer := Extend(verify, run, a);
  }

  /** Ten fresh recovery codes. */
  predicate Drawn(drawn: seq<Secret>, digests: set<Digest>) {
    && |drawn| == RECOVERY_CODE_COUNT && AllDistinct(drawn) && Digests(drawn) !! digests
    && |drawn[0]| == SECRET_TEXT_SIZE
  }

  lemma ConfirmExtends(verify: Oracle, run: Run, id: UserId, code: nat, now: nat, drawn: seq<Secret>)
    returns (longer: Run)
    requires IsRun(verify, run) && Drawn(drawn, End(run).hist.digests) && Positive64(now) && code < CODE_LIMIT
    requires id in End(run).db.totp && !End(run).db.totp[id].enabled
    requires verify(End(run).db.totp[id].sealed.secret, now, code)
    requires id in End(run).db.users && CanAdvance(End(run).db.users[id])
    ensures IsRun(verify, longer) && run.states <= longer.states
    ensures var w, db := End(run), End(run).db;
            End(longer) == World(db.(users := db.users[id := Advanced(db.users[id])],
                                     sessions := WithoutSessionsOf(db.sessions, id),
                                     totp := db.totp[id := db.totp[id].(enabled := true)],
                                     codes := db.codes[id := NewCodes(drawn, now)]),
                                 ConfirmedHistory(w.hist, id, drawn))
  {
    var a := Confirm(id, End(run).db.totp[id].sealed.key, code, now, drawn);
    RunKeeps(verify, run, |run.actions|);
    assert UserOk(id, End(run).db.users[id]);
    ExtendIsRun(verify, run, a);
    longer := Extend(verify, run, a);
  }

  // ---- Recovery ----

  lemma RecoverWorks(db: Db, id: UserId, secret: Secret, now: nat)
    requires UsersOk(db.users, db.roles) && id in db.users && db.users[id].enabled && TotpEnabled(db.totp, id)
    requires |secret| == SECRET_TEXT_SIZE && Positive64(now)
    requires Digest(secret) in CodesOf(db.codes, id)
    requires CodesOf(db.codes, id)[Digest(secret)] == RecoveryCode(now, None)
    ensures LoadPermissions(db.roles, id).Ok?
    ensures var tx := RecoveryAuthenticate(db, IdentityNow(db, id), secret, now);
            && tx.result == Ok(IdentityNow(db, id).(mfaComplete := true))
            && tx.db == db.(codes := tx.db.codes)
  {
    assert UserOk(id, db.users[id]) && RolesOk(db.roles[id]);
    PermissionsLoad(db.roles, id);
  }

  lemma RecoverExtends(verify: Oracle, run: Run, id: UserId, password: Password, secret: Secret, now: nat)
    returns (longer: Run, grant: Grant)
    requires IsRun(verify, run) && id in End(run).db.users && End(run).db.users[id].enabled
    requires TotpEnabled(End(run).db.totp, id) && |secret| == SECRET_TEXT_SIZE && Positive64(now)
    requires Digest(secret) in CodesOf(End(run).db.codes, id)
    requires CodesOf(End(run).db.codes, id)[Digest(secret)] == RecoveryCode(now, None)
    requires LoadPermissions(End(run).db.roles, id).Ok?
    requires Grant(IdentityNow(End(run).db, id), password, NoFactor, 0) in End(run).hist.grants
    ensures IsRun(verify, longer) && run.states <= longer.states
    ensures End(longer).db == End(run).db.(codes := End(longer).db.codes)
    ensures End(longer).hist.digests == End(run).hist.digests
    ensures grant in End(longer).hist.grants && grant.factor == RecoveryFactor(Digest(secret))
    ensures grant.identity == IdentityNow(End(run).db, id).(mfaComplete := true)
    ensures (id, Digest(secret)) in End(longer).hist.redeemed
  {
    var login := Grant(IdentityNow(End(run).db, id), password, NoFactor, 0);
    var a := Recover(login, secret, now);
    EndTables(verify, run);
    RecoverWorks(End(run).db, id, secret, now);
    ExtendIsRun(verify, run, a);
    longer := Extend(verify, run, a);
    grant := Grant(login.identity.(mfaComplete := true), password, RecoveryFactor(Digest(secret)),
                   Enrolment(End(run).hist.enrolments, id));
  }

  // ---- The session ----

  /** One user, enrolled, with this password and some recovery codes unspent. */
  ghost predicate Enrolled(w: World, password: Password, code: Secret) {
    && 1 in w.db.users && w.db.users[1].hash.password == password && w.db.users[1].createdAt == NOW
    && w.db.users[1].enabled && w.db.users[1].epoch == 2 && w.db.users[1].revision == 2
    && w.db.tokens == map[] && TotpEnabled(w.db.totp, 1)
    && Digest(code) in CodesOf(w.db.codes, 1) && CodesOf(w.db.codes, 1)[Digest(code)] == RecoveryCode(NOW, None)
  }

  lemma EnrolledRun(verify: Oracle, password: Password, policy: Policy, secret: Secret, right: nat, drawn: seq<Secret>)
    returns (run: Run)
    requires Fits(password, policy) && Drawn(drawn, {}) && right < CODE_LIMIT && verify(secret, NOW, right)
    ensures IsRun(verify, run) && Enrolled(End(run), password, drawn[0])
    ensures End(run).hist.digests == Digests(drawn)
  {
    var one := OneUserRun(verify, password, policy);
    var provisioned := ProvisionExtends(verify, one, 1, 0, 0, secret, NOW);
    run := ConfirmExtends(verify, provisioned, 1, right, NOW, drawn);
  }

  /** A user with TOTP and a session opened by a recovery code. */
  ghost predicate RecoveredSession(w: World, password: Password, code: Secret, session: Secret, csrf: Secret) {
    && 1 in w.db.users && w.db.users[1].hash.password == password && w.db.users[1].createdAt == NOW
    && w.db.users[1].epoch == 2 && w.db.users[1].revision == 2 && w.db.tokens == map[]
    && SessionValidate(w.db, session, Some(csrf), NOW, INACTIVITY_MIN, None).Ok?
    && SessionValidate(w.db, session, Some(csrf), NOW, INACTIVITY_MIN, None).value.userId == 1
    && Digest(session) in w.hist.provenance
    && w.hist.provenance[Digest(session)].factor == RecoveryFactor(Digest(code))
    && (1, Digest(code)) in w.hist.redeemed
  }

  /** The login and the recovery code. */
  lemma CodeFollows(verify: Oracle, run: Run, password: Password, policy: Policy, code: Secret)
    returns (longer: Run, grant: Grant)
    requires IsRun(verify, run) && Enrolled(End(run), password, code) && Fits(password, policy)
    requires |code| == SECRET_TEXT_SIZE
    ensures IsRun(verify, longer) && End(longer).hist.digests == End(run).hist.digests
    ensures grant in End(longer).hist.grants && grant.factor == RecoveryFactor(Digest(code))
    ensures grant.identity.userId == 1 && grant.identity.epoch == 2 && grant.identity.mfaComplete
    ensures var w := End(longer);
            && 1 in w.db.users && w.db.users[1].hash.password == password && w.db.users[1].createdAt == NOW
            && w.db.users[1].enabled && w.db.users[1].epoch == 2 && w.db.users[1].revision == 2
            && w.db.tokens == map[] && (1, Digest(code)) in w.hist.redeemed
  {
    var within := LoginWorks(verify, run, 1, password, policy, 0, NOW);
    longer, grant := RecoverExtends(verify, within, 1, password, code, NOW);
  }

  lemma SessionByCode(verify: Oracle, run: Run, password: Password, policy: Policy, code: Secret, session: Secret,
                      csrf: Secret) returns (longer: Run)
    requires IsRun(verify, run) && Enrolled(End(run), password, code) && Fits(password, policy)
    requires |code| == SECRET_TEXT_SIZE && Issuable(End(run).hist, NOW, LIFETIME_MIN, session, csrf)
    ensures IsRun(verify, longer) && RecoveredSession(End(longer), password, code, session, csrf)
    ensures End(longer).hist.digests == End(run).hist.digests + {Digest(session)}
  {
    var within, grant := CodeFollows(verify, run, password, policy, code);
    longer := IssueExtends(verify, within, grant, NOW, LIFETIME_MIN, None, session, csrf);
    EndTables(verify, longer);
    IssuedValidates(End(longer).db, 1, session, csrf, NOW, LIFETIME_MIN, INACTIVITY_MIN, None);
  }

  // ---- After the change ----

  /** A code that was redeemed before some point was accepted before it. */
  lemma AcceptedBefore(verify: Oracle, run: Run, f: nat, m: nat, grant: Grant, code: Secret)
    requires IsRun(verify, run) && f < |run.actions| && m < |run.states|
    requires Accepts(verify, run.states[f], run.actions[f], grant) && grant.factor == RecoveryFactor(Digest(code))
    requires (grant.identity.userId, Digest(code)) in run.states[m].hist.redeemed
    ensures f < m
  {
    if m <= f {
      var a := run.actions[f];
      RunContinues(verify, run, m, f);
      StaysRedeemed(run.states[m], run.states[f], grant.identity.userId, Digest(code));
      RunKeeps(verify, run, f);
      RedeemedIsRefused(verify, run.states[f], a.grant.identity, a.secret, a.now);
    }
  }

  /** For every pair of passwords that fit a policy, every ten recovery codes and all
      fresh session secrets: in the end the new session validates and is complete, and
      its second factor, the recovery code, was accepted under an earlier epoch. */
  lemma FactorOfAnEarlierEpoch(verify: Oracle, password: Password, password': Password, policy: Policy, secret: Secret,
                               right: nat, drawn: seq<Secret>, session: Secret, csrf: Secret, session': Secret,
                               csrf': Secret) returns (run: Run, c: nat, f: nat, i: nat, j: nat)
    requires Fits(password, policy) && Fits(password', policy) && password != password'
    requires Drawn(drawn, {}) && right < CODE_LIMIT && verify(secret, NOW, right)
    requires |session| == |csrf| == |session'| == |csrf'| == SECRET_TEXT_SIZE && session != session'
    requires Digest(session) !in Digests(drawn) && Digest(session') !in Digests(drawn)
    ensures IsRun(verify, run) && |run.states| == |run.actions| + 1
    ensures SessionValidate(End(run).db, session', Some(csrf'), NOW, INACTIVITY_MIN, None).Ok?
    ensures SessionLineage(verify, run, |run.actions|, Digest(session'), 1, c, f, i, j)
    ensures EpochAt(run, f, 1) < EpochAt(run, |run.actions|, 1)
  {
    var enrolled := EnrolledRun(verify, password, policy, secret, right, drawn);
    var started := SessionByCode(verify, enrolled, password, policy, drawn[0], session, csrf);
    run := PasswordChangeRenews(verify, started, session, csrf, INACTIVITY_MIN, None, password, password', policy, 0,
                                NOW, LIFETIME_MIN, session', csrf');
    var k, m := |run.actions|, |started.actions|;
    c, f, i, j := SessionOrigin(verify, run, k, session', Some(csrf'), NOW, INACTIVITY_MIN, None);
    assert run.states[m] == End(started);
    AcceptedBefore(verify, run, f, m, run.actions[j].grant, drawn[0]);
    EpochGrows(verify, run, f, m, 1);
  }
}
