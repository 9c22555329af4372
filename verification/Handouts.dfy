/** Which step of a run hands out an identity, and which makes or goes on with a
    password change. */
module Handouts {
  import opened Base
  import opened Schema
  import opened Users
  import opened Sessions
  import opened Totp
  import opened World
  import opened Invariant
  import opened KeepLogin
  import opened KeepFactors
  import opened Reach

  /** The step hands out this grant: a login committed, a TOTP code was right, a
      recovery code was consumed, a session was resumed, or a password change was
      finished. */
  ghost predicate HandsOut(verify: Oracle, w: World, a: Action, grant: Grant) {
    match a
    case CommitLogin(attempt) =>
      LoginCommit(w.db, attempt).result == Ok(grant.identity)
      && grant.password == attempt.password && grant.factor == NoFactor
    case FinishTotp(reading, key, code, now) =>
      CheckCode(verify, w.db, reading.current, key, code, now) == Ok(grant.identity)
      && TotpEnabled(w.db.totp, grant.identity.userId)
      && grant.password == reading.grant.password
      && grant.factor == CodeFactor(w.db.totp[grant.identity.userId], code, now)
      && grant.enrolment == Enrolment(w.hist.enrolments, grant.identity.userId)
    case Recover(earlier, secret, now) =>
      RecoveryAuthenticate(w.db, earlier.identity, secret, now).result == Ok(grant.identity)
      && grant.password == earlier.password && grant.factor == RecoveryFactor(Digest(secret))
      && grant.enrolment == Enrolment(w.hist.enrolments, grant.identity.userId)
    case ResumeSession(session, csrf, now, timeout, remote) =>
      grant.factor == Resumed
      && SessionValidate(w.db, session, csrf, now, timeout, remote).Ok?
      && grant.identity ==
           SessionValidate(w.db, session, csrf, now, timeout, remote).value.(mfaComplete := false)
      && Digest(session) in w.hist.provenance
      && grant.password == w.hist.provenance[Digest(session)].password
    case RenewIdentity(change, login) => Renewable(change, login.identity) && grant == Renewed(change, login)
    case _ => false
  }

  /** A step that leaves sessions, mappings and password changes alone and adds at
      most one grant. */
  ghost predicate Hands(verify: Oracle, w: World, a: Action, w': World) {
    && w'.db.sessions == w.db.sessions && w'.db.mappings == w.db.mappings && w'.hist.changes == w.hist.changes
    && forall g :: g in w'.hist.grants ==> g in w.hist.grants || HandsOut(verify, w, a, g)
  }

  lemma CommitHands(verify: Oracle, w: World, a: Action)
    requires a.CommitLogin? && TablesOk(w.db) && AttemptOk(a.attempt)
    ensures Hands(verify, w, a, StepCommitLogin(w, a.attempt))
  {
    CommitShape(w.db, a.attempt);
  }

  lemma FinishHands(verify: Oracle, w: World, a: Action)
    requires a.FinishTotp?
    ensures Hands(verify, w, a, StepFinishTotp(verify, w, a.reading, a.key, a.code, a.now))
  {
  }

  lemma RecoverHands(verify: Oracle, w: World, a: Action)
    requires a.Recover?
    ensures Hands(verify, w, a, StepRecover(w, a.grant, a.secret, a.now))
  {
    RecoverShape(w.db, a.grant.identity, a.secret, a.now);
  }

  lemma ResumeHands(verify: Oracle, w: World, a: Action)
    requires a.ResumeSession?
    ensures Hands(verify, w, a, StepResume(w, a.session, a.proof, a.now, a.timeout, a.remote))
  {
  }

  /** The reads that hand out nothing yet. */
  lemma BeginHands(verify: Oracle, w: World, a: Action)
    requires a.BeginLogin?
    ensures Hands(verify, w, a, StepBeginLogin(w, a.username, a.password, a.policy, a.salt, a.now))
  {
  }

  lemma ReadHands(verify: Oracle, w: World, a: Action)
    ensures a.BeginTotp? ==> Hands(verify, w, a, StepBeginTotp(w, a.grant))
    ensures a.NextRead? ==> Hands(verify, w, a, StepNextRead(w, a.reading))
  {
  }

  lemma LoginHands(verify: Oracle, w: World, a: Action)
    requires Inv(verify, w) && Enabled(w, a) && LogsIn(a)
    ensures Hands(verify, w, a, Next(verify, w, a))
  {
    if a.CommitLogin? {
      CommitHands(verify, w, a);
    } else if a.FinishTotp? {
      FinishHands(verify, w, a);
    } else if a.Recover? {
      RecoverHands(verify, w, a);
    } else if a.ResumeSession? {
      ResumeHands(verify, w, a);
    } else if a.BeginLogin? {
      BeginHands(verify, w, a);
    } else {
      ReadHands(verify, w, a);
    }
  }

  /** The step makes this password change: it validated the session, or reset the
      password. */
  predicate Makes(w: World, a: Action, change: Change) {
    match a
    case BeginChange(session, csrf, now, timeout, remote) =>
      SessionValidate(w.db, session, Some(csrf), now, timeout, remote) == Ok(change.identity)
      && Digest(session) in w.hist.provenance
      && change == Change(change.identity, w.hist.provenance[Digest(session)], change.identity.revision, false)
    case ChangePassword(earlier, login, password, policy, salt, now) =>
      var tx := ChangeReset(w.db, earlier, login, password, policy, salt, now);
      tx.result.Ok? && change == earlier.(revision := tx.result.value.revision, done := true)
    case _ => false
  }

  lemma BeginMakes(w: World, a: Action)
    requires a.BeginChange?
    ensures var w' := StepBeginChange(w, a.session, a.csrf, a.now, a.timeout, a.remote);
            && w'.hist.grants == w.hist.grants && w'.db == w.db
            && forall c :: c in w'.hist.changes ==> c in w.hist.changes || Makes(w, a, c)
  {
  }

  lemma ResetMakes(w: World, a: Action)
    requires a.ChangePassword?
    ensures var w' := StepChangePassword(w, a.change, a.login, a.password, a.policy, a.salt, a.now);
            && w'.hist.grants == w.hist.grants
            && forall c :: c in w'.hist.changes ==> c in w.hist.changes || Makes(w, a, c)
  {
  }

  lemma ChangeHands(verify: Oracle, w: World, a: Action)
    requires Enabled(w, a) && ChangesOwn(a)
    ensures var hist := Next(verify, w, a).hist;
            && (forall g :: g in hist.grants ==> g in w.hist.grants || HandsOut(verify, w, a, g))
            && (forall c :: c in hist.changes ==> c in w.hist.changes || Makes(w, a, c))
  {
    if a.BeginChange? { BeginMakes(w, a); }
    else if a.ChangePassword? { ResetMakes(w, a); }
  }

  lemma AdministrationHands(verify: Oracle, w: World, a: Action)
    requires Enabled(w, a) && Administers(a)
    ensures Next(verify, w, a).hist.grants == w.hist.grants && Next(verify, w, a).hist.changes == w.hist.changes
  {
  }

  lemma OthersHand(verify: Oracle, w: World, a: Action)
    requires Enabled(w, a) && !Administers(a) && !LogsIn(a) && !ChangesOwn(a)
    ensures Next(verify, w, a).hist.grants == w.hist.grants && Next(verify, w, a).hist.changes == w.hist.changes
  {
  }

  lemma StepHands(verify: Oracle, w: World, a: Action)
    requires Inv(verify, w) && Enabled(w, a)
    ensures var hist := Next(verify, w, a).hist;
            && (forall g :: g in hist.grants ==> g in w.hist.grants || HandsOut(verify, w, a, g))
            && (forall c :: c in hist.changes ==> c in w.hist.changes || Makes(w, a, c))
  {
    if Administers(a) { AdministrationHands(verify, w, a); }
    else if LogsIn(a) { LoginHands(verify, w, a); }
    else if ChangesOwn(a) { ChangeHands(verify, w, a); }
    else { OthersHand(verify, w, a); }
  }

  lemma RunStepHands(verify: Oracle, run: Run, i: nat)
    requires IsRun(verify, run) && i < |run.actions|
    ensures forall g :: g in run.states[i + 1].hist.grants ==>
              g in run.states[i].hist.grants || HandsOut(verify, run.states[i], run.actions[i], g)
    ensures forall c :: c in run.states[i + 1].hist.changes ==>
              c in run.states[i].hist.changes || Makes(run.states[i], run.actions[i], c)
  {
    assert StepAt(verify, run, i);
    RunKeeps(verify, run, i);
    StepHands(verify, run.states[i], run.actions[i]);
  }

  lemma InitialTables(verify: Oracle, run: Run)
    requires IsRun(verify, run)
    ensures |run.states| == |run.actions| + 1
    ensures run.states[0].hist.grants == {} && run.states[0].hist.changes == {}
    ensures run.states[0].db.sessions == map[] && run.states[0].db.mappings == map[]
  {
  }

  /** Every grant of a run was handed out by some step. */
  lemma {:induction false} GrantedAt(verify: Oracle, run: Run, k: nat, grant: Grant) returns (i: nat)
    requires IsRun(verify, run) && k < |run.states| && grant in run.states[k].hist.grants
    ensures i < k && HandsOut(verify, run.states[i], run.actions[i], grant)
    decreases k
  {
    InitialTables(verify, run);
    RunStepHands(verify, run, k - 1);
    if grant in run.states[k - 1].hist.grants {
      i := GrantedAt(verify, run, k - 1, grant);
    } else {
      i := k - 1;
    }
  }

  /** Every password change of a run was made by some step. */
  lemma {:induction false} MadeAt(verify: Oracle, run: Run, k: nat, change: Change) returns (x: nat)
    requires IsRun(verify, run) && k < |run.states| && change in run.states[k].hist.changes
    ensures x < k && Makes(run.states[x], run.actions[x], change)
    decreases k
  {
    InitialTables(verify, run);
    RunStepHands(verify, run, k - 1);
    if change in run.states[k - 1].hist.changes {
      x := MadeAt(verify, run, k - 1, change);
    } else {
      x := k - 1;
    }
  }
}
