/** Where identities, password changes and sessions come from, back to the logins,
    codes and sessions of the run behind them. */
module Origins {
  import opened Base
  import opened Schema
  import opened Users
  import opened Sessions
  import opened Totp
  import opened World
  import opened Invariant
  import opened KeepLogin
  import opened KeepFactors
  import opened KeepChange
  import opened Reach
  import opened Handouts
  import opened Rows

  // ---- The password behind an identity ----

  /** Whom a grant is for, since which epoch, and by which password. */
  predicate SamePerson(grant: Grant, earlier: Grant) {
    && earlier.identity.userId == grant.identity.userId && earlier.identity.epoch == grant.identity.epoch
    && earlier.password == grant.password
  }

  /** The grant that a completing, resuming or renewing step read: that of the
      unfinished completion, of the recovery, of the session, or of the login by the new
      password. */
  function Source(w: World, a: Action): Grant
    requires a.FinishTotp? || a.Recover? || (a.ResumeSession? && Digest(a.session) in w.hist.provenance)
             || a.RenewIdentity?
  {
    match a
    case FinishTotp(reading, _, _, _) => reading.grant
    case Recover(grant, _, _) => grant
    case ResumeSession(session, _, _, _, _) => w.hist.provenance[Digest(session)]
    case RenewIdentity(_, login) => login
  }

  lemma FinishSource(verify: Oracle, w: World, a: Action, grant: Grant)
    requires Inv(verify, w) && Enabled(w, a) && HandsOut(verify, w, a, grant) && a.FinishTotp?
    ensures Source(w, a) in w.hist.grants && SamePerson(grant, Source(w, a))
  {
    assert ReadSoFar(ViewOf(w, a.reading.current.userId), a.reading);
  }

  lemma RecoverSource(verify: Oracle, w: World, a: Action, grant: Grant)
    requires Enabled(w, a) && HandsOut(verify, w, a, grant) && a.Recover?
    ensures Source(w, a) in w.hist.grants && SamePerson(grant, Source(w, a))
  {
    RecoverShape(w.db, a.grant.identity, a.secret, a.now);
  }

  lemma ResumeSource(verify: Oracle, w: World, a: Action, grant: Grant)
    requires Inv(verify, w) && HandsOut(verify, w, a, grant) && a.ResumeSession?
    ensures Source(w, a) in w.hist.grants && SamePerson(grant, Source(w, a))
  {
    assert SessionOk(w.db.users, w.db.sessions[Digest(a.session)]);
  }

  lemma StepSource(verify: Oracle, run: Run, i: nat, grant: Grant) returns (earlier: Grant)
    requires IsRun(verify, run) && i < |run.actions| && !run.actions[i].CommitLogin?
    requires HandsOut(verify, run.states[i], run.actions[i], grant)
    ensures earlier in run.states[i].hist.grants && SamePerson(grant, earlier)
  {
    var w, a := run.states[i], run.actions[i];
    assert StepAt(verify, run, i);
    RunKeeps(verify, run, i);
    earlier := Source(w, a);
    if a.FinishTotp? { FinishSource(verify, w, a, grant); }
    else if a.Recover? { RecoverSource(verify, w, a, grant); }
    else if a.ResumeSession? { ResumeSource(verify, w, a, grant); }
  }

  /** The step commits a login of this person by this password. */
  ghost predicate Commits(w: World, a: Action, grant: Grant) {
    && a.CommitLogin? && LoginCommit(w.db, a.attempt).result.Ok? && a.attempt.password == grant.password
    && LoginCommit(w.db, a.attempt).result.value.userId == grant.identity.userId
    && LoginCommit(w.db, a.attempt).result.value.epoch == grant.identity.epoch
  }

  /** The login behind the identity that a step hands out. */
  lemma {:induction false} PasswordBehind(verify: Oracle, run: Run, i: nat, grant: Grant) returns (c: nat)
    requires IsRun(verify, run) && i < |run.actions| && HandsOut(verify, run.states[i], run.actions[i], grant)
    ensures c <= i && Commits(run.states[c], run.actions[c], grant)
    decreases i
  {
    if run.actions[i].CommitLogin? {
      c := i;
    } else {
      var earlier := StepSource(verify, run, i, grant);
      var before := GrantedAt(verify, run, i, earlier);
      c := PasswordBehind(verify, run, before, earlier);
    }
  }

  /** Behind every grant of a run, however often completed, resumed or renewed, is the
      commit of a password login of the same person under the same epoch. */
  lemma PasswordOrigin(verify: Oracle, run: Run, k: nat, grant: Grant) returns (c: nat, i: nat)
    requires IsRun(verify, run) && k < |run.states| && grant in run.states[k].hist.grants
    ensures c <= i < k && HandsOut(verify, run.states[i], run.actions[i], grant)
    ensures Commits(run.states[c], run.actions[c], grant)
  {
    i := GrantedAt(verify, run, k, grant);
    c := PasswordBehind(verify, run, i, grant);
  }

  // ---- Own password changes ----

  /** The step is a successful change of the user's own password. */
  predicate ChangesOwnPassword(w: World, a: Action, id: UserId) {
    && a.ChangePassword? && a.change.identity.userId == id
    && ChangeReset(w.db, a.change, a.login, a.password, a.policy, a.salt, a.now).result.Ok?
  }

  function EpochAt(run: Run, k: nat, id: UserId): nat
    requires k < |run.states| && id in run.states[k].db.users
  {
    run.states[k].db.users[id].epoch
  }

  /** The step leaves the user's epoch alone or is a change of its own password. */
  predicate OwnStep(run: Run, x: nat, id: UserId)
    requires |run.states| == |run.actions| + 1 && x < |run.actions|
  {
    && id in run.states[x].db.users && id in run.states[x + 1].db.users
    && (EpochAt(run, x + 1, id) == EpochAt(run, x, id)
        || ChangesOwnPassword(run.states[x], run.actions[x], id))
  }

  /** Nothing moves the user's epoch in a stretch but changes of its own password. */
  predicate OnlyOwnChanges(run: Run, f: nat, k: nat, id: UserId)
    requires |run.states| == |run.actions| + 1 && f <= k < |run.states|
  {
    id in run.states[k].db.users && forall x: nat :: f <= x < k ==> OwnStep(run, x, id)
  }

  /** How often the user changed its own password in a stretch. */
  function OwnChanges(run: Run, f: nat, k: nat, id: UserId): nat
    requires |run.states| == |run.actions| + 1 && f <= k < |run.states|
    decreases k
  {
    if f == k then 0
    else
      OwnChanges(run, f, k - 1, id) + if ChangesOwnPassword(run.states[k - 1], run.actions[k - 1], id) then 1 else 0
  }

  lemma EpochGrows(verify: Oracle, run: Run, i: nat, k: nat, id: UserId)
    requires IsRun(verify, run) && i <= k < |run.states| && id in run.states[i].db.users
    ensures id in run.states[k].db.users && EpochAt(run, i, id) <= EpochAt(run, k, id)
  {
    RunAdvances(verify, run, i, k);
    assert ViewAdvances(ViewOf(run.states[i], id), ViewOf(run.states[k], id));
  }

  /** A stretch with the same epoch at both ends has it throughout. */
  lemma SameEpoch(verify: Oracle, run: Run, i: nat, k: nat, id: UserId)
    requires IsRun(verify, run) && i <= k < |run.states| && id in run.states[i].db.users
    requires id in run.states[k].db.users && EpochAt(run, i, id) == EpochAt(run, k, id)
    ensures |run.states| == |run.actions| + 1 && OnlyOwnChanges(run, i, k, id)
  {
    forall x: nat | i <= x < k ensures OwnStep(run, x, id) {
      EpochGrows(verify, run, i, x, id);
      EpochGrows(verify, run, x, x + 1, id);
      EpochGrows(verify, run, x + 1, k, id);
    }
  }

  lemma ChangeStep(w: World, a: Action, id: UserId)
    requires TablesOk(w.db) && ChangesOwnPassword(w, a, id)
    ensures var w' := StepChangePassword(w, a.change, a.login, a.password, a.policy, a.salt, a.now);
            && id in w.db.users && id in w'.db.users
            && w.db.users[id].epoch == a.change.identity.revision
            && w'.db.users[id].epoch == w.db.users[id].epoch + 1
            && ViewOf(w', id).credential == ViewOf(w, id).credential
            && ViewOf(w', id).enrolment == ViewOf(w, id).enrolment
            && forall change :: Makes(w, a, change) ==> change.revision == w'.db.users[id].epoch
  {
    ChangeShape(w.db, a.change, a.login, a.password, a.policy, a.salt, a.now);
    assert UserOk(id, w.db.users[id]);
  }

  lemma ChangeAt(verify: Oracle, run: Run, x: nat, id: UserId)
    requires IsRun(verify, run) && x < |run.actions| && ChangesOwnPassword(run.states[x], run.actions[x], id)
    ensures id in run.states[x].db.users && id in run.states[x + 1].db.users
    ensures EpochAt(run, x, id) == run.actions[x].change.identity.revision
    ensures EpochAt(run, x + 1, id) == EpochAt(run, x, id) + 1
    ensures ViewOf(run.states[x + 1], id).credential == ViewOf(run.states[x], id).credential
    ensures ViewOf(run.states[x + 1], id).enrolment == ViewOf(run.states[x], id).enrolment
    ensures forall change :: Makes(run.states[x], run.actions[x], change) ==> change.revision == EpochAt(run, x + 1, id)
  {
    assert StepAt(verify, run, x);
    RunKeeps(verify, run, x);
    ChangeStep(run.states[x], run.actions[x], id);
  }

  /** The epoch counts the changes, and the second factor stays the same. */
  lemma {:induction false} ChangesCounted(verify: Oracle, run: Run, f: nat, k: nat, id: UserId)
    requires IsRun(verify, run) && |run.states| == |run.actions| + 1 && f <= k < |run.states|
    requires OnlyOwnChanges(run, f, k, id)
    ensures id in run.states[f].db.users && EpochAt(run, k, id) == EpochAt(run, f, id) + OwnChanges(run, f, k, id)
    ensures ViewOf(run.states[k], id).credential == ViewOf(run.states[f], id).credential
    ensures ViewOf(run.states[k], id).enrolment == ViewOf(run.states[f], id).enrolment
    decreases k
  {
    if f < k {
      assert OwnStep(run, k - 1, id);
      ChangesCounted(verify, run, f, k - 1, id);
      if ChangesOwnPassword(run.states[k - 1], run.actions[k - 1], id) {
        ChangeAt(verify, run, k - 1, id);
      } else {
        RunStepAdvances(verify, run, k - 1);
        assert ViewAdvances(ViewOf(run.states[k - 1], id), ViewOf(run.states[k], id));
      }
    }
  }

  lemma {:induction false} NoneCounted(run: Run, f: nat, k: nat, id: UserId)
    requires |run.states| == |run.actions| + 1 && f <= k < |run.states|
    ensures OwnChanges(run, f, k, id) == 0 <==>
              forall x: nat :: f <= x < k ==> !ChangesOwnPassword(run.states[x], run.actions[x], id)
    decreases k
  {
    if f < k {
      NoneCounted(run, f, k - 1, id);
    }
  }

  /** Behind a change of one's own password are, under the epoch that it ends, a
      validated session of that user and the commit of a login by the password then
      current, which is not the new one. */
  lemma ChangeOrigin(verify: Oracle, run: Run, x: nat, id: UserId) returns (v: nat, c: nat)
    requires IsRun(verify, run) && x < |run.actions| && ChangesOwnPassword(run.states[x], run.actions[x], id)
    ensures v < x && run.actions[v].BeginChange? && Makes(run.states[v], run.actions[v], run.actions[x].change)
    ensures c < x && Commits(run.states[c], run.actions[c], run.actions[x].login)
    ensures id in run.states[v].db.users && id in run.states[x].db.users
    ensures EpochAt(run, v, id) == EpochAt(run, x, id) == run.actions[x].login.identity.epoch
    ensures id in run.states[x].hist.passwords
    ensures run.states[x].hist.passwords[id] == run.actions[x].login.password != run.actions[x].password
  {
    var w, a := run.states[x], run.actions[x];
    ChangeHeld(verify, run, x);
    v := MadeAt(verify, run, x, a.change);
    var i;
    c, i := PasswordOrigin(verify, run, x, a.login);
    ChangeAt(verify, run, x, id);
    RunKeeps(verify, run, x);
    RunKeeps(verify, run, v);
    ValidatedEpoch(verify, run.states[v], run.actions[v], a.change);
    ChangePresents(verify, w, a, id);
  }

  lemma ChangeHeld(verify: Oracle, run: Run, x: nat)
    requires IsRun(verify, run) && x < |run.actions| && run.actions[x].ChangePassword?
    ensures run.actions[x].change in run.states[x].hist.changes && !run.actions[x].change.done
    ensures run.actions[x].login in run.states[x].hist.grants
  {
    assert StepAt(verify, run, x);
  }

  lemma ValidatedEpoch(verify: Oracle, w: World, a: Action, change: Change)
    requires Inv(verify, w) && a.BeginChange? && Makes(w, a, change)
    ensures change.identity.userId in w.db.users
    ensures w.db.users[change.identity.userId].epoch == change.identity.epoch == change.identity.revision
  {
    assert UserOk(change.identity.userId, w.db.users[change.identity.userId]);
  }

  lemma ChangePresents(verify: Oracle, w: World, a: Action, id: UserId)
    requires Inv(verify, w) && ChangesOwnPassword(w, a, id) && a.login in w.hist.grants && a.change in w.hist.changes
    ensures id in w.db.users && id in w.hist.passwords && a.login.identity.epoch == w.db.users[id].epoch
    ensures w.hist.passwords[id] == a.login.password != a.password
  {
    ChangeShape(w.db, a.change, a.login, a.password, a.policy, a.salt, a.now);
    assert UserOk(id, w.db.users[id]) && ChangeStarted(a.change);
    assert Settled(verify, ViewOf(w, id), a.login);
  }

  // ---- The second factor of an identity ----

  /** The step is where the second factor of this grant was accepted: a right TOTP
      code, a consumed recovery code, or, for a user without TOTP, the login. */
  ghost predicate Accepts(verify: Oracle, w: World, a: Action, grant: Grant) {
    var id := grant.identity.userId;
    match a
    case CommitLogin(attempt) =>
      && grant.factor == NoFactor
      && LoginCommit(w.db, attempt).result.Ok? && LoginCommit(w.db, attempt).result.value.userId == id
      && !LoginCommit(w.db, attempt).result.value.totpEnabled
    case FinishTotp(reading, key, code, now) =>
      && reading.current.userId == id && CheckCode(verify, w.db, reading.current, key, code, now).Ok?
      && id in w.db.totp && grant.factor == CodeFactor(w.db.totp[id], code, now)
      && grant.enrolment == Enrolment(w.hist.enrolments, id)
    case Recover(earlier, secret, now) =>
      && earlier.identity.userId == id && RecoveryAuthenticate(w.db, earlier.identity, secret, now).result.Ok?
      && grant.factor == RecoveryFactor(Digest(secret))
      && grant.enrolment == Enrolment(w.hist.enrolments, id)
    case _ => false
  }

  /** A grant that can issue a session now: current and complete. */
  predicate Usable(w: World, grant: Grant) {
    && grant in w.hist.grants && grant.factor != Resumed
    && grant.identity.userId in w.db.users && grant.identity.epoch == w.db.users[grant.identity.userId].epoch
    && (grant.identity.totpEnabled ==> grant.identity.mfaComplete)
  }

  /** The identity that a step hands out is not ahead of the user. */
  lemma HandedEpoch(verify: Oracle, w: World, a: Action, grant: Grant)
    requires Inv(verify, w) && Enabled(w, a) && HandsOut(verify, w, a, grant)
    requires a.CommitLogin? || a.FinishTotp? || a.Recover?
    ensures grant.identity.userId in w.db.users
    ensures grant.identity.epoch <= w.db.users[grant.identity.userId].epoch
  {
    if a.CommitLogin? {
      CommitShape(w.db, a.attempt);
    } else if a.FinishTotp? {
      assert ReadSoFar(ViewOf(w, a.reading.current.userId), a.reading);
    } else {
      RecoverShape(w.db, a.grant.identity, a.secret, a.now);
    }
  }

  lemma CodeAccepts(verify: Oracle, w: World, a: Action, grant: Grant)
    requires Enabled(w, a) && HandsOut(verify, w, a, grant)
    requires a.FinishTotp? || a.Recover?
    ensures Accepts(verify, w, a, grant)
  {
    if a.Recover? { RecoverShape(w.db, a.grant.identity, a.secret, a.now); }
  }

  lemma LoginAccepts(verify: Oracle, w: World, a: Action, grant: Grant)
    requires TablesOk(w.db) && AttemptsOk(w.hist.attempts) && Enabled(w, a) && Commits(w, a, grant)
    requires grant.factor == NoFactor
    ensures grant.identity.userId in w.db.users
    ensures w.db.users[grant.identity.userId].epoch == grant.identity.epoch
    ensures ViewOf(w, grant.identity.userId).credential.None? ==> Accepts(verify, w, a, grant)
  {
    CommitShape(w.db, a.attempt);
  }

  /** Without a second factor the login itself is what was accepted. */
  lemma PlainOrigin(verify: Oracle, run: Run, i: nat, k: nat, grant: Grant) returns (f: nat)
    requires IsRun(verify, run) && i < k < |run.states| && Usable(run.states[k], grant) && grant.factor == NoFactor
    requires HandsOut(verify, run.states[i], run.actions[i], grant)
    ensures f <= i && |run.states| == |run.actions| + 1
    ensures Accepts(verify, run.states[f], run.actions[f], grant)
    ensures OnlyOwnChanges(run, f, k, grant.identity.userId)
  {
    var id := grant.identity.userId;
    f := PasswordBehind(verify, run, i, grant);
    RunKeeps(verify, run, f);
    assert StepAt(verify, run, f);
    LoginAccepts(verify, run.states[f], run.actions[f], grant);
    SameEpoch(verify, run, f, k, id);
    ChangesCounted(verify, run, f, k, id);
    RunKeeps(verify, run, k);
    PlainSettled(verify, run.states[k], grant);
  }

  lemma PlainSettled(verify: Oracle, w: World, grant: Grant)
    requires Inv(verify, w) && Usable(w, grant) && grant.factor == NoFactor
    ensures ViewOf(w, grant.identity.userId).credential.None?
  {
    assert Settled(verify, ViewOf(w, grant.identity.userId), grant);
  }

  /** A code that was accepted under the current epoch. */
  lemma DirectOrigin(verify: Oracle, run: Run, i: nat, k: nat, grant: Grant)
    requires IsRun(verify, run) && i < k < |run.states| && Usable(run.states[k], grant)
    requires HandsOut(verify, run.states[i], run.actions[i], grant)
    requires run.actions[i].FinishTotp? || run.actions[i].Recover?
    ensures |run.states| == |run.actions| + 1
    ensures Accepts(verify, run.states[i], run.actions[i], grant)
    ensures OnlyOwnChanges(run, i, k, grant.identity.userId)
  {
    var id := grant.identity.userId;
    assert StepAt(verify, run, i);
    RunKeeps(verify, run, i);
    HandedEpoch(verify, run.states[i], run.actions[i], grant);
    CodeAccepts(verify, run.states[i], run.actions[i], grant);
    EpochGrows(verify, run, i, k, id);
    SameEpoch(verify, run, i, k, id);
  }

  /** The reset behind an identity that a password change handed out. */
  lemma RenewedAfter(verify: Oracle, run: Run, i: nat, grant: Grant) returns (x: nat)
    requires IsRun(verify, run) && i < |run.actions| && run.actions[i].RenewIdentity?
    requires HandsOut(verify, run.states[i], run.actions[i], grant)
    ensures x < i && ChangesOwnPassword(run.states[x], run.actions[x], grant.identity.userId)
    ensures grant.identity.userId in run.states[x].db.users && grant.identity.userId in run.states[x + 1].db.users
    ensures EpochAt(run, x + 1, grant.identity.userId) == grant.identity.revision
    ensures run.actions[x].change.origin.factor == grant.factor
    ensures run.actions[x].change.origin.enrolment == grant.enrolment
  {
    assert StepAt(verify, run, i);
    x := MadeAt(verify, run, i, run.actions[i].change);
    ChangeAt(verify, run, x, grant.identity.userId);
  }

  /** The grant behind the session of a change was current until the reset. */
  lemma ChangedFrom(verify: Oracle, run: Run, x: nat, id: UserId)
    requires IsRun(verify, run) && x < |run.actions| && ChangesOwnPassword(run.states[x], run.actions[x], id)
    ensures run.actions[x].change.origin.identity.userId == id
    ensures Usable(run.states[x], run.actions[x].change.origin)
  {
    ChangeHeld(verify, run, x);
    ChangeAt(verify, run, x, id);
    RunKeeps(verify, run, x);
    assert ChangeStarted(run.actions[x].change);
  }

  lemma UsableRevision(verify: Oracle, run: Run, k: nat, grant: Grant)
    requires IsRun(verify, run) && k < |run.states| && Usable(run.states[k], grant)
    ensures grant.identity.revision == EpochAt(run, k, grant.identity.userId)
  {
    RunKeeps(verify, run, k);
    var id := grant.identity.userId;
    assert UserOk(id, run.states[k].db.users[id]) && Settled(verify, ViewOf(run.states[k], id), grant);
  }

  lemma StretchesJoin(run: Run, f: nat, x: nat, k: nat, id: UserId)
    requires |run.states| == |run.actions| + 1 && f <= x < k < |run.states|
    requires OnlyOwnChanges(run, f, x, id) && OwnStep(run, x, id) && OnlyOwnChanges(run, x + 1, k, id)
    ensures OnlyOwnChanges(run, f, k, id)
  {
  }

  lemma AfterReset(verify: Oracle, run: Run, x: nat, k: nat, grant: Grant)
    requires IsRun(verify, run) && x < k < |run.states| && Usable(run.states[k], grant)
    requires ChangesOwnPassword(run.states[x], run.actions[x], grant.identity.userId)
    requires grant.identity.userId in run.states[x].db.users && grant.identity.userId in run.states[x + 1].db.users
    requires EpochAt(run, x + 1, grant.identity.userId) == grant.identity.revision
    ensures |run.states| == |run.actions| + 1 && OwnStep(run, x, grant.identity.userId)
    ensures OnlyOwnChanges(run, x + 1, k, grant.identity.userId)
  {
    UsableRevision(verify, run, k, grant);
    EpochGrows(verify, run, x + 1, k, grant.identity.userId);
    SameEpoch(verify, run, x + 1, k, grant.identity.userId);
  }

  /** An identity handed out by a password change goes back to the reset, and there to
      the identity behind the session. */
  lemma RenewedFrom(verify: Oracle, run: Run, i: nat, k: nat, grant: Grant) returns (x: nat, origin: Grant)
    requires IsRun(verify, run) && i < k < |run.states| && Usable(run.states[k], grant)
    requires HandsOut(verify, run.states[i], run.actions[i], grant) && run.actions[i].RenewIdentity?
    ensures x < i && |run.states| == |run.actions| + 1
    ensures Usable(run.states[x], origin) && SameFactor(origin, grant)
    ensures OwnStep(run, x, grant.identity.userId) && OnlyOwnChanges(run, x + 1, k, grant.identity.userId)
  {
    x := RenewedAfter(verify, run, i, grant);
    origin := run.actions[x].change.origin;
    ChangedFrom(verify, run, x, grant.identity.userId);
    AfterReset(verify, run, x, k, grant);
  }

  predicate SameFactor(grant: Grant, other: Grant) {
    && grant.identity.userId == other.identity.userId
    && grant.factor == other.factor && grant.enrolment == other.enrolment
  }

  lemma AcceptsAlike(verify: Oracle, w: World, a: Action, grant: Grant, other: Grant)
    requires Accepts(verify, w, a, grant) && SameFactor(grant, other)
    ensures Accepts(verify, w, a, other)
  {
  }

  /** The second factor of an identity that can issue a session now was accepted at
      some step, after which nothing moved the user's epoch but changes of its own
      password. */
  lemma {:induction false} FactorOrigin(verify: Oracle, run: Run, i: nat, k: nat, grant: Grant) returns (f: nat)
    requires IsRun(verify, run) && i < k < |run.states| && Usable(run.states[k], grant)
    requires HandsOut(verify, run.states[i], run.actions[i], grant)
    ensures f <= i && |run.states| == |run.actions| + 1
    ensures Accepts(verify, run.states[f], run.actions[f], grant)
    ensures OnlyOwnChanges(run, f, k, grant.identity.userId)
    decreases k
  {
    var id := grant.identity.userId;
    if grant.factor == NoFactor {
      f := PlainOrigin(verify, run, i, k, grant);
    } else if run.actions[i].RenewIdentity? {
      var x, origin := RenewedFrom(verify, run, i, k, grant);
      var before := GrantedAt(verify, run, x, origin);
      f := FactorOrigin(verify, run, before, x, origin);
      AcceptsAlike(verify, run.states[f], run.actions[f], origin, grant);
      StretchesJoin(run, f, x, k, id);
    } else {
      f := i;
      DirectOrigin(verify, run, i, k, grant);
    }
  }

  // ---- A test that never decides ----

  /** The commit of exactly this login. */
  ghost predicate CommitsLogin(w: World, a: Action, login: Grant) {
    && a.CommitLogin? && LoginCommit(w.db, a.attempt).result.Ok?
    && LoginCommit(w.db, a.attempt).result.value.(mfaComplete := true) == login.identity.(mfaComplete := true)
  }

  /** An identity without a second factor is that of a login, however often it went
      through password changes. */
  lemma {:induction false} PlainLogin(verify: Oracle, run: Run, k: nat, login: Grant) returns (i: nat)
    requires IsRun(verify, run) && k < |run.states| && login in run.states[k].hist.grants && login.factor == NoFactor
    ensures i < k && CommitsLogin(run.states[i], run.actions[i], login)
    decreases k
  {
    i := GrantedAt(verify, run, k, login);
    if run.actions[i].RenewIdentity? {
      assert StepAt(verify, run, i);
      i := PlainLogin(verify, run, i, run.actions[i].login);
    }
  }

  lemma LoginView(verify: Oracle, w: World, a: Action, login: Grant)
    requires Inv(verify, w) && Enabled(w, a) && CommitsLogin(w, a, login)
    ensures login.identity.userId in w.db.users
    ensures w.db.users[login.identity.userId].epoch == login.identity.revision
    ensures login.identity.totpEnabled == ViewOf(w, login.identity.userId).credential.Some?
  {
    CommitShape(w.db, a.attempt);
    assert UserOk(a.attempt.userId, w.db.users[a.attempt.userId]);
  }

  lemma ResetView(verify: Oracle, run: Run, k: nat, change: Change) returns (x: nat)
    requires IsRun(verify, run) && k < |run.states| && change in run.states[k].hist.changes && change.done
    ensures x <= k && change.identity.userId in run.states[x].db.users
    ensures EpochAt(run, x, change.identity.userId) == change.revision
    ensures change.identity.totpEnabled == ViewOf(run.states[x], change.identity.userId).credential.Some?
  {
    var r := MadeAt(verify, run, k, change);
    x := r + 1;
    ChangeAt(verify, run, r, change.identity.userId);
    ChangeHeld(verify, run, r);
    HeldView(verify, run, r, run.actions[r].change);
  }

  lemma HeldView(verify: Oracle, run: Run, r: nat, change: Change)
    requires IsRun(verify, run) && r < |run.states| && change in run.states[r].hist.changes && !change.done
    requires change.identity.userId in run.states[r].db.users
    requires EpochAt(run, r, change.identity.userId) == change.identity.revision
    ensures change.identity.totpEnabled == ViewOf(run.states[r], change.identity.userId).credential.Some?
  {
    RunKeeps(verify, run, r);
    assert ChangeStarted(change) && ChangeHolds(verify, ViewOf(run.states[r], change.identity.userId), change);
  }

  lemma SameCredential(verify: Oracle, run: Run, i: nat, k: nat, id: UserId)
    requires IsRun(verify, run) && i <= k < |run.states| && id in run.states[i].db.users
    requires id in run.states[k].db.users && EpochAt(run, i, id) == EpochAt(run, k, id)
    ensures ViewOf(run.states[i], id).credential == ViewOf(run.states[k], id).credential
  {
    RunAdvances(verify, run, i, k);
    assert ViewAdvances(ViewOf(run.states[i], id), ViewOf(run.states[k], id));
  }

  /** If the login after the reset found the user at the revision that the reset
      returned, it found TOTP enabled exactly if the session did: comparing that as well
      never refuses a renewal. */
  lemma RenewalFindsSameFactor(verify: Oracle, run: Run, k: nat, change: Change, login: Grant)
    requires IsRun(verify, run) && k < |run.states| && change in run.states[k].hist.changes && change.done
    requires login in run.states[k].hist.grants && login.factor == NoFactor
    requires login.identity.userId == change.identity.userId && login.identity.revision == change.revision
    ensures Renewable(change, login.identity)
  {
    var id := change.identity.userId;
    var x := ResetView(verify, run, k, change);
    var i := PlainLogin(verify, run, k, login);
    assert StepAt(verify, run, i);
    RunKeeps(verify, run, i);
    LoginView(verify, run.states[i], run.actions[i], login);
    if i <= x { SameCredential(verify, run, i, x, id); } else { SameCredential(verify, run, x, i, id); }
  }

  // ---- The origin of a session ----

  /** What is behind a session of this user at one point of a run. Under the current
      epoch a login was committed (`c`), an identity of it was handed out (`i`), and the
      session was issued from it (`j`). The second factor was accepted at `f`, under
      the same credential and enrolment as now; since then the user's epoch moved only
      with changes of its own password, once with each. */
  ghost predicate SessionLineage(verify: Oracle, run: Run, k: nat, digest: Digest, id: UserId, c: nat, f: nat, i: nat,
                                 j: nat)
    requires |run.states| == |run.actions| + 1 && k < |run.states|
  {
    && c <= i && f <= i && i < j < k && Issuing(run.states[j].db, run.actions[j], digest)
    && var grant := run.actions[j].grant;
    && digest in run.states[k].hist.provenance && run.states[k].hist.provenance[digest] == grant
    && Commits(run.states[c], run.actions[c], grant)
    && HandsOut(verify, run.states[i], run.actions[i], grant) && grant.factor != Resumed
    && grant.identity.userId == id && (grant.identity.totpEnabled ==> grant.identity.mfaComplete)
    && id in run.states[k].db.users && grant.identity.epoch == EpochAt(run, k, id)
    && Accepts(verify, run.states[f], run.actions[f], grant)
    && OnlyOwnChanges(run, f, k, id) && id in run.states[f].db.users
    && EpochAt(run, k, id) == EpochAt(run, f, id) + OwnChanges(run, f, k, id)
    && ViewOf(run.states[f], id).credential == ViewOf(run.states[k], id).credential
    && ViewOf(run.states[f], id).enrolment == ViewOf(run.states[k], id).enrolment
  }

  lemma StoredSessionOrigin(verify: Oracle, run: Run, k: nat, digest: Digest)
    returns (c: nat, f: nat, i: nat, j: nat)
    requires IsRun(verify, run) && k < |run.states| && digest in run.states[k].db.sessions
    ensures |run.states| == |run.actions| + 1
    ensures SessionLineage(verify, run, k, digest, run.states[k].db.sessions[digest].userId, c, f, i, j)
  {
    var id := run.states[k].db.sessions[digest].userId;
    j := IssuedAt(verify, run, k, digest);
    var grant := run.actions[j].grant;
    IssuerHeld(verify, run, j);
    i := GrantedAt(verify, run, j, grant);
    c := PasswordBehind(verify, run, i, grant);
    RunKeeps(verify, run, k);
    StoredOrigin(verify, run.states[k], digest);
    f := FactorOrigin(verify, run, i, k, grant);
    ChangesCounted(verify, run, f, k, id);
  }

  /** The second factor of a session was accepted under the current epoch exactly if
      the user has not changed its own password since. */
  lemma FactorEpochIsCurrent(verify: Oracle, run: Run, k: nat, digest: Digest, id: UserId, c: nat, f: nat, i: nat,
                             j: nat)
    requires |run.states| == |run.actions| + 1 && k < |run.states|
    requires SessionLineage(verify, run, k, digest, id, c, f, i, j)
    ensures EpochAt(run, f, id) == EpochAt(run, k, id) <==>
              forall x: nat :: f <= x < k ==> !ChangesOwnPassword(run.states[x], run.actions[x], id)
  {
    NoneCounted(run, f, k, id);
  }

  /** So does every session that validates. */
  lemma SessionOrigin(verify: Oracle, run: Run, k: nat, session: Secret, csrf: Option<Secret>, now: nat, timeout: nat,
                      remote: Option<seq<byte>>) returns (c: nat, f: nat, i: nat, j: nat)
    requires IsRun(verify, run) && k < |run.states|
    requires SessionValidate(run.states[k].db, session, csrf, now, timeout, remote).Ok?
    ensures |run.states| == |run.actions| + 1
    ensures var identity := SessionValidate(run.states[k].db, session, csrf, now, timeout, remote).value;
            && SessionLineage(verify, run, k, Digest(session), identity.userId, c, f, i, j)
            && identity.epoch == run.actions[j].grant.identity.epoch
  {
    c, f, i, j := StoredSessionOrigin(verify, run, k, Digest(session));
  }

  lemma IssuerHeld(verify: Oracle, run: Run, j: nat)
    requires IsRun(verify, run) && j < |run.actions| && run.actions[j].IssueSession?
    ensures run.actions[j].grant in run.states[j].hist.grants && run.actions[j].grant.factor != Resumed
  {
    assert StepAt(verify, run, j);
  }

  /** The grant behind a stored session can issue another one. */
  lemma StoredOrigin(verify: Oracle, w: World, digest: Digest)
    requires Inv(verify, w) && digest in w.db.sessions
    ensures digest in w.hist.provenance
    ensures var grant := w.hist.provenance[digest];
            grant.identity.userId == w.db.sessions[digest].userId && Usable(w, grant)
  {
    assert SessionOk(w.db.users, w.db.sessions[digest]);
  }
}
