/** What a run itself says, read off its actions and their outcomes, about the
    passwords set, the login failures counted and the bootstrap token issued,
    and that the history of a world records exactly that. */
module Log {
  import opened Base
  import opened Schema
  import opened Users
  import opened Totp
  import opened World
  import opened Reach

  /** The password a step sets, read off its action and outcome. */
  ghost function PasswordSet(w: World, a: Action): Option<(UserId, Password)>
    requires Enabled(w, a)
  {
    match a
    case CreateFirst(token, username, password, policy, salt, now, id) =>
      if CreateInitialAdministrator(w.db, token, username, password, policy, salt, now, id).result.Ok?
      then Some((id, password)) else None
    case CreateUser(username, password, policy, role, forceChange, salt, now, id) =>
      if UserCreate(w.db, username, password, policy, role, forceChange, salt, now, id).result.Ok?
      then Some((id, password)) else None
    case Reset(id, expected, password, policy, forceChange, salt, now) =>
      if ResetPassword(w.db, id, expected, password, policy, forceChange, salt, now).result.Ok?
      then Some((id, password)) else None
    case ChangePassword(change, login, password, policy, salt, now) =>
      if ChangeReset(w.db, change, login, password, policy, salt, now).result.Ok?
      then Some((change.identity.userId, password)) else None
    case _ => None
  }

  /** The last password set for a user in the first `k` steps of a run. */
  ghost function LastPassword(run: Run, k: nat, id: UserId): Option<Password>
    requires |run.states| == |run.actions| + 1 && k <= |run.actions|
    requires forall i :: 0 <= i < k ==> Enabled(run.states[i], run.actions[i])
  {
    if k == 0 then None
    else match PasswordSet(run.states[k - 1], run.actions[k - 1])
      case Some((user, password)) => if user == id then Some(password) else LastPassword(run, k - 1, id)
      case None => LastPassword(run, k - 1, id)
  }

  /** The failure a step counts, or the success that ends a count. */
  datatype LoginEvent = Nothing | Failure(at: nat) | Success

  ghost function Login(w: World, a: Action, id: UserId): LoginEvent
    requires Enabled(w, a)
  {
    if !a.CommitLogin? || a.attempt.userId != id then Nothing
    else
      var tx := LoginCommit(w.db, a.attempt);
      if tx.result.Ok? then Success else if tx.db != w.db then Failure(a.attempt.now) else Nothing
  }

  /** The times of the failures counted for a user since the last success or the
      last time its password was set, in the first `k` steps of a run. */
  ghost function CountedFailures(run: Run, k: nat, id: UserId): seq<nat>
    requires |run.states| == |run.actions| + 1 && k <= |run.actions|
    requires forall i :: 0 <= i < k ==> Enabled(run.states[i], run.actions[i])
  {
    if k == 0 then []
    else
      var w, a := run.states[k - 1], run.actions[k - 1];
      var change := PasswordSet(w, a);
      if change.Some? && change.value.0 == id then []
      else match Login(w, a, id)
        case Success => []
        case Failure(at) => CountedFailures(run, k - 1, id) + [at]
        case Nothing => CountedFailures(run, k - 1, id)
  }

  /** The last bootstrap token successfully issued in the first `k` steps of a
      run, by digest, and its expiry. */
  ghost function LastBootstrap(run: Run, k: nat): Option<(Digest, nat)>
    requires |run.states| == |run.actions| + 1 && k <= |run.actions|
  {
    if k == 0 then None
    else
      var issued := TokenIssued(run.states[k - 1], run.actions[k - 1]);
      if issued.Some? then issued else LastBootstrap(run, k - 1)
  }

  ghost function TokenIssued(w: World, a: Action): Option<(Digest, nat)> {
    if a.IssueBootstrap? && BootstrapIssue(w.db, a.now, a.lifetime, a.secret).result.Ok?
    then Some((Digest(a.secret), a.now + a.lifetime)) else None
  }

  /** How a step changes what the history says about these. */
  ghost predicate LogsStep(w: World, a: Action, hist: History)
    requires Enabled(w, a)
  {
    && hist.passwords == Logged(w.hist.passwords, PasswordSet(w, a))
    && (!a.Confirm? ==> hist.enrolments == w.hist.enrolments)
    && hist.bootstrap == (if TokenIssued(w, a).Some? then TokenIssued(w, a) else w.hist.bootstrap)
    && forall id :: FailuresOf(hist.failures, id) ==
         var change := PasswordSet(w, a);
         if change.Some? && change.value.0 == id then []
         else match Login(w, a, id)
           case Success => []
           case Failure(at) => FailuresOf(w.hist.failures, id) + [at]
           case Nothing => FailuresOf(w.hist.failures, id)
  }

  function Logged(passwords: map<UserId, Password>, change: Option<(UserId, Password)>): map<UserId, Password> {
    if change.Some? then passwords[change.value.0 := change.value.1] else passwords
  }

  lemma AdministrationLogs(verify: Oracle, w: World, a: Action)
    requires Enabled(w, a) && Administers(a)
    ensures LogsStep(w, a, Next(verify, w, a).hist)
  {
  }

  lemma NextReadLogs(w: World, reading: Reading)
    ensures var w' := StepNextRead(w, reading); w' == w.(hist := w.hist.(readings := w'.hist.readings))
  {
  }

  lemma FinishLogs(verify: Oracle, w: World, reading: Reading, key: nat, code: nat, now: nat)
    ensures var w' := StepFinishTotp(verify, w, reading, key, code, now);
            w' == w.(hist := w.hist.(grants := w'.hist.grants))
  {
  }

  lemma ResumeLogs(w: World, session: Secret, csrf: Option<Secret>, now: nat, timeout: nat,
                   remote: Option<seq<byte>>)
    ensures var w' := StepResume(w, session, csrf, now, timeout, remote);
            w' == w.(hist := w.hist.(grants := w'.hist.grants))
  {
  }

  lemma CommitLogs(w: World, a: Action)
    requires a.CommitLogin? && Enabled(w, a)
    ensures LogsStep(w, a, StepCommitLogin(w, a.attempt).hist)
  {
  }

  lemma LoginLogs(verify: Oracle, w: World, a: Action)
    requires Enabled(w, a) && LogsIn(a)
    ensures LogsStep(w, a, Next(verify, w, a).hist)
  {
    if a.CommitLogin? { CommitLogs(w, a); }
    else if a.ResumeSession? { ResumeLogs(w, a.session, a.proof, a.now, a.timeout, a.remote); }
    else if a.NextRead? { NextReadLogs(w, a.reading); }
    else if a.FinishTotp? { FinishLogs(verify, w, a.reading, a.key, a.code, a.now); }
  }

  lemma ChangeLogs(verify: Oracle, w: World, a: Action)
    requires Enabled(w, a) && ChangesOwn(a)
    ensures LogsStep(w, a, Next(verify, w, a).hist)
  {
  }

  lemma OthersLog(verify: Oracle, w: World, a: Action)
    requires Enabled(w, a) && !Administers(a) && !LogsIn(a) && !ChangesOwn(a)
    ensures LogsStep(w, a, Next(verify, w, a).hist)
  {
  }

  lemma StepLogs(verify: Oracle, run: Run, i: nat)
    requires i < |run.actions| && |run.states| == |run.actions| + 1 && StepAt(verify, run, i)
    ensures LogsStep(run.states[i], run.actions[i], run.states[i + 1].hist)
  {
    var w, a := run.states[i], run.actions[i];
    if Administers(a) { AdministrationLogs(verify, w, a); }
    else if LogsIn(a) { LoginLogs(verify, w, a); }
    else if ChangesOwn(a) { ChangeLogs(verify, w, a); }
    else { OthersLog(verify, w, a); }
  }

  ghost predicate LogAgrees(run: Run, k: nat, hist: History)
    requires |run.states| == |run.actions| + 1 && k <= |run.actions|
    requires forall i :: 0 <= i < k ==> Enabled(run.states[i], run.actions[i])
  {
    && LastBootstrap(run, k) == hist.bootstrap
    && forall id ::
      && LastPassword(run, k, id) == (if id in hist.passwords then Some(hist.passwords[id]) else None)
      && CountedFailures(run, k, id) == FailuresOf(hist.failures, id)
  }

  lemma AgreesNext(run: Run, k: nat, hist': History)
    requires |run.states| == |run.actions| + 1 && k < |run.actions|
    requires forall i :: 0 <= i < k + 1 ==> Enabled(run.states[i], run.actions[i])
    requires LogAgrees(run, k, run.states[k].hist) && LogsStep(run.states[k], run.actions[k], hist')
    ensures LogAgrees(run, k + 1, hist')
  {
  }

  lemma RunEnabled(verify: Oracle, run: Run)
    requires IsRun(verify, run)
    ensures |run.states| == |run.actions| + 1
    ensures forall i :: 0 <= i < |run.actions| ==> Enabled(run.states[i], run.actions[i])
  {
    forall i | 0 <= i < |run.actions| ensures Enabled(run.states[i], run.actions[i]) {
      assert StepAt(verify, run, i);
    }
  }

  lemma {:induction false} ChainLogs(run: Run, k: nat)
    requires |run.states| == |run.actions| + 1 && k <= |run.actions| && run.states[0] == INITIAL
    requires forall i :: 0 <= i < |run.actions| ==> Enabled(run.states[i], run.actions[i])
    requires forall i :: 0 <= i < k ==> LogsStep(run.states[i], run.actions[i], run.states[i + 1].hist)
    ensures LogAgrees(run, k, run.states[k].hist)
    decreases k
  {
    if k > 0 {
      ChainLogs(run, k - 1);
      AgreesNext(run, k - 1, run.states[k].hist);
    }
  }

  lemma RunStepLogs(verify: Oracle, run: Run, i: nat)
    requires IsRun(verify, run) && i < |run.actions|
    ensures Enabled(run.states[i], run.actions[i])
    ensures LogsStep(run.states[i], run.actions[i], run.states[i + 1].hist)
  {
    assert StepAt(verify, run, i);
    StepLogs(verify, run, i);
  }

  /** The history's passwords, failures and bootstrap token are those of the run. */
  lemma RunLogs(verify: Oracle, run: Run, k: nat)
    requires IsRun(verify, run) && k < |run.states|
    ensures |run.states| == |run.actions| + 1
    ensures forall i :: 0 <= i < |run.actions| ==> Enabled(run.states[i], run.actions[i])
    ensures LogAgrees(run, k, run.states[k].hist)
  {
    RunEnabled(verify, run);
    forall i: nat | i < k ensures LogsStep(run.states[i], run.actions[i], run.states[i + 1].hist) {
      RunStepLogs(verify, run, i);
    }
    ChainLogs(run, k);
  }
}
