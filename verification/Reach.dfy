/** Every world of every run satisfies the invariant, and users only advance
    from any world of a run to any later one. */
module Reach {
  import opened Totp
  import opened World
  import opened Invariant
  import opened KeepUsers
  import opened KeepLogin
  import opened KeepFactors
  import opened KeepRest
  import opened KeepChange

  /** The steps are taken up in five groups to keep each proof small. */
  predicate Administers(a: Action) {
    a.IssueBootstrap? || a.CreateFirst? || a.CreateUser? || a.UpdateUser? || a.Reset?
  }

  predicate LogsIn(a: Action) {
    a.BeginLogin? || a.CommitLogin? || a.ResumeSession? || a.BeginTotp? || a.NextRead? || a.FinishTotp? || a.Recover?
  }

  predicate Enrols(a: Action) {
    a.Provision? || a.Confirm? || a.Disable? || a.IssueSession? || a.TouchSession? || a.RevokeSession?
  }

  predicate ChangesOwn(a: Action) {
    a.BeginChange? || a.ChangePassword? || a.RenewIdentity?
  }

  lemma AdministrationKeeps(verify: Oracle, w: World, a: Action)
    requires Inv(verify, w) && Enabled(w, a) && Administers(a)
    ensures Inv(verify, Next(verify, w, a)) && Advances(w, Next(verify, w, a))
  {
    if a.IssueBootstrap? {
      BootstrapKeeps(verify, w, a.now, a.lifetime, a.secret);
    } else if a.CreateFirst? {
      CreateFirstKeeps(verify, w, a.token, a.username, a.password, a.policy, a.salt, a.now, a.id);
    } else if a.CreateUser? {
      CreateKeeps(verify, w, a.username, a.password, a.policy, a.role, a.forceChange, a.salt, a.now, a.id);
    } else if a.UpdateUser? {
      UpdateKeeps(verify, w, a.id, a.expected, a.update, a.now);
    } else {
      ResetKeeps(verify, w, a.id, a.expected, a.password, a.policy, a.forceChange, a.salt, a.now);
    }
  }

  lemma LoginKeeps(verify: Oracle, w: World, a: Action)
    requires Inv(verify, w) && Enabled(w, a) && LogsIn(a)
    ensures Inv(verify, Next(verify, w, a)) && Advances(w, Next(verify, w, a))
  {
    if a.BeginLogin? {
      BeginLoginKeeps(verify, w, a.username, a.password, a.policy, a.salt, a.now);
    } else if a.CommitLogin? {
      CommitKeeps(verify, w, a.attempt);
    } else if a.ResumeSession? {
      ResumeKeeps(verify, w, a.session, a.proof, a.now, a.timeout, a.remote);
    } else if a.BeginTotp? {
      BeginTotpKeeps(verify, w, a.grant);
    } else if a.NextRead? {
      NextReadKeeps(verify, w, a.reading);
    } else if a.FinishTotp? {
      FinishTotpKeeps(verify, w, a.reading, a.key, a.code, a.now);
    } else {
      RecoverKeeps(verify, w, a.grant, a.secret, a.now);
    }
  }

  lemma EnrolmentKeeps(verify: Oracle, w: World, a: Action)
    requires Inv(verify, w) && Enabled(w, a) && Enrols(a)
    ensures Inv(verify, Next(verify, w, a)) && Advances(w, Next(verify, w, a))
  {
    if a.Provision? {
      ProvisionKeeps(verify, w, a.id, a.key, a.nonce, a.secret, a.now);
    } else if a.Confirm? {
      ConfirmKeeps(verify, w, a.id, a.key, a.code, a.now, a.drawn);
    } else if a.Disable? {
      DisableKeeps(verify, w, a.id, a.expected);
    } else if a.IssueSession? {
      IssueSessionKeeps(verify, w, a.grant, a.now, a.lifetime, a.remote, a.session, a.csrf);
    } else if a.TouchSession? {
      TouchKeeps(verify, w, a.session, a.now);
    } else {
      RevokeSessionKeeps(verify, w, a.session);
    }
  }

  lemma ChangeKeeps(verify: Oracle, w: World, a: Action)
    requires Inv(verify, w) && Enabled(w, a) && ChangesOwn(a)
    ensures Inv(verify, Next(verify, w, a)) && Advances(w, Next(verify, w, a))
  {
    if a.BeginChange? {
      BeginChangeKeeps(verify, w, a.session, a.csrf, a.now, a.timeout, a.remote);
    } else if a.ChangePassword? {
      ChangePasswordKeeps(verify, w, a.change, a.login, a.password, a.policy, a.salt, a.now);
    } else {
      RenewKeeps(verify, w, a.change, a.login);
    }
  }

  /** None of the other groups. */
  predicate Remains(a: Action) {
    !Administers(a) && !LogsIn(a) && !Enrols(a) && !ChangesOwn(a)
  }

  lemma OthersKeep(verify: Oracle, w: World, a: Action)
    requires Inv(verify, w) && Enabled(w, a) && Remains(a)
    ensures Inv(verify, Next(verify, w, a)) && Advances(w, Next(verify, w, a))
  {
    if a.RevokeSessions? {
      RevokeAllKeeps(verify, w, a.id);
    } else if a.IssueToken? {
      IssueTokenKeeps(verify, w, a.id, a.config, a.now, a.tokenId, a.secret);
    } else if a.TouchToken? {
      TouchTokenKeeps(verify, w, a.tokenId, a.now);
    } else if a.RevokeToken? {
      RevokeTokenKeeps(verify, w, a.tokenId, a.now);
    } else if a.CreateMapping? {
      CreateMappingKeeps(verify, w, a.mapping, a.now, a.mappingId);
    } else {
      RevokeMappingKeeps(verify, w, a.mappingId, a.now);
    }
  }

  lemma StepKeeps(verify: Oracle, w: World, a: Action)
    requires Inv(verify, w) && Enabled(w, a)
    ensures Inv(verify, Next(verify, w, a)) && Advances(w, Next(verify, w, a))
  {
    if Administers(a) { AdministrationKeeps(verify, w, a); }
    else if LogsIn(a) { LoginKeeps(verify, w, a); }
    else if Enrols(a) { EnrolmentKeeps(verify, w, a); }
    else if ChangesOwn(a) { ChangeKeeps(verify, w, a); }
    else { OthersKeep(verify, w, a); }
  }

  lemma StepAtKeeps(verify: Oracle, run: Run, i: nat)
    requires i < |run.actions| && |run.states| == |run.actions| + 1 && StepAt(verify, run, i)
    requires Inv(verify, run.states[i])
    ensures Inv(verify, run.states[i + 1]) && Advances(run.states[i], run.states[i + 1])
  {
    StepKeeps(verify, run.states[i], run.actions[i]);
  }

  /** Every world of a run satisfies the invariant. */
  lemma {:induction false} RunKeeps(verify: Oracle, run: Run, i: nat)
    requires IsRun(verify, run) && i < |run.states|
    ensures Inv(verify, run.states[i])
    decreases i
  {
    if i == 0 {
      InitialInv(verify);
    } else {
      RunKeeps(verify, run, i - 1);
      StepAtKeeps(verify, run, i - 1);
    }
  }

  lemma RunStepAdvances(verify: Oracle, run: Run, i: nat)
    requires IsRun(verify, run) && i < |run.actions|
    ensures Advances(run.states[i], run.states[i + 1])
  {
    RunKeeps(verify, run, i);
    StepAtKeeps(verify, run, i);
  }

  lemma {:induction false} ChainAdvances(worlds: seq<World>, i: nat, j: nat)
    requires i <= j < |worlds| && forall k :: i <= k < j ==> Advances(worlds[k], worlds[k + 1])
    ensures Advances(worlds[i], worlds[j])
    decreases j
  {
    if i < j {
      ChainAdvances(worlds, i, j - 1);
      AdvancesTransitive(worlds[i], worlds[j - 1], worlds[j]);
    }
  }

  /** Between any two worlds of a run, each user's authentication state either
      reached a later epoch or only gained spent recovery codes. */
  lemma RunAdvances(verify: Oracle, run: Run, i: nat, j: nat)
    requires IsRun(verify, run) && i <= j < |run.states|
    ensures Advances(run.states[i], run.states[j])
  {
    forall k: nat | i <= k < j ensures Advances(run.states[k], run.states[k + 1]) {
      RunStepAdvances(verify, run, k);
    }
    ChainAdvances(run.states, i, j);
  }

  // ---- Making runs ----

  function End(run: Run): World
    requires run.states != []
  {
    run.states[|run.states| - 1]
  }

  ghost function Extend(verify: Oracle, run: Run, a: Action): Run
    requires run.states != [] && Enabled(run.states[|run.states| - 1], a)
  {
    Run(run.states + [Next(verify, run.states[|run.states| - 1], a)], run.actions + [a])
  }

  /** One more enabled step makes a run of a run. */
  lemma ExtendIsRun(verify: Oracle, run: Run, a: Action)
    requires IsRun(verify, run) && Enabled(run.states[|run.actions|], a)
    ensures IsRun(verify, Extend(verify, run, a))
  {
    var longer := Extend(verify, run, a);
    forall i | 0 <= i < |longer.actions| ensures StepAt(verify, longer, i) {
      if i < |run.actions| { assert StepAt(verify, run, i); }
    }
  }

  const START: Run := Run([INITIAL], [])

  lemma StartIsRun(verify: Oracle)
    ensures IsRun(verify, START)
  {
  }
}
