/** Administrators and bootstrap over a run (src/common/account.c:130-182,
    339-404, 582-612, 898-906). A plain user may be created while there is no
    administrator, so the law is that an administrator, once there, remains. */
module Administrators {
  import opened Base
  import opened Schema
  import opened Users
  import opened Totp
  import opened World
  import opened Invariant
  import opened Reach
  import opened Growth
  import opened Log

  /** Once an enabled administrator exists, every later world has one. */
  lemma AdministratorRemains(verify: Oracle, run: Run, i: nat, k: nat)
    requires IsRun(verify, run) && i <= k < |run.states|
    requires EnabledAdministrators(run.states[i].db) != {}
    ensures EnabledAdministrators(run.states[k].db) != {}
  {
    RunContinues(verify, run, i, k);
  }

  /** Creating the first administrator creates one. */
  lemma FirstIsAdministrator(db: Db, token: Secret, username: string, password: Password, policy: Policy, salt: nat,
                             now: nat, id: UserId)
    requires CreateInitialAdministrator(db, token, username, password, policy, salt, now, id).result.Ok?
    ensures var db' := CreateInitialAdministrator(db, token, username, password, policy, salt, now, id).db;
            EnabledAdministrators(db') == {id}
  {
    var db' := CreateInitialAdministrator(db, token, username, password, policy, salt, now, id).db;
    assert forall u :: u in EnabledAdministrators(db') <==> u == id;
  }

  /** As soon as there is any user, bootstrap is over: no token is issued and no
      first administrator created, for good and for any arguments. */
  lemma AnyUserEndsBootstrap(verify: Oracle, run: Run, i: nat, k: nat, now: nat, lifetime: nat, secret: Secret,
                             token: Secret, username: string, password: Password, policy: Policy, salt: nat,
                             id: UserId)
    requires IsRun(verify, run) && i <= k < |run.states| && run.states[i].db.users != map[]
    ensures var tx := BootstrapIssue(run.states[k].db, now, lifetime, secret);
            tx.result.Err? && tx.db == run.states[k].db
    ensures var tx := CreateInitialAdministrator(run.states[k].db, token, username, password, policy, salt, now, id);
            tx.result.Err? && tx.db == run.states[k].db
  {
    RunAdvances(verify, run, i, k);
    StillUsers(run.states[i], run.states[k]);
  }

  lemma StillUsers(w: World, w': World)
    requires Advances(w, w') && w.db.users != map[]
    ensures w'.db.users != map[]
  {
    var u :| u in w.db.users;
    assert u in w'.db.users;
  }

  /** Over any run at most one creation of a first administrator succeeds. */
  lemma OneFirstAdministrator(verify: Oracle, run: Run, i: nat, j: nat)
    requires IsRun(verify, run) && i < j < |run.actions|
    requires StepAt(verify, run, i) && StepAt(verify, run, j)
    requires run.actions[i].CreateFirst? && run.actions[j].CreateFirst?
    requires var w, a := run.states[i], run.actions[i];
             CreateInitialAdministrator(w.db, a.token, a.username, a.password, a.policy, a.salt, a.now, a.id).result.Ok?
    ensures var w, a := run.states[j], run.actions[j];
            CreateInitialAdministrator(w.db, a.token, a.username, a.password, a.policy, a.salt, a.now, a.id).result.Err?
  {
    var a, b := run.actions[i], run.actions[j];
    assert a.id in run.states[i + 1].db.users;
    AnyUserEndsBootstrap(verify, run, i + 1, j, b.now, 60, b.token, b.token, b.username, b.password, b.policy, b.salt,
                         b.id);
  }

  /** The first administrator is created only with the bootstrap token issued
      last, before it expires. */
  lemma OnlyTheLatestToken(verify: Oracle, run: Run, k: nat, token: Secret, username: string, password: Password,
                           policy: Policy, salt: nat, now: nat, id: UserId)
    requires IsRun(verify, run) && k < |run.states|
    requires CreateInitialAdministrator(run.states[k].db, token, username, password, policy, salt, now, id).result.Ok?
    ensures |run.states| == |run.actions| + 1
    ensures var issued := LastBootstrap(run, k);
            issued.Some? && issued.value.0 == Digest(token) && now < issued.value.1
  {
    RunLogs(verify, run, k);
    RunKeeps(verify, run, k);
    assert BootstrapOk(run.states[k].db.bootstrap, run.states[k].hist.bootstrap);
  }
}
