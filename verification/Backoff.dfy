/** The delay between counted login failures: the loop that computes it, the
    distance it keeps between failures over any run, and why it never concerns
    the right password. */
module Backoff {
  import opened Base
  import opened Schema
  import opened Users
  import opened Totp
  import opened World
  import opened Invariant
  import opened Reach
  import opened Log
  import opened Witnesses

  // ---- The loop ----

  lemma {:induction false} DoubledPasses(n: nat)
    requires n >= 12
    ensures Doubled(n) >= 4096
  {
    if n == 12 {
      assert Doubled(4) == 16;
      assert Doubled(8) == 256;
    } else {
      DoubledPasses(n - 1);
    }
  }

  lemma {:induction false} DoubledGrows(n: nat, m: nat)
    requires n <= m
    ensures 1 <= Doubled(n) <= Doubled(m)
  {
    if n < m { DoubledGrows(n, m - 1); }
    else if n > 0 { DoubledGrows(n - 1, n - 1); }
  }

  /** `login_lock_delay`: doubling until the exponent or the cap is reached. */
  method LoginLockDelay(failedLogins: nat) returns (delay: nat)
    ensures failedLogins >= 1 ==> delay == Min(Doubled(failedLogins - 1), LOCK_DELAY_MAX)
    ensures delay == LockDelay(failedLogins)
  {
    delay := 1;
    var exponent: nat := if failedLogins > 0 then failedLogins - 1 else 0;
    ghost var whole := exponent;
    while exponent > 0 && delay < LOCK_DELAY_MAX
      invariant exponent <= whole && delay == Doubled(whole - exponent)
      invariant delay < 2 * LOCK_DELAY_MAX
    {
      delay := delay * 2;
      exponent := exponent - 1;
    }
    DoubledGrows(whole - exponent, whole);
    if delay > LOCK_DELAY_MAX {
      delay := LOCK_DELAY_MAX;
    }
  }

  // ---- Distance between failures ----

  /** The delays after the first `k` counted failures, together. */
  function DelaySum(k: nat): nat {
    if k == 0 then 0 else DelaySum(k - 1) + LockDelay(k)
  }

  /** The saturated failure counter still gives the full delay. */
  lemma SaturatedDelay(i: nat)
    requires i >= 1
    ensures LockDelay(Min(i, FAILED_LOGIN_MAX)) == LockDelay(i)
  {
    if i > FAILED_LOGIN_MAX {
      DoubledPasses(FAILED_LOGIN_MAX - 1);
      DoubledPasses(i - 1);
    }
  }

  lemma {:induction false} TimesApart(user: User, times: seq<nat>, k: nat)
    requires FailureTimesOk(user, times) && k < |times|
    ensures times[0] + DelaySum(k) <= times[k]
  {
    if k > 0 {
      TimesApart(user, times, k - 1);
      SaturatedDelay(k);
    }
  }

  /** In every world of a run, of the failures counted since the last success or
      password change, number `k` (from zero) came at least the first `k` delays
      after the first one. */
  lemma FailuresKeepTheirDistance(verify: Oracle, run: Run, n: nat, id: UserId, k: nat)
    requires IsRun(verify, run) && n < |run.states| && id in run.states[n].db.users
    ensures |run.states| == |run.actions| + 1
    ensures forall i :: 0 <= i < |run.actions| ==> Enabled(run.states[i], run.actions[i])
    ensures var times := CountedFailures(run, n, id);
            && (k < |times| ==> times[0] + DelaySum(k) <= times[k])
            && run.states[n].db.users[id].failedLogins == Min(|times|, FAILED_LOGIN_MAX)
  {
    RunLogs(verify, run, n);
    RunKeeps(verify, run, n);
    var times := run.states[n].hist.failures[id];
    assert FailureTimesOk(run.states[n].db.users[id], times) && CountedFailures(run, n, id) == times;
    if k < |times| { TimesApart(run.states[n].db.users[id], times, k); }
  }

  // ---- The right password ----

  /** With the right password neither part of a login looks at the lock, whatever
      ran between them: any other lock time and failure count at the first read, and
      any other at the commit, gives the same outcome. */
  lemma LockIsIrrelevant(id: UserId, user: User, username: string, password: Password, policy: Policy, salt: nat,
                         now: nat, lock: Option<nat>, failures: nat, db: Db, lock': Option<nat>, failures': nat)
    requires Verifies(user.hash, password) && user.failedLogins <= FAILED_LOGIN_MAX && failures <= FAILED_LOGIN_MAX
    requires id in db.users && db.users[id].failedLogins <= FAILED_LOGIN_MAX && failures' <= FAILED_LOGIN_MAX
    ensures var start := LoginVerify(id, user, username, password, policy, salt, now);
            var start' := LoginVerify(id, user.(lockedUntil := lock, failedLogins := failures), username, password,
                                      policy, salt, now);
            var other := db.users[id].(lockedUntil := lock', failedLogins := failures');
            && start != Refused(EAGAIN) && start.Begun? == start'.Begun?
            && (start.Refused? ==> start' == start)
            && (start.Begun? ==>
                  LoginSettle(db, id, start.attempt).result
                  == LoginSettle(db.(users := db.users[id := other]), id, start'.attempt).result)
  {
  }

  /** How a login with the right password goes when nothing comes between its two
      parts, whatever the lock and for all arguments. The one refusal that is about
      the password is a rehash under a policy whose lengths it does not meet. */
  ghost predicate RightPasswordOutcome(db: Db, id: UserId, password: Password, policy: Policy, salt: nat, now: nat)
    requires id in db.users
  {
    var user := db.users[id];
    var start := LoginRead(db, user.username, password, policy, salt, now);
    if |password| > PASSWORD_MAX then start == Refused(ERANGE)
    else if now == 0 || now > INT64_MAX - LOCK_DELAY_MAX || !policy.Valid() then start == Refused(EINVAL)
    else if !user.enabled then start == Refused(EACCES)
    else if user.hash.cost != policy.Cost() && !(policy.minimumLength <= |password| <= policy.maximumLength)
    then start == Refused(ERANGE)
    else start.Begun? && if user.createdAt <= now then LoginCommit(db, start.attempt).result.Ok?
                         else LoginCommit(db, start.attempt) == Tx(db, Err(EIO))
  }

  lemma RightPasswordLogsIn(verify: Oracle, run: Run, k: nat, id: UserId, password: Password, policy: Policy,
                            salt: nat, now: nat)
    requires IsRun(verify, run) && k < |run.states| && id in run.states[k].db.users
    requires |run.states| == |run.actions| + 1 && forall i :: 0 <= i < k ==> Enabled(run.states[i], run.actions[i])
    requires LastPassword(run, k, id) == Some(password)
    ensures RightPasswordOutcome(run.states[k].db, id, password, policy, salt, now)
  {
    RunLogs(verify, run, k);
    RunKeeps(verify, run, k);
    RightPasswordBegins(run.states[k].db, id, password, policy, salt, now);
  }

  lemma RightPasswordBegins(db: Db, id: UserId, password: Password, policy: Policy, salt: nat, now: nat)
    requires UsersOk(db.users, db.roles) && NamesUnique(db.users)
    requires id in db.users && db.users[id].hash.password == password
    ensures RightPasswordOutcome(db, id, password, policy, salt, now)
  {
    assert UserOk(id, db.users[id]) && RolesOk(db.roles[id]);
    FoundByName(db.users, id);
    PermissionsLoad(db.roles, id);
  }

  // ---- Both parts at different points of a run ----

  /** What the transaction compares; neither lock nor failure count is in it. */
  predicate RecordCurrent(db: Db, attempt: Attempt) {
    && attempt.userId in db.users
    && var user := db.users[attempt.userId];
    && user.epoch == attempt.record.epoch && user.revision == attempt.record.revision
    && user.enabled == attempt.record.enabled && user.forceChange == attempt.record.forceChange
    && user.hash == attempt.record.hash
  }

  /** The outcome of committing a login that presented the right password. */
  ghost predicate CommitOutcome(db: Db, attempt: Attempt) {
    if !RecordCurrent(db, attempt) then LoginCommit(db, attempt) == Tx(db, Err(EAGAIN))
    else if attempt.now < db.users[attempt.userId].createdAt then LoginCommit(db, attempt) == Tx(db, Err(EIO))
    else LoginCommit(db, attempt).result.Ok?
  }

  lemma CommitsExactly(db: Db, attempt: Attempt)
    requires UsersOk(db.users, db.roles) && NamesUnique(db.users) && attempt.valid
    requires RecordCurrent(db, attempt) ==> db.users[attempt.userId].username == attempt.username
    ensures CommitOutcome(db, attempt)
  {
    var found := FindUser(db.users, attempt.username);
    if found.Some? {
      assert UserOk(found.value, db.users[found.value]) && RolesOk(db.roles[found.value]);
      PermissionsLoad(db.roles, found.value);
    }
    if RecordCurrent(db, attempt) { FoundByName(db.users, attempt.userId); }
  }

  /** A login that began anywhere in a run with the right password, and commits
      anywhere later, succeeds exactly if the user's epoch, revision, enablement,
      forced change and stored hash are those it read and the account is not younger
      than its clock; otherwise it changes nothing. */
  lemma InterleavedLogin(verify: Oracle, run: Run, i: nat, k: nat, username: string, password: Password,
                         policy: Policy, salt: nat, now: nat)
    requires IsRun(verify, run) && i <= k < |run.states|
    requires LoginRead(run.states[i].db, username, password, policy, salt, now).Begun?
    requires LoginRead(run.states[i].db, username, password, policy, salt, now).attempt.valid
    ensures CommitOutcome(run.states[k].db, LoginRead(run.states[i].db, username, password, policy, salt, now).attempt)
  {
    var attempt := LoginRead(run.states[i].db, username, password, policy, salt, now).attempt;
    BegunFor(run.states[i].db, username, password, policy, salt, now);
    RunAdvances(verify, run, i, k);
    RunKeeps(verify, run, k);
    if RecordCurrent(run.states[k].db, attempt) { SameName(run.states[i], run.states[k], attempt); }
    CommitsExactly(run.states[k].db, attempt);
  }

  lemma BegunFor(db: Db, username: string, password: Password, policy: Policy, salt: nat, now: nat)
    requires LoginRead(db, username, password, policy, salt, now).Begun?
    ensures var attempt := LoginRead(db, username, password, policy, salt, now).attempt;
            && attempt.userId in db.users && attempt.record == db.users[attempt.userId]
            && attempt.username == username == attempt.record.username
  {
  }

  lemma SameName(w: World, w': World, attempt: Attempt)
    requires Advances(w, w') && attempt.userId in w.db.users && attempt.record == w.db.users[attempt.userId]
    requires RecordCurrent(w'.db, attempt)
    ensures w'.db.users[attempt.userId].username == attempt.record.username
  {
    assert ViewAdvances(ViewOf(w, attempt.userId), ViewOf(w', attempt.userId));
  }

  // ---- A rehash in between ----

  /** Changing to a policy of another cost whose lengths the password does not meet
      locks the user out: the rehash is refused before the transaction. */
  lemma RehashLocksOut(verify: Oracle, password: Password, policy: Policy, changed: Policy, salt: nat, now: nat)
    returns (run: Run)
    requires Fits(password, policy) && changed.Valid() && changed.Cost() != policy.Cost()
    requires !(changed.minimumLength <= |password| <= changed.maximumLength)
    requires 0 < now <= INT64_MAX - LOCK_DELAY_MAX
    ensures IsRun(verify, run) && run.actions == [FirstUser(password, policy)]
    ensures LoginRead(run.states[1].db, NAME, password, changed, salt, now) == Refused(ERANGE)
  {
    run := OneUserRun(verify, password, policy);
    RunKeeps(verify, run, 1);
    RightPasswordBegins(run.states[1].db, 1, password, changed, salt, now);
  }

  /** Two logins with the right password begin at once after a change to a policy of
      another cost. The first to commit also rehashes, and that turns the second away
      with EAGAIN, although epoch and password are what they were. */
  lemma RehashTurnsAway(verify: Oracle, password: Password, policy: Policy, changed: Policy, salt: nat, salt': nat,
                        now: nat) returns (run: Run)
    requires Fits(password, policy) && Fits(password, changed) && changed.Cost() != policy.Cost()
    requires 0 < now <= INT64_MAX - LOCK_DELAY_MAX
    ensures IsRun(verify, run) && |run.actions| == 4
    ensures run.actions[..3] == [FirstUser(password, policy), BeginLogin(NAME, password, changed, salt, now),
                                 BeginLogin(NAME, password, changed, salt', now)]
    ensures TurnedAway(run, LoginRead(run.states[1].db, NAME, password, changed, salt, now),
                       LoginRead(run.states[2].db, NAME, password, changed, salt', now))
  {
    var db := OneUser(password, policy).db;
    var first := LoginRead(db, NAME, password, changed, salt, now);
    var second := LoginRead(db, NAME, password, changed, salt', now);
    OneUserBegins(verify, password, policy, changed, salt, salt', now);
    var begun := TwoLogins(verify, password, policy, changed, salt, salt', now);
    run := CommitExtends(verify, begun, first.attempt);
    CommitTables(begun.states[3], first.attempt);
    assert run.states[..4] == begun.states && run.actions[..3] == begun.actions;
    assert run.states[1] == begun.states[1] && run.states[2] == begun.states[2] && run.states[3] == begun.states[3];
  }

  lemma OneUserBegins(verify: Oracle, password: Password, policy: Policy, changed: Policy, salt: nat, salt': nat,
                      now: nat)
    requires Fits(password, policy) && Fits(password, changed) && changed.Cost() != policy.Cost()
    requires 0 < now <= INT64_MAX - LOCK_DELAY_MAX
    ensures var db := OneUser(password, policy).db;
            RightOrder(db, LoginRead(db, NAME, password, changed, salt, now),
                       LoginRead(db, NAME, password, changed, salt', now))
  {
    var one := OneUserRun(verify, password, policy);
    RunKeeps(verify, one, 1);
    BothBegin(one.states[1].db, password, changed, salt, salt', now);
  }

  /** The run up to the commit: both logins read the same tables. */
  lemma TwoLogins(verify: Oracle, password: Password, policy: Policy, changed: Policy, salt: nat, salt': nat, now: nat)
    returns (run: Run)
    requires Fits(password, policy)
    requires LoginRead(OneUser(password, policy).db, NAME, password, changed, salt, now).Begun?
    requires LoginRead(OneUser(password, policy).db, NAME, password, changed, salt', now).Begun?
    ensures IsRun(verify, run) && |run.states| == 4
    ensures run.actions == [FirstUser(password, policy), BeginLogin(NAME, password, changed, salt, now),
                            BeginLogin(NAME, password, changed, salt', now)]
    ensures var db := OneUser(password, policy).db;
            && run.states[1].db == db && run.states[2].db == db && run.states[3].db == db
            && LoginRead(db, NAME, password, changed, salt, now).attempt in run.states[3].hist.attempts
            && LoginRead(db, NAME, password, changed, salt', now).attempt in run.states[3].hist.attempts
  {
    var one := OneUserRun(verify, password, policy);
    var two := BeginExtends(verify, one, NAME, password, changed, salt, now);
    run := BeginExtends(verify, two, NAME, password, changed, salt', now);
  }

  /** Both logins are under way with the right password; once the first commits the
      second cannot. */
  ghost predicate RightOrder(db: Db, first: LoginStart, second: LoginStart) {
    && first.Begun? && second.Begun? && second.attempt.valid
    && var tx := LoginCommit(db, first.attempt);
    && tx.result.Ok? && LoginCommit(tx.db, second.attempt) == Tx(tx.db, Err(EAGAIN))
  }

  /** The first login commits as the last step, and the second then cannot. */
  ghost predicate TurnedAway(run: Run, first: LoginStart, second: LoginStart)
    requires |run.states| == 5 && |run.actions| == 4
  {
    && first.Begun? && run.actions[3] == CommitLogin(first.attempt)
    && second.Begun? && second.attempt.valid && second.attempt in run.states[4].hist.attempts
    && LoginCommit(run.states[3].db, first.attempt).result.Ok?
    && LoginCommit(run.states[4].db, second.attempt) == Tx(run.states[4].db, Err(EAGAIN))
  }

  lemma CommitTables(w: World, attempt: Attempt)
    ensures StepCommitLogin(w, attempt).db == LoginCommit(w.db, attempt).db
    ensures StepCommitLogin(w, attempt).hist.attempts == w.hist.attempts
  {
  }

  lemma BothBegin(db: Db, password: Password, changed: Policy, salt: nat, salt': nat, now: nat)
    requires UsersOk(db.users, db.roles) && NamesUnique(db.users) && Fits(password, changed)
    requires 1 in db.users && db.users[1].username == NAME && db.users[1].hash.password == password
    requires db.users[1].enabled && db.users[1].createdAt <= now && db.users[1].hash.cost != changed.Cost()
    requires 0 < now <= INT64_MAX - LOCK_DELAY_MAX
    ensures RightOrder(db, LoginRead(db, NAME, password, changed, salt, now),
                       LoginRead(db, NAME, password, changed, salt', now))
  {
    RightPasswordBegins(db, 1, password, changed, salt, now);
    RightPasswordBegins(db, 1, password, changed, salt', now);
    FoundByName(db.users, 1);
    RehashChanges(db, LoginRead(db, NAME, password, changed, salt, now).attempt,
                  LoginRead(db, NAME, password, changed, salt', now).attempt);
  }

  lemma RehashChanges(db: Db, first: Attempt, second: Attempt)
    requires UsersOk(db.users, db.roles) && NamesUnique(db.users)
    requires LoginCommit(db, first).result.Ok? && first.valid && second.valid
    requires first.userId in db.users && first.username == db.users[first.userId].username
    requires first.record == second.record == db.users[first.userId]
    requires second.userId == first.userId && second.username == first.username
    requires first.replacement.Some? && first.replacement.value != first.record.hash
    ensures var db' := LoginCommit(db, first).db; LoginCommit(db', second) == Tx(db', Err(EAGAIN))
  {
    var id := first.userId;
    FoundByName(db.users, id);
    var db' := LoginCommit(db, first).db;
    assert db' == db.(users := db.users[id := AfterSuccess(db.users[id], first)]);
    assert UserOk(id, db.users[id]);
    FoundByName(db'.users, id);
  }
}
