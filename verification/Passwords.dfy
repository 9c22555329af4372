/** Password login under any interleaving: the stored hash always verifies
    exactly the last password set, and a login begun before a change commits
    nothing after it. */
module Passwords {
  import opened Base
  import opened Schema
  import opened Users
  import opened Totp
  import opened World
  import opened Invariant
  import opened KeepLogin
  import opened Reach
  import opened Revocation
  import opened Log

  // ---- Passwords ----

  /** In every world of a run, whatever logins, rehashes, resets and changes interleaved,
      a user's stored hash verifies a password exactly if it is the last one that a
      successful create, reset or change set. */
  lemma HashVerifiesLastPassword(verify: Oracle, run: Run, k: nat, id: UserId, password: Password)
    requires IsRun(verify, run) && k < |run.states| && id in run.states[k].db.users
    ensures |run.states| == |run.actions| + 1
    ensures forall i :: 0 <= i < |run.actions| ==> Enabled(run.states[i], run.actions[i])
    ensures Verifies(run.states[k].db.users[id].hash, password) <==> LastPassword(run, k, id) == Some(password)
  {
    RunLogs(verify, run, k);
    RunKeeps(verify, run, k);
    assert PasswordsOk(run.states[k].db.users, run.states[k].hist.passwords);
  }

  // ---- Unfinished logins ----

  lemma StaleSettles(verify: Oracle, w: World, attempt: Attempt)
    requires Inv(verify, w) && attempt.userId in w.db.users
    requires attempt.record.epoch != w.db.users[attempt.userId].epoch
    ensures LoginCommit(w.db, attempt) == Tx(w.db, Err(EAGAIN))
  {
    var found := FindUser(w.db.users, attempt.username);
    if found.Some? {
      assert UserOk(found.value, w.db.users[found.value]);
    }
  }

  lemma BegunRecords(db: Db, username: string, password: Password, policy: Policy, salt: nat, now: nat)
    requires LoginRead(db, username, password, policy, salt, now).Begun?
    ensures var attempt := LoginRead(db, username, password, policy, salt, now).attempt;
            attempt.userId in db.users && attempt.record == db.users[attempt.userId]
  {
  }

  /** A login whose first read came before its user's epoch moved, by a password
      reset for instance, commits nothing afterwards: neither its failure, nor its
      success, nor its rehash. */
  lemma StaleLoginCommitsNothing(verify: Oracle, run: Run, i: nat, j: nat, k: nat, username: string,
                                 password: Password, policy: Policy, salt: nat, now: nat)
    requires IsRun(verify, run) && i <= j <= k < |run.states|
    requires LoginRead(run.states[i].db, username, password, policy, salt, now).Begun?
    requires var attempt := LoginRead(run.states[i].db, username, password, policy, salt, now).attempt;
             EpochMoved(run.states[i].db, run.states[j].db, attempt.userId)
    ensures var attempt := LoginRead(run.states[i].db, username, password, policy, salt, now).attempt;
            LoginCommit(run.states[k].db, attempt) == Tx(run.states[k].db, Err(EAGAIN))
  {
    var attempt := LoginRead(run.states[i].db, username, password, policy, salt, now).attempt;
    BegunRecords(run.states[i].db, username, password, policy, salt, now);
    MovedStays(verify, run, i, j, k, attempt.userId);
    RunKeeps(verify, run, k);
    StaleSettles(verify, run.states[k], attempt);
  }

  lemma CommittedIdentity(verify: Oracle, w: World, attempt: Attempt)
    requires Inv(verify, w) && attempt in w.hist.attempts && LoginCommit(w.db, attempt).result.Ok?
    ensures var identity, id := LoginCommit(w.db, attempt).result.value, attempt.userId;
            && id in w.db.users && id in w.hist.passwords && attempt.password == w.hist.passwords[id]
            && w.db.users[id].username == attempt.username
            && identity.userId == id && identity.epoch == w.db.users[id].epoch
            && identity.revision == w.db.users[id].revision
            && identity.totpEnabled == TotpEnabled(w.db.totp, id) && identity.mfaComplete == !identity.totpEnabled
            && LoadPermissions(w.db.roles, id) == Ok(identity.permissions)
  {
    CommitShape(w.db, attempt);
  }

  /** A login that succeeds describes one committed state, the one it writes to,
      and presented the password set last before it. */
  lemma LoginReturnsOneState(verify: Oracle, run: Run, k: nat, attempt: Attempt)
    requires IsRun(verify, run) && k < |run.states|
    requires attempt in run.states[k].hist.attempts && LoginCommit(run.states[k].db, attempt).result.Ok?
    ensures |run.states| == |run.actions| + 1
    ensures forall i :: 0 <= i < |run.actions| ==> Enabled(run.states[i], run.actions[i])
    ensures var db := run.states[k].db;
            var identity, id := LoginCommit(db, attempt).result.value, attempt.userId;
            && LastPassword(run, k, id) == Some(attempt.password)
            && id in db.users && db.users[id].username == attempt.username
            && identity.userId == id && identity.epoch == db.users[id].epoch
            && identity.revision == db.users[id].revision
            && identity.totpEnabled == TotpEnabled(db.totp, id) && identity.mfaComplete == !identity.totpEnabled
            && LoadPermissions(db.roles, id) == Ok(identity.permissions)
  {
    RunLogs(verify, run, k);
    RunKeeps(verify, run, k);
    CommittedIdentity(verify, run.states[k], attempt);
  }
}
