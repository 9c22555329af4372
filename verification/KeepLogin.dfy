/** The login transaction keeps the invariant whatever happened between its
    first read and its commit. */
module KeepLogin {
  import opened Base
  import opened Schema
  import opened Users
  import opened Totp
  import opened World
  import opened Invariant
  import opened Keep

  /** A counted failure extends the failure times. */
  lemma FailureCounted(current: User, times: seq<nat>, now: nat)
    requires FailureTimesOk(current, times) && OrZero(current.lockedUntil) <= now
    ensures FailureTimesOk(AfterFailure(current, now), times + [now])
  {
    var after, all := AfterFailure(current, now), times + [now];
    forall i | 0 <= i < |all| - 1 ensures all[i] + LockDelay(Min(i + 1, FAILED_LOGIN_MAX)) <= all[i + 1] {
      if i < |times| - 1 {
        assert all[i] == times[i] && all[i + 1] == times[i + 1];
      }
    }
  }

  /** A user row rewritten without touching what authentication depends on. */
  ghost predicate RewritesRow(db: Db, db': Db, id: UserId) {
    && id in db.users && id in db'.users && db' == db.(users := db.users[id := db'.users[id]])
    && UserOk(id, db'.users[id]) && db'.users[id].username == db.users[id].username
    && db'.users[id].epoch == db.users[id].epoch && db'.users[id].revision == db.users[id].revision
    && db'.users[id].enabled == db.users[id].enabled
    && db'.users[id].hash.password == db.users[id].hash.password
  }

  lemma RewrittenTables(db: Db, db': Db, id: UserId)
    requires TablesOk(db) && RewritesRow(db, db', id)
    ensures TablesOk(db')
  {
    RowReplaced(db.users, db.roles, id, db'.users[id], db.roles[id]);
    assert db.roles[id := db.roles[id]] == db.roles;
    MappingsFollow(db.users, db.mappings, id, db'.users[id]);
    SessionsFollow(db.users, db.sessions, id, db'.users[id]);
  }

  lemma RewrittenHistory(db: Db, hist: History, db': Db, id: UserId, times: seq<nat>)
    requires HistoryOk(db, hist) && RewritesRow(db, db', id) && FailureTimesOk(db'.users[id], times)
    ensures HistoryOk(db', hist.(failures := hist.failures[id := times]))
  {
    TokensFollow(db.users, db.tokens, hist.requests, id, db'.users[id]);
    FailuresFollow(db.users, hist.failures, id, db'.users[id], times);
  }

  lemma Rewritten(verify: Oracle, w: World, db': Db, id: UserId, times: seq<nat>)
    requires Inv(verify, w) && RewritesRow(w.db, db', id) && FailureTimesOk(db'.users[id], times)
    ensures var w' := World(db', w.hist.(failures := w.hist.failures[id := times]));
            && Inv(verify, w') && Advances(w, w') && ViewOf(w', id) == ViewOf(w, id)
  {
    var w' := World(db', w.hist.(failures := w.hist.failures[id := times]));
    RewrittenTables(w.db, db', id);
    RewrittenHistory(w.db, w.hist, db', id, times);
    RewrittenViews(verify, w, w', id);
  }

  lemma RewrittenViews(verify: Oracle, w: World, w': World, id: UserId)
    requires CallersOk(verify, w) && RewritesRow(w.db, w'.db, id)
    requires w'.hist.enrolments == w.hist.enrolments
    requires SameCallers(w.hist, w'.hist)
    ensures ViewOf(w', id) == ViewOf(w, id)
    ensures Advances(w, w') && CallersOk(verify, w')
  {
    forall u | u in w.db.users ensures ViewOf(w', u) == ViewOf(w, u) {}
    HeldOver(verify, w, w');
  }

  // ---- The first read ----

  lemma BegunAttempt(db: Db, username: string, password: Password, policy: Policy, salt: nat, now: nat)
    ensures var start := LoginRead(db, username, password, policy, salt, now);
            start.Begun? ==> AttemptOk(start.attempt)
  {
  }

  lemma BeginLoginKeeps(verify: Oracle, w: World, username: string, password: Password, policy: Policy, salt: nat,
                        now: nat)
    requires Inv(verify, w)
    ensures var w' := StepBeginLogin(w, username, password, policy, salt, now);
            Inv(verify, w') && Advances(w, w')
  {
    BegunAttempt(w.db, username, password, policy, salt, now);
    Elsewhere(verify, w, StepBeginLogin(w, username, password, policy, salt, now));
  }

  // ---- The transaction ----

  /** A commit writes nothing, counts a failure past the lock, or succeeds. */
  lemma CommitShape(db: Db, attempt: Attempt)
    requires TablesOk(db) && AttemptOk(attempt)
    ensures var tx, id := LoginCommit(db, attempt), attempt.userId;
            || (tx.result.Err? && tx.db == db)
            || (&& RewritesRow(db, tx.db, id)
                && if tx.result.Err? then
                     tx.db.users[id] == AfterFailure(db.users[id], attempt.now)
                     && tx.db.users[id] != db.users[id]
                     && OrZero(db.users[id].lockedUntil) <= attempt.now
                   else
                     && tx.db.users[id] == AfterSuccess(db.users[id], attempt)
                     && db.users[id].username == attempt.username
                     && db.users[id].hash.password == attempt.password
                     && LoadPermissions(db.roles, id) == Ok(tx.result.value.permissions)
                     && tx.result.value == Identity(id, attempt.username, tx.result.value.permissions,
                                                    db.users[id].revision, db.users[id].epoch,
                                                    db.users[id].forceChange, TotpEnabled(db.totp, id),
                                                    !TotpEnabled(db.totp, id)))
  {
  }

  lemma CommitKeeps(verify: Oracle, w: World, attempt: Attempt)
    requires Inv(verify, w) && attempt in w.hist.attempts
    ensures var w' := StepCommitLogin(w, attempt); Inv(verify, w') && Advances(w, w')
  {
    var tx, id := LoginCommit(w.db, attempt), attempt.userId;
    CommitShape(w.db, attempt);
    if tx.result.Ok? {
      Succeeded(verify, w, tx.db, attempt, tx.result.value);
    } else if tx.db != w.db {
      var times := w.hist.failures[id];
      FailureCounted(w.db.users[id], times, attempt.now);
      Rewritten(verify, w, tx.db, id, times + [attempt.now]);
    } else {
      SameViews(w, w);
    }
  }

  lemma Succeeded(verify: Oracle, w: World, db': Db, attempt: Attempt, identity: Identity)
    requires Inv(verify, w) && RewritesRow(w.db, db', attempt.userId)
    requires var id := attempt.userId;
             && db'.users[id] == AfterSuccess(w.db.users[id], attempt)
             && w.db.users[id].username == attempt.username
             && w.db.users[id].hash.password == attempt.password
             && LoadPermissions(w.db.roles, id) == Ok(identity.permissions)
             && identity == Identity(id, attempt.username, identity.permissions, w.db.users[id].revision,
                                     w.db.users[id].epoch, w.db.users[id].forceChange, TotpEnabled(w.db.totp, id),
                                     !TotpEnabled(w.db.totp, id))
    ensures var w' := World(db', w.hist.(grants := w.hist.grants + {Grant(identity, attempt.password, NoFactor, 0)},
                                         failures := w.hist.failures[attempt.userId := []]));
            Inv(verify, w') && Advances(w, w')
  {
    var id := attempt.userId;
    Rewritten(verify, w, db', id, []);
    var w1 := World(db', w.hist.(failures := w.hist.failures[id := []]));
    var grant := Grant(identity, attempt.password, NoFactor, 0);
    assert Settled(verify, ViewOf(w, id), grant);
    GrantAdded(verify, w1, grant);
    AdvancesTransitive(w, w1, w1.(hist := w1.hist.(grants := w1.hist.grants + {grant})));
  }
}
