/** Session activity (src/common/account_session.c:281-290, 377-385, 417-448):
    writes are at least a minute apart and never extend a session, and skipping
    them costs an active client nothing as long as its visits are no further
    apart than the inactivity limit less 59 seconds. */
module Activity {
  import opened Base
  import opened Schema
  import opened Sessions
  import opened Totp
  import opened World
  import opened Invariant
  import opened Reach
  import opened Growth
  import opened Rows

  /** From any world of a run to any later one that still has a session, its
      activity either was not written or moved by at least a minute, and its expiry,
      owner, epoch and address are what they were. */
  lemma ActivityWritesAreApart(verify: Oracle, run: Run, i: nat, k: nat, digest: Digest)
    requires IsRun(verify, run) && i <= k < |run.states|
    requires digest in run.states[i].db.sessions && digest in run.states[k].db.sessions
    ensures var before, after := run.states[i].db.sessions[digest], run.states[k].db.sessions[digest];
            && (after.lastSeenAt == before.lastSeenAt || before.lastSeenAt + TOUCH_INTERVAL <= after.lastSeenAt)
            && after.expiresAt == before.expiresAt && after.userId == before.userId
            && after.epoch == before.epoch && after.remote == before.remote && after.csrf == before.csrf
  {
    RunKeeps(verify, run, i);
    RunContinues(verify, run, i, k);
    SessionRow(verify, run.states[i], run.states[k], digest);
  }

  lemma SessionRow(verify: Oracle, w: World, w': World, digest: Digest)
    requires Inv(verify, w) && Continues(w, w') && digest in w.db.sessions && digest in w'.db.sessions
    ensures SessionContinues(w.db.sessions[digest], w'.db.sessions[digest])
  {
    assert digest in w.hist.digests;
  }

  // ---- When a stored session is refused ----

  /** In every world of a run a stored session is refused only for expiry,
      inactivity, a clock behind its activity, its address or the CSRF value; whether
      its owner is enabled and at the same epoch never decides. */
  lemma RefusedOnlyForCause(verify: Oracle, run: Run, k: nat, session: Secret, csrf: Option<Secret>, now: nat,
                            timeout: nat, remote: Option<seq<byte>>)
    requires IsRun(verify, run) && k < |run.states| && Digest(session) in run.states[k].db.sessions
    ensures Causes(run.states[k].db, session, csrf, now, timeout, remote)
  {
    RunKeeps(verify, run, k);
    StoredIsCurrent(run.states[k].db, Digest(session));
    CurrentCauses(run.states[k].db, session, csrf, now, timeout, remote);
  }

  /** The complete outcome of validating a stored session. */
  predicate Causes(db: Db, session: Secret, csrf: Option<Secret>, now: nat, timeout: nat, remote: Option<seq<byte>>)
    requires Digest(session) in db.sessions
  {
    var row := db.sessions[Digest(session)];
    var result := SessionValidate(db, session, csrf, now, timeout, remote);
    if |session| != SECRET_TEXT_SIZE || !Positive64(now) || !RemoteValid(remote)
       || (csrf.Some? && |csrf.value| != SECRET_TEXT_SIZE) then result == Err(EINVAL)
    else if !(INACTIVITY_MIN <= timeout <= INACTIVITY_MAX) then result == Err(ERANGE)
    else if row.expiresAt <= now || now < row.lastSeenAt || row.lastSeenAt + timeout < now
            || (row.remote.Some? && remote != row.remote) || (csrf.Some? && Digest(csrf.value) != row.csrf)
    then result == Err(EACCES)
    else result.Ok? && result.value.userId == row.userId && result.value.mfaComplete
  }

  lemma CurrentCauses(db: Db, session: Secret, csrf: Option<Secret>, now: nat, timeout: nat,
                      remote: Option<seq<byte>>)
    requires Digest(session) in db.sessions
    requires var row := db.sessions[Digest(session)];
             && row.userId in db.users && db.users[row.userId].enabled && db.users[row.userId].epoch == row.epoch
             && SessionRowOk(row, db.users[row.userId]) && LoadPermissions(db.roles, row.userId).Ok?
    ensures Causes(db, session, csrf, now, timeout, remote)
  {
  }

  /** What the tables say of a stored session's owner. */
  lemma StoredIsCurrent(db: Db, digest: Digest)
    requires UsersOk(db.users, db.roles) && SessionsOk(db.users, db.sessions) && digest in db.sessions
    ensures var row := db.sessions[digest];
            && row.userId in db.users && db.users[row.userId].enabled && db.users[row.userId].epoch == row.epoch
            && SessionRowOk(row, db.users[row.userId]) && LoadPermissions(db.roles, row.userId).Ok?
  {
    var row := db.sessions[digest];
    assert SessionOk(db.users, row) && UserOk(row.userId, db.users[row.userId]);
    PermissionsLoad(db.roles, row.userId);
  }

  // ---- A client that touches after each validation ----

  /** The times of the successful touches of a session in steps `i` to `k`. */
  function Touches(run: Run, i: nat, k: nat, digest: Digest): seq<nat>
    requires i <= k <= |run.actions| && |run.states| == |run.actions| + 1
    decreases k
  {
    if i == k then []
    else
      Touches(run, i, k - 1, digest)
      + if Touching(run.states[k - 1].db, run.actions[k - 1], digest) then [run.actions[k - 1].now] else []
  }

  /** The activity stored at `i` and the touches since. */
  function Visits(run: Run, i: nat, k: nat, digest: Digest): (visits: seq<nat>)
    requires i <= k <= |run.actions| && |run.states| == |run.actions| + 1 && digest in run.states[i].db.sessions
    ensures visits != []
  {
    [run.states[i].db.sessions[digest].lastSeenAt] + Touches(run, i, k, digest)
  }

  predicate InOrder(times: seq<nat>) {
    forall i, j :: 0 <= i <= j < |times| ==> times[i] <= times[j]
  }

  function Last(times: seq<nat>): nat
    requires times != []
  {
    times[|times| - 1]
  }

  /** Only the activity has changed, and it lags the last visit by less than a
      minute. */
  predicate Follows(before: Session, after: Session, last: nat) {
    && after == before.(lastSeenAt := after.lastSeenAt)
    && after.lastSeenAt <= last < after.lastSeenAt + TOUCH_INTERVAL
  }

  lemma TouchFollows(before: Session, after: Session, last: nat, now: nat)
    requires Follows(before, after, last) && last <= now
    ensures Follows(before, Touched(after, now), now)
  {
  }

  /** A session stored at both ends of a stretch was stored all along. */
  lemma StoredBetween(verify: Oracle, run: Run, i: nat, j: nat, k: nat, digest: Digest)
    requires IsRun(verify, run) && i <= j <= k < |run.states|
    requires digest in run.states[i].db.sessions && digest in run.states[k].db.sessions
    ensures digest in run.states[j].db.sessions
  {
    RunKeeps(verify, run, i);
    RunContinues(verify, run, i, j);
    RunContinues(verify, run, j, k);
    NeverBack(verify, run.states[i], run.states[j], run.states[k], digest);
  }

  lemma NeverBack(verify: Oracle, w: World, w': World, w'': World, digest: Digest)
    requires Inv(verify, w) && Continues(w, w') && Continues(w', w'')
    requires digest in w.db.sessions && digest in w''.db.sessions
    ensures digest in w'.db.sessions
  {
    assert digest in w.hist.digests && digest in w'.hist.digests;
  }

  /** Whatever else runs in between, the stored activity follows the touches. */
  lemma {:induction false} ActivityFollows(verify: Oracle, run: Run, i: nat, k: nat, digest: Digest)
    requires IsRun(verify, run) && i <= k < |run.states| && |run.states| == |run.actions| + 1
    requires digest in run.states[i].db.sessions && digest in run.states[k].db.sessions
    requires InOrder(Visits(run, i, k, digest))
    ensures Follows(run.states[i].db.sessions[digest], run.states[k].db.sessions[digest],
                    Last(Visits(run, i, k, digest)))
    decreases k
  {
    if i < k {
      StoredBetween(verify, run, i, k - 1, k, digest);
      EarlierVisits(run, i, k, digest);
      ActivityFollows(verify, run, i, k - 1, digest);
      StepSessions(verify, run, k - 1);
      StepFollows(run, i, k, digest);
    }
  }

  lemma EarlierVisits(run: Run, i: nat, k: nat, digest: Digest)
    requires i < k <= |run.actions| && |run.states| == |run.actions| + 1 && digest in run.states[i].db.sessions
    requires InOrder(Visits(run, i, k, digest))
    ensures InOrder(Visits(run, i, k - 1, digest))
    ensures Last(Visits(run, i, k - 1, digest)) <= Last(Visits(run, i, k, digest))
    ensures Last(Visits(run, i, k, digest)) ==
              if Touching(run.states[k - 1].db, run.actions[k - 1], digest) then run.actions[k - 1].now
              else Last(Visits(run, i, k - 1, digest))
  {
    assert Visits(run, i, k - 1, digest) <= Visits(run, i, k, digest);
  }

  lemma StepFollows(run: Run, i: nat, k: nat, digest: Digest)
    requires i < k <= |run.actions| && |run.states| == |run.actions| + 1
    requires digest in run.states[i].db.sessions && digest in run.states[k - 1].db.sessions
    requires digest in run.states[k].db.sessions && InOrder(Visits(run, i, k, digest))
    requires Follows(run.states[i].db.sessions[digest], run.states[k - 1].db.sessions[digest],
                     Last(Visits(run, i, k - 1, digest)))
    requires SessionsFromStep(run.states[k - 1].db, run.actions[k - 1], run.states[k].db.sessions)
    ensures Follows(run.states[i].db.sessions[digest], run.states[k].db.sessions[digest],
                    Last(Visits(run, i, k, digest)))
  {
    EarlierVisits(run, i, k, digest);
    assert FromStep(run.states[k - 1].db, run.actions[k - 1], digest, run.states[k].db.sessions[digest]);
    if Touching(run.states[k - 1].db, run.actions[k - 1], digest) {
      TouchFollows(run.states[i].db.sessions[digest], run.states[k - 1].db.sessions[digest],
                   Last(Visits(run, i, k - 1, digest)), run.actions[k - 1].now);
    }
  }

  /** However the run interleaves, a session that is still stored validates for its
      client before expiry as long as the client comes back within the inactivity
      limit less 59 seconds of its last visit. */
  lemma ActiveClientNeverIdles(verify: Oracle, run: Run, i: nat, k: nat, session: Secret, csrf: Option<Secret>,
                               now: nat, timeout: nat, remote: Option<seq<byte>>)
    requires IsRun(verify, run) && i <= k < |run.states| && |run.states| == |run.actions| + 1
    requires Digest(session) in run.states[i].db.sessions && Digest(session) in run.states[k].db.sessions
    requires |session| == SECRET_TEXT_SIZE && Positive64(now) && RemoteValid(remote)
    requires csrf.Some? ==> |csrf.value| == SECRET_TEXT_SIZE
    requires INACTIVITY_MIN <= timeout <= INACTIVITY_MAX
    requires var visits := Visits(run, i, k, Digest(session));
             InOrder(visits + [now]) && now <= Last(visits) + timeout - (TOUCH_INTERVAL - 1)
    requires var row := run.states[i].db.sessions[Digest(session)];
             && now < row.expiresAt
             && (row.remote.Some? ==> remote == row.remote) && (csrf.Some? ==> Digest(csrf.value) == row.csrf)
    ensures SessionValidate(run.states[k].db, session, csrf, now, timeout, remote).Ok?
  {
    var visits := Visits(run, i, k, Digest(session));
    assert forall m :: 0 <= m < |visits| ==> visits[m] == (visits + [now])[m];
    assert Last(visits) <= (visits + [now])[|visits|];
    ActivityFollows(verify, run, i, k, Digest(session));
    RefusedOnlyForCause(verify, run, k, session, csrf, now, timeout, remote);
  }

  /** Whatever the clocks of the clients do, the stored activity is one of the
      visits. */
  lemma {:induction false} ActivityIsAVisit(verify: Oracle, run: Run, i: nat, k: nat, digest: Digest)
    requires IsRun(verify, run) && i <= k < |run.states| && |run.states| == |run.actions| + 1
    requires digest in run.states[i].db.sessions && digest in run.states[k].db.sessions
    ensures run.states[k].db.sessions[digest].lastSeenAt in Visits(run, i, k, digest)
    decreases k
  {
    if i < k {
      StoredBetween(verify, run, i, k - 1, k, digest);
      ActivityIsAVisit(verify, run, i, k - 1, digest);
      StepSessions(verify, run, k - 1);
      StepIsAVisit(run, i, k, digest);
    }
  }

  lemma StepIsAVisit(run: Run, i: nat, k: nat, digest: Digest)
    requires i < k <= |run.actions| && |run.states| == |run.actions| + 1
    requires digest in run.states[i].db.sessions && digest in run.states[k - 1].db.sessions
    requires digest in run.states[k].db.sessions
    requires run.states[k - 1].db.sessions[digest].lastSeenAt in Visits(run, i, k - 1, digest)
    requires SessionsFromStep(run.states[k - 1].db, run.actions[k - 1], run.states[k].db.sessions)
    ensures run.states[k].db.sessions[digest].lastSeenAt in Visits(run, i, k, digest)
  {
    assert FromStep(run.states[k - 1].db, run.actions[k - 1], digest, run.states[k].db.sessions[digest]);
    var before, after := Visits(run, i, k - 1, digest), Visits(run, i, k, digest);
    if Touching(run.states[k - 1].db, run.actions[k - 1], digest) {
      assert after == before + [run.actions[k - 1].now];
    } else {
      assert after == before;
    }
  }

  /** And once every visit is longer ago than the limit it is refused, in whatever
      order the visits came. */
  lemma SilentClientIdles(verify: Oracle, run: Run, i: nat, k: nat, session: Secret, csrf: Option<Secret>, now: nat,
                          timeout: nat, remote: Option<seq<byte>>)
    requires IsRun(verify, run) && i <= k < |run.states| && |run.states| == |run.actions| + 1
    requires Digest(session) in run.states[i].db.sessions
    requires forall visit :: visit in Visits(run, i, k, Digest(session)) ==> visit + timeout < now
    ensures SessionValidate(run.states[k].db, session, csrf, now, timeout, remote).Err?
  {
    if Digest(session) in run.states[k].db.sessions {
      ActivityIsAVisit(verify, run, i, k, Digest(session));
    }
  }

  /** One second more between visits is too much: a visit 59 seconds after the
      last write is not recorded, for any session and any limit. */
  lemma LongerGapIdles(db: Db, session: Secret, csrf: Option<Secret>, timeout: nat, remote: Option<seq<byte>>)
    requires |session| == SECRET_TEXT_SIZE && Digest(session) in db.sessions
    requires var seen := db.sessions[Digest(session)].lastSeenAt;
             0 < seen && seen + timeout + 1 <= INT64_MAX && 59 <= timeout
    ensures var visit := db.sessions[Digest(session)].lastSeenAt + (TOUCH_INTERVAL - 1);
            SessionValidate(SessionTouch(db, session, visit).db, session, csrf, visit + timeout - 58, timeout, remote)
              .Err?
  {
    var row := db.sessions[Digest(session)];
    assert Touched(row, row.lastSeenAt + (TOUCH_INTERVAL - 1)) == row;
    assert db.sessions[Digest(session) := row] == db.sessions;
  }
}
