/** Moving a user to its next epoch ends, for good, every session and every
    identity obtained before (src/common/account.c:868-871,
    src/common/account_session.c:571-575, src/common/account_totp.c:340-344). */
module Revocation {
  import opened Base
  import opened Schema
  import opened Users
  import opened Sessions
  import opened Totp
  import opened World
  import opened Invariant
  import opened KeepUsers
  import opened KeepFactors
  import opened KeepRest
  import opened KeepChange
  import opened Reach
  import opened Growth

  /** In every world of a run, a user's revision is its epoch and a stored session
      carries its owner's epoch. */
  lemma SessionsCarryTheEpoch(verify: Oracle, run: Run, k: nat)
    requires IsRun(verify, run) && k < |run.states|
    ensures var db := run.states[k].db;
            && (forall u :: u in db.users ==> db.users[u].revision == db.users[u].epoch)
            && (forall d :: d in db.sessions ==>
                  db.sessions[d].userId in db.users
                  && db.sessions[d].epoch == db.users[db.sessions[d].userId].epoch)
  {
    RunKeeps(verify, run, k);
    var db := run.states[k].db;
    assert forall u :: u in db.users ==> UserOk(u, db.users[u]);
    assert forall d :: d in db.sessions ==> SessionOk(db.users, db.sessions[d]);
  }

  // ---- Two worlds of one run ----

  predicate EpochMoved(db: Db, db': Db, id: UserId) {
    id in db.users && id in db'.users && db.users[id].epoch < db'.users[id].epoch
  }

  lemma SessionGone(verify: Oracle, w: World, w': World, digest: Digest)
    requires Inv(verify, w) && Inv(verify, w') && Continues(w, w')
    requires digest in w.db.sessions && EpochMoved(w.db, w'.db, w.db.sessions[digest].userId)
    ensures digest !in w'.db.sessions
  {
    assert SessionOk(w.db.users, w.db.sessions[digest]);
    assert digest in w'.db.sessions ==> SessionOk(w'.db.users, w'.db.sessions[digest]);
  }

  lemma GrantStale(verify: Oracle, w: World, w': World, grant: Grant)
    requires Inv(verify, w) && grant in w.hist.grants && EpochMoved(w.db, w'.db, grant.identity.userId)
    ensures grant.identity.epoch < w'.db.users[grant.identity.userId].epoch
  {
    assert Settled(verify, ViewOf(w, grant.identity.userId), grant);
  }

  lemma MovedStays(verify: Oracle, run: Run, i: nat, j: nat, k: nat, id: UserId)
    requires IsRun(verify, run) && i <= j <= k < |run.states|
    requires EpochMoved(run.states[i].db, run.states[j].db, id)
    ensures EpochMoved(run.states[i].db, run.states[k].db, id)
  {
    RunAdvances(verify, run, j, k);
    assert ViewAdvances(ViewOf(run.states[j], id), ViewOf(run.states[k], id));
  }

  // ---- Over a whole run ----

  /** A session stored before its owner's epoch moved is gone for good. */
  lemma EarlierSessionIsGone(verify: Oracle, run: Run, i: nat, j: nat, k: nat, digest: Digest)
    requires IsRun(verify, run) && i <= j <= k < |run.states|
    requires digest in run.states[i].db.sessions
    requires EpochMoved(run.states[i].db, run.states[j].db, run.states[i].db.sessions[digest].userId)
    ensures digest !in run.states[k].db.sessions
  {
    MovedStays(verify, run, i, j, k, run.states[i].db.sessions[digest].userId);
    RunKeeps(verify, run, i);
    RunKeeps(verify, run, k);
    RunContinues(verify, run, i, k);
    SessionGone(verify, run.states[i], run.states[k], digest);
  }

  lemma EarlierSessionNeverValidates(verify: Oracle, run: Run, i: nat, j: nat, k: nat, session: Secret,
                                     csrf: Option<Secret>, now: nat, timeout: nat, remote: Option<seq<byte>>)
    requires IsRun(verify, run) && i <= j <= k < |run.states|
    requires Digest(session) in run.states[i].db.sessions
    requires EpochMoved(run.states[i].db, run.states[j].db, run.states[i].db.sessions[Digest(session)].userId)
    ensures SessionValidate(run.states[k].db, session, csrf, now, timeout, remote).Err?
    ensures SessionReauthorize(run.states[k].db, Digest(session), now, timeout, remote).Err?
  {
    EarlierSessionIsGone(verify, run, i, j, k, Digest(session));
  }

  /** An identity handed out before the epoch moved opens no session afterwards. */
  lemma EarlierIdentityOpensNothing(verify: Oracle, run: Run, i: nat, j: nat, k: nat, grant: Grant, now: nat,
                                    lifetime: nat, remote: Option<seq<byte>>, session: Secret, csrf: Secret)
    requires IsRun(verify, run) && i <= j <= k < |run.states|
    requires grant in run.states[i].hist.grants
    requires EpochMoved(run.states[i].db, run.states[j].db, grant.identity.userId)
    ensures var tx := SessionIssue(run.states[k].db, grant.identity, now, lifetime, remote, session, csrf);
            tx.result.Err? && tx.db == run.states[k].db
  {
    MovedStays(verify, run, i, j, k, grant.identity.userId);
    RunKeeps(verify, run, i);
    GrantStale(verify, run.states[i], run.states[k], grant);
  }

  /** Nor can such an identity still be completed by a TOTP code, whatever the
      later reads find, or by a recovery code. */
  lemma EarlierIdentityCompletesNothing(verify: Oracle, run: Run, i: nat, j: nat, k: nat, grant: Grant, db2: Db,
                                        db3: Db, db4: Db, key: nat, code: nat, secret: Secret, now: nat)
    requires IsRun(verify, run) && i <= j <= k < |run.states|
    requires grant in run.states[i].hist.grants
    requires EpochMoved(run.states[i].db, run.states[j].db, grant.identity.userId)
    ensures TotpAuthenticate(verify, run.states[k].db, db2, db3, db4, grant.identity, key, code, now).Err?
    ensures var tx := RecoveryAuthenticate(run.states[k].db, grant.identity, secret, now);
            tx.result.Err? && tx.db == run.states[k].db
  {
    MovedStays(verify, run, i, j, k, grant.identity.userId);
    RunKeeps(verify, run, i);
    GrantStale(verify, run.states[i], run.states[k], grant);
    StaleCompletesNothing(verify, run.states[k].db, db2, db3, db4, grant.identity, key, code, secret, now);
  }

  lemma StaleCompletesNothing(verify: Oracle, db: Db, db2: Db, db3: Db, db4: Db, identity: Identity, key: nat,
                              code: nat, secret: Secret, now: nat)
    requires identity.userId in db.users && identity.epoch != db.users[identity.userId].epoch
    ensures TotpAuthenticate(verify, db, db2, db3, db4, identity, key, code, now).Err?
    ensures RecoveryAuthenticate(db, identity, secret, now).result.Err?
    ensures RecoveryAuthenticate(db, identity, secret, now).db == db
  {
  }

  // ---- Which steps move the epoch ----

  /** A successful role or enablement update, password reset or change, TOTP
      confirmation or removal, or revocation of all sessions of a user. */
  ghost predicate Invalidates(verify: Oracle, w: World, a: Action, id: UserId)
    requires Enabled(w, a)
  {
    match a
    case UpdateUser(u, expected, update, now) => u == id && UserUpdate(w.db, id, expected, update, now).result.Ok?
    case Reset(u, expected, password, policy, forceChange, salt, now) =>
      u == id && ResetPassword(w.db, id, expected, password, policy, forceChange, salt, now).result.Ok?
    case ChangePassword(change, login, password, policy, salt, now) =>
      change.identity.userId == id && ChangeReset(w.db, change, login, password, policy, salt, now).result.Ok?
    case Confirm(u, key, code, now, drawn) => u == id && TotpConfirm(verify, w.db, id, key, code, now, drawn).result.Ok?
    case Disable(u, expected) => u == id && TotpDisable(w.db, id, expected).result.Ok?
    case RevokeSessions(u) => u == id && SessionsRevokeAll(w.db, id).result.Ok?
    case _ => false
  }

  lemma InvalidatingMoves(verify: Oracle, w: World, a: Action, id: UserId)
    requires Inv(verify, w) && Enabled(w, a) && Invalidates(verify, w, a, id)
    ensures EpochMoved(w.db, Next(verify, w, a).db, id)
  {
    if a.UpdateUser? {
      UpdateShape(w.db, id, a.expected, a.update, a.now);
    } else if a.Reset? {
      ResetShape(w.db, id, a.expected, a.password, a.policy, a.forceChange, a.salt, a.now);
    } else if a.ChangePassword? {
      ChangeShape(w.db, a.change, a.login, a.password, a.policy, a.salt, a.now);
    } else if a.Confirm? {
      ConfirmShape(verify, w.db, id, a.key, a.code, a.now, a.drawn);
    } else if a.Disable? {
      DisableShape(w.db, id, a.expected);
    } else {
      RevokeAllShape(w.db, id);
    }
  }

  /** After any of those steps, no session of that user stored before the step and
      no identity handed out before it is good for anything, ever again. */
  lemma InvalidationIsFinal(verify: Oracle, run: Run, i: nat, k: nat, id: UserId)
    requires IsRun(verify, run) && i < k < |run.states|
    requires StepAt(verify, run, i) && Invalidates(verify, run.states[i], run.actions[i], id)
    ensures forall d :: d in run.states[i].db.sessions && run.states[i].db.sessions[d].userId == id ==>
              d !in run.states[k].db.sessions
    ensures id in run.states[k].db.users
    ensures forall g :: g in run.states[i].hist.grants && g.identity.userId == id ==>
              g.identity.epoch < run.states[k].db.users[id].epoch
  {
    var w, w' := run.states[i], run.states[k];
    RunKeeps(verify, run, i);
    InvalidatingMoves(verify, w, run.actions[i], id);
    MovedStays(verify, run, i, i + 1, k, id);
    RunKeeps(verify, run, k);
    RunContinues(verify, run, i, k);
    AllGone(verify, w, w', id);
  }

  lemma AllGone(verify: Oracle, w: World, w': World, id: UserId)
    requires Inv(verify, w) && Inv(verify, w') && Continues(w, w') && EpochMoved(w.db, w'.db, id)
    ensures forall d :: d in w.db.sessions && w.db.sessions[d].userId == id ==> d !in w'.db.sessions
    ensures forall g :: g in w.hist.grants && g.identity.userId == id ==>
              g.identity.epoch < w'.db.users[id].epoch
  {
    forall d | d in w.db.sessions && w.db.sessions[d].userId == id ensures d !in w'.db.sessions {
      SessionGone(verify, w, w', d);
    }
    forall g | g in w.hist.grants && g.identity.userId == id ensures g.identity.epoch < w'.db.users[id].epoch {
      GrantStale(verify, w, w', g);
    }
  }
}
