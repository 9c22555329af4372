/** A password change by its owner keeps the invariant: the identity it hands out at
    the end is complete because the second factor of the session is still good. */
module KeepChange {
  import opened Base
  import opened Schema
  import opened Users
  import opened Sessions
  import opened Totp
  import opened World
  import opened Invariant
  import opened Keep
  import opened KeepUsers

  lemma ChangeJoins(verify: Oracle, w: World, w': World, change: Change)
    requires ChangesOk(verify, w) && SameUsers(w, w') && w'.hist.grants == w.hist.grants
    requires w'.hist.changes == w.hist.changes + {change}
    requires ChangeStarted(change) && change.origin in w.hist.grants && change.identity.userId in w.db.users
    requires ChangeHolds(verify, ViewOf(w, change.identity.userId), change)
    ensures ChangesOk(verify, w')
  {
    SameViews(w, w');
  }

  lemma OthersStay(verify: Oracle, w: World, w': World)
    requires GrantsOk(verify, w) && ReadingsOk(w) && SameUsers(w, w')
    requires w'.hist.grants == w.hist.grants && w'.hist.readings == w.hist.readings
    ensures Advances(w, w') && GrantsOk(verify, w') && ReadingsOk(w')
  {
    SameViews(w, w');
  }

  lemma ChangeAdded(verify: Oracle, w: World, change: Change)
    requires Inv(verify, w)
    requires ChangeStarted(change) && change.origin in w.hist.grants && change.identity.userId in w.db.users
    requires ChangeHolds(verify, ViewOf(w, change.identity.userId), change)
    ensures var w' := w.(hist := w.hist.(changes := w.hist.changes + {change}));
            Inv(verify, w') && Advances(w, w')
  {
    var w' := w.(hist := w.hist.(changes := w.hist.changes + {change}));
    ChangeJoins(verify, w, w', change);
    OthersStay(verify, w, w');
    ProvenanceFollows(w.db.sessions, w.hist, w'.hist);
  }

  // ---- The session ----

  /** The grant behind a stored session has the second factor now asked for. */
  lemma SessionStarts(verify: Oracle, w: World, digest: Digest, identity: Identity)
    requires Inv(verify, w) && digest in w.db.sessions && identity.userId == w.db.sessions[digest].userId
    requires var user := w.db.users[identity.userId];
             identity.epoch == user.epoch && identity.revision == user.revision
    requires identity.totpEnabled == TotpEnabled(w.db.totp, identity.userId) && identity.mfaComplete
    ensures digest in w.hist.provenance && w.hist.provenance[digest] in w.hist.grants
    ensures var change := Change(identity, w.hist.provenance[digest], identity.revision, false);
            ChangeStarted(change) && ChangeHolds(verify, ViewOf(w, identity.userId), change)
  {
    var grant := w.hist.provenance[digest];
    assert SessionOk(w.db.users, w.db.sessions[digest]) && grant in w.hist.grants;
    assert UserOk(identity.userId, w.db.users[identity.userId]);
    assert Settled(verify, ViewOf(w, identity.userId), grant);
  }

  lemma BeginChangeKeeps(verify: Oracle, w: World, session: Secret, csrf: Secret, now: nat, timeout: nat,
                         remote: Option<seq<byte>>)
    requires Inv(verify, w)
    ensures var w' := StepBeginChange(w, session, csrf, now, timeout, remote); Inv(verify, w') && Advances(w, w')
  {
    var validated := SessionValidate(w.db, session, Some(csrf), now, timeout, remote);
    if validated.Ok? {
      var identity := validated.value;
      SessionStarts(verify, w, Digest(session), identity);
      ChangeAdded(verify, w, Change(identity, w.hist.provenance[Digest(session)], identity.revision, false));
    } else {
      SameViews(w, w);
    }
  }

  // ---- The reset ----

  /** A successful reset found the revision of the session, and moved it by one. */
  lemma ChangeShape(db: Db, change: Change, login: Grant, password: Password, policy: Policy, salt: nat, now: nat)
    requires TablesOk(db)
    ensures var tx, id := ChangeReset(db, change, login, password, policy, salt, now), change.identity.userId;
            if tx.result.Err? then tx.db == db
            else
              && ResetKind(db, tx.db, id, now) && tx.db.users[id].hash.password == password
              && login.password != password && SameAccount(login.identity, change.identity)
              && tx.db == db.(users := tx.db.users, sessions := tx.db.sessions, tokens := tx.db.tokens)
              && db.users[id].revision == change.identity.revision
              && tx.db.users[id].enabled == db.users[id].enabled
              && tx.db.users[id].revision == tx.result.value.revision == db.users[id].revision + 1
  {
    ResetShape(db, change.identity.userId, change.identity.revision, password, policy, false, salt, now);
  }

  /** The second factor does not depend on the password. */
  lemma ChangeMoves(verify: Oracle, before: View, after: View, change: Change, next: Change)
    requires ChangeHolds(verify, before, change) && ChangeStarted(change) && !change.done
    requires before.epoch == change.revision && after.epoch == before.epoch + 1
    requires after.credential == before.credential && after.spent == before.spent
    requires after.enrolment == before.enrolment
    requires next == change.(revision := after.epoch, done := true)
    ensures ChangeHolds(verify, after, next) && ChangeStarted(next)
  {
  }

  lemma ChangeDone(verify: Oracle, w: World, db': Db, change: Change, now: nat)
    requires Inv(verify, w) && change in w.hist.changes && !change.done
    requires ResetKind(w.db, db', change.identity.userId, now)
    requires w.db.users[change.identity.userId].revision == change.identity.revision
    requires db'.users[change.identity.userId].revision == w.db.users[change.identity.userId].revision + 1
    ensures var id := change.identity.userId;
            var w1 := World(db', Joined(w.hist, id, db'.users[id].hash.password));
            var next := change.(revision := db'.users[id].revision, done := true);
            && Inv(verify, w1) && Advances(w, w1)
            && ChangeStarted(next) && ChangeHolds(verify, ViewOf(w1, id), next)
  {
    var id := change.identity.userId;
    var w1 := World(db', Joined(w.hist, id, db'.users[id].hash.password));
    WasReset(verify, w, db', id, now);
    assert UserOk(id, w.db.users[id]) && UserOk(id, db'.users[id]);
    ChangeMoves(verify, ViewOf(w, id), ViewOf(w1, id), change,
                change.(revision := db'.users[id].revision, done := true));
  }

  lemma ChangePasswordKeeps(verify: Oracle, w: World, change: Change, login: Grant, password: Password,
                            policy: Policy, salt: nat, now: nat)
    requires Inv(verify, w) && change in w.hist.changes && !change.done
    ensures var w' := StepChangePassword(w, change, login, password, policy, salt, now);
            Inv(verify, w') && Advances(w, w')
  {
    var tx, id := ChangeReset(w.db, change, login, password, policy, salt, now), change.identity.userId;
    ChangeShape(w.db, change, login, password, policy, salt, now);
    if tx.result.Ok? {
      ChangeDone(verify, w, tx.db, change, now);
      var w1 := World(tx.db, Joined(w.hist, id, password));
      var next := change.(revision := tx.result.value.revision, done := true);
      ChangeAdded(verify, w1, next);
      AdvancesTransitive(w, w1, w1.(hist := w1.hist.(changes := w1.hist.changes + {next})));
    } else {
      SameViews(w, w);
    }
  }

  // ---- The new identity ----

  /** If the identity of the login is current, so is the revision that the reset
      returned, and with it the second factor of the session. */
  lemma RenewedSettles(verify: Oracle, view: View, change: Change, login: Grant)
    requires Settled(verify, view, login) && ChangeHolds(verify, view, change) && view.revision == view.epoch
    requires Renewable(change, login.identity)
    ensures Settled(verify, view, Renewed(change, login))
  {
  }

  lemma RenewKeeps(verify: Oracle, w: World, change: Change, login: Grant)
    requires Inv(verify, w) && change in w.hist.changes && login in w.hist.grants
    ensures var w' := StepRenew(w, change, login); Inv(verify, w') && Advances(w, w')
  {
    if Renewable(change, login.identity) {
      var id := login.identity.userId;
      assert UserOk(id, w.db.users[id]);
      RenewedSettles(verify, ViewOf(w, id), change, login);
      GrantAdded(verify, w, Renewed(change, login));
    } else {
      SameViews(w, w);
    }
  }
}
