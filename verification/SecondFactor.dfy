/** Why a validated session may report that multifactor authentication is
    complete without checking anything, and why the separate reads of a TOTP
    completion are safe. */
module SecondFactor {
  import opened Base
  import opened Schema
  import opened Users
  import opened Sessions
  import opened Totp
  import opened World
  import opened Invariant
  import opened Reach

  /** A grant presented the user's current password and, if the user has TOTP
      enabled, a second factor under the current enrolment: a code right for the
      enabled secret, or a recovery code that is now spent. */
  ghost predicate FullyAuthenticated(verify: Oracle, w: World, grant: Grant, id: UserId) {
    && id in w.hist.passwords && grant.password == w.hist.passwords[id]
    && (TotpEnabled(w.db.totp, id) ==>
          && grant.enrolment == Enrolment(w.hist.enrolments, id)
          && match grant.factor
             case NoFactor => false
             case Resumed => false
             case CodeFactor(credential, code, at) =>
               credential == w.db.totp[id] && verify(credential.sealed.secret, at, code)
             case RecoveryFactor(digest) => SpentIn(CodesOf(w.db.codes, id), digest))
  }

  /** The grant behind a session is of the identity that it validates as, and
      authenticated completely. */
  ghost predicate Behind(verify: Oracle, w: World, digest: Digest, identity: Identity) {
    && identity.mfaComplete
    && digest in w.hist.provenance
    && var grant := w.hist.provenance[digest];
    && grant in w.hist.grants
    && grant.identity.userId == identity.userId && grant.identity.epoch == identity.epoch
    && grant.identity.totpEnabled == identity.totpEnabled
    && grant.identity.permissions == identity.permissions
    && FullyAuthenticated(verify, w, grant, identity.userId)
  }

  lemma SessionSound(verify: Oracle, w: World, digest: Digest, csrf: Option<Digest>, now: nat, timeout: nat,
                     remote: Option<seq<byte>>)
    requires Inv(verify, w) && Authorize(w.db, digest, csrf, now, timeout, remote).Ok?
    ensures Behind(verify, w, digest, Authorize(w.db, digest, csrf, now, timeout, remote).value)
  {
    var session := w.db.sessions[digest];
    var grant := w.hist.provenance[digest];
    assert SessionOk(w.db.users, session);
    assert Settled(verify, ViewOf(w, session.userId), grant);
  }

  lemma RunSound(verify: Oracle, run: Run, k: nat, digest: Digest, csrf: Option<Digest>, now: nat, timeout: nat,
                 remote: Option<seq<byte>>)
    requires IsRun(verify, run) && k < |run.states|
    requires Authorize(run.states[k].db, digest, csrf, now, timeout, remote).Ok?
    ensures Behind(verify, run.states[k], digest,
                   Authorize(run.states[k].db, digest, csrf, now, timeout, remote).value)
  {
    RunKeeps(verify, run, k);
    SessionSound(verify, run.states[k], digest, csrf, now, timeout, remote);
  }

  /** In every world of every run, a session that validates was issued from an
      identity that authenticated completely under the enrolment in force. */
  lemma ValidatedSessionIsComplete(verify: Oracle, run: Run, k: nat, session: Secret, csrf: Option<Secret>, now: nat,
                                   timeout: nat, remote: Option<seq<byte>>)
    requires IsRun(verify, run) && k < |run.states|
    requires SessionValidate(run.states[k].db, session, csrf, now, timeout, remote).Ok?
    ensures Behind(verify, run.states[k], Digest(session),
                   SessionValidate(run.states[k].db, session, csrf, now, timeout, remote).value)
  {
    RunSound(verify, run, k, Digest(session), if csrf.Some? then Some(Digest(csrf.value)) else None, now, timeout,
             remote);
  }

  lemma ReauthorizedSessionIsComplete(verify: Oracle, run: Run, k: nat, digest: Digest, now: nat, timeout: nat,
                                      remote: Option<seq<byte>>)
    requires IsRun(verify, run) && k < |run.states|
    requires SessionReauthorize(run.states[k].db, digest, now, timeout, remote).Ok?
    ensures Behind(verify, run.states[k], digest,
                   SessionReauthorize(run.states[k].db, digest, now, timeout, remote).value)
  {
    RunSound(verify, run, k, digest, None, now, timeout, remote);
  }

  // ---- Four reads without a transaction ----

  /** What a successful TOTP completion found at each of its reads. */
  lemma ReadsFound(verify: Oracle, db1: Db, db2: Db, db3: Db, db4: Db, password: Identity, key: nat, code: nat,
                   now: nat)
    requires TotpAuthenticate(verify, db1, db2, db3, db4, password, key, code, now).Ok?
    ensures var identity := TotpAuthenticate(verify, db1, db2, db3, db4, password, key, code, now).value;
            var id := identity.userId;
            && id in db1.users && identity.epoch == db1.users[id].epoch && identity.revision == db1.users[id].revision
            && LoadPermissions(db2.roles, id) == Ok(identity.permissions)
            && TotpEnabled(db4.totp, id) && verify(db4.totp[id].sealed.secret, now, code)
            && identity.mfaComplete
  {
  }

  /** A user whose epoch is the same at both ends of a stretch did not change in
      it, but for spent recovery codes. */
  lemma Unmoved(verify: Oracle, run: Run, i: nat, j: nat, k: nat, id: UserId)
    requires IsRun(verify, run) && i <= j <= k < |run.states|
    requires id in run.states[i].db.users && id in run.states[k].db.users
    requires run.states[i].db.users[id].epoch == run.states[k].db.users[id].epoch
    ensures id in run.states[j].db.users
    ensures var v := ViewOf(run.states[k], id);
            ViewOf(run.states[j], id) == v.(spent := ViewOf(run.states[j], id).spent)
  {
    RunAdvances(verify, run, i, j);
    RunAdvances(verify, run, j, k);
    Between(run.states[i], run.states[j], run.states[k], id);
  }

  lemma Between(w: World, w': World, w'': World, id: UserId)
    requires Advances(w, w') && Advances(w', w'') && id in w.db.users && id in w''.db.users
    requires w.db.users[id].epoch == w''.db.users[id].epoch
    ensures id in w'.db.users && ViewOf(w', id) == ViewOf(w'', id).(spent := ViewOf(w', id).spent)
  {
    assert ViewAdvances(ViewOf(w, id), ViewOf(w', id)) && ViewAdvances(ViewOf(w', id), ViewOf(w'', id));
  }

  /** The enabled credential of a user at one point of a run. */
  function CredentialAt(run: Run, j: nat, id: UserId): Option<Credential>
    requires j < |run.states|
  {
    var totp := run.states[j].db.totp;
    if TotpEnabled(totp, id) then Some(totp[id]) else None
  }

  lemma CredentialStays(verify: Oracle, run: Run, i: nat, j: nat, k: nat, id: UserId)
    requires IsRun(verify, run) && i <= j <= k < |run.states|
    requires id in run.states[i].db.users && id in run.states[k].db.users
    requires run.states[i].db.users[id].epoch == run.states[k].db.users[id].epoch
    ensures CredentialAt(run, j, id) == CredentialAt(run, k, id)
  {
    Unmoved(verify, run, i, j, k, id);
  }

  lemma RolesStay(verify: Oracle, run: Run, i: nat, j: nat, k: nat, id: UserId)
    requires IsRun(verify, run) && i <= j <= k < |run.states|
    requires id in run.states[i].db.users && id in run.states[k].db.users
    requires run.states[i].db.users[id].epoch == run.states[k].db.users[id].epoch
    ensures LoadPermissions(run.states[j].db.roles, id) == LoadPermissions(run.states[k].db.roles, id)
    ensures id in run.states[j].db.users && run.states[j].db.users[id].revision == run.states[k].db.users[id].revision
  {
    Unmoved(verify, run, i, j, k, id);
  }

  /** If the epoch of the identity returned by a TOTP completion is still current
      at some later point, for instance when a session is issued, then the code was
      checked against the secret enabled at that point, that credential was in
      force ever since the check, and the permissions read are the current ones,
      whatever ran between the four reads and that point. */
  lemma TotpCompletionIsSafe(verify: Oracle, run: Run, i1: nat, i2: nat, i3: nat, i4: nat, k: nat, password: Identity,
                             key: nat, code: nat, now: nat)
    requires IsRun(verify, run) && i1 <= i2 <= i3 <= i4 <= k < |run.states|
    requires TotpAuthenticate(verify, run.states[i1].db, run.states[i2].db, run.states[i3].db, run.states[i4].db,
                              password, key, code, now).Ok?
    requires var identity := TotpAuthenticate(verify, run.states[i1].db, run.states[i2].db, run.states[i3].db,
                                              run.states[i4].db, password, key, code, now).value;
             identity.userId in run.states[k].db.users
             && run.states[k].db.users[identity.userId].epoch == identity.epoch
    ensures var identity := TotpAuthenticate(verify, run.states[i1].db, run.states[i2].db, run.states[i3].db,
                                             run.states[i4].db, password, key, code, now).value;
            var id, db := identity.userId, run.states[k].db;
            && TotpEnabled(db.totp, id) && verify(db.totp[id].sealed.secret, now, code)
            && (forall j :: i4 <= j <= k ==> CredentialAt(run, j, id) == Some(db.totp[id]))
            && LoadPermissions(db.roles, id) == Ok(identity.permissions)
            && identity.revision == db.users[id].revision
  {
    ReadsFound(verify, run.states[i1].db, run.states[i2].db, run.states[i3].db, run.states[i4].db, password, key, code,
               now);
    var id := TotpAuthenticate(verify, run.states[i1].db, run.states[i2].db, run.states[i3].db, run.states[i4].db,
                               password, key, code, now).value.userId;
    RolesStay(verify, run, i1, i1, k, id);
    RolesStay(verify, run, i1, i2, k, id);
    forall j | i4 <= j <= k ensures CredentialAt(run, j, id) == CredentialAt(run, k, id) {
      CredentialStays(verify, run, i1, j, k, id);
    }
    assert CredentialAt(run, i4, id) == Some(run.states[i4].db.totp[id]);
  }
}
