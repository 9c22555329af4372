/** Enrolment, TOTP completion and recovery keep the invariant. */
module KeepFactors {
  import opened Base
  import opened Schema
  import opened Users
  import opened Sessions
  import opened Totp
  import opened World
  import opened Invariant
  import opened Keep

  // ---- Provisioning ----

  ghost predicate ProvisionKind(db: Db, db': Db, id: UserId) {
    && id in db.users && id in db'.totp && !TotpEnabled(db.totp, id) && !db'.totp[id].enabled
    && db' == db.(totp := db.totp[id := db'.totp[id]], codes := db.codes - {id})
  }

  lemma ProvisionShape(db: Db, id: UserId, key: nat, nonce: nat, secret: Secret, now: nat)
    ensures var tx := TotpProvision(db, id, key, nonce, secret, now);
            tx.db == db || ProvisionKind(db, tx.db, id)
  {
  }

  /** A pending credential changes nobody's codes: there were none to delete. */
  lemma ProvisionCodes(db: Db, db': Db, id: UserId)
    requires CodesOk(db.totp, db.codes) && ProvisionKind(db, db', id)
    ensures forall u :: CodesOf(db'.codes, u) == CodesOf(db.codes, u)
    ensures forall u :: TotpEnabled(db'.totp, u) == TotpEnabled(db.totp, u)
    ensures CodesOk(db'.totp, db'.codes)
  {
    forall u ensures CodesOf(db'.codes, u) == CodesOf(db.codes, u) {
      assert |CodesOf(db.codes, id)| == 0;
    }
  }

  lemma Provisioned(verify: Oracle, w: World, db': Db, id: UserId)
    requires Inv(verify, w) && ProvisionKind(w.db, db', id)
    ensures Inv(verify, w.(db := db')) && Advances(w, w.(db := db'))
  {
    ProvisionCodes(w.db, db', id);
    ProvisionedViews(verify, w, w.(db := db'), id);
    ProvisionedUses(w.db, db', w.hist);
  }

  lemma ProvisionedViews(verify: Oracle, w: World, w': World, id: UserId)
    requires CallersOk(verify, w) && ProvisionKind(w.db, w'.db, id) && w'.hist == w.hist
    requires forall u :: CodesOf(w'.db.codes, u) == CodesOf(w.db.codes, u)
    requires forall u :: TotpEnabled(w'.db.totp, u) == TotpEnabled(w.db.totp, u)
    ensures Advances(w, w') && CallersOk(verify, w')
  {
    forall u | u in w.db.users ensures ViewOf(w', u) == ViewOf(w, u) {}
    HeldOver(verify, w, w');
  }

  lemma ProvisionedUses(db: Db, db': Db, hist: History)
    requires forall u :: CodesOf(db'.codes, u) == CodesOf(db.codes, u)
    requires forall u :: TotpEnabled(db'.totp, u) == TotpEnabled(db.totp, u)
    requires UsesOk(db.codes, hist.uses, db.totp) && RedeemedOk(db.codes, hist.redeemed, hist.digests)
    ensures UsesOk(db'.codes, hist.uses, db'.totp) && RedeemedOk(db'.codes, hist.redeemed, hist.digests)
  {
  }

  lemma ProvisionKeeps(verify: Oracle, w: World, id: UserId, key: nat, nonce: nat, secret: Secret, now: nat)
    requires Inv(verify, w)
    ensures var w' := w.(db := TotpProvision(w.db, id, key, nonce, secret, now).db);
            Inv(verify, w') && Advances(w, w')
  {
    ProvisionShape(w.db, id, key, nonce, secret, now);
    var db' := TotpProvision(w.db, id, key, nonce, secret, now).db;
    if db' != w.db { Provisioned(verify, w, db', id); } else { SameViews(w, w); }
  }

  // ---- Confirming ----

  ghost predicate ConfirmKind(db: Db, db': Db, id: UserId, drawn: seq<Secret>, now: nat) {
    && MovesEpoch(db, db', id) && id in db.totp
    && db'.totp == db.totp[id := db.totp[id].(enabled := true)]
    && db'.codes == db.codes[id := NewCodes(drawn, now)]
    && AllDistinct(drawn) && |drawn| == RECOVERY_CODE_COUNT
    && db'.tokens == db.tokens
    && SameLogin(db.users[id], db'.users[id])
  }

  lemma ConfirmShape(verify: Oracle, db: Db, id: UserId, key: nat, code: nat, now: nat, drawn: seq<Secret>)
    requires UsersOk(db.users, db.roles) && |drawn| == RECOVERY_CODE_COUNT
    ensures var tx := TotpConfirm(verify, db, id, key, code, now, drawn);
            if tx.result.Err? then tx.db == db else ConfirmKind(db, tx.db, id, drawn, now)
  {
    if id in db.users { assert db.roles[id := db.roles[id]] == db.roles; }
  }

  /** Distinct secrets have as many digests. */
  lemma {:induction false} DigestCount(secrets: seq<Secret>)
    requires AllDistinct(secrets)
    ensures |Digests(secrets)| == |secrets|
  {
    if secrets != [] {
      var n := |secrets| - 1;
      DigestCount(secrets[..n]);
      assert Digests(secrets) == Digests(secrets[..n]) + {Digest(secrets[n])};
      assert Digest(secrets[n]) !in Digests(secrets[..n]);
    }
  }

  lemma NewCodesCount(secrets: seq<Secret>, now: nat)
    requires AllDistinct(secrets)
    ensures |NewCodes(secrets, now)| == |secrets| && NewCodes(secrets, now).Keys == Digests(secrets)
  {
    DigestCount(secrets);
    assert NewCodes(secrets, now).Keys == Digests(secrets);
  }

  lemma ConfirmedCodes(db: Db, db': Db, id: UserId, drawn: seq<Secret>, now: nat)
    requires CodesOk(db.totp, db.codes) && ConfirmKind(db, db', id, drawn, now)
    ensures CodesOk(db'.totp, db'.codes)
  {
    NewCodesCount(drawn, now);
    forall u ensures |CodesOf(db'.codes, u)| == if TotpEnabled(db'.totp, u) then RECOVERY_CODE_COUNT else 0 {
      assert u != id ==> CodesOf(db'.codes, u) == CodesOf(db.codes, u);
    }
  }

  lemma ConfirmedUses(db: Db, db': Db, hist: History, id: UserId, drawn: seq<Secret>, now: nat)
    requires ConfirmKind(db, db', id, drawn, now) && Digests(drawn) !! hist.digests
    requires UsesOk(db.codes, hist.uses, db.totp) && RedeemedOk(db.codes, hist.redeemed, hist.digests)
    ensures UsesOk(db'.codes, hist.uses[id := []], db'.totp)
    ensures RedeemedOk(db'.codes, hist.redeemed, hist.digests + Digests(drawn))
  {
    NewCodesCount(drawn, now);
    forall u | u != id
      ensures CodesOf(db'.codes, u) == CodesOf(db.codes, u) && TotpEnabled(db'.totp, u) == TotpEnabled(db.totp, u)
      ensures UsesOf(hist.uses[id := []], u) == UsesOf(hist.uses, u)
    {
    }
  }

  lemma ConfirmedOthers(w: World, w': World, id: UserId, drawn: seq<Secret>, now: nat)
    requires ConfirmKind(w.db, w'.db, id, drawn, now) && w'.hist == ConfirmedHistory(w.hist, id, drawn)
    ensures OthersKeepFactors(w, w', id)
  {
  }

  lemma Confirmed(verify: Oracle, w: World, w': World, id: UserId, drawn: seq<Secret>, now: nat)
    requires Inv(verify, w) && ConfirmKind(w.db, w'.db, id, drawn, now) && Digests(drawn) !! w.hist.digests
    requires w'.hist == ConfirmedHistory(w.hist, id, drawn)
    ensures Inv(verify, w') && Advances(w, w')
  {
    ConfirmedCodes(w.db, w'.db, id, drawn, now);
    ConfirmedUses(w.db, w'.db, w.hist, id, drawn, now);
    MovedHistory(w.db, w.hist, w'.db, w'.hist, id);
    ConfirmedOthers(w, w', id, drawn, now);
    Moved(verify, w, w', id);
  }

  lemma ConfirmKeeps(verify: Oracle, w: World, id: UserId, key: nat, code: nat, now: nat, drawn: seq<Secret>)
    requires Inv(verify, w) && |drawn| == RECOVERY_CODE_COUNT && Digests(drawn) !! w.hist.digests
    ensures var w' := StepConfirm(verify, w, id, key, code, now, drawn); Inv(verify, w') && Advances(w, w')
  {
    ConfirmShape(verify, w.db, id, key, code, now, drawn);
    var tx := TotpConfirm(verify, w.db, id, key, code, now, drawn);
    if tx.result.Ok? {
      Confirmed(verify, w, World(tx.db, ConfirmedHistory(w.hist, id, drawn)), id, drawn, now);
    } else {
      SameViews(w, w);
    }
  }

  // ---- Disabling ----

  ghost predicate DisableKind(db: Db, db': Db, id: UserId) {
    && MovesEpoch(db, db', id)
    && db'.totp == db.totp - {id} && db'.codes == db.codes - {id} && db'.tokens == db.tokens
    && SameLogin(db.users[id], db'.users[id])
  }

  lemma DisableShape(db: Db, id: UserId, expected: nat)
    requires UsersOk(db.users, db.roles)
    ensures var tx := TotpDisable(db, id, expected);
            if tx.result.Err? then tx.db == db else DisableKind(db, tx.db, id)
  {
    if id in db.users { assert db.roles[id := db.roles[id]] == db.roles; }
  }

  lemma DisabledOthers(db: Db, db': Db, id: UserId)
    requires db'.totp == db.totp - {id} && db'.codes == db.codes - {id}
    ensures CodesOf(db'.codes, id) == map[] && !TotpEnabled(db'.totp, id)
    ensures forall u :: u != id ==>
      && CodesOf(db'.codes, u) == CodesOf(db.codes, u)
      && TotpEnabled(db'.totp, u) == TotpEnabled(db.totp, u)
      && (u in db.totp <==> u in db'.totp) && (u in db.totp ==> db'.totp[u] == db.totp[u])
  {
  }

  lemma DisabledCodes(totp: map<UserId, Credential>, codes: map<UserId, map<Digest, RecoveryCode>>,
                      totp': map<UserId, Credential>, codes': map<UserId, map<Digest, RecoveryCode>>, hist: History,
                      id: UserId)
    requires CodesOf(codes', id) == map[] && !TotpEnabled(totp', id)
    requires forall u :: u != id ==>
      CodesOf(codes', u) == CodesOf(codes, u) && TotpEnabled(totp', u) == TotpEnabled(totp, u)
    requires CodesOk(totp, codes) && UsesOk(codes, hist.uses, totp) && RedeemedOk(codes, hist.redeemed, hist.digests)
    ensures CodesOk(totp', codes')
    ensures UsesOk(codes', hist.uses, totp') && RedeemedOk(codes', hist.redeemed, hist.digests)
  {
  }

  lemma Disabled(verify: Oracle, w: World, w': World, id: UserId)
    requires Inv(verify, w) && DisableKind(w.db, w'.db, id) && w'.hist == w.hist
    ensures Inv(verify, w') && Advances(w, w')
  {
    DisabledOthers(w.db, w'.db, id);
    DisabledCodes(w.db.totp, w.db.codes, w'.db.totp, w'.db.codes, w.hist, id);
    MovedHistory(w.db, w.hist, w'.db, w.hist, id);
    Moved(verify, w, w', id);
  }

  lemma DisableKeeps(verify: Oracle, w: World, id: UserId, expected: nat)
    requires Inv(verify, w)
    ensures var w' := w.(db := TotpDisable(w.db, id, expected).db); Inv(verify, w') && Advances(w, w')
  {
    DisableShape(w.db, id, expected);
    var w' := w.(db := TotpDisable(w.db, id, expected).db);
    if w' == w { SameViews(w, w); } else { Disabled(verify, w, w', id); }
  }

  // ---- Resuming a session ----

  /** What a validated session says is what its user is now. */
  lemma ResumedSettles(verify: Oracle, w: World, digest: Digest, identity: Identity)
    requires Inv(verify, w) && digest in w.db.sessions
    requires identity.userId == w.db.sessions[digest].userId
    requires var user := w.db.users[identity.userId];
             identity.epoch == user.epoch && identity.revision == user.revision && identity.username == user.username
    requires LoadPermissions(w.db.roles, identity.userId) == Ok(identity.permissions)
    requires identity.totpEnabled == TotpEnabled(w.db.totp, identity.userId) && !identity.mfaComplete
    ensures digest in w.hist.provenance
    ensures Settled(verify, ViewOf(w, identity.userId), Grant(identity, w.hist.provenance[digest].password, Resumed, 0))
  {
    var grant := w.hist.provenance[digest];
    assert SessionOk(w.db.users, w.db.sessions[digest]) && grant in w.hist.grants;
    assert Settled(verify, ViewOf(w, identity.userId), grant);
  }

  lemma ResumeKeeps(verify: Oracle, w: World, session: Secret, csrf: Option<Secret>, now: nat, timeout: nat,
                    remote: Option<seq<byte>>)
    requires Inv(verify, w)
    ensures var w' := StepResume(w, session, csrf, now, timeout, remote); Inv(verify, w') && Advances(w, w')
  {
    var validated := SessionValidate(w.db, session, csrf, now, timeout, remote);
    if validated.Ok? {
      var identity := validated.value.(mfaComplete := false);
      ResumedSettles(verify, w, Digest(session), identity);
      GrantAdded(verify, w, Grant(identity, w.hist.provenance[Digest(session)].password, Resumed, 0));
    } else {
      SameViews(w, w);
    }
  }

  // ---- TOTP completion, read by read ----

  lemma ReadingAdded(verify: Oracle, w: World, reading: Reading)
    requires Inv(verify, w) && reading.grant in w.hist.grants
    requires reading.current.userId == reading.grant.identity.userId
    requires ReadSoFar(ViewOf(w, reading.current.userId), reading)
    ensures var w' := w.(hist := w.hist.(readings := w.hist.readings + {reading}));
            Inv(verify, w') && Advances(w, w')
  {
    var w' := w.(hist := w.hist.(readings := w.hist.readings + {reading}));
    SameViews(w, w');
    ReadingJoins(w, w', reading);
    ProvenanceFollows(w.db.sessions, w.hist, w'.hist);
    GrantsStay(verify, w, w');
    ChangesStay(verify, w, w');
  }

  lemma ReadingJoins(w: World, w': World, reading: Reading)
    requires ReadingsOk(w) && SameUsers(w, w') && w'.hist.grants == w.hist.grants
    requires w'.hist.readings == w.hist.readings + {reading} && reading.grant in w.hist.grants
    requires reading.current.userId == reading.grant.identity.userId && reading.current.userId in w.db.users
    requires ReadSoFar(ViewOf(w, reading.current.userId), reading)
    ensures ReadingsOk(w')
  {
    SameViews(w, w');
  }

  lemma GrantsStay(verify: Oracle, w: World, w': World)
    requires GrantsOk(verify, w) && SameUsers(w, w') && w'.hist.grants == w.hist.grants
    ensures GrantsOk(verify, w')
  {
    SameViews(w, w');
  }

  lemma BeginTotpKeeps(verify: Oracle, w: World, grant: Grant)
    requires Inv(verify, w) && grant in w.hist.grants
    ensures var w' := StepBeginTotp(w, grant); Inv(verify, w') && Advances(w, w')
  {
    match ReadUser(w.db, grant.identity.userId)
    case Err(_) => SameViews(w, w);
    case Ok(current) => ReadingAdded(verify, w, Reading(1, grant, current));
  }

  lemma NextReadingReads(w: World, reading: Reading)
    requires UsersOk(w.db.users, w.db.roles) && reading.current.userId in w.db.users && reading.stage < 3
    requires reading.current.userId == reading.grant.identity.userId
    requires ReadSoFar(ViewOf(w, reading.current.userId), reading) && NextReading(w.db, reading).Some?
    ensures var next := NextReading(w.db, reading).value;
            && next.grant == reading.grant && next.current.userId == reading.current.userId
            && ReadSoFar(ViewOf(w, next.current.userId), next)
  {
  }

  lemma NextReadKeeps(verify: Oracle, w: World, reading: Reading)
    requires Inv(verify, w) && reading in w.hist.readings && reading.stage < 3
    ensures var w' := StepNextRead(w, reading); Inv(verify, w') && Advances(w, w')
  {
    if NextReading(w.db, reading).Some? {
      NextReadingReads(w, reading);
      ReadingAdded(verify, w, NextReading(w.db, reading).value);
    } else {
      SameViews(w, w);
    }
  }

  /** The grant that a right code hands out. */
  function Finished(verify: Oracle, w: World, reading: Reading, key: nat, code: nat, now: nat): Grant
    requires CheckCode(verify, w.db, reading.current, key, code, now).Ok?
  {
    var identity := CheckCode(verify, w.db, reading.current, key, code, now).value;
    Grant(identity, reading.grant.password, CodeFactor(w.db.totp[identity.userId], code, now),
          Enrolment(w.hist.enrolments, identity.userId))
  }

  /** The finishing read settles the grant: if the epoch read first is still
      current, the code was checked against the credential now enabled. */
  lemma FinishedSettles(verify: Oracle, w: World, reading: Reading, key: nat, code: nat, now: nat)
    requires CallersOk(verify, w) && reading in w.hist.readings && reading.stage == 3
    requires CheckCode(verify, w.db, reading.current, key, code, now).Ok?
    ensures var grant := Finished(verify, w, reading, key, code, now);
            grant.identity.userId in w.db.users && Settled(verify, ViewOf(w, grant.identity.userId), grant)
  {
    assert Settled(verify, ViewOf(w, reading.current.userId), reading.grant);
    assert ReadSoFar(ViewOf(w, reading.current.userId), reading);
  }

  lemma FinishTotpKeeps(verify: Oracle, w: World, reading: Reading, key: nat, code: nat, now: nat)
    requires Inv(verify, w) && reading in w.hist.readings && reading.stage == 3
    ensures var w' := StepFinishTotp(verify, w, reading, key, code, now); Inv(verify, w') && Advances(w, w')
  {
    if StepFinishTotp(verify, w, reading, key, code, now) == w {
      SameViews(w, w);
    } else {
      FinishedSettles(verify, w, reading, key, code, now);
      GrantAdded(verify, w, Finished(verify, w, reading, key, code, now));
    }
  }

  // ---- Recovery ----

  /** One unspent code of a user is spent. */
  ghost predicate RecoverKind(db: Db, db': Db, id: UserId, digest: Digest, now: nat) {
    && TotpEnabled(db.totp, id)
    && digest in CodesOf(db.codes, id) && CodesOf(db.codes, id)[digest].usedAt.None?
    && db' == db.(codes := db.codes[id := CodesOf(db.codes, id)[
                                            digest := CodesOf(db.codes, id)[digest].(usedAt := Some(now))]])
  }

  lemma RecoverShape(db: Db, password: Identity, secret: Secret, now: nat)
    ensures var tx := RecoveryAuthenticate(db, password, secret, now);
            if tx.result.Err? then tx.db == db
            else
              var identity := tx.result.value;
              && identity.userId == password.userId && identity.userId in db.users
              && RecoverKind(db, tx.db, identity.userId, Digest(secret), now)
              && PasswordIdentityCurrent(password, identity.(mfaComplete := false))
              && identity.epoch == db.users[identity.userId].epoch
              && identity.revision == db.users[identity.userId].revision
              && identity.username == db.users[identity.userId].username
              && LoadPermissions(db.roles, identity.userId) == Ok(identity.permissions)
              && identity.mfaComplete
  {
  }

  lemma SpentCodes(db: Db, db': Db, id: UserId, digest: Digest, now: nat)
    requires CodesOk(db.totp, db.codes) && RecoverKind(db, db', id, digest, now)
    ensures CodesOk(db'.totp, db'.codes)
    ensures Spent(CodesOf(db'.codes, id)) == Spent(CodesOf(db.codes, id)) + {digest}
    ensures CodesOf(db'.codes, id).Keys == CodesOf(db.codes, id).Keys
    ensures forall u :: u != id ==> CodesOf(db'.codes, u) == CodesOf(db.codes, u)
  {
    var rows := CodesOf(db.codes, id);
    var rows' := rows[digest := rows[digest].(usedAt := Some(now))];
    assert rows'.Keys == rows.Keys;
    assert |rows'| == |rows'.Keys| && |rows| == |rows.Keys|;
  }

  lemma SpentUses(db: Db, db': Db, uses: map<UserId, seq<Digest>>, id: UserId, digest: Digest, now: nat)
    requires UsesOk(db.codes, uses, db.totp) && RecoverKind(db, db', id, digest, now)
    ensures UsesOk(db'.codes, uses[id := UsesOf(uses, id) + [digest]], db'.totp)
  {
    var uses' := uses[id := UsesOf(uses, id) + [digest]];
    assert digest !in UsesOf(uses, id);
    forall u | TotpEnabled(db'.totp, u)
      ensures AllDistinct(UsesOf(uses', u)) && forall d :: d in UsesOf(uses', u) ==> SpentIn(CodesOf(db'.codes, u), d)
    {
      if u != id {
        assert CodesOf(db'.codes, u) == CodesOf(db.codes, u) && UsesOf(uses', u) == UsesOf(uses, u);
      } else {
        forall d | d in UsesOf(uses', u) ensures SpentIn(CodesOf(db'.codes, u), d) {
          assert d == digest || SpentIn(CodesOf(db.codes, u), d);
        }
      }
    }
  }

  lemma SpentRedeemed(db: Db, db': Db, redeemed: seq<(UserId, Digest)>, digests: set<Digest>, id: UserId,
                      digest: Digest, now: nat)
    requires RedeemedOk(db.codes, redeemed, digests) && RecoverKind(db, db', id, digest, now)
    ensures RedeemedOk(db'.codes, redeemed + [(id, digest)], digests)
  {
    var redeemed' := redeemed + [(id, digest)];
    assert (id, digest) !in redeemed;
    forall u, d | d in CodesOf(db'.codes, u)
      ensures d in CodesOf(db.codes, u)
      ensures (u, d) in redeemed' ==> CodesOf(db'.codes, u)[d].usedAt.Some?
    {
      if u != id { assert CodesOf(db'.codes, u) == CodesOf(db.codes, u); }
    }
  }

  lemma RecoveredViews(verify: Oracle, w: World, w': World, id: UserId, digest: Digest, now: nat)
    requires CallersOk(verify, w) && CodesOk(w.db.totp, w.db.codes)
    requires id in w.db.users && RecoverKind(w.db, w'.db, id, digest, now)
    requires w'.hist.enrolments == w.hist.enrolments
    requires SameCallers(w.hist, w'.hist)
    ensures Advances(w, w') && CallersOk(verify, w')
    ensures ViewOf(w', id) == ViewOf(w, id).(spent := ViewOf(w, id).spent + {digest})
  {
    SpentCodes(w.db, w'.db, id, digest, now);
    forall u | u in w.db.users && u != id ensures ViewOf(w', u) == ViewOf(w, u) {}
    HeldOver(verify, w, w');
  }

  /** The world after a code is spent, before the identity is handed out. */
  function Spending(w: World, db': Db, id: UserId, digest: Digest): World {
    World(db', w.hist.(uses := w.hist.uses[id := UsesOf(w.hist.uses, id) + [digest]],
                       redeemed := w.hist.redeemed + [(id, digest)]))
  }

  lemma CodeSpent(verify: Oracle, w: World, db': Db, id: UserId, digest: Digest, now: nat)
    requires Inv(verify, w) && id in w.db.users && RecoverKind(w.db, db', id, digest, now)
    ensures var w' := Spending(w, db', id, digest);
            && Inv(verify, w') && Advances(w, w')
            && ViewOf(w', id) == ViewOf(w, id).(spent := ViewOf(w, id).spent + {digest})
  {
    var w' := Spending(w, db', id, digest);
    SpentCodes(w.db, db', id, digest, now);
    SpentUses(w.db, db', w.hist.uses, id, digest, now);
    SpentRedeemed(w.db, db', w.hist.redeemed, w.hist.digests, id, digest, now);
    RecoveredViews(verify, w, w', id, digest, now);
  }

  lemma RecoveredSettles(verify: Oracle, view: View, grant: Grant, identity: Identity, digest: Digest)
    requires Settled(verify, view, grant)
    requires PasswordIdentityCurrent(grant.identity, identity.(mfaComplete := false))
    requires identity.epoch == view.epoch && identity.revision == view.revision && identity.username == view.username
    requires RoleUnion(view.roles) == Ok(identity.permissions) && digest in view.spent && view.credential.Some?
    ensures Settled(verify, view, Grant(identity, grant.password, RecoveryFactor(digest), view.enrolment))
  {
  }

  lemma Recovered(verify: Oracle, w: World, db': Db, grant: Grant, identity: Identity, digest: Digest, now: nat)
    requires Inv(verify, w) && grant in w.hist.grants && grant.identity.userId == identity.userId
    requires identity.userId in w.db.users && RecoverKind(w.db, db', identity.userId, digest, now)
    requires PasswordIdentityCurrent(grant.identity, identity.(mfaComplete := false))
    requires identity.epoch == w.db.users[identity.userId].epoch
    requires identity.revision == w.db.users[identity.userId].revision
    requires identity.username == w.db.users[identity.userId].username
    requires LoadPermissions(w.db.roles, identity.userId) == Ok(identity.permissions)
    ensures var w1 := Spending(w, db', identity.userId, digest);
            var won := Grant(identity, grant.password, RecoveryFactor(digest),
                             Enrolment(w.hist.enrolments, identity.userId));
            var w2 := w1.(hist := w1.hist.(grants := w1.hist.grants + {won}));
            Inv(verify, w2) && Advances(w, w2)
  {
    var id := identity.userId;
    var w1 := Spending(w, db', id, digest);
    CodeSpent(verify, w, db', id, digest, now);
    var won := Grant(identity, grant.password, RecoveryFactor(digest), Enrolment(w.hist.enrolments, id));
    RecoveredSettles(verify, ViewOf(w1, id), grant, identity, digest);
    GrantAdded(verify, w1, won);
    AdvancesTransitive(w, w1, w1.(hist := w1.hist.(grants := w1.hist.grants + {won})));
  }

  lemma RecoverKeeps(verify: Oracle, w: World, grant: Grant, secret: Secret, now: nat)
    requires Inv(verify, w) && grant in w.hist.grants
    ensures var w' := StepRecover(w, grant, secret, now); Inv(verify, w') && Advances(w, w')
  {
    RecoverShape(w.db, grant.identity, secret, now);
    var tx := RecoveryAuthenticate(w.db, grant.identity, secret, now);
    if tx.result.Ok? {
      Recovered(verify, w, tx.db, grant, tx.result.value, Digest(secret), now);
    } else {
      SameViews(w, w);
    }
  }
}
