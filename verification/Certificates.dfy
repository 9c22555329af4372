/** Client-certificate mappings over a run (src/common/account_mtls.c:438-481,
    484-537). */
module Certificates {
  import opened Base
  import opened Schema
  import opened Mtls
  import opened Totp
  import opened World
  import opened Invariant
  import opened Reach
  import opened Growth
  import opened Handouts
  import opened Rows

  /** Every mapping of a certificate is revoked, and there is one. */
  predicate CertificateRevoked(mappings: map<nat, Mapping>, fingerprint: seq<byte>) {
    && (exists m :: m in mappings && mappings[m].fingerprint == fingerprint)
    && (forall m :: m in mappings && mappings[m].fingerprint == fingerprint ==> mappings[m].revokedAt.Some?)
  }

  lemma RevokedContinues(mappings: map<nat, Mapping>, mappings': map<nat, Mapping>, fingerprint: seq<byte>)
    requires MappingsContinue(mappings, mappings') && CertificateRevoked(mappings, fingerprint)
    ensures CertificateRevoked(mappings', fingerprint)
  {
    var m :| m in mappings && mappings[m].fingerprint == fingerprint;
    assert m in mappings' && MappingContinues(mappings[m], mappings'[m]);
    forall n | n in mappings' && mappings'[n].fingerprint == fingerprint ensures mappings'[n].revokedAt.Some? {
      assert n in mappings && MappingContinues(mappings[n], mappings'[n]);
    }
  }

  /** A revoked certificate authorises nobody for the rest of the run: revocation
      is never undone and the certificate gets no new mapping. */
  lemma RevokedCertificateStaysRevoked(verify: Oracle, run: Run, i: nat, k: nat, fingerprint: seq<byte>,
                                       userId: UserId, now: nat)
    requires IsRun(verify, run) && i <= k < |run.states|
    requires CertificateRevoked(run.states[i].db.mappings, fingerprint)
    ensures MappingAuthorize(run.states[k].db, fingerprint, userId, now).Err?
    ensures forall subject, issuer, role, notBefore, notAfter, id ::
              MappingCreate(run.states[k].db, Config(fingerprint, userId, role, subject, issuer, notBefore, notAfter),
                            now, id).result.Err?
  {
    RunContinues(verify, run, i, k);
    RevokedContinues(run.states[i].db.mappings, run.states[k].db.mappings, fingerprint);
    RevokedRefuses(run.states[k].db, fingerprint, userId, now);
  }

  lemma RevokedRefuses(db: Db, fingerprint: seq<byte>, userId: UserId, now: nat)
    requires CertificateRevoked(db.mappings, fingerprint)
    ensures MappingAuthorize(db, fingerprint, userId, now).Err?
    ensures forall subject, issuer, role, notBefore, notAfter, id ::
              MappingCreate(db, Config(fingerprint, userId, role, subject, issuer, notBefore, notAfter), now, id)
                .result.Err?
  {
  }

  lemma OneMappingInRun(verify: Oracle, run: Run, k: nat)
    requires IsRun(verify, run) && k < |run.states|
    ensures OneMappingEach(run.states[k].db.mappings)
  {
    RunContinues(verify, run, 0, k);
  }

  lemma RevokingRevokesCertificate(db: Db, id: nat, now: nat)
    requires OneMappingEach(db.mappings) && MappingRevoke(db, id, now).result.Ok?
    ensures id in db.mappings
    ensures CertificateRevoked(MappingRevoke(db, id, now).db.mappings, db.mappings[id].fingerprint)
  {
    var mappings := MappingRevoke(db, id, now).db.mappings;
    assert mappings == db.mappings[id := Mtls.Revoked(db.mappings[id], now)];
    assert id in mappings && mappings[id].fingerprint == db.mappings[id].fingerprint;
  }

  /** After a mapping is revoked its certificate authorises nobody, as any user
      and at any time, for the rest of the run. */
  lemma RevocationEndsCertificate(verify: Oracle, run: Run, i: nat, k: nat, userId: UserId, now: nat)
    requires IsRun(verify, run) && i < k < |run.states| && run.actions[i].RevokeMapping?
    requires MappingRevoke(run.states[i].db, run.actions[i].mappingId, run.actions[i].now).result.Ok?
    ensures run.actions[i].mappingId in run.states[i].db.mappings
    ensures var fingerprint := run.states[i].db.mappings[run.actions[i].mappingId].fingerprint;
            MappingAuthorize(run.states[k].db, fingerprint, userId, now).Err?
  {
    var a := run.actions[i];
    assert StepAt(verify, run, i);
    OneMappingInRun(verify, run, i);
    RevokingRevokesCertificate(run.states[i].db, a.mappingId, a.now);
    RevokedCertificateStaysRevoked(verify, run, i + 1, k, run.states[i].db.mappings[a.mappingId].fingerprint, userId,
                                   now);
  }

  /** Revoking a mapping twice is the same as revoking it once. */
  lemma RevokeIsIdempotent(db: Db, id: nat, now: nat, later: nat)
    requires MappingRevoke(db, id, now).result.Ok? && Positive64(later)
    ensures MappingRevoke(MappingRevoke(db, id, now).db, id, later) == MappingRevoke(db, id, now)
  {
    var db' := MappingRevoke(db, id, now).db;
    var mapping := Mtls.Revoked(db.mappings[id], now);
    assert db'.mappings == db.mappings[id := mapping];
    assert db'.mappings[id := mapping] == db'.mappings;
  }

  /** Creating a mapping tests the user, inserts and reads back in three statements
      of their own. Whatever runs between them, a user found by the test is still
      there for the insert, and what is read back decodes and is the inserted row, at
      most revoked since. */
  lemma CreationIsSafe(verify: Oracle, run: Run, h: nat, i: nat, k: nat)
    requires IsRun(verify, run) && h <= i < k < |run.states| && run.actions[i].CreateMapping?
    requires MappingCreate(run.states[i].db, run.actions[i].mapping, run.actions[i].now, run.actions[i].mappingId)
               .result.Ok?
    ensures run.states[h].db.users.Keys <= run.states[i].db.users.Keys
    ensures ReadsBack(run.states[i].db, run.states[k].db, run.actions[i])
  {
    RunAdvances(verify, run, h, i);
    CreatedReadsBack(verify, run, i, k);
  }

  lemma CreatedReadsBack(verify: Oracle, run: Run, i: nat, k: nat)
    requires IsRun(verify, run) && i < k < |run.states| && run.actions[i].CreateMapping?
    requires MappingCreate(run.states[i].db, run.actions[i].mapping, run.actions[i].now, run.actions[i].mappingId)
               .result.Ok?
    ensures ReadsBack(run.states[i].db, run.states[k].db, run.actions[i])
  {
    assert StepAt(verify, run, i);
    CreatedRow(run.states[i].db, run.actions[i]);
    RunContinues(verify, run, i + 1, k);
    EndMappings(verify, run, k);
  }

  lemma EndMappings(verify: Oracle, run: Run, k: nat)
    requires IsRun(verify, run) && k < |run.states|
    ensures MappingsOk(run.states[k].db.users, run.states[k].db.mappings)
  {
    RunKeeps(verify, run, k);
  }

  ghost predicate ReadsBack(created: Db, db: Db, a: Action)
    requires a.CreateMapping? && MappingCreate(created, a.mapping, a.now, a.mappingId).result.Ok?
  {
    && a.mappingId in db.mappings && MappingRowOk(a.mappingId, db.mappings[a.mappingId], db.users)
    && MappingContinues(MappingCreate(created, a.mapping, a.now, a.mappingId).result.value, db.mappings[a.mappingId])
  }

  lemma CreatedRow(db: Db, a: Action)
    requires a.CreateMapping? && MappingCreate(db, a.mapping, a.now, a.mappingId).result.Ok?
    ensures var tx := MappingCreate(db, a.mapping, a.now, a.mappingId);
            a.mappingId in tx.db.mappings && tx.db.mappings[a.mappingId] == tx.result.value
  {
  }

  // ---- Exactly when a certificate authorises ----

  /** Step `i` created a mapping that no step before `k` revoked. */
  ghost predicate Standing(run: Run, i: nat, k: nat)
    requires i < k <= |run.actions| && |run.states| == |run.actions| + 1
  {
    && run.actions[i].CreateMapping?
    && CreatesMapping(run.states[i].db, run.actions[i], run.actions[i].mappingId)
    && forall r :: i < r < k ==> !RevokesMapping(run.states[r].db, run.actions[r], run.actions[i].mappingId)
  }

  /** The mapping asked for names the certificate, is valid at that time, and names
      the user or a role among these. */
  predicate Covers(config: Config, fingerprint: seq<byte>, userId: UserId, now: nat, roles: seq<int>) {
    && config.fingerprint == fingerprint && config.notBefore <= now <= config.notAfter
    && ((config.userId != 0 && config.userId == userId) || (config.role != 0 && config.role in roles))
  }

  function Created(db: Db, a: Action): Mapping
    requires a.CreateMapping? && CreatesMapping(db, a, a.mappingId)
  {
    MappingCreate(db, a.mapping, a.now, a.mappingId).result.value
  }

  /** As long as it stands, a mapping is stored as it was created. */
  lemma {:induction false} StandingIsStored(verify: Oracle, run: Run, i: nat, k: nat)
    requires IsRun(verify, run) && i < k <= |run.actions| && |run.states| == |run.actions| + 1 && Standing(run, i, k)
    ensures run.actions[i].mappingId in run.states[k].db.mappings
    ensures run.states[k].db.mappings[run.actions[i].mappingId] == Created(run.states[i].db, run.actions[i])
    decreases k
  {
    StepMappings(verify, run, k - 1);
    if i == k - 1 {
      NotThere(verify, run, i);
      StoredByStep(run.states[i].db, run.actions[i], run.states[k].db.mappings, run.actions[i].mappingId);
    } else {
      StandingIsStored(verify, run, i, k - 1);
      StoredByStep(run.states[k - 1].db, run.actions[k - 1], run.states[k].db.mappings, run.actions[i].mappingId);
    }
  }

  lemma NotThere(verify: Oracle, run: Run, i: nat)
    requires IsRun(verify, run) && i < |run.actions| && run.actions[i].CreateMapping?
    ensures run.actions[i].mappingId !in run.states[i].db.mappings
  {
    assert StepAt(verify, run, i);
  }

  lemma StoredByStep(db: Db, a: Action, mappings: map<nat, Mapping>, m: nat)
    requires MappingsFromStep(db, a, mappings) && (m in db.mappings || CreatesMapping(db, a, m))
    ensures m in mappings && MappingFromStep(db, a, m, mappings[m])
  {
  }

  /** Every stored mapping was created by a step; if it is not revoked it stands. */
  lemma {:induction false} CreatedAt(verify: Oracle, run: Run, k: nat, m: nat) returns (i: nat)
    requires IsRun(verify, run) && k < |run.states| && |run.states| == |run.actions| + 1
    requires m in run.states[k].db.mappings && run.states[k].db.mappings[m].revokedAt.None?
    ensures i < k && run.actions[i].CreateMapping? && run.actions[i].mappingId == m && Standing(run, i, k)
    decreases k
  {
    InitialTables(verify, run);
    StepMappings(verify, run, k - 1);
    var db, a := run.states[k - 1].db, run.actions[k - 1];
    assert MappingFromStep(db, a, m, run.states[k].db.mappings[m]);
    if m in db.mappings {
      i := CreatedAt(verify, run, k - 1, m);
    } else {
      i := k - 1;
    }
  }

  lemma CreatedCovers(db: Db, a: Action, fingerprint: seq<byte>, userId: UserId, now: nat, roles: seq<int>)
    requires a.CreateMapping? && CreatesMapping(db, a, a.mappingId)
    ensures Authorizes(Created(db, a), roles, fingerprint, userId, now) <==>
              Covers(a.mapping, fingerprint, userId, now, roles)
  {
  }

  /** In every world of a run a certificate authorises a user exactly if some step of
      the run created a mapping of it that no later step revoked, that is valid at this
      time, and that names the user or a role the user has now. */
  lemma CertificateAuthorizesExactly(verify: Oracle, run: Run, k: nat, fingerprint: seq<byte>, userId: UserId, now: nat)
    requires IsRun(verify, run) && k < |run.states| && |run.states| == |run.actions| + 1
    ensures MappingAuthorize(run.states[k].db, fingerprint, userId, now).Ok? <==>
              && |fingerprint| == 32 && Positive64(userId) && Positive64(now)
              && exists i :: 0 <= i < k && Standing(run, i, k)
                             && Covers(run.actions[i].mapping, fingerprint, userId, now,
                                       RoleRows(run.states[k].db.roles, userId))
  {
    var db := run.states[k].db;
    var roles := RoleRows(db.roles, userId);
    if MappingAuthorize(db, fingerprint, userId, now).Ok? {
      var m :| m in db.mappings && Authorizes(db.mappings[m], roles, fingerprint, userId, now);
      var i := CreatedAt(verify, run, k, m);
      StandingIsStored(verify, run, i, k);
      CreatedCovers(run.states[i].db, run.actions[i], fingerprint, userId, now, roles);
    }
    forall i: nat | i < k && Standing(run, i, k) && Covers(run.actions[i].mapping, fingerprint, userId, now, roles)
      ensures |fingerprint| == 32 && Positive64(userId) && Positive64(now) ==>
                MappingAuthorize(db, fingerprint, userId, now).Ok?
    {
      StandingIsStored(verify, run, i, k);
      CreatedCovers(run.states[i].db, run.actions[i], fingerprint, userId, now, roles);
    }
  }
}
