/** Which step of a run may store, rewrite or leave the row of a session or of a
    certificate mapping. */
module Rows {
  import opened Base
  import opened Schema
  import opened Users
  import opened Sessions
  import opened Totp
  import opened Mtls
  import opened World
  import opened Invariant
  import opened KeepUsers
  import opened KeepFactors
  import opened KeepRest
  import opened KeepChange
  import opened Reach
  import opened Growth
  import opened Handouts

  // ---- Session rows ----

  /** The step successfully touches this session. */
  predicate Touching(db: Db, a: Action, digest: Digest) {
    a.TouchSession? && Digest(a.session) == digest && SessionTouch(db, a.session, a.now).result.Ok?
  }

  /** The step successfully issues this session. */
  predicate Issuing(db: Db, a: Action, digest: Digest) {
    a.IssueSession? && Digest(a.session) == digest
    && SessionIssue(db, a.grant.identity, a.now, a.lifetime, a.remote, a.session, a.csrf).result.Ok?
  }

  /** A row after a step: the one before, touched if the step does that, or one
      that the step issues. */
  predicate FromStep(db: Db, a: Action, digest: Digest, row: Session) {
    if digest in db.sessions then
      row == if Touching(db, a, digest) then Touched(db.sessions[digest], a.now) else db.sessions[digest]
    else Issuing(db, a, digest)
  }

  predicate SessionsFromStep(db: Db, a: Action, sessions: map<Digest, Session>) {
    forall d :: d in sessions ==> FromStep(db, a, d, sessions[d])
  }

  /** A step that at most deletes sessions. */
  predicate OnlyDeletes(sessions: map<Digest, Session>, sessions': map<Digest, Session>) {
    forall d :: d in sessions' ==> d in sessions && sessions'[d] == sessions[d]
  }

  lemma DeletingStep(db: Db, a: Action, sessions: map<Digest, Session>)
    requires OnlyDeletes(db.sessions, sessions) && !a.TouchSession?
    ensures SessionsFromStep(db, a, sessions)
  {
  }

  lemma BootstrapTables(w: World, now: nat, lifetime: nat, secret: Secret)
    ensures var db' := StepIssueBootstrap(w, now, lifetime, secret).db; db' == w.db.(bootstrap := db'.bootstrap)
  {
  }

  lemma AdministrationSessions(verify: Oracle, w: World, a: Action)
    requires Inv(verify, w) && Enabled(w, a) && Administers(a)
    ensures OnlyDeletes(w.db.sessions, Next(verify, w, a).db.sessions)
    ensures Next(verify, w, a).db.mappings == w.db.mappings
  {
    if a.IssueBootstrap? {
      BootstrapTables(w, a.now, a.lifetime, a.secret);
    } else if a.CreateFirst? {
      FirstShape(w, a.token, a.username, a.password, a.policy, a.salt, a.now, a.id);
    } else if a.CreateUser? {
      CreateShape(w.db, a.username, a.password, a.policy, a.role, a.forceChange, a.salt, a.now, a.id);
    } else if a.UpdateUser? {
      UpdateShape(w.db, a.id, a.expected, a.update, a.now);
    } else if a.Reset? {
      ResetShape(w.db, a.id, a.expected, a.password, a.policy, a.forceChange, a.salt, a.now);
    }
  }

  lemma EnrolmentSessions(verify: Oracle, w: World, a: Action)
    requires Inv(verify, w) && Enabled(w, a) && Enrols(a) && !a.IssueSession? && !a.TouchSession?
    ensures OnlyDeletes(w.db.sessions, Next(verify, w, a).db.sessions)
    ensures Next(verify, w, a).db.mappings == w.db.mappings
  {
    if a.Provision? {
      ProvisionShape(w.db, a.id, a.key, a.nonce, a.secret, a.now);
    } else if a.Confirm? {
      ConfirmShape(verify, w.db, a.id, a.key, a.code, a.now, a.drawn);
    } else if a.Disable? {
      DisableShape(w.db, a.id, a.expected);
    } else {
      RevokeWrites(w.db, a.session);
    }
  }

  lemma IssueSessions(w: World, a: Action)
    requires a.IssueSession? && Enabled(w, a)
    ensures var w' := StepIssueSession(w, a.grant, a.now, a.lifetime, a.remote, a.session, a.csrf);
            SessionsFromStep(w.db, a, w'.db.sessions) && w'.db.mappings == w.db.mappings
  {
    IssueWrites(w.db, a.grant.identity, a.now, a.lifetime, a.remote, a.session, a.csrf);
  }

  lemma TouchSessions(w: World, a: Action)
    requires a.TouchSession?
    ensures SessionsFromStep(w.db, a, SessionTouch(w.db, a.session, a.now).db.sessions)
    ensures SessionTouch(w.db, a.session, a.now).db.mappings == w.db.mappings
  {
    TouchWrites(w.db, a.session, a.now);
  }

  lemma OtherSessions(verify: Oracle, w: World, a: Action)
    requires Inv(verify, w) && Enabled(w, a) && Remains(a)
    ensures OnlyDeletes(w.db.sessions, Next(verify, w, a).db.sessions)
    ensures !a.CreateMapping? && !a.RevokeMapping? ==> Next(verify, w, a).db.mappings == w.db.mappings
  {
    if a.RevokeSessions? {
      RevokeAllShape(w.db, a.id);
    } else if a.IssueToken? {
      IssueTokenShape(w.db, a.id, a.config, a.now, a.tokenId, a.secret);
    } else if a.TouchToken? || a.RevokeToken? {
      TokenWrites(w.db, a.tokenId, a.now);
    } else if a.CreateMapping? {
      CreateMappingWrites(w.db, a.mapping, a.now, a.mappingId);
    } else {
      RevokeMappingWrites(w.db, a.mappingId, a.now);
    }
  }

  lemma RenewTables(w: World, a: Action)
    requires a.RenewIdentity?
    ensures StepRenew(w, a.change, a.login).db == w.db
  {
  }

  lemma ChangeSessions(verify: Oracle, w: World, a: Action)
    requires TablesOk(w.db) && Enabled(w, a) && ChangesOwn(a)
    ensures OnlyDeletes(w.db.sessions, Next(verify, w, a).db.sessions)
    ensures Next(verify, w, a).db.mappings == w.db.mappings
  {
    if a.BeginChange? {
      BeginMakes(w, a);
    } else if a.ChangePassword? {
      ResetSessions(w, a);
    } else {
      RenewTables(w, a);
    }
  }

  lemma ResetSessions(w: World, a: Action)
    requires TablesOk(w.db) && a.ChangePassword?
    ensures var w' := StepChangePassword(w, a.change, a.login, a.password, a.policy, a.salt, a.now);
            OnlyDeletes(w.db.sessions, w'.db.sessions) && w'.db.mappings == w.db.mappings
  {
    ChangeShape(w.db, a.change, a.login, a.password, a.policy, a.salt, a.now);
  }

  /** Every session row of the next world comes from this step. */
  lemma StepSessions(verify: Oracle, run: Run, i: nat)
    requires IsRun(verify, run) && i < |run.actions|
    ensures SessionsFromStep(run.states[i].db, run.actions[i], run.states[i + 1].db.sessions)
  {
    var w, a := run.states[i], run.actions[i];
    assert StepAt(verify, run, i);
    RunKeeps(verify, run, i);
    if a.TouchSession? {
      TouchSessions(w, a);
    } else if a.IssueSession? {
      IssueSessions(w, a);
    } else {
      OtherSteps(verify, w, a);
      DeletingStep(w.db, a, run.states[i + 1].db.sessions);
    }
  }

  lemma OtherSteps(verify: Oracle, w: World, a: Action)
    requires Inv(verify, w) && Enabled(w, a) && !a.IssueSession? && !a.TouchSession?
    ensures OnlyDeletes(w.db.sessions, Next(verify, w, a).db.sessions)
    ensures !a.CreateMapping? && !a.RevokeMapping? ==> Next(verify, w, a).db.mappings == w.db.mappings
  {
    if Administers(a) { AdministrationSessions(verify, w, a); }
    else if LogsIn(a) { LoginHands(verify, w, a); }
    else if Enrols(a) { EnrolmentSessions(verify, w, a); }
    else if ChangesOwn(a) { ChangeSessions(verify, w, a); }
    else { OtherSessions(verify, w, a); }
  }

  // ---- Mapping rows ----

  /** The step successfully creates this mapping. */
  predicate CreatesMapping(db: Db, a: Action, m: nat) {
    a.CreateMapping? && a.mappingId == m && MappingCreate(db, a.mapping, a.now, m).result.Ok?
  }

  /** The step successfully revokes this mapping. */
  predicate RevokesMapping(db: Db, a: Action, m: nat) {
    a.RevokeMapping? && a.mappingId == m && MappingRevoke(db, m, a.now).result.Ok?
  }

  /** A row after a step: the one before, revoked if the step does that, or the one
      that the step creates. */
  predicate MappingFromStep(db: Db, a: Action, m: nat, row: Mapping) {
    if m in db.mappings then
      row == if RevokesMapping(db, a, m) then Mtls.Revoked(db.mappings[m], a.now) else db.mappings[m]
    else CreatesMapping(db, a, m) && row == MappingCreate(db, a.mapping, a.now, m).result.value
  }

  /** The mappings after a step are those before and those it creates. */
  ghost predicate MappingsFromStep(db: Db, a: Action, mappings: map<nat, Mapping>) {
    && (forall m :: m in mappings ==> MappingFromStep(db, a, m, mappings[m]))
    && (forall m :: m in db.mappings || CreatesMapping(db, a, m) ==> m in mappings)
  }

  lemma CreateMappings(db: Db, a: Action)
    requires UsersOk(db.users, db.roles) && a.CreateMapping? && Positive64(a.mappingId) && a.mappingId !in db.mappings
    ensures MappingsFromStep(db, a, MappingCreate(db, a.mapping, a.now, a.mappingId).db.mappings)
  {
    var tx := MappingCreate(db, a.mapping, a.now, a.mappingId);
    assert tx.result.Err? ==> tx.db == db;
    assert tx.result.Ok? ==> tx.db == db.(mappings := db.mappings[a.mappingId := tx.result.value]);
  }

  lemma RevokeMappings(db: Db, a: Action)
    requires a.RevokeMapping?
    ensures MappingsFromStep(db, a, MappingRevoke(db, a.mappingId, a.now).db.mappings)
  {
    var tx := MappingRevoke(db, a.mappingId, a.now);
    assert tx.result.Err? ==> tx.db == db;
    assert tx.result.Ok? ==> tx.db == db.(mappings := db.mappings[a.mappingId :=
                                            Mtls.Revoked(db.mappings[a.mappingId], a.now)]);
  }

  lemma MappingsStay(verify: Oracle, w: World, a: Action)
    requires Inv(verify, w) && Enabled(w, a) && !a.CreateMapping? && !a.RevokeMapping?
    ensures Next(verify, w, a).db.mappings == w.db.mappings
  {
    if a.TouchSession? { TouchSessions(w, a); }
    else if a.IssueSession? { IssueSessions(w, a); }
    else { OtherSteps(verify, w, a); }
  }

  lemma SameMappings(db: Db, a: Action)
    requires !a.CreateMapping? && !a.RevokeMapping?
    ensures MappingsFromStep(db, a, db.mappings)
  {
  }

  lemma StepMappings(verify: Oracle, run: Run, i: nat)
    requires IsRun(verify, run) && i < |run.actions|
    ensures MappingsFromStep(run.states[i].db, run.actions[i], run.states[i + 1].db.mappings)
  {
    var w, a := run.states[i], run.actions[i];
    assert StepAt(verify, run, i);
    RunKeeps(verify, run, i);
    if a.CreateMapping? {
      CreateMappings(w.db, a);
    } else if a.RevokeMapping? {
      RevokeMappings(w.db, a);
    } else {
      MappingsStay(verify, w, a);
      SameMappings(w.db, a);
    }
  }

  // ---- The step that issued a session ----

  /** Every stored session was issued by some step, from the grant that its origin
      records. */
  lemma {:induction false} IssuedAt(verify: Oracle, run: Run, k: nat, digest: Digest) returns (j: nat)
    requires IsRun(verify, run) && k < |run.states| && digest in run.states[k].db.sessions
    ensures j < k && Issuing(run.states[j].db, run.actions[j], digest)
    ensures digest in run.states[k].hist.provenance
    ensures run.states[k].hist.provenance[digest] == run.actions[j].grant
    decreases k
  {
    InitialTables(verify, run);
    StepSessions(verify, run, k - 1);
    assert FromStep(run.states[k - 1].db, run.actions[k - 1], digest, run.states[k].db.sessions[digest]);
    if digest in run.states[k - 1].db.sessions {
      j := IssuedAt(verify, run, k - 1, digest);
      OriginStays(verify, run, k - 1, digest);
    } else {
      j := k - 1;
      assert StepAt(verify, run, j);
      IssueRecords(run.states[j], run.actions[j], digest);
    }
  }

  lemma OriginStays(verify: Oracle, run: Run, k: nat, digest: Digest)
    requires IsRun(verify, run) && k < |run.actions| && digest in run.states[k].db.sessions
    ensures digest in run.states[k].hist.provenance && digest in run.states[k + 1].hist.provenance
    ensures run.states[k + 1].hist.provenance[digest] == run.states[k].hist.provenance[digest]
  {
    RunKeeps(verify, run, k);
    RunStepContinues(verify, run, k);
    assert digest in run.states[k].hist.digests;
  }

  lemma IssueRecords(w: World, a: Action, digest: Digest)
    requires Issuing(w.db, a, digest)
    ensures var hist := StepIssueSession(w, a.grant, a.now, a.lifetime, a.remote, a.session, a.csrf).hist;
            digest in hist.provenance && hist.provenance[digest] == a.grant
  {
  }
}
