/** The store follows the runs: performing the actions of any run on an empty
    `AccountStore`, in place and read by read, leaves it with exactly the tables
    that the run says, and its callers with exactly the unfinished logins,
    unfinished TOTP completions, unfinished password changes and identities that the
    run says. */
module Replay {
  import opened Base
  import opened Schema
  import opened Users
  import opened Sessions
  import opened Totp
  import opened World
  import opened Invariant
  import opened Reach
  import opened Store

  /** A password change as its caller holds it: the identity of the session and the
      revision to go on from. */
  datatype Pending = Pending(identity: Identity, revision: nat, done: bool)

  /** What the callers of the store hold. */
  datatype Callers = Callers(attempts: set<Attempt>, readings: set<Reading>, pending: set<Pending>,
                             identities: set<Identity>)

  function PendingOf(change: Change): Pending {
    Pending(change.identity, change.revision, change.done)
  }

  function AllPending(changes: set<Change>): set<Pending> {
    set c | c in changes :: PendingOf(c)
  }

  function Identities(grants: set<Grant>): set<Identity> {
    set g | g in grants :: g.identity
  }

  ghost predicate Tracks(callers: Callers, hist: History) {
    && callers.attempts == hist.attempts && callers.readings == hist.readings
    && callers.pending == AllPending(hist.changes)
    && callers.identities == Identities(hist.grants)
  }

  lemma OneMore(grants: set<Grant>, grant: Grant)
    ensures Identities(grants + {grant}) == Identities(grants) + {grant.identity}
  {
    forall i | i in Identities(grants) ensures i in Identities(grants + {grant}) {
      var g :| g in grants && g.identity == i;
      assert g in grants + {grant};
    }
    assert grant in grants + {grant};
  }

  lemma OneMorePending(changes: set<Change>, change: Change)
    ensures AllPending(changes + {change}) == AllPending(changes) + {PendingOf(change)}
  {
    forall p | p in AllPending(changes) ensures p in AllPending(changes + {change}) {
      var c :| c in changes && PendingOf(c) == p;
      assert c in changes + {change};
    }
    assert change in changes + {change};
  }

  method PerformCreation(store: AccountStore, verify: Oracle, ghost w: World, a: Action)
    requires store.State() == w.db && Enabled(w, a) && (a.IssueBootstrap? || a.CreateFirst? || a.CreateUser?)
    modifies store
    ensures store.State() == Next(verify, w, a).db
  {
    if a.IssueBootstrap? {
      var _ := store.IssueBootstrap(a.now, a.lifetime, a.secret);
    } else if a.CreateFirst? {
      var _ := store.CreateFirstAdministrator(a.token, a.username, a.password, a.policy, a.salt, a.now, a.id);
    } else {
      var _ := store.CreateUser(a.username, a.password, a.policy, a.role, a.forceChange, a.salt, a.now, a.id);
    }
  }

  method PerformChange(store: AccountStore, verify: Oracle, ghost w: World, a: Action)
    requires store.State() == w.db && Enabled(w, a) && (a.UpdateUser? || a.Reset?)
    modifies store
    ensures store.State() == Next(verify, w, a).db
  {
    if a.UpdateUser? {
      var _ := store.UpdateUser(a.id, a.expected, a.update, a.now);
    } else {
      var _ := store.ResetUserPassword(a.id, a.expected, a.password, a.policy, a.forceChange, a.salt, a.now);
    }
  }

  method PerformRead(store: AccountStore, callers: Callers, verify: Oracle, ghost w: World, a: Action)
    returns (callers': Callers)
    requires store.State() == w.db && Tracks(callers, w.hist) && NamesUnique(w.db.users)
    requires Enabled(w, a) && (a.BeginLogin? || a.BeginTotp? || a.NextRead?)
    ensures Next(verify, w, a).db == w.db && Tracks(callers', Next(verify, w, a).hist)
  {
    callers' := callers;
    if a.BeginLogin? {
      var start := store.BeginLogin(a.username, a.password, a.policy, a.salt, a.now);
      if start.Begun? { callers' := callers.(attempts := callers.attempts + {start.attempt}); }
    } else if a.BeginTotp? {
      var current := store.LoadIdentityRow(a.grant.identity.userId);
      if current.Ok? { callers' := callers.(readings := callers.readings + {Reading(1, a.grant, current.value)}); }
    } else {
      var next := ReadNext(store, a.reading);
      if next.Some? { callers' := callers.(readings := callers.readings + {next.value}); }
    }
  }

  /** The second read of a TOTP completion, or the third. */
  method ReadNext(store: AccountStore, reading: Reading) returns (next: Option<Reading>)
    ensures next == NextReading(store.State(), reading)
  {
    if reading.stage == 1 {
      var permissions := store.LoadRoles(reading.current.userId);
      if permissions.Err? { return None; }
      next := Some(reading.(stage := 2, current := reading.current.(permissions := permissions.value)));
    } else {
      var enabled := store.LoadFlag(reading.current.userId);
      var current := reading.current.(totpEnabled := enabled, mfaComplete := !enabled);
      if !PasswordIdentityCurrent(reading.grant.identity, current) { return None; }
      next := Some(reading.(stage := 3, current := current));
    }
  }

  method PerformFinish(store: AccountStore, callers: Callers, verify: Oracle, ghost w: World, reading: Reading,
                       key: nat, code: nat, now: nat)
    returns (callers': Callers)
    requires store.State() == w.db && Tracks(callers, w.hist)
    ensures var w' := StepFinishTotp(verify, w, reading, key, code, now); w'.db == w.db && Tracks(callers', w'.hist)
  {
    callers' := callers;
    var checked := store.CheckTotpCode(verify, reading.current, key, code, now);
    if checked.Ok? && code < CODE_LIMIT && now != 0 {
      callers' := callers.(identities := callers.identities + {checked.value});
      FinishAdds(verify, w, reading, key, code, now);
    }
  }

  method PerformResume(store: AccountStore, callers: Callers, verify: Oracle, ghost w: World, session: Secret,
                       csrf: Option<Secret>, now: nat, timeout: nat, remote: Option<seq<byte>>)
    returns (callers': Callers)
    requires store.State() == w.db && Tracks(callers, w.hist) && Inv(verify, w)
    ensures var w' := StepResume(w, session, csrf, now, timeout, remote); w'.db == w.db && Tracks(callers', w'.hist)
  {
    callers' := callers;
    var validated := store.ValidateSession(session, csrf, now, timeout, remote);
    if validated.Ok? {
      callers' := callers.(identities := callers.identities + {validated.value.(mfaComplete := false)});
      ResumeAdds(verify, w, session, csrf, now, timeout, remote);
    }
  }

  lemma FinishAdds(verify: Oracle, w: World, reading: Reading, key: nat, code: nat, now: nat)
    requires CheckCode(verify, w.db, reading.current, key, code, now).Ok? && code < CODE_LIMIT && now != 0
    ensures var w' := StepFinishTotp(verify, w, reading, key, code, now);
            && w'.db == w.db && w'.hist == w.hist.(grants := w'.hist.grants)
            && Identities(w'.hist.grants) ==
                 Identities(w.hist.grants) + {CheckCode(verify, w.db, reading.current, key, code, now).value}
  {
    var identity := CheckCode(verify, w.db, reading.current, key, code, now).value;
    var factor := CodeFactor(w.db.totp[identity.userId], code, now);
    OneMore(w.hist.grants, Grant(identity, reading.grant.password, factor,
                                 Enrolment(w.hist.enrolments, identity.userId)));
  }

  lemma ResumeAdds(verify: Oracle, w: World, session: Secret, csrf: Option<Secret>, now: nat, timeout: nat,
                   remote: Option<seq<byte>>)
    requires Inv(verify, w) && SessionValidate(w.db, session, csrf, now, timeout, remote).Ok?
    ensures var w' := StepResume(w, session, csrf, now, timeout, remote);
            var identity := SessionValidate(w.db, session, csrf, now, timeout, remote).value;
            && w'.db == w.db && w'.hist == w.hist.(grants := w'.hist.grants)
            && Identities(w'.hist.grants) == Identities(w.hist.grants) + {identity.(mfaComplete := false)}
  {
    var identity := SessionValidate(w.db, session, csrf, now, timeout, remote).value.(mfaComplete := false);
    assert Digest(session) in w.hist.provenance;
    OneMore(w.hist.grants, Grant(identity, w.hist.provenance[Digest(session)].password, Resumed, 0));
  }

  // ---- Password changes ----

  lemma BeginAdds(verify: Oracle, w: World, session: Secret, csrf: Secret, now: nat, timeout: nat,
                  remote: Option<seq<byte>>)
    requires Inv(verify, w) && SessionValidate(w.db, session, Some(csrf), now, timeout, remote).Ok?
    ensures var w' := StepBeginChange(w, session, csrf, now, timeout, remote);
            var identity := SessionValidate(w.db, session, Some(csrf), now, timeout, remote).value;
            && w'.db == w.db && w'.hist == w.hist.(changes := w'.hist.changes)
            && AllPending(w'.hist.changes) ==
                 AllPending(w.hist.changes) + {Pending(identity, identity.revision, false)}
  {
    var identity := SessionValidate(w.db, session, Some(csrf), now, timeout, remote).value;
    assert Digest(session) in w.hist.provenance;
    OneMorePending(w.hist.changes, Change(identity, w.hist.provenance[Digest(session)], identity.revision, false));
  }

  method PerformBeginChange(store: AccountStore, callers: Callers, verify: Oracle, ghost w: World, session: Secret,
                            csrf: Secret, now: nat, timeout: nat, remote: Option<seq<byte>>)
    returns (callers': Callers)
    requires store.State() == w.db && Tracks(callers, w.hist) && Inv(verify, w)
    ensures var w' := StepBeginChange(w, session, csrf, now, timeout, remote);
            w'.db == w.db && Tracks(callers', w'.hist)
  {
    callers' := callers;
    var validated := store.ValidateSession(session, Some(csrf), now, timeout, remote);
    if validated.Ok? {
      var held := Pending(validated.value, validated.value.revision, false);
      callers' := callers.(pending := callers.pending + {held});
      BeginAdds(verify, w, session, csrf, now, timeout, remote);
    }
  }

  /** The tests of the source between the two logins, and the reset. */
  method PerformReset(store: AccountStore, callers: Callers, ghost w: World, change: Change, login: Grant,
                      password: Password, policy: Policy, salt: nat, now: nat)
    returns (callers': Callers)
    requires store.State() == w.db && Tracks(callers, w.hist)
    modifies store
    ensures var w' := StepChangePassword(w, change, login, password, policy, salt, now);
            store.State() == w'.db && Tracks(callers', w'.hist)
  {
    callers' := callers;
    var session := change.identity;
    if login.password == password || !SameAccount(login.identity, session) { return; }
    var r := store.ResetUserPassword(session.userId, session.revision, password, policy, false, salt, now);
    if r.Ok? {
      callers' := callers.(pending := callers.pending + {Pending(session, r.value.revision, true)});
      OneMorePending(w.hist.changes, change.(revision := r.value.revision, done := true));
    }
  }

  method PerformRenewal(callers: Callers, ghost w: World, change: Change, login: Grant) returns (callers': Callers)
    requires Tracks(callers, w.hist)
    ensures var w' := StepRenew(w, change, login); w'.db == w.db && Tracks(callers', w'.hist)
  {
    callers' := callers;
    if Renewable(change, login.identity) {
      var renewed := login.identity.(mfaComplete := change.identity.mfaComplete);
      callers' := callers.(identities := callers.identities + {renewed});
      OneMore(w.hist.grants, Renewed(change, login));
    }
  }

  method PerformOwnChange(store: AccountStore, callers: Callers, verify: Oracle, ghost w: World, a: Action)
    returns (callers': Callers)
    requires store.State() == w.db && Tracks(callers, w.hist) && Inv(verify, w) && Enabled(w, a) && ChangesOwn(a)
    modifies store
    ensures store.State() == Next(verify, w, a).db && Tracks(callers', Next(verify, w, a).hist)
  {
    if a.BeginChange? {
      callers' := PerformBeginChange(store, callers, verify, w, a.session, a.csrf, a.now, a.timeout, a.remote);
    } else if a.ChangePassword? {
      callers' := PerformReset(store, callers, w, a.change, a.login, a.password, a.policy, a.salt, a.now);
    } else {
      callers' := PerformRenewal(callers, w, a.change, a.login);
    }
  }

  // ---- Logins ----

  method PerformCommit(store: AccountStore, callers: Callers, ghost w: World, attempt: Attempt)
    returns (callers': Callers)
    requires store.State() == w.db && Tracks(callers, w.hist) && NamesUnique(w.db.users)
    modifies store
    ensures store.State() == StepCommitLogin(w, attempt).db && Tracks(callers', StepCommitLogin(w, attempt).hist)
  {
    var r := store.FinishLogin(attempt);
    callers' := callers;
    if r.Ok? {
      callers' := callers.(identities := callers.identities + {r.value});
      OneMore(w.hist.grants, Grant(r.value, attempt.password, NoFactor, 0));
    }
  }

  method PerformRecovery(store: AccountStore, callers: Callers, ghost w: World, grant: Grant, secret: Secret, now: nat)
    returns (callers': Callers)
    requires store.State() == w.db && Tracks(callers, w.hist)
    modifies store
    ensures var w' := StepRecover(w, grant, secret, now); store.State() == w'.db && Tracks(callers', w'.hist)
  {
    var r := store.AuthenticateRecovery(grant.identity, secret, now);
    callers' := callers;
    if r.Ok? {
      callers' := callers.(identities := callers.identities + {r.value});
      OneMore(w.hist.grants, Grant(r.value, grant.password, RecoveryFactor(Digest(secret)),
                                   Enrolment(w.hist.enrolments, r.value.userId)));
    }
  }

  method PerformLogin(store: AccountStore, callers: Callers, verify: Oracle, ghost w: World, a: Action)
    returns (callers': Callers)
    requires store.State() == w.db && Tracks(callers, w.hist) && Inv(verify, w) && Enabled(w, a) && LogsIn(a)
    modifies store
    ensures store.State() == Next(verify, w, a).db && Tracks(callers', Next(verify, w, a).hist)
  {
    if a.CommitLogin? {
      callers' := PerformCommit(store, callers, w, a.attempt);
    } else if a.Recover? {
      callers' := PerformRecovery(store, callers, w, a.grant, a.secret, a.now);
    } else if a.FinishTotp? {
      callers' := PerformFinish(store, callers, verify, w, a.reading, a.key, a.code, a.now);
    } else if a.ResumeSession? {
      callers' := PerformResume(store, callers, verify, w, a.session, a.proof, a.now, a.timeout, a.remote);
    } else {
      callers' := PerformRead(store, callers, verify, w, a);
    }
  }

  method PerformEnrolment(store: AccountStore, verify: Oracle, ghost w: World, a: Action)
    requires store.State() == w.db && Enabled(w, a) && Enrols(a)
    modifies store
    ensures store.State() == Next(verify, w, a).db
  {
    if a.Provision? {
      var _ := store.ProvisionTotp(a.id, a.key, a.nonce, a.secret, a.now);
    } else if a.Confirm? {
      var _ := store.ConfirmTotp(verify, a.id, a.key, a.code, a.now, a.drawn);
    } else if a.Disable? {
      var _ := store.DisableTotp(a.id, a.expected);
    } else if a.IssueSession? {
      var _ := store.IssueSession(a.grant.identity, a.now, a.lifetime, a.remote, a.session, a.csrf);
    } else if a.TouchSession? {
      var _ := store.TouchSession(a.session, a.now);
    } else {
      var _ := store.RevokeSession(a.session);
    }
  }

  method PerformOther(store: AccountStore, verify: Oracle, ghost w: World, a: Action)
    requires store.State() == w.db && Enabled(w, a) && Remains(a)
    modifies store
    ensures store.State() == Next(verify, w, a).db
  {
    if a.RevokeSessions? {
      var _ := store.RevokeAllSessions(a.id);
    } else if a.IssueToken? {
      var _ := store.IssueToken(a.id, a.config, a.now, a.tokenId, a.secret);
    } else if a.TouchToken? {
      var _ := store.TouchToken(a.tokenId, a.now);
    } else if a.RevokeToken? {
      var _ := store.RevokeToken(a.tokenId, a.now);
    } else if a.CreateMapping? {
      var _ := store.CreateMapping(a.mapping, a.now, a.mappingId);
    } else {
      var _ := store.RevokeMapping(a.mappingId, a.now);
    }
  }

  lemma AdministrationTracks(verify: Oracle, callers: Callers, w: World, a: Action)
    requires Enabled(w, a) && Administers(a) && Tracks(callers, w.hist)
    ensures Tracks(callers, Next(verify, w, a).hist)
  {
  }

  lemma OtherTracks(verify: Oracle, callers: Callers, w: World, a: Action)
    requires Enabled(w, a) && !Administers(a) && !LogsIn(a) && !ChangesOwn(a) && Tracks(callers, w.hist)
    ensures Tracks(callers, Next(verify, w, a).hist)
  {
  }

  /** Any step of a world, performed in place. */
  method Perform(store: AccountStore, callers: Callers, verify: Oracle, ghost w: World, a: Action)
    returns (callers': Callers)
    requires store.State() == w.db && Tracks(callers, w.hist) && Inv(verify, w) && Enabled(w, a)
    modifies store
    ensures store.State() == Next(verify, w, a).db && Tracks(callers', Next(verify, w, a).hist)
  {
    callers' := callers;
    if Administers(a) {
      if a.UpdateUser? || a.Reset? {
        PerformChange(store, verify, w, a);
      } else {
        PerformCreation(store, verify, w, a);
      }
      AdministrationTracks(verify, callers, w, a);
    } else if LogsIn(a) {
      callers' := PerformLogin(store, callers, verify, w, a);
    } else if ChangesOwn(a) {
      callers' := PerformOwnChange(store, callers, verify, w, a);
    } else {
      if Enrols(a) { PerformEnrolment(store, verify, w, a); } else { PerformOther(store, verify, w, a); }
      OtherTracks(verify, callers, w, a);
    }
  }

  /** A whole run, performed in place on an empty store. */
  method PerformRun(verify: Oracle, actions: seq<Action>, ghost run: Run)
    returns (store: AccountStore, callers: Callers)
    requires IsRun(verify, run) && run.actions == actions
    ensures store.State() == run.states[|actions|].db && Tracks(callers, run.states[|actions|].hist)
  {
    store := new AccountStore();
    callers := Callers({}, {}, {}, {});
    var i := 0;
    while i < |actions|
      invariant 0 <= i <= |actions| && fresh(store)
      invariant store.State() == run.states[i].db && Tracks(callers, run.states[i].hist)
    {
      RunKeeps(verify, run, i);
      assert StepAt(verify, run, i);
      callers := Perform(store, callers, verify, run.states[i], actions[i]);
      i := i + 1;
    }
  }
}
