/** A full restore, or the restore of a recovery checkpoint, puts a whole account
    database back (src/common/database.c:2199-2298, 2362-2446,
    src/daemon/management_backup.c:1336-1338). A timeline is a history of the
    appliance with such restores in it. What is proved about one world of a run holds
    of every world of a timeline; what is proved about the rest of a run holds up to
    the next restore, and not beyond. */
module Restore {
  import opened Base
  import opened Schema
  import opened Users
  import opened Sessions
  import opened Totp
  import opened Mtls
  import opened World
  import opened Invariant
  import opened Reach
  import opened Growth
  import opened TokenLaws
  import opened Recovery
  import opened Certificates
  import opened Witnesses
  import Tokens
  import Access

  /** A world at the end of some run. */
  ghost predicate Reachable(verify: Oracle, w: World) {
    exists run :: IsRun(verify, run) && run.states[|run.actions|] == w
  }

  /** An account step, or a restore of an archive taken on this appliance or another.
      A restore waits for every mutation to finish and admits none until it is over
      (src/daemon/management_consistency.c:65-146): requests other than GET, among them
      every login, TOTP completion, recovery and password change, and the jobs. Only reads
      go on. So callers hold nothing across it but what the archive knows of. */
  datatype Move = Act(action: Action) | PutBack(archive: World)

  datatype Timeline = Timeline(states: seq<World>, moves: seq<Move>)

  ghost predicate MoveAt(verify: Oracle, line: Timeline, i: nat)
    requires i < |line.moves| && |line.states| == |line.moves| + 1
  {
    match line.moves[i]
    case Act(a) => Enabled(line.states[i], a) && line.states[i + 1] == Next(verify, line.states[i], a)
    case PutBack(archive) => Reachable(verify, archive) && line.states[i + 1] == archive
  }

  ghost predicate IsTimeline(verify: Oracle, line: Timeline) {
    && |line.states| == |line.moves| + 1
    && line.states[0] == INITIAL
    && forall i :: 0 <= i < |line.moves| ==> MoveAt(verify, line, i)
  }

  // ---- What survives ----

  lemma StepReaches(verify: Oracle, w: World, a: Action)
    requires Reachable(verify, w) && Enabled(w, a)
    ensures Reachable(verify, Next(verify, w, a))
  {
    var run :| IsRun(verify, run) && run.states[|run.actions|] == w;
    ExtendIsRun(verify, run, a);
    var longer := Extend(verify, run, a);
    assert longer.states[|longer.actions|] == Next(verify, w, a);
  }

  /** Every world of a timeline, whatever was put back before it, ends a run without
      any restore. So everything proved of one world of a run holds of it. */
  lemma {:induction false} WorldsAreReachable(verify: Oracle, line: Timeline, k: nat)
    requires IsTimeline(verify, line) && k < |line.states|
    ensures Reachable(verify, line.states[k])
    decreases k
  {
    if k == 0 {
      StartIsRun(verify);
      assert START.states[|START.actions|] == INITIAL;
    } else {
      WorldsAreReachable(verify, line, k - 1);
      assert MoveAt(verify, line, k - 1);
      if line.moves[k - 1].Act? { StepReaches(verify, line.states[k - 1], line.moves[k - 1].action); }
    }
  }

  /** In particular the invariant. */
  lemma TimelineKeeps(verify: Oracle, line: Timeline, k: nat)
    requires IsTimeline(verify, line) && k < |line.states|
    ensures Inv(verify, line.states[k])
  {
    WorldsAreReachable(verify, line, k);
    var run :| IsRun(verify, run) && run.states[|run.actions|] == line.states[k];
    RunKeeps(verify, run, |run.actions|);
  }

  /** A stretch of a timeline without a restore is the end of a run. So everything
      proved of two or more worlds of a run holds of the worlds of such a stretch. */
  lemma {:induction false} StretchIsRun(verify: Oracle, line: Timeline, i: nat, k: nat) returns (run: Run, n: nat)
    requires IsTimeline(verify, line) && i <= k < |line.states|
    requires forall j :: i <= j < k ==> line.moves[j].Act?
    ensures IsRun(verify, run) && |run.states| == n + (k - i) + 1
    ensures run.states[n..] == line.states[i..k + 1]
    decreases k
  {
    if i == k {
      WorldsAreReachable(verify, line, i);
      run :| IsRun(verify, run) && run.states[|run.actions|] == line.states[i];
      n := |run.actions|;
    } else {
      var shorter;
      shorter, n := StretchIsRun(verify, line, i, k - 1);
      assert MoveAt(verify, line, k - 1);
      assert shorter.states[|shorter.states| - 1] == shorter.states[n..][k - 1 - i] == line.states[k - 1];
      ExtendIsRun(verify, shorter, line.moves[k - 1].action);
      run := Extend(verify, shorter, line.moves[k - 1].action);
      assert run.states[n..] == shorter.states[n..] + [line.states[k]];
    }
  }

  /** So between restores users only advance and nothing that ended comes back. */
  lemma StretchContinues(verify: Oracle, line: Timeline, i: nat, k: nat)
    requires IsTimeline(verify, line) && i <= k < |line.states|
    requires forall j :: i <= j < k ==> line.moves[j].Act?
    ensures Advances(line.states[i], line.states[k]) && Continues(line.states[i], line.states[k])
  {
    var run, n := StretchIsRun(verify, line, i, k);
    assert run.states[n] == run.states[n..][0] == line.states[i];
    assert run.states[n + (k - i)] == run.states[n..][k - i] == line.states[k];
    RunAdvances(verify, run, n, n + (k - i));
    RunContinues(verify, run, n, n + (k - i));
  }

  // ---- What does not ----

  function Acts(actions: seq<Action>): seq<Move> {
    seq(|actions|, i requires 0 <= i < |actions| => Act(actions[i]))
  }

  /** A run, one more step, and the world before that step put back. */
  ghost function Undone(verify: Oracle, run: Run, a: Action): Timeline
    requires IsRun(verify, run) && Enabled(run.states[|run.actions|], a)
  {
    var w := run.states[|run.actions|];
    Timeline(run.states + [Next(verify, w, a), w], Acts(run.actions) + [Act(a), PutBack(w)])
  }

  lemma UndoneIsTimeline(verify: Oracle, run: Run, a: Action)
    requires IsRun(verify, run) && Enabled(run.states[|run.actions|], a)
    ensures IsTimeline(verify, Undone(verify, run, a))
  {
    var line, n := Undone(verify, run, a), |run.actions|;
    forall i | 0 <= i < |line.moves| ensures MoveAt(verify, line, i) {
      if i < n {
        assert StepAt(verify, run, i) && line.moves[i] == Act(run.actions[i]);
      } else if i == n {
        assert line.moves[i] == Act(a);
      } else {
        assert line.moves[i] == PutBack(run.states[n]) && Reachable(verify, run.states[n]);
      }
    }
  }

  /** Whatever one step did, a restore of an archive from before it undoes. */
  lemma RestoreUndoes(verify: Oracle, run: Run, a: Action) returns (line: Timeline, k: nat)
    requires IsRun(verify, run) && Enabled(End(run), a)
    ensures IsTimeline(verify, line) && k + 1 < |line.states|
    ensures line.states[k] == Next(verify, End(run), a) && line.states[k + 1] == End(run)
  {
    line, k := Undone(verify, run, a), |run.actions| + 1;
    UndoneIsTimeline(verify, run, a);
  }

  /** Any token that authorises at the end of a run can be revoked, be dead, and
      authorise again once an archive from before is put back. */
  lemma RestoreRevivesToken(verify: Oracle, run: Run, t: nat, now: nat, remote: seq<byte>, later: nat)
    returns (line: Timeline, k: nat)
    requires IsRun(verify, run) && Positive64(later) && Tokens.TokenReauthorize(End(run).db, t, now, remote).Ok?
    requires End(run).db.tokens[t].createdAt <= later
    ensures IsTimeline(verify, line) && k + 1 < |line.states|
    ensures Dead(line.states[k].db, t)
    ensures Tokens.TokenReauthorize(line.states[k + 1].db, t, now, remote).Ok?
  {
    var a := RevokeToken(t, later);
    line, k := RestoreUndoes(verify, run, a);
    var longer := OneStep(verify, run, a);
    RevokedNow(End(run).db, t, later);
    RevokedTokenStaysRevoked(verify, longer, |run.states|, |run.states|, t);
  }

  /** So can any session that validates: it is ended, and validates again. */
  lemma RestoreRevivesSession(verify: Oracle, run: Run, session: Secret, csrf: Option<Secret>, now: nat, timeout: nat,
                              remote: Option<seq<byte>>) returns (line: Timeline, k: nat)
    requires IsRun(verify, run) && SessionValidate(End(run).db, session, csrf, now, timeout, remote).Ok?
    ensures IsTimeline(verify, line) && k + 1 < |line.states|
    ensures Digest(session) !in line.states[k].db.sessions
    ensures SessionValidate(line.states[k + 1].db, session, csrf, now, timeout, remote).Ok?
  {
    line, k := RestoreUndoes(verify, run, RevokeSession(session));
    RevokeWrites(End(run).db, session);
  }

  /** So can any recovery code that logs a user in: no later recovery of the user takes
      it, and then one does. */
  lemma RestoreRevivesCode(verify: Oracle, run: Run, grant: Grant, secret: Secret, now: nat)
    returns (line: Timeline, k: nat)
    requires IsRun(verify, run) && Enabled(End(run), Recover(grant, secret, now))
    requires RecoveryAuthenticate(End(run).db, grant.identity, secret, now).result.Ok?
    ensures IsTimeline(verify, line) && k + 1 < |line.states|
    ensures forall identity: Identity, later: nat :: identity.userId == grant.identity.userId ==>
              RecoveryAuthenticate(line.states[k].db, identity, secret, later).result.Err?
    ensures RecoveryAuthenticate(line.states[k + 1].db, grant.identity, secret, now).result.Ok?
  {
    var a := Recover(grant, secret, now);
    line, k := RestoreUndoes(verify, run, a);
    var longer := OneStep(verify, run, a);
    var n := |run.actions|;
    forall identity: Identity, later: nat | identity.userId == grant.identity.userId
      ensures RecoveryAuthenticate(line.states[k].db, identity, secret, later).result.Err?
    {
      CodeWorksOnce(verify, longer, n, n + 1, identity, later);
    }
  }

  /** So can any certificate mapping. */
  lemma RestoreRevivesCertificate(verify: Oracle, run: Run, m: nat, userId: UserId, now: nat, later: nat)
    returns (line: Timeline, k: nat)
    requires IsRun(verify, run) && m in End(run).db.mappings && Positive64(m) && Positive64(later)
    requires End(run).db.mappings[m].createdAt <= later
    requires MappingAuthorize(End(run).db, End(run).db.mappings[m].fingerprint, userId, now).Ok?
    ensures IsTimeline(verify, line) && k + 1 < |line.states|
    ensures var fingerprint := End(run).db.mappings[m].fingerprint;
            && (forall u: UserId, t: nat :: MappingAuthorize(line.states[k].db, fingerprint, u, t).Err?)
            && MappingAuthorize(line.states[k + 1].db, fingerprint, userId, now).Ok?
  {
    var a, n, fingerprint := RevokeMapping(m, later), |run.actions|, End(run).db.mappings[m].fingerprint;
    line, k := RestoreUndoes(verify, run, a);
    var longer := OneStep(verify, run, a);
    forall u: UserId, t: nat ensures MappingAuthorize(line.states[k].db, fingerprint, u, t).Err? {
      RevocationEndsCertificate(verify, longer, n, n + 1, u, t);
    }
  }

  /** One more step, at whose ends the worlds and the action are these. */
  lemma OneStep(verify: Oracle, run: Run, a: Action) returns (longer: Run)
    requires IsRun(verify, run) && Enabled(End(run), a)
    ensures IsRun(verify, longer) && |longer.states| == |run.states| + 1
    ensures longer.states[|run.actions|] == End(run) && longer.actions[|run.actions|] == a
    ensures longer.states[|run.states|] == Next(verify, End(run), a)
  {
    ExtendIsRun(verify, run, a);
    longer := Extend(verify, run, a);
  }

  lemma RevokedNow(db: Db, t: nat, later: nat)
    requires Positive64(t) && Positive64(later) && t in db.tokens && db.tokens[t].createdAt <= later
    ensures var db' := Tokens.TokenRevoke(db, t, later).db; t in db'.tokens && db'.tokens[t].revokedAt.Some?
  {
  }

  /** And there are such tokens: one user and one token of that user. */
  lemma TokensAuthorise(verify: Oracle, password: Password, policy: Policy, config: Tokens.Config, secret: Secret,
                        remote: seq<byte>) returns (run: Run)
    requires Fits(password, policy) && Tokens.ConfigValid(config, 1)
    requires config.source.None? && config.expiresAt == 0 && AddressSize(|remote|)
    ensures IsRun(verify, run) && Tokens.TokenReauthorize(run.states[|run.actions|].db, 1, 1, remote).Ok?
  {
    var w, issue := OneUser(password, policy), IssueToken(1, config, 1, 1, secret);
    var one := OneUserRun(verify, password, policy);
    OneUserPermissions(password, policy);
    ExtendIsRun(verify, one, issue);
    run := Extend(verify, one, issue);
    RunKeeps(verify, run, 2);
    FirstToken(w, config, secret);
    TokenAuthorises(verify, run.states[2], config, remote);
  }

  lemma TokenAuthorises(verify: Oracle, w: World, config: Tokens.Config, remote: seq<byte>)
    requires Inv(verify, w) && FirstTokenIn(w, config) && 1 in w.db.users
    requires w.db.users[1].enabled && !w.db.users[1].forceChange
    requires LoadPermissions(w.db.roles, 1) == Ok(Access.PERMISSION_ALL) && Tokens.ConfigValid(config, 1)
    requires config.source.None? && AddressSize(|remote|)
    ensures Tokens.TokenReauthorize(w.db, 1, 1, remote).Ok?
  {
    assert Access.PERMISSION_ALL * config.permissions == config.permissions;
    AuthorizesExactly(verify, w, 1, 1, remote);
  }

  /** The only token, unlimited in time. */
  predicate FirstTokenIn(w: World, config: Tokens.Config) {
    && 1 in w.db.tokens && w.db.tokens[1].userId == 1
    && w.db.tokens[1].revokedAt.None? && w.db.tokens[1].expiresAt.None?
    && 1 in w.hist.requests && w.hist.requests[1].scopes == config.permissions
    && w.hist.requests[1].source == config.source
  }

  lemma FirstToken(w: World, config: Tokens.Config, secret: Secret)
    requires 1 in w.db.users && w.db.users[1].enabled && w.db.tokens == map[] && Tokens.ConfigValid(config, 1)
    requires LoadPermissions(w.db.roles, 1) == Ok(Access.PERMISSION_ALL) && config.expiresAt == 0
    ensures var w' := StepIssueToken(w, 1, config, 1, 1, secret);
            FirstTokenIn(w', config) && w'.db.users == w.db.users && w'.db.roles == w.db.roles
  {
    assert Access.Grants(Access.PERMISSION_ALL, config.permissions);
  }
}
