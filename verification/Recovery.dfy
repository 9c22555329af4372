/** Recovery codes over a run: ten while TOTP is enabled and none otherwise, each
    good for one login, so never more than ten logins per enrolment
    (src/common/account_totp.c:209-215, 253-305, 606-647, 761-763). */
module Recovery {
  import opened Base
  import opened Schema
  import opened Totp
  import opened World
  import opened Invariant
  import opened KeepFactors
  import opened Reach
  import opened Growth
  import opened Log

  /** Used and unused together, a user has exactly ten codes while TOTP is enabled
      and none otherwise. */
  lemma TenCodesWhileEnabled(verify: Oracle, run: Run, k: nat, id: UserId)
    requires IsRun(verify, run) && k < |run.states|
    ensures var db := run.states[k].db;
            |CodesOf(db.codes, id)| == if TotpEnabled(db.totp, id) then RECOVERY_CODE_COUNT else 0
  {
    RunKeeps(verify, run, k);
    assert CodesOk(run.states[k].db.totp, run.states[k].db.codes);
  }

  // ---- A code works once ----

  /** A successful recovery login in a world. */
  predicate Recovers(w: World, a: Action, id: UserId) {
    a.Recover? && a.grant.identity.userId == id
    && RecoveryAuthenticate(w.db, a.grant.identity, a.secret, a.now).result.Ok?
  }

  lemma RecoveredLogs(w: World, grant: Grant, secret: Secret, now: nat)
    requires RecoveryAuthenticate(w.db, grant.identity, secret, now).result.Ok?
    ensures var hist, id := StepRecover(w, grant, secret, now).hist, grant.identity.userId;
            && (id, Digest(secret)) in hist.redeemed
            && UsesOf(hist.uses, id) == UsesOf(w.hist.uses, id) + [Digest(secret)]
            && hist.enrolments == w.hist.enrolments
            && TotpEnabled(StepRecover(w, grant, secret, now).db.totp, id)
  {
    RecoverShape(w.db, grant.identity, secret, now);
  }

  lemma RedeemedIsRefused(verify: Oracle, w: World, identity: Identity, secret: Secret, now: nat)
    requires Inv(verify, w) && (identity.userId, Digest(secret)) in w.hist.redeemed
    ensures RecoveryAuthenticate(w.db, identity, secret, now).result.Err?
  {
    RecoverShape(w.db, identity, secret, now);
  }

  lemma StaysRedeemed(w: World, w': World, id: UserId, digest: Digest)
    requires Continues(w, w') && (id, digest) in w.hist.redeemed
    ensures (id, digest) in w'.hist.redeemed
  {
  }

  lemma RecoveryRedeems(verify: Oracle, run: Run, i: nat, id: UserId)
    requires i < |run.actions| && |run.states| == |run.actions| + 1 && StepAt(verify, run, i)
    requires Recovers(run.states[i], run.actions[i], id)
    ensures (id, Digest(run.actions[i].secret)) in run.states[i + 1].hist.redeemed
  {
    var a := run.actions[i];
    RecoveredLogs(run.states[i], a.grant, a.secret, a.now);
  }

  /** A code that once logged a user in never does again, not even after a new
      enrolment. */
  lemma CodeWorksOnce(verify: Oracle, run: Run, i: nat, k: nat, identity: Identity, now: nat)
    requires IsRun(verify, run) && i < k < |run.states|
    requires Recovers(run.states[i], run.actions[i], identity.userId)
    ensures RecoveryAuthenticate(run.states[k].db, identity, run.actions[i].secret, now).result.Err?
  {
    var secret := run.actions[i].secret;
    assert StepAt(verify, run, i);
    RecoveryRedeems(verify, run, i, identity.userId);
    RunContinues(verify, run, i + 1, k);
    StaysRedeemed(run.states[i + 1], run.states[k], identity.userId, Digest(secret));
    RunKeeps(verify, run, k);
    RedeemedIsRefused(verify, run.states[k], identity, secret, now);
  }

  // ---- Ten logins per enrolment ----

  /** Successful recovery logins of a user in steps `i` to `j`. */
  function Recoveries(run: Run, i: nat, j: nat, id: UserId): nat
    requires i <= j <= |run.actions| && |run.states| == |run.actions| + 1
    decreases j
  {
    if i == j then 0
    else Recoveries(run, i, j - 1, id) + if Recovers(run.states[j - 1], run.actions[j - 1], id) then 1 else 0
  }

  lemma {:induction false} DistinctFit<T>(s: seq<T>, all: set<T>)
    requires AllDistinct(s) && forall x :: x in s ==> x in all
    ensures |s| <= |all|
  {
    if s != [] {
      var last := s[|s| - 1];
      forall x | x in s[..|s| - 1] ensures x in all - {last} {}
      DistinctFit(s[..|s| - 1], all - {last});
    }
  }

  lemma UsesBounded(verify: Oracle, w: World, id: UserId)
    requires Inv(verify, w) && TotpEnabled(w.db.totp, id)
    ensures |UsesOf(w.hist.uses, id)| <= RECOVERY_CODE_COUNT
  {
    var rows := CodesOf(w.db.codes, id);
    assert forall d :: d in UsesOf(w.hist.uses, id) ==> SpentIn(rows, d);
    DistinctFit(UsesOf(w.hist.uses, id), rows.Keys);
  }

  lemma RecoveryCounted(verify: Oracle, run: Run, j: nat, id: UserId)
    requires IsRun(verify, run) && j < |run.actions| && Recovers(run.states[j], run.actions[j], id)
    ensures |UsesOf(run.states[j + 1].hist.uses, id)| == |UsesOf(run.states[j].hist.uses, id)| + 1
    ensures |UsesOf(run.states[j + 1].hist.uses, id)| <= RECOVERY_CODE_COUNT
  {
    var a := run.actions[j];
    assert StepAt(verify, run, j);
    RecoveredLogs(run.states[j], a.grant, a.secret, a.now);
    RunKeeps(verify, run, j + 1);
    UsesBounded(verify, run.states[j + 1], id);
  }

  /** While the enrolment stays the same, the log counts every recovery login. */
  lemma {:induction false} RecoveriesLogged(verify: Oracle, run: Run, i: nat, j: nat, id: UserId)
    requires IsRun(verify, run) && i <= j <= |run.actions| && |run.states| == |run.actions| + 1
    requires Enrolment(run.states[i].hist.enrolments, id) == Enrolment(run.states[j].hist.enrolments, id)
    ensures Recoveries(run, i, j, id) <= |UsesOf(run.states[j].hist.uses, id)|
    ensures Recoveries(run, i, j, id) <= RECOVERY_CODE_COUNT
    decreases j
  {
    if i < j {
      SameEnrolment(verify, run, i, j - 1, j, id);
      RecoveriesLogged(verify, run, i, j - 1, id);
      if Recovers(run.states[j - 1], run.actions[j - 1], id) { RecoveryCounted(verify, run, j - 1, id); }
    }
  }

  lemma SameEnrolment(verify: Oracle, run: Run, i: nat, j: nat, k: nat, id: UserId)
    requires IsRun(verify, run) && i <= j <= k < |run.states|
    requires Enrolment(run.states[i].hist.enrolments, id) == Enrolment(run.states[k].hist.enrolments, id)
    ensures Enrolment(run.states[j].hist.enrolments, id) == Enrolment(run.states[i].hist.enrolments, id)
    ensures |UsesOf(run.states[j].hist.uses, id)| <= |UsesOf(run.states[k].hist.uses, id)|
  {
    RunContinues(verify, run, i, j);
    RunContinues(verify, run, j, k);
    NoNewEnrolment(run.states[i].hist, run.states[j].hist, run.states[k].hist, id);
  }

  lemma NoNewEnrolment(hist: History, hist': History, hist'': History, id: UserId)
    requires UsesContinue(hist, hist') && UsesContinue(hist', hist'')
    requires Enrolment(hist.enrolments, id) == Enrolment(hist''.enrolments, id)
    ensures Enrolment(hist'.enrolments, id) == Enrolment(hist.enrolments, id)
    ensures |UsesOf(hist'.uses, id)| <= |UsesOf(hist''.uses, id)|
  {
  }

  /** A successful TOTP confirmation of a user. */
  ghost predicate Confirms(verify: Oracle, w: World, a: Action, id: UserId)
    requires Enabled(w, a)
  {
    a.Confirm? && a.id == id && TotpConfirm(verify, w.db, id, a.key, a.code, a.now, a.drawn).result.Ok?
  }

  lemma EnrolmentKept(verify: Oracle, run: Run, k: nat, id: UserId)
    requires k < |run.actions| && |run.states| == |run.actions| + 1 && StepAt(verify, run, k)
    requires !Confirms(verify, run.states[k], run.actions[k], id)
    ensures Enrolment(run.states[k + 1].hist.enrolments, id) == Enrolment(run.states[k].hist.enrolments, id)
  {
    StepLogs(verify, run, k);
  }

  lemma {:induction false} ChainEnrolment(worlds: seq<World>, i: nat, j: nat, id: UserId)
    requires i <= j < |worlds|
    requires forall k :: i <= k < j ==>
               Enrolment(worlds[k + 1].hist.enrolments, id) == Enrolment(worlds[k].hist.enrolments, id)
    ensures Enrolment(worlds[j].hist.enrolments, id) == Enrolment(worlds[i].hist.enrolments, id)
    decreases j
  {
    if i < j { ChainEnrolment(worlds, i, j - 1, id); }
  }

  lemma EnrolmentStays(verify: Oracle, run: Run, i: nat, j: nat, id: UserId)
    requires IsRun(verify, run) && i <= j < |run.states|
    requires forall k: nat :: i <= k < j ==>
               Enabled(run.states[k], run.actions[k]) && !Confirms(verify, run.states[k], run.actions[k], id)
    ensures Enrolment(run.states[j].hist.enrolments, id) == Enrolment(run.states[i].hist.enrolments, id)
  {
    forall k: nat | i <= k < j
      ensures Enrolment(run.states[k + 1].hist.enrolments, id) == Enrolment(run.states[k].hist.enrolments, id)
    {
      assert StepAt(verify, run, k);
      EnrolmentKept(verify, run, k, id);
    }
    ChainEnrolment(run.states, i, j, id);
  }

  /** A stretch of a run in which the user confirms no new enrolment has at most
      ten successful recovery logins of that user. */
  lemma TenRecoveriesPerEnrolment(verify: Oracle, run: Run, i: nat, j: nat, id: UserId)
    requires IsRun(verify, run) && i <= j <= |run.actions| && |run.states| == |run.actions| + 1
    requires forall k: nat :: i <= k < j ==>
               Enabled(run.states[k], run.actions[k]) && !Confirms(verify, run.states[k], run.actions[k], id)
    ensures Recoveries(run, i, j, id) <= RECOVERY_CODE_COUNT
  {
    EnrolmentStays(verify, run, i, j, id);
    RecoveriesLogged(verify, run, i, j, id);
  }
}
