/** Small runs that other modules start from: one administrator, created under some
    policy. */
module Witnesses {
  import opened Base
  import opened Schema
  import opened Users
  import opened Totp
  import opened World
  import opened Reach
  import Access

  const NAME: string := "a"

  function FirstUser(password: Password, policy: Policy): Action {
    CreateUser(NAME, password, policy, Access.ADMINISTRATOR, false, 0, 1, 1)
  }

  function OneUser(password: Password, policy: Policy): World {
    World(EMPTY.(users := map[1 := NewUser(NAME, PasswordHash(password, policy.Cost(), 0), false, 1)],
                 roles := map[1 := [Access.ADMINISTRATOR]]),
          Joined(INITIAL.hist, 1, password))
  }

  predicate Fits(password: Password, policy: Policy) {
    policy.Valid() && policy.minimumLength <= |password| <= policy.maximumLength
  }

  lemma NameIsValid()
    ensures UsernameValid(NAME)
  {
    assert NAME[0] == 'a';
  }

  lemma FirstStep(verify: Oracle, password: Password, policy: Policy)
    requires Fits(password, policy)
    ensures Enabled(INITIAL, FirstUser(password, policy))
    ensures Next(verify, INITIAL, FirstUser(password, policy)) == OneUser(password, policy)
  {
    NameIsValid();
    var db := OneUser(password, policy).db;
    assert db.users == EMPTY.users[1 := db.users[1]] && db.roles == EMPTY.roles[1 := db.roles[1]];
  }

  lemma OneUserRun(verify: Oracle, password: Password, policy: Policy) returns (run: Run)
    requires Fits(password, policy)
    ensures IsRun(verify, run) && run.actions == [FirstUser(password, policy)]
    ensures run.states == [INITIAL, OneUser(password, policy)]
  {
    StartIsRun(verify);
    FirstStep(verify, password, policy);
    ExtendIsRun(verify, START, FirstUser(password, policy));
    run := Extend(verify, START, FirstUser(password, policy));
  }

  lemma UnionOfOne(role: int)
    requires Access.RoleValid(role)
    ensures RoleUnion([role]) == Ok(Access.RolePermissions(role))
  {
    var rows := [role];
    assert rows[..|rows| - 1] == [];
    assert {} + Access.RolePermissions(role) == Access.RolePermissions(role);
  }

  lemma OneUserPermissions(password: Password, policy: Policy)
    ensures LoadPermissions(OneUser(password, policy).db.roles, 1) == Ok(Access.PERMISSION_ALL)
  {
    UnionOfOne(Access.ADMINISTRATOR);
    assert 0 in Access.PERMISSION_ALL;
  }

  // ---- Logins ----

  /** One more login begins at the end of a run. */
  lemma BeginExtends(verify: Oracle, run: Run, username: string, password: Password, policy: Policy, salt: nat,
                     now: nat) returns (longer: Run)
    requires IsRun(verify, run)
    requires LoginRead(run.states[|run.actions|].db, username, password, policy, salt, now).Begun?
    ensures IsRun(verify, longer)
    ensures longer.actions == run.actions + [BeginLogin(username, password, policy, salt, now)]
    ensures var w := run.states[|run.actions|];
            var attempt := LoginRead(w.db, username, password, policy, salt, now).attempt;
            longer.states == run.states + [w.(hist := w.hist.(attempts := w.hist.attempts + {attempt}))]
  {
    ExtendIsRun(verify, run, BeginLogin(username, password, policy, salt, now));
    longer := Extend(verify, run, BeginLogin(username, password, policy, salt, now));
  }

  /** An unfinished login commits at the end of a run. */
  lemma CommitExtends(verify: Oracle, run: Run, attempt: Attempt) returns (longer: Run)
    requires IsRun(verify, run) && attempt in run.states[|run.actions|].hist.attempts
    ensures IsRun(verify, longer) && longer.actions == run.actions + [CommitLogin(attempt)]
    ensures longer.states == run.states + [StepCommitLogin(run.states[|run.actions|], attempt)]
  {
    ExtendIsRun(verify, run, CommitLogin(attempt));
    longer := Extend(verify, run, CommitLogin(attempt));
  }
}
