/** Bootstrap, user administration and password login keep the invariant and
    only ever advance users. */
module KeepUsers {
  import opened Base
  import opened Schema
  import opened Users
  import opened Totp
  import opened World
  import opened Invariant
  import opened Keep

  // ---- Bootstrap and creation ----

  lemma BootstrapKeeps(verify: Oracle, w: World, now: nat, lifetime: nat, secret: Secret)
    requires Inv(verify, w)
    ensures var w' := StepIssueBootstrap(w, now, lifetime, secret); Inv(verify, w') && Advances(w, w')
  {
    Elsewhere(verify, w, StepIssueBootstrap(w, now, lifetime, secret));
  }

  lemma FirstShape(w: World, token: Secret, username: string, password: Password, policy: Policy, salt: nat, now: nat,
                   id: UserId)
    requires Positive64(id) && BootstrapOk(w.db.bootstrap, w.hist.bootstrap)
    ensures var tx := CreateInitialAdministrator(w.db, token, username, password, policy, salt, now, id);
            if tx.result.Err? then tx.db == w.db
            else AddsUser(w.db, tx.db, id) && tx.db.users[id].hash.password == password
                 && BootstrapOk(tx.db.bootstrap, w.hist.bootstrap)
  {
  }

  lemma CreateFirstKeeps(verify: Oracle, w: World, token: Secret, username: string, password: Password,
                         policy: Policy, salt: nat, now: nat, id: UserId)
    requires Inv(verify, w) && Positive64(id)
    ensures var w' := StepCreateFirst(w, token, username, password, policy, salt, now, id);
            Inv(verify, w') && Advances(w, w')
  {
    FirstShape(w, token, username, password, policy, salt, now, id);
    var tx := CreateInitialAdministrator(w.db, token, username, password, policy, salt, now, id);
    if tx.result.Ok? { Added(verify, w, tx.db, id); } else { SameViews(w, w); }
  }

  lemma CreateShape(db: Db, username: string, password: Password, policy: Policy, role: int, forceChange: bool,
                    salt: nat, now: nat, id: UserId)
    requires Positive64(id) && id !in db.users
    ensures var tx := UserCreate(db, username, password, policy, role, forceChange, salt, now, id);
            if tx.result.Err? then tx.db == db
            else AddsUser(db, tx.db, id) && tx.db.users[id].hash.password == password
                 && tx.db.bootstrap == db.bootstrap
  {
  }

  lemma CreateKeeps(verify: Oracle, w: World, username: string, password: Password, policy: Policy, role: int,
                    forceChange: bool, salt: nat, now: nat, id: UserId)
    requires Inv(verify, w) && Positive64(id) && id !in w.db.users
    ensures var w' := StepCreateUser(w, username, password, policy, role, forceChange, salt, now, id);
            Inv(verify, w') && Advances(w, w')
  {
    CreateShape(w.db, username, password, policy, role, forceChange, salt, now, id);
    var tx := UserCreate(w.db, username, password, policy, role, forceChange, salt, now, id);
    if tx.result.Ok? { Added(verify, w, tx.db, id); } else { SameViews(w, w); }
  }

  // ---- Role, enablement and password changes ----

  /** What an update changes besides the epoch. */
  ghost predicate UpdateKind(db: Db, db': Db, id: UserId, now: nat) {
    && MovesEpoch(db, db', id) && db'.totp == db.totp && db'.codes == db.codes
    && db'.users[id].hash == db.users[id].hash
    && db'.users[id].failedLogins == db.users[id].failedLogins
    && db'.users[id].lockedUntil == db.users[id].lockedUntil
    && (db'.tokens == db.tokens
        || (CanRevokeTokens(db.tokens, id, now) && db'.tokens == TokensRevoked(db.tokens, id, now)))
  }

  lemma UpdateShape(db: Db, id: UserId, expected: nat, update: Update, now: nat)
    requires TablesOk(db)
    ensures var tx := UserUpdate(db, id, expected, update, now);
            if tx.result.Err? then tx.db == db else UpdateKind(db, tx.db, id, now)
  {
  }

  lemma UpdateHistory(db: Db, hist: History, db': Db, id: UserId, now: nat)
    requires HistoryOk(db, hist) && UpdateKind(db, db', id, now)
    ensures HistoryOk(db', hist)
  {
    var user := db'.users[id];
    TokensAfter(db.users, db.tokens, db'.tokens, hist, id, user, now);
    ProvenanceDropped(db.sessions, hist, id);
    FailuresFollow(db.users, hist.failures, id, user, hist.failures[id]);
    assert hist.failures[id := hist.failures[id]] == hist.failures;
  }

  lemma Updated(verify: Oracle, w: World, db': Db, id: UserId, now: nat)
    requires Inv(verify, w)
    requires db' == w.db || UpdateKind(w.db, db', id, now)
    ensures Inv(verify, w.(db := db')) && Advances(w, w.(db := db'))
  {
    if db' != w.db {
      UpdateHistory(w.db, w.hist, db', id, now);
      Moved(verify, w, w.(db := db'), id);
    } else {
      SameViews(w, w);
    }
  }

  lemma UpdateKeeps(verify: Oracle, w: World, id: UserId, expected: nat, update: Update, now: nat)
    requires Inv(verify, w)
    ensures var w' := w.(db := UserUpdate(w.db, id, expected, update, now).db);
            Inv(verify, w') && Advances(w, w')
  {
    UpdateShape(w.db, id, expected, update, now);
    Updated(verify, w, UserUpdate(w.db, id, expected, update, now).db, id, now);
  }

  ghost predicate ResetKind(db: Db, db': Db, id: UserId, now: nat) {
    && MovesEpoch(db, db', id) && db'.totp == db.totp && db'.codes == db.codes
    && db'.users[id].failedLogins == 0 && db'.users[id].lockedUntil == None
    && CanRevokeTokens(db.tokens, id, now) && db'.tokens == TokensRevoked(db.tokens, id, now)
  }

  lemma ResetShape(db: Db, id: UserId, expected: nat, password: Password, policy: Policy, forceChange: bool, salt: nat,
                   now: nat)
    requires TablesOk(db)
    ensures var tx := ResetPassword(db, id, expected, password, policy, forceChange, salt, now);
            if tx.result.Err? then tx.db == db
            else ResetKind(db, tx.db, id, now) && tx.db.users[id].hash.password == password
  {
  }

  lemma ResetHistory(db: Db, hist: History, db': Db, id: UserId, now: nat)
    requires HistoryOk(db, hist) && ResetKind(db, db', id, now)
    ensures HistoryOk(db', Joined(hist, id, db'.users[id].hash.password))
  {
    var user := db'.users[id];
    TokensAfter(db.users, db.tokens, db'.tokens, hist, id, user, now);
    ProvenanceDropped(db.sessions, hist, id);
    FailuresFollow(db.users, hist.failures, id, user, []);
    PasswordsFollow(db.users, hist.passwords, id, user);
  }

  lemma WasReset(verify: Oracle, w: World, db': Db, id: UserId, now: nat)
    requires Inv(verify, w) && ResetKind(w.db, db', id, now)
    ensures var w' := World(db', Joined(w.hist, id, db'.users[id].hash.password));
            Inv(verify, w') && Advances(w, w')
  {
    ResetHistory(w.db, w.hist, db', id, now);
    Moved(verify, w, World(db', Joined(w.hist, id, db'.users[id].hash.password)), id);
  }

  lemma ResetKeeps(verify: Oracle, w: World, id: UserId, expected: nat, password: Password, policy: Policy,
                   forceChange: bool, salt: nat, now: nat)
    requires Inv(verify, w)
    ensures var w' := StepReset(w, id, expected, password, policy, forceChange, salt, now);
            Inv(verify, w') && Advances(w, w')
  {
    ResetShape(w.db, id, expected, password, policy, forceChange, salt, now);
    var tx := ResetPassword(w.db, id, expected, password, policy, forceChange, salt, now);
    if tx.result.Ok? { WasReset(verify, w, tx.db, id, now); } else { SameViews(w, w); }
  }
}
