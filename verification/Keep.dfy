/** How the invariant survives the shapes of change that the steps are made of:
    replacing one user row, moving a user to its next epoch, adding a user. */
module Keep {
  import opened Base
  import opened Schema
  import opened Users
  import opened Totp
  import opened World
  import opened Invariant

  // ---- One table at a time ----

  lemma RowReplaced(users: map<UserId, User>, roles: map<UserId, seq<int>>, id: UserId, user: User, rows: seq<int>)
    requires UsersOk(users, roles) && NamesUnique(users) && id in users
    requires UserOk(id, user) && user.username == users[id].username && RolesOk(rows)
    ensures UsersOk(users[id := user], roles[id := rows]) && NamesUnique(users[id := user])
  {
  }

  lemma MappingsFollow(users: map<UserId, User>, mappings: map<nat, Mapping>, id: UserId, user: User)
    requires MappingsOk(users, mappings) && (id in users ==> user.username == users[id].username)
    ensures MappingsOk(users[id := user], mappings)
  {
  }

  lemma TokensFollow(users: map<UserId, User>, tokens: map<nat, Token>, requests: map<nat, Request>, id: UserId,
                     user: User)
    requires TokensOk(users, tokens, requests)
    ensures TokensOk(users[id := user], tokens, requests)
  {
  }

  lemma SessionsFollow(users: map<UserId, User>, sessions: map<Digest, Session>, id: UserId, user: User)
    requires SessionsOk(users, sessions)
    requires id in users ==> user.epoch == users[id].epoch && user.enabled == users[id].enabled
    ensures SessionsOk(users[id := user], sessions)
  {
  }

  lemma SessionsDropped(users: map<UserId, User>, sessions: map<Digest, Session>, id: UserId, user: User)
    requires SessionsOk(users, sessions)
    ensures SessionsOk(users[id := user], WithoutSessionsOf(sessions, id))
  {
  }

  lemma ProvenanceDropped(sessions: map<Digest, Session>, hist: History, id: UserId)
    requires ProvenanceOk(sessions, hist)
    ensures ProvenanceOk(WithoutSessionsOf(sessions, id), hist)
  {
  }

  lemma FailuresFollow(users: map<UserId, User>, failures: map<UserId, seq<nat>>, id: UserId, user: User,
                       times: seq<nat>)
    requires FailuresOk(users, failures) && FailureTimesOk(user, times)
    ensures FailuresOk(users[id := user], failures[id := times])
  {
  }

  lemma PasswordsFollow(users: map<UserId, User>, passwords: map<UserId, Password>, id: UserId, user: User)
    requires PasswordsOk(users, passwords)
    ensures PasswordsOk(users[id := user], passwords[id := user.hash.password])
  {
  }

  lemma RevokedTokenOk(id: nat, token: Token, request: Request, now: nat)
    requires TokenOk(id, token, request) && (token.revokedAt.None? ==> token.createdAt <= now)
    ensures TokenOk(id, Revoked(token, now), request)
  {
  }

  lemma TokensRevokedOk(users: map<UserId, User>, tokens: map<nat, Token>, requests: map<nat, Request>, id: UserId,
                        now: nat)
    requires TokensOk(users, tokens, requests) && CanRevokeTokens(tokens, id, now)
    ensures TokensOk(users, TokensRevoked(tokens, id, now), requests)
  {
    forall t | t in tokens && tokens[t].userId == id ensures TokenOk(t, Revoked(tokens[t], now), requests[t]) {
      RevokedTokenOk(t, tokens[t], requests[t], now);
    }
  }

  lemma TokenDigestsFollow(tokens: map<nat, Token>, digests: set<Digest>, id: UserId, now: nat)
    requires TokenDigestsOk(tokens, digests)
    ensures TokenDigestsOk(TokensRevoked(tokens, id, now), digests)
  {
  }

  /** The tokens of a step that may also revoke all tokens of a user. */
  lemma TokensAfter(users: map<UserId, User>, tokens: map<nat, Token>, tokens': map<nat, Token>, hist: History,
                    id: UserId, user: User, now: nat)
    requires TokensOk(users, tokens, hist.requests) && TokenDigestsOk(tokens, hist.digests)
    requires tokens' == tokens || (CanRevokeTokens(tokens, id, now) && tokens' == TokensRevoked(tokens, id, now))
    ensures TokensOk(users[id := user], tokens', hist.requests) && TokenDigestsOk(tokens', hist.digests)
  {
    if tokens' != tokens {
      TokensRevokedOk(users, tokens, hist.requests, id, now);
      TokenDigestsFollow(tokens, hist.digests, id, now);
    }
    TokensFollow(users, tokens', hist.requests, id, user);
  }

  // ---- Steps that leave every user's authentication state alone ----

  ghost predicate SameUsers(w: World, w': World) {
    && w'.db.users == w.db.users && w'.db.roles == w.db.roles
    && w'.db.totp == w.db.totp && w'.db.codes == w.db.codes
    && w'.hist.enrolments == w.hist.enrolments
  }

  lemma SameViews(w: World, w': World)
    requires SameUsers(w, w')
    ensures Advances(w, w')
    ensures forall u :: u in w.db.users ==> ViewOf(w', u) == ViewOf(w, u)
  {
    forall u | u in w.db.users ensures ViewOf(w', u) == ViewOf(w, u) {}
  }

  /** Tables other than those about users may change freely as long as what is
      said about them still holds. */
  lemma Elsewhere(verify: Oracle, w: World, w': World)
    requires Inv(verify, w) && SameUsers(w, w')
    requires SessionsOk(w'.db.users, w'.db.sessions) && MappingsOk(w'.db.users, w'.db.mappings)
    requires HistoryOk(w'.db, w'.hist)
    requires SameCallers(w.hist, w'.hist)
    ensures Inv(verify, w') && Advances(w, w')
  {
    SameViews(w, w');
    HeldOver(verify, w, w');
  }

  // ---- Moving a user to its next epoch ----

  /** The shape shared by every step that ends a user's sessions: one user row
      moves to the next epoch and that user's sessions are deleted. */
  ghost predicate MovesEpoch(db: Db, db': Db, id: UserId) {
    && id in db.users && id in db'.users && id in db'.roles
    && db'.users == db.users[id := db'.users[id]]
    && db'.roles == db.roles[id := db'.roles[id]] && RolesOk(db'.roles[id])
    && UserOk(id, db'.users[id]) && db'.users[id].username == db.users[id].username
    && db.users[id].epoch < db'.users[id].epoch
    && db'.sessions == WithoutSessionsOf(db.sessions, id)
    && db'.mappings == db.mappings && db'.bootstrap == db.bootstrap
  }

  /** The second factors of every other user stay as they are. */
  ghost predicate OthersKeepFactors(w: World, w': World, id: UserId) {
    forall u :: u != id ==>
      && (u in w.db.totp <==> u in w'.db.totp) && (u in w.db.totp ==> w'.db.totp[u] == w.db.totp[u])
      && CodesOf(w'.db.codes, u) == CodesOf(w.db.codes, u)
      && Enrolment(w'.hist.enrolments, u) == Enrolment(w.hist.enrolments, u)
  }

  lemma MovedTables(db: Db, db': Db, id: UserId)
    requires TablesOk(db) && MovesEpoch(db, db', id)
    requires db'.totp.Keys <= db.totp.Keys && CodesOk(db'.totp, db'.codes)
    ensures TablesOk(db')
  {
    RowReplaced(db.users, db.roles, id, db'.users[id], db'.roles[id]);
    MappingsFollow(db.users, db.mappings, id, db'.users[id]);
    SessionsDropped(db.users, db.sessions, id, db'.users[id]);
  }

  lemma MovedViews(verify: Oracle, w: World, w': World, id: UserId)
    requires CallersOk(verify, w)
    requires MovesEpoch(w.db, w'.db, id) && OthersKeepFactors(w, w', id)
    requires SameCallers(w.hist, w'.hist)
    ensures Advances(w, w') && CallersOk(verify, w')
  {
    forall u | u in w.db.users && u != id ensures ViewOf(w', u) == ViewOf(w, u) {}
    HeldOver(verify, w, w');
  }

  lemma Moved(verify: Oracle, w: World, w': World, id: UserId)
    requires Inv(verify, w) && MovesEpoch(w.db, w'.db, id) && OthersKeepFactors(w, w', id)
    requires w'.db.totp.Keys <= w.db.totp.Keys && CodesOk(w'.db.totp, w'.db.codes)
    requires HistoryOk(w'.db, w'.hist)
    requires SameCallers(w.hist, w'.hist)
    ensures Inv(verify, w') && Advances(w, w')
  {
    MovedTables(w.db, w'.db, id);
    MovedViews(verify, w, w', id);
  }

  /** Password and failure counters are left alone. */
  predicate SameLogin(before: User, after: User) {
    && after.hash == before.hash
    && after.failedLogins == before.failedLogins && after.lockedUntil == before.lockedUntil
  }

  lemma LoginFollows(users: map<UserId, User>, hist: History, id: UserId, user: User)
    requires PasswordsOk(users, hist.passwords) && FailuresOk(users, hist.failures)
    requires id in users && SameLogin(users[id], user)
    ensures PasswordsOk(users[id := user], hist.passwords) && FailuresOk(users[id := user], hist.failures)
  {
  }

  lemma ProvenanceFollows(sessions: map<Digest, Session>, hist: History, hist': History)
    requires ProvenanceOk(sessions, hist) && hist'.provenance == hist.provenance
    requires hist.grants <= hist'.grants && hist.digests <= hist'.digests
    ensures ProvenanceOk(sessions, hist')
  {
  }

  lemma TokenDigestsGrow(tokens: map<nat, Token>, digests: set<Digest>, digests': set<Digest>)
    requires TokenDigestsOk(tokens, digests) && digests <= digests'
    ensures TokenDigestsOk(tokens, digests')
  {
  }

  /** History other than about second factors, when only the epoch moves. */
  lemma MovedHistory(db: Db, hist: History, db': Db, hist': History, id: UserId)
    requires HistoryOk(db, hist) && MovesEpoch(db, db', id) && db'.tokens == db.tokens
    requires SameLogin(db.users[id], db'.users[id])
    requires hist' == hist.(enrolments := hist'.enrolments, uses := hist'.uses, digests := hist'.digests)
    requires hist.digests <= hist'.digests
    requires UsesOk(db'.codes, hist'.uses, db'.totp) && RedeemedOk(db'.codes, hist'.redeemed, hist'.digests)
    ensures HistoryOk(db', hist')
  {
    TokensFollow(db.users, db.tokens, hist.requests, id, db'.users[id]);
    TokenDigestsGrow(db.tokens, hist.digests, hist'.digests);
    LoginFollows(db.users, hist, id, db'.users[id]);
    ProvenanceDropped(db.sessions, hist, id);
    ProvenanceFollows(db'.sessions, hist, hist');
  }

  // ---- Adding a user ----

  ghost predicate AddsUser(db: Db, db': Db, id: UserId) {
    && id !in db.users && id in db'.users && id in db'.roles
    && db'.users == db.users[id := db'.users[id]]
    && db'.roles == db.roles[id := db'.roles[id]] && RolesOk(db'.roles[id])
    && UserOk(id, db'.users[id]) && !UsernameTaken(db.users, db'.users[id].username)
    && db'.users[id].failedLogins == 0 && db'.users[id].lockedUntil == None
    && db'.sessions == db.sessions && db'.tokens == db.tokens && db'.mappings == db.mappings
    && db'.totp == db.totp && db'.codes == db.codes
  }

  lemma AddedTables(db: Db, db': Db, id: UserId)
    requires TablesOk(db) && AddsUser(db, db', id)
    ensures TablesOk(db')
  {
    var user := db'.users[id];
    assert NamesUnique(db'.users) by {
      forall u | u in db.users ensures db.users[u].username != user.username {}
    }
    MappingsFollow(db.users, db.mappings, id, user);
    SessionsFollow(db.users, db.sessions, id, user);
  }

  lemma AddedHistory(db: Db, hist: History, db': Db, id: UserId)
    requires HistoryOk(db, hist) && AddsUser(db, db', id)
    requires BootstrapOk(db'.bootstrap, hist.bootstrap)
    ensures HistoryOk(db', Joined(hist, id, db'.users[id].hash.password))
  {
    TokensFollow(db.users, db.tokens, hist.requests, id, db'.users[id]);
    FailuresFollow(db.users, hist.failures, id, db'.users[id], []);
    PasswordsFollow(db.users, hist.passwords, id, db'.users[id]);
  }

  lemma AddedViews(verify: Oracle, w: World, w': World, id: UserId)
    requires CallersOk(verify, w) && AddsUser(w.db, w'.db, id)
    requires w'.hist.enrolments == w.hist.enrolments
    requires SameCallers(w.hist, w'.hist)
    ensures Advances(w, w') && CallersOk(verify, w')
  {
    forall u | u in w.db.users ensures ViewOf(w', u) == ViewOf(w, u) {}
    HeldOver(verify, w, w');
  }

  lemma Added(verify: Oracle, w: World, db': Db, id: UserId)
    requires Inv(verify, w) && AddsUser(w.db, db', id) && BootstrapOk(db'.bootstrap, w.hist.bootstrap)
    ensures var w' := World(db', Joined(w.hist, id, db'.users[id].hash.password));
            Inv(verify, w') && Advances(w, w')
  {
    var w' := World(db', Joined(w.hist, id, db'.users[id].hash.password));
    AddedTables(w.db, db', id);
    AddedHistory(w.db, w.hist, db', id);
    AddedViews(verify, w, w', id);
  }

  // ---- Handing out an identity ----

  lemma GrantSettled(verify: Oracle, w: World, w': World, grant: Grant)
    requires CallersOk(verify, w) && SameUsers(w, w')
    requires grant.identity.userId in w.db.users && Settled(verify, ViewOf(w, grant.identity.userId), grant)
    requires w'.hist.grants == w.hist.grants + {grant} && w'.hist.readings == w.hist.readings
    requires w'.hist.changes == w.hist.changes
    ensures Advances(w, w') && CallersOk(verify, w')
  {
    SameViews(w, w');
    ChangesStay(verify, w, w');
  }

  lemma ChangesStay(verify: Oracle, w: World, w': World)
    requires ChangesOk(verify, w) && SameUsers(w, w')
    requires w.hist.grants <= w'.hist.grants && w'.hist.changes == w.hist.changes
    ensures ChangesOk(verify, w')
  {
    SameViews(w, w');
  }

  lemma GrantAdded(verify: Oracle, w: World, grant: Grant)
    requires Inv(verify, w)
    requires grant.identity.userId in w.db.users && Settled(verify, ViewOf(w, grant.identity.userId), grant)
    ensures var w' := w.(hist := w.hist.(grants := w.hist.grants + {grant}));
            Inv(verify, w') && Advances(w, w')
  {
    GrantSettled(verify, w, w.(hist := w.hist.(grants := w.hist.grants + {grant})), grant);
    ProvenanceGrows(w.db.sessions, w.hist, grant);
  }

  lemma ProvenanceGrows(sessions: map<Digest, Session>, hist: History, grant: Grant)
    requires ProvenanceOk(sessions, hist)
    ensures ProvenanceOk(sessions, hist.(grants := hist.grants + {grant}))
  {
  }
}
