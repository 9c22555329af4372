/** What every reachable world satisfies, table by table, and how far a user's
    authentication state can move while its session epoch stays the same. Each
    predicate takes only the tables it speaks about, so that a step which leaves
    them alone keeps it for free. */
module Invariant {
  import opened Base
  import opened Schema
  import opened Users
  import opened Totp
  import opened World
  import Access
  import Tokens

  // ---- Tables ----

  predicate UserOk(id: UserId, user: User) {
    && Positive64(id) && UsernameValid(user.username)
    && user.failedLogins <= FAILED_LOGIN_MAX
    && 0 < user.epoch <= INT64_MAX && user.revision == user.epoch
    && user.createdAt <= user.passwordChangedAt
    && (user.lastLoginAt.Some? ==> user.createdAt <= user.lastLoginAt.value)
  }

  predicate RolesOk(rows: seq<int>) {
    |rows| == 1 && Access.RoleValid(rows[0])
  }

  predicate UsersOk(users: map<UserId, User>, roles: map<UserId, seq<int>>) {
    forall u :: u in users ==> UserOk(u, users[u]) && u in roles && RolesOk(roles[u])
  }

  predicate NamesUnique(users: map<UserId, User>) {
    forall u, v :: u in users && v in users && users[u].username == users[v].username ==> u == v
  }

  predicate SessionOk(users: map<UserId, User>, session: Session) {
    && session.userId in users && session.epoch == users[session.userId].epoch && users[session.userId].enabled
    && 0 < session.createdAt <= session.lastSeenAt
    && session.createdAt < session.expiresAt <= INT64_MAX
    && RemoteValid(session.remote)
  }

  predicate SessionsOk(users: map<UserId, User>, sessions: map<Digest, Session>) {
    forall d :: d in sessions ==> SessionOk(users, sessions[d])
  }

  /** A token keeps the scopes asked for at issue, in canonical text, and its
      revision counts its revocation. */
  predicate TokenOk(id: nat, token: Token, request: Request) {
    && Positive64(id)
    && TokenNameValid(token.name)
    && TOKEN_RATE_MIN <= token.rate <= TOKEN_RATE_MAX
    && (request.source.Some? ==> NetworkOk(request.source.value))
    && token.source == Tokens.StoredNetwork(request.source)
    && request.scopes != {} && request.scopes <= request.owner <= Access.PERMISSION_ALL
    && token.scopes == Access.Print(request.scopes)
    && token.revision == (if token.revokedAt.Some? then 2 else 1)
    && (token.revokedAt.Some? ==> token.createdAt <= token.revokedAt.value)
  }

  predicate TokensOk(users: map<UserId, User>, tokens: map<nat, Token>, requests: map<nat, Request>) {
    forall t :: t in tokens ==> tokens[t].userId in users && t in requests && TokenOk(t, tokens[t], requests[t])
  }

  predicate TokenDigestsOk(tokens: map<nat, Token>, digests: set<Digest>) {
    (forall t :: t in tokens ==> tokens[t].digest in digests) && DigestsUnique(tokens)
  }

  /** Exactly ten recovery codes while TOTP is enabled, none otherwise. */
  ghost predicate CodesOk(totp: map<UserId, Credential>, codes: map<UserId, map<Digest, RecoveryCode>>) {
    forall u :: |CodesOf(codes, u)| == if TotpEnabled(totp, u) then RECOVERY_CODE_COUNT else 0
  }

  predicate MappingsOk(users: map<UserId, User>, mappings: map<nat, Mapping>) {
    forall m :: m in mappings ==> MappingRowOk(m, mappings[m], users)
  }

  lemma FoundByName(users: map<UserId, User>, id: UserId)
    requires NamesUnique(users) && id in users
    ensures FindUser(users, users[id].username) == Some(id)
  {
    assert UsernameTaken(users, users[id].username);
  }

  /** A user with one valid role has permissions to load. */
  lemma PermissionsLoad(roles: map<UserId, seq<int>>, id: UserId)
    requires id in roles && RolesOk(roles[id])
    ensures LoadPermissions(roles, id).Ok?
  {
    assert roles[id][..0] == [];
    assert RoleUnion(roles[id]).Ok?;
  }

  // ---- History ----

  predicate PasswordsOk(users: map<UserId, User>, passwords: map<UserId, Password>) {
    forall u :: u in users ==> u in passwords && users[u].hash.password == passwords[u]
  }

  /** The counted failures since the last success or reset: their number is the
      stored counter, each waited out the delay of the one before, and the last
      one set the lock. */
  predicate FailureTimesOk(user: User, times: seq<nat>) {
    && user.failedLogins == Min(|times|, FAILED_LOGIN_MAX)
    && (times != [] ==> user.lockedUntil == Some(times[|times| - 1] + LockDelay(user.failedLogins)))
    && (times == [] ==> user.lockedUntil == None)
    && forall i :: 0 <= i < |times| - 1 ==> times[i] + LockDelay(Min(i + 1, FAILED_LOGIN_MAX)) <= times[i + 1]
  }

  predicate FailuresOk(users: map<UserId, User>, failures: map<UserId, seq<nat>>) {
    forall u :: u in users ==> u in failures && FailureTimesOk(users[u], failures[u])
  }

  predicate AttemptOk(attempt: Attempt) {
    && (attempt.valid ==> attempt.record.hash.password == attempt.password)
    && (attempt.replacement.Some? ==> attempt.valid && attempt.replacement.value.password == attempt.password)
  }

  predicate AttemptsOk(attempts: set<Attempt>) {
    forall attempt :: attempt in attempts ==> AttemptOk(attempt)
  }

  /** Every stored session was issued, and its issuing identity was complete, for
      this user and under this epoch. */
  predicate ProvenanceOk(sessions: map<Digest, Session>, hist: History) {
    forall d :: d in sessions ==>
      && d in hist.digests && d in hist.provenance && hist.provenance[d] in hist.grants
      && hist.provenance[d].identity.userId == sessions[d].userId
      && hist.provenance[d].identity.epoch == sessions[d].epoch
      && (hist.provenance[d].identity.totpEnabled ==> hist.provenance[d].identity.mfaComplete)
      && !hist.provenance[d].factor.Resumed?
  }

  predicate SpentIn(rows: map<Digest, RecoveryCode>, digest: Digest) {
    digest in rows && rows[digest].usedAt.Some?
  }

  /** The uses logged under the current enrolment are distinct spent codes. */
  ghost predicate UsesOk(codes: map<UserId, map<Digest, RecoveryCode>>, uses: map<UserId, seq<Digest>>,
                   totp: map<UserId, Credential>) {
    forall u :: TotpEnabled(totp, u) ==>
      AllDistinct(UsesOf(uses, u)) && forall d :: d in UsesOf(uses, u) ==> SpentIn(CodesOf(codes, u), d)
  }

  /** No user redeemed a code twice, and none that was redeemed is unspent. */
  ghost predicate RedeemedOk(codes: map<UserId, map<Digest, RecoveryCode>>, redeemed: seq<(UserId, Digest)>,
                             digests: set<Digest>) {
    && AllDistinct(redeemed)
    && (forall u, d :: (u, d) in redeemed ==> d in digests)
    && (forall u, d :: d in CodesOf(codes, u) ==> d in digests)
    && (forall u, d :: (u, d) in redeemed && d in CodesOf(codes, u) ==> CodesOf(codes, u)[d].usedAt.Some?)
  }

  predicate BootstrapOk(bootstrap: Option<Bootstrap>, issued: Option<(Digest, nat)>) {
    bootstrap.Some? ==> issued == Some((bootstrap.value.digest, bootstrap.value.expiresAt))
  }

  // ---- Authentication state by epoch ----

  /** What decides how a user may authenticate. */
  datatype View = View(
    epoch: nat,
    revision: nat,
    enabled: bool,
    username: string,
    roles: seq<int>,
    password: Password,
    credential: Option<Credential>,
    spent: set<Digest>,
    enrolment: nat)

  function Spent(rows: map<Digest, RecoveryCode>): set<Digest> {
    set d | d in rows && rows[d].usedAt.Some?
  }

  function ViewOf(w: World, id: UserId): View
    requires id in w.db.users
  {
    var user := w.db.users[id];
    View(user.epoch, user.revision, user.enabled, user.username, RoleRows(w.db.roles, id), user.hash.password,
         if TotpEnabled(w.db.totp, id) then Some(w.db.totp[id]) else None,
         Spent(CodesOf(w.db.codes, id)), Enrolment(w.hist.enrolments, id))
  }

  /** Either the epoch moves on, or nothing but more spent codes changes. */
  predicate ViewAdvances(before: View, after: View) {
    || before.epoch < after.epoch
    || (after == before.(spent := after.spent) && before.spent <= after.spent)
  }

  predicate Advances(w: World, w': World) {
    forall u :: u in w.db.users ==> u in w'.db.users && ViewAdvances(ViewOf(w, u), ViewOf(w', u))
  }

  /** The second factor of a grant was checked against the credential in force. */
  ghost predicate FactorOk(verify: Oracle, view: View, grant: Grant) {
    && grant.enrolment == view.enrolment
    && match grant.factor
       case NoFactor => false
       case Resumed => false
       case CodeFactor(credential, code, at) =>
         view.credential == Some(credential) && verify(credential.sealed.secret, at, code)
       case RecoveryFactor(digest) => digest in view.spent
  }

  /** While its epoch is current, a grant describes the current user. */
  ghost predicate Settled(verify: Oracle, view: View, grant: Grant) {
    var identity := grant.identity;
    && identity.epoch <= view.epoch
    && (identity.epoch == view.epoch ==>
          && identity.revision == view.revision
          && identity.username == view.username
          && Ok(identity.permissions) == RoleUnion(view.roles)
          && grant.password == view.password
          && identity.totpEnabled == view.credential.Some?
          && (identity.totpEnabled && identity.mfaComplete ==> FactorOk(verify, view, grant)))
  }

  ghost predicate GrantsOk(verify: Oracle, w: World) {
    forall g :: g in w.hist.grants ==>
      g.identity.userId in w.db.users && Settled(verify, ViewOf(w, g.identity.userId), g)
  }

  /** While its epoch is current, an unfinished TOTP completion has read the
      current user. */
  predicate ReadSoFar(view: View, reading: Reading) {
    var current := reading.current;
    && 1 <= reading.stage <= 3
    && current.epoch <= view.epoch
    && (current.epoch == view.epoch ==>
          && current.revision == view.revision
          && current.username == view.username
          && (reading.stage >= 2 ==> Ok(current.permissions) == RoleUnion(view.roles))
          && (reading.stage >= 3 ==> current.totpEnabled == view.credential.Some?))
    && (reading.stage == 3 ==> PasswordIdentityCurrent(reading.grant.identity, current))
  }

  predicate ReadingsOk(w: World) {
    forall r :: r in w.hist.readings ==>
      && r.grant in w.hist.grants && r.current.userId == r.grant.identity.userId
      && r.current.userId in w.db.users
      && ReadSoFar(ViewOf(w, r.current.userId), r)
  }

  /** While its revision is current, a password change knows whether TOTP is enabled,
      and the grant behind its session has the second factor that is then asked for. */
  ghost predicate ChangeHolds(verify: Oracle, view: View, change: Change) {
    && change.revision <= view.epoch
    && (change.revision == view.epoch ==>
          && change.identity.totpEnabled == view.credential.Some?
          && (view.credential.Some? ==> FactorOk(verify, view, change.origin)))
  }

  /** What a password change took from its session. */
  predicate ChangeStarted(change: Change) {
    && change.origin.identity.userId == change.identity.userId
    && change.origin.identity.epoch == change.identity.epoch == change.identity.revision
    && (change.origin.identity.totpEnabled ==> change.origin.identity.mfaComplete) && !change.origin.factor.Resumed?
    && change.identity.mfaComplete
    && change.revision == change.identity.revision + (if change.done then 1 else 0)
  }

  ghost predicate ChangesOk(verify: Oracle, w: World) {
    forall c :: c in w.hist.changes ==>
      && ChangeStarted(c) && c.origin in w.hist.grants && c.identity.userId in w.db.users
      && ChangeHolds(verify, ViewOf(w, c.identity.userId), c)
  }

  /** What the callers hold: identities, unfinished TOTP completions and unfinished
      password changes. */
  ghost predicate CallersOk(verify: Oracle, w: World) {
    GrantsOk(verify, w) && ReadingsOk(w) && ChangesOk(verify, w)
  }

  predicate SameCallers(hist: History, hist': History) {
    hist'.grants == hist.grants && hist'.readings == hist.readings && hist'.changes == hist.changes
  }

  // ---- All of it ----

  ghost predicate TablesOk(db: Db) {
    && UsersOk(db.users, db.roles)
    && NamesUnique(db.users)
    && SessionsOk(db.users, db.sessions)
    && db.totp.Keys <= db.users.Keys
    && CodesOk(db.totp, db.codes)
    && MappingsOk(db.users, db.mappings)
  }

  ghost predicate HistoryOk(db: Db, hist: History) {
    && TokensOk(db.users, db.tokens, hist.requests)
    && TokenDigestsOk(db.tokens, hist.digests)
    && PasswordsOk(db.users, hist.passwords)
    && FailuresOk(db.users, hist.failures)
    && AttemptsOk(hist.attempts)
    && ProvenanceOk(db.sessions, hist)
    && UsesOk(db.codes, hist.uses, db.totp)
    && RedeemedOk(db.codes, hist.redeemed, hist.digests)
    && BootstrapOk(db.bootstrap, hist.bootstrap)
  }

  ghost predicate Inv(verify: Oracle, w: World) {
    && TablesOk(w.db)
    && HistoryOk(w.db, w.hist)
    && CallersOk(verify, w)
  }

  lemma InitialInv(verify: Oracle)
    ensures Inv(verify, INITIAL)
  {
  }

  // ---- What callers hold survives any advance ----

  lemma SettledAdvances(verify: Oracle, before: View, after: View, grant: Grant)
    requires ViewAdvances(before, after) && Settled(verify, before, grant)
    ensures Settled(verify, after, grant)
  {
  }

  lemma ReadAdvances(before: View, after: View, reading: Reading)
    requires ViewAdvances(before, after) && ReadSoFar(before, reading)
    ensures ReadSoFar(after, reading)
  {
  }

  lemma ChangeAdvances(verify: Oracle, before: View, after: View, change: Change)
    requires ViewAdvances(before, after) && ChangeHolds(verify, before, change)
    ensures ChangeHolds(verify, after, change)
  {
  }

  lemma HeldOver(verify: Oracle, w: World, w': World)
    requires Advances(w, w') && CallersOk(verify, w) && SameCallers(w.hist, w'.hist)
    ensures CallersOk(verify, w')
  {
    ChangesHeldOver(verify, w, w');
    forall g | g in w.hist.grants ensures Settled(verify, ViewOf(w', g.identity.userId), g) {
      SettledAdvances(verify, ViewOf(w, g.identity.userId), ViewOf(w', g.identity.userId), g);
    }
    forall r | r in w.hist.readings ensures ReadSoFar(ViewOf(w', r.current.userId), r) {
      ReadAdvances(ViewOf(w, r.current.userId), ViewOf(w', r.current.userId), r);
    }
  }

  lemma ChangesHeldOver(verify: Oracle, w: World, w': World)
    requires Advances(w, w') && ChangesOk(verify, w) && SameCallers(w.hist, w'.hist)
    ensures ChangesOk(verify, w')
  {
    forall c | c in w.hist.changes ensures ChangeHolds(verify, ViewOf(w', c.identity.userId), c) {
      ChangeAdvances(verify, ViewOf(w, c.identity.userId), ViewOf(w', c.identity.userId), c);
    }
  }

  lemma AdvancesTransitive(w: World, w': World, w'': World)
    requires Advances(w, w') && Advances(w', w'')
    ensures Advances(w, w'')
  {
    forall u | u in w.db.users ensures u in w''.db.users && ViewAdvances(ViewOf(w, u), ViewOf(w'', u)) {
      assert ViewAdvances(ViewOf(w, u), ViewOf(w', u)) && ViewAdvances(ViewOf(w', u), ViewOf(w'', u));
    }
  }
}
