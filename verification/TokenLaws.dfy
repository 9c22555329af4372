/** API tokens over a run: what a token grants, to whom, and that revoking it by
    any path is final (src/common/account_token.c:223-231, 764-779, 912-916,
    src/common/account.c:550-554, 975-977). */
module TokenLaws {
  import opened Base
  import opened Schema
  import opened Users
  import opened Totp
  import opened World
  import opened Invariant
  import opened KeepUsers
  import opened KeepChange
  import opened Reach
  import opened Growth
  import Tokens
  import Access
  import Net = Network

  /** The leading bits of the peer's address are those of the network as it was
      configured, host bits and all. */
  predicate InNetwork(source: Option<Schema.Network>, remote: seq<byte>) {
    source.Some? ==> Net.SamePrefix(source.value.address, remote, source.value.prefix)
  }

  predicate Usable(token: Token, user: User, now: nat) {
    && token.revokedAt.None? && user.enabled && !user.forceChange
    && (token.expiresAt.Some? ==> now < token.expiresAt.value)
  }

  /** What a stored token grants, said without its stored text and network: the
      owner's permissions now, cut down to the scopes asked for at issue. */
  lemma AuthorizesExactly(verify: Oracle, w: World, t: nat, now: nat, remote: seq<byte>)
    requires Inv(verify, w) && t in w.db.tokens
    ensures t in w.hist.requests && w.db.tokens[t].userId in w.db.users
    ensures LoadPermissions(w.db.roles, w.db.tokens[t].userId).Ok?
    ensures var token, request := w.db.tokens[t], w.hist.requests[t];
            var user, owner := w.db.users[token.userId], LoadPermissions(w.db.roles, token.userId).value;
            Tokens.Authorize(w.db, t, now, remote) ==
              if !Usable(token, user, now) || !InNetwork(request.source, remote) || owner * request.scopes == {}
              then Err(EACCES)
              else Ok(Identity(token.userId, user.username, owner * request.scopes, user.revision, user.epoch, false,
                               false, true))
  {
    var token, request := w.db.tokens[t], w.hist.requests[t];
    assert TokenOk(t, token, request) && UserOk(token.userId, w.db.users[token.userId]);
    StoredTokenReads(t, token, request, w.db.users[token.userId], remote);
    PermissionsLoad(w.db.roles, token.userId);
  }

  /** A stored token reads back as what was asked for. */
  lemma StoredTokenReads(t: nat, token: Token, request: Request, user: User, remote: seq<byte>)
    requires TokenOk(t, token, request) && UserOk(token.userId, user)
    ensures TokenRowOk(t, token, user)
    ensures Access.Parse(token.scopes) == Ok(request.scopes)
    ensures Tokens.SourceMatches(token.source, remote) <==> InNetwork(request.source, remote)
  {
    Access.RoundTrip(request.scopes);
    if request.source.Some? {
      Net.StoredNetworkMatches(request.source.value.address, request.source.value.prefix, remote);
    }
  }

  /** The identity has exactly the owner's current permissions intersected with the
      scopes asked for at issue, which were among the owner's permissions then, and
      the peer is in the configured network before expiry. */
  predicate GrantsIntersection(issued: Db, db: Db, userId: UserId, config: Tokens.Config, identity: Identity, now: nat,
                               remote: seq<byte>) {
    && identity.userId == userId
    && LoadPermissions(db.roles, userId).Ok?
    && identity.permissions == LoadPermissions(db.roles, userId).value * config.permissions
    && LoadPermissions(issued.roles, userId).Ok?
    && config.permissions <= LoadPermissions(issued.roles, userId).value
    && InNetwork(config.source, remote)
    && (config.expiresAt != 0 ==> now < config.expiresAt)
  }

  /** The step issues a token. */
  predicate IssuesToken(db: Db, a: Action) {
    a.IssueToken? && Tokens.TokenIssue(db, a.id, a.config, a.now, a.tokenId, a.secret).result.Ok?
  }

  /** From its issue on, whatever happens in between, a token that reauthorises
      grants the intersection. */
  lemma TokenGrantsTheIntersection(verify: Oracle, run: Run, i: nat, k: nat, now: nat, remote: seq<byte>)
    requires IsRun(verify, run) && i < k < |run.states| && IssuesToken(run.states[i].db, run.actions[i])
    requires Tokens.TokenReauthorize(run.states[k].db, run.actions[i].tokenId, now, remote).Ok?
    ensures GrantsIntersection(run.states[i].db, run.states[k].db, run.actions[i].id, run.actions[i].config,
                               Tokens.TokenReauthorize(run.states[k].db, run.actions[i].tokenId, now, remote).value,
                               now, remote)
  {
    IssuedTokenStays(verify, run, i, k);
    RunKeeps(verify, run, k);
    AuthorizesExactly(verify, run.states[k], run.actions[i].tokenId, now, remote);
  }

  /** And so does one that validates by its secret. */
  lemma ValidatedTokenGrantsTheIntersection(verify: Oracle, run: Run, i: nat, k: nat, now: nat, remote: seq<byte>)
    requires IsRun(verify, run) && i < k < |run.states| && IssuesToken(run.states[i].db, run.actions[i])
    requires Tokens.TokenValidate(run.states[k].db, run.actions[i].secret, now, remote).Ok?
    ensures var validated := Tokens.TokenValidate(run.states[k].db, run.actions[i].secret, now, remote).value;
            && validated.tokenId == run.actions[i].tokenId && validated.rate == run.actions[i].config.rate
            && GrantsIntersection(run.states[i].db, run.states[k].db, run.actions[i].id, run.actions[i].config,
                                  validated.identity, now, remote)
  {
    var a := run.actions[i];
    IssuedTokenStays(verify, run, i, k);
    RunKeeps(verify, run, k);
    ValidationAgrees(run.states[k].db, run.states[k].hist.digests, a.tokenId, a.secret, now, remote);
    TokenGrantsTheIntersection(verify, run, i, k, now, remote);
  }

  lemma IssuedTokenStays(verify: Oracle, run: Run, i: nat, k: nat)
    requires IsRun(verify, run) && i < k < |run.states| && IssuesToken(run.states[i].db, run.actions[i])
    ensures Recorded(run.states[i].db, run.states[k], run.actions[i])
  {
    var a := run.actions[i];
    assert StepAt(verify, run, i);
    IssueRecords(run.states[i], a);
    RunContinues(verify, run, i + 1, k);
    RequestStays(run.states[i + 1], run.states[k], a.tokenId);
  }

  /** A token is stored as it was issued, and its request is on record. */
  ghost predicate Recorded(issued: Db, w: World, a: Action)
    requires a.IssueToken?
  {
    && Positive64(a.tokenId) && a.tokenId in w.db.tokens && a.tokenId in w.hist.requests
    && var token := w.db.tokens[a.tokenId];
    && token.userId == a.id && token.digest == Digest(a.secret) && token.rate == a.config.rate
    && token.expiresAt == (if a.config.expiresAt == 0 then None else Some(a.config.expiresAt))
    && LoadPermissions(issued.roles, a.id).Ok?
    && a.config.permissions <= LoadPermissions(issued.roles, a.id).value
    && w.hist.requests[a.tokenId] == Request(a.config.permissions, LoadPermissions(issued.roles, a.id).value,
                                             a.config.source)
  }

  lemma RequestStays(w: World, w': World, t: nat)
    requires Continues(w, w') && t in w.db.tokens && t in w.hist.requests
    ensures t in w'.db.tokens && TokenContinues(w.db.tokens[t], w'.db.tokens[t])
    ensures t in w'.hist.requests && w'.hist.requests[t] == w.hist.requests[t]
  {
  }

  lemma IssueRecords(w: World, a: Action)
    requires Enabled(w, a) && IssuesToken(w.db, a)
    ensures Recorded(w.db, StepIssueToken(w, a.id, a.config, a.now, a.tokenId, a.secret), a)
  {
  }

  lemma FoundByDigest(tokens: map<nat, Token>, digests: set<Digest>, t: nat, digest: Digest)
    requires TokenDigestsOk(tokens, digests) && t in tokens && tokens[t].digest == digest
    ensures Tokens.FindToken(tokens, digest) == Some(t)
  {
    assert Tokens.HasDigest(tokens, t, digest);
  }

  /** Validation by secret authorises what reauthorisation by identifier does. */
  lemma ValidationAgrees(db: Db, digests: set<Digest>, t: nat, secret: Secret, now: nat, remote: seq<byte>)
    requires TokenDigestsOk(db.tokens, digests) && t in db.tokens && db.tokens[t].digest == Digest(secret)
    requires |secret| == SECRET_TEXT_SIZE && Positive64(t)
    ensures var validated, identity := Tokens.TokenValidate(db, secret, now, remote),
                                       Tokens.TokenReauthorize(db, t, now, remote);
            if identity.Ok? then validated == Ok(Tokens.Validated(identity.value, t, db.tokens[t].rate))
            else validated == Err(identity.error)
  {
    FoundByDigest(db.tokens, digests, t, Digest(secret));
  }

  // ---- Revocation ----

  /** Revoked, its revision moved exactly once, and authorising nobody, by secret
      or by identifier. */
  ghost predicate Dead(db: Db, t: nat) {
    && t in db.tokens && db.tokens[t].revokedAt.Some? && db.tokens[t].revision == 2
    && (forall now, remote :: Tokens.TokenReauthorize(db, t, now, remote).Err?)
    && (forall secret, now, remote :: Digest(secret) == db.tokens[t].digest ==>
          Tokens.TokenValidate(db, secret, now, remote).Err?)
  }

  lemma RevokedIsDead(db: Db, digests: set<Digest>, t: nat)
    requires TokenDigestsOk(db.tokens, digests)
    requires t in db.tokens && db.tokens[t].revokedAt.Some? && db.tokens[t].revision == 2
    ensures Dead(db, t)
  {
    FoundByDigest(db.tokens, digests, t, db.tokens[t].digest);
  }

  lemma RevokedForGood(verify: Oracle, w: World, w': World, t: nat)
    requires Inv(verify, w) && Inv(verify, w') && Continues(w, w')
    requires t in w.db.tokens && w.db.tokens[t].revokedAt.Some?
    ensures Dead(w'.db, t) && w'.db.tokens[t].revokedAt == w.db.tokens[t].revokedAt
  {
    assert TokenOk(t, w.db.tokens[t], w.hist.requests[t]);
    RequestStays(w, w', t);
    RevokedIsDead(w'.db, w'.hist.digests, t);
  }

  /** A revoked token is dead for the rest of the run. */
  lemma RevokedTokenStaysRevoked(verify: Oracle, run: Run, i: nat, k: nat, t: nat)
    requires IsRun(verify, run) && i <= k < |run.states|
    requires t in run.states[i].db.tokens && run.states[i].db.tokens[t].revokedAt.Some?
    ensures Dead(run.states[k].db, t)
    ensures run.states[k].db.tokens[t].revokedAt == run.states[i].db.tokens[t].revokedAt
  {
    RunKeeps(verify, run, i);
    RunContinues(verify, run, i, k);
    RunKeeps(verify, run, k);
    RevokedForGood(verify, run.states[i], run.states[k], t);
  }

  /** The steps that revoke a token: directly, or by disabling its owner, or by
      resetting or changing the owner's password. */
  ghost predicate Revokes(w: World, a: Action, t: nat)
    requires t in w.db.tokens && Enabled(w, a)
  {
    match a
    case RevokeToken(tokenId, now) => tokenId == t && Tokens.TokenRevoke(w.db, t, now).result.Ok?
    case UpdateUser(id, expected, update, now) =>
      id == w.db.tokens[t].userId && !update.enabled && UserUpdate(w.db, id, expected, update, now).result.Ok?
    case Reset(id, expected, password, policy, forceChange, salt, now) =>
      id == w.db.tokens[t].userId
      && ResetPassword(w.db, id, expected, password, policy, forceChange, salt, now).result.Ok?
    case ChangePassword(change, login, password, policy, salt, now) =>
      change.identity.userId == w.db.tokens[t].userId
      && ChangeReset(w.db, change, login, password, policy, salt, now).result.Ok?
    case _ => false
  }

  lemma DisablingRevokes(db: Db, id: UserId, expected: nat, update: Update, now: nat, t: nat)
    requires UserUpdate(db, id, expected, update, now).result.Ok? && !update.enabled
    requires t in db.tokens && db.tokens[t].userId == id
    ensures var db' := UserUpdate(db, id, expected, update, now).db;
            t in db'.tokens && db'.tokens[t].revokedAt.Some?
  {
    assert UserUpdate(db, id, expected, update, now).db.tokens == TokensRevoked(db.tokens, id, now);
  }

  lemma ResettingRevokes(db: Db, id: UserId, expected: nat, password: Password, policy: Policy, forceChange: bool,
                         salt: nat, now: nat, t: nat)
    requires TablesOk(db) && t in db.tokens && db.tokens[t].userId == id
    requires ResetPassword(db, id, expected, password, policy, forceChange, salt, now).result.Ok?
    ensures var db' := ResetPassword(db, id, expected, password, policy, forceChange, salt, now).db;
            t in db'.tokens && db'.tokens[t].revokedAt.Some?
  {
    ResetShape(db, id, expected, password, policy, forceChange, salt, now);
  }

  lemma ChangingRevokes(db: Db, change: Change, login: Grant, password: Password, policy: Policy, salt: nat, now: nat,
                        t: nat)
    requires TablesOk(db) && t in db.tokens && db.tokens[t].userId == change.identity.userId
    requires ChangeReset(db, change, login, password, policy, salt, now).result.Ok?
    ensures var db' := ChangeReset(db, change, login, password, policy, salt, now).db;
            t in db'.tokens && db'.tokens[t].revokedAt.Some?
  {
    ChangeShape(db, change, login, password, policy, salt, now);
  }

  lemma DirectRevokes(db: Db, t: nat, now: nat)
    requires Tokens.TokenRevoke(db, t, now).result.Ok?
    ensures var db' := Tokens.TokenRevoke(db, t, now).db; t in db'.tokens && db'.tokens[t].revokedAt.Some?
  {
  }

  lemma RevokingRevokes(verify: Oracle, w: World, a: Action, t: nat)
    requires TablesOk(w.db) && Enabled(w, a) && t in w.db.tokens && Revokes(w, a, t)
    ensures var db' := Next(verify, w, a).db; t in db'.tokens && db'.tokens[t].revokedAt.Some?
  {
    if a.UpdateUser? {
      DisablingRevokes(w.db, a.id, a.expected, a.update, a.now, t);
    } else if a.Reset? {
      ResettingRevokes(w.db, a.id, a.expected, a.password, a.policy, a.forceChange, a.salt, a.now, t);
    } else if a.ChangePassword? {
      ChangingRevokes(w.db, a.change, a.login, a.password, a.policy, a.salt, a.now, t);
    } else {
      DirectRevokes(w.db, t, a.now);
    }
  }

  /** So after any of them the token is dead for the rest of the run, even if its
      owner is enabled again. */
  lemma RevocationByAnyPathIsFinal(verify: Oracle, run: Run, i: nat, k: nat, t: nat)
    requires IsRun(verify, run) && i < k < |run.states| && StepAt(verify, run, i)
    requires t in run.states[i].db.tokens && Revokes(run.states[i], run.actions[i], t)
    ensures Dead(run.states[k].db, t)
  {
    RevokedByStep(verify, run, i, t);
    RevokedTokenStaysRevoked(verify, run, i + 1, k, t);
  }

  lemma RevokedByStep(verify: Oracle, run: Run, i: nat, t: nat)
    requires IsRun(verify, run) && i < |run.actions| && StepAt(verify, run, i)
    requires t in run.states[i].db.tokens && Revokes(run.states[i], run.actions[i], t)
    ensures var db' := run.states[i + 1].db; t in db'.tokens && db'.tokens[t].revokedAt.Some?
  {
    RunKeeps(verify, run, i);
    RevokingRevokes(verify, run.states[i], run.actions[i], t);
  }
}
