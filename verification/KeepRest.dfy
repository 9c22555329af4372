/** Sessions, tokens and certificate mappings keep the invariant. */
module KeepRest {
  import opened Base
  import opened Schema
  import opened Users
  import opened Sessions
  import opened Totp
  import opened Mtls
  import opened World
  import opened Invariant
  import opened Keep
  import Tokens
  import Access

  // ---- Sessions ----

  lemma SessionAdded(verify: Oracle, w: World, grant: Grant, digest: Digest, session: Session)
    requires Inv(verify, w) && grant in w.hist.grants && digest !in w.hist.digests
    requires SessionOk(w.db.users, session)
    requires grant.identity.userId == session.userId && grant.identity.epoch == session.epoch
    requires (grant.identity.totpEnabled ==> grant.identity.mfaComplete) && !grant.factor.Resumed?
    ensures var w' := World(w.db.(sessions := w.db.sessions[digest := session]),
                            w.hist.(provenance := w.hist.provenance[digest := grant],
                                    digests := w.hist.digests + {digest}));
            Inv(verify, w') && Advances(w, w')
  {
    var w' := World(w.db.(sessions := w.db.sessions[digest := session]),
                    w.hist.(provenance := w.hist.provenance[digest := grant], digests := w.hist.digests + {digest}));
    SessionHistory(w.db, w.hist, grant, digest, session);
    SessionJoins(w.db.users, w.db.sessions, digest, session);
    Elsewhere(verify, w, w');
  }

  lemma SessionJoins(users: map<UserId, User>, sessions: map<Digest, Session>, digest: Digest, session: Session)
    requires SessionsOk(users, sessions) && SessionOk(users, session)
    ensures SessionsOk(users, sessions[digest := session])
  {
  }

  lemma SessionHistory(db: Db, hist: History, grant: Grant, digest: Digest, session: Session)
    requires HistoryOk(db, hist) && grant in hist.grants
    requires grant.identity.userId == session.userId && grant.identity.epoch == session.epoch
    requires (grant.identity.totpEnabled ==> grant.identity.mfaComplete) && !grant.factor.Resumed?
    ensures HistoryOk(db.(sessions := db.sessions[digest := session]),
                      hist.(provenance := hist.provenance[digest := grant], digests := hist.digests + {digest}))
  {
    TokenDigestsGrow(db.tokens, hist.digests, hist.digests + {digest});
    ProvenanceJoins(db.sessions, hist, grant, digest, session);
    RedeemedGrows(db.codes, hist.redeemed, hist.digests, hist.digests + {digest});
  }

  lemma ProvenanceJoins(sessions: map<Digest, Session>, hist: History, grant: Grant, digest: Digest, session: Session)
    requires ProvenanceOk(sessions, hist) && grant in hist.grants
    requires grant.identity.userId == session.userId && grant.identity.epoch == session.epoch
    requires (grant.identity.totpEnabled ==> grant.identity.mfaComplete) && !grant.factor.Resumed?
    ensures ProvenanceOk(sessions[digest := session],
                         hist.(provenance := hist.provenance[digest := grant], digests := hist.digests + {digest}))
  {
  }

  lemma RedeemedGrows(codes: map<UserId, map<Digest, RecoveryCode>>, redeemed: seq<(UserId, Digest)>,
                      digests: set<Digest>, digests': set<Digest>)
    requires RedeemedOk(codes, redeemed, digests) && digests <= digests'
    ensures RedeemedOk(codes, redeemed, digests')
  {
  }

  lemma IssueSessionKeeps(verify: Oracle, w: World, grant: Grant, now: nat, lifetime: nat, remote: Option<seq<byte>>,
                          session: Secret, csrf: Secret)
    requires Inv(verify, w) && grant in w.hist.grants && !grant.factor.Resumed?
    requires Digest(session) !in w.hist.digests
    ensures var w' := StepIssueSession(w, grant, now, lifetime, remote, session, csrf);
            Inv(verify, w') && Advances(w, w')
  {
    var tx := SessionIssue(w.db, grant.identity, now, lifetime, remote, session, csrf);
    if tx.result.Ok? {
      SessionAdded(verify, w, grant, Digest(session), tx.db.sessions[Digest(session)]);
    } else {
      SameViews(w, w);
    }
  }

  /** Sessions may vanish or be rewritten within their bounds. */
  lemma SessionsChange(verify: Oracle, w: World, sessions: map<Digest, Session>)
    requires Inv(verify, w) && sessions.Keys <= w.db.sessions.Keys
    requires forall d :: d in sessions ==> SessionOk(w.db.users, sessions[d])
                                           && sessions[d].userId == w.db.sessions[d].userId
    ensures var w' := w.(db := w.db.(sessions := sessions)); Inv(verify, w') && Advances(w, w')
  {
    assert ProvenanceOk(sessions, w.hist) by {
      forall d | d in sessions ensures d in w.db.sessions && sessions[d].epoch == w.db.sessions[d].epoch {}
    }
    Elsewhere(verify, w, w.(db := w.db.(sessions := sessions)));
  }

  lemma TouchWrites(db: Db, session: Secret, now: nat)
    ensures var db' := SessionTouch(db, session, now).db;
            db' == db || (&& Digest(session) in db.sessions
                          && var touched := Touched(db.sessions[Digest(session)], now);
                          && touched.createdAt <= touched.lastSeenAt
                          && db' == db.(sessions := db.sessions[Digest(session) := touched]))
  {
  }

  lemma TouchKeeps(verify: Oracle, w: World, session: Secret, now: nat)
    requires Inv(verify, w)
    ensures var w' := w.(db := SessionTouch(w.db, session, now).db); Inv(verify, w') && Advances(w, w')
  {
    TouchWrites(w.db, session, now);
    if SessionTouch(w.db, session, now).db == w.db {
      SameViews(w, w);
    } else {
      var before := w.db.sessions[Digest(session)];
      assert SessionOk(w.db.users, before);
      TouchedOk(w.db.users, before, now);
      SessionRewritten(verify, w, Digest(session), Touched(before, now));
    }
  }

  lemma TouchedOk(users: map<UserId, User>, session: Session, now: nat)
    requires SessionOk(users, session) && Touched(session, now).createdAt <= Touched(session, now).lastSeenAt
    ensures SessionOk(users, Touched(session, now)) && Touched(session, now).userId == session.userId
  {
  }

  lemma SessionRewritten(verify: Oracle, w: World, digest: Digest, session: Session)
    requires Inv(verify, w) && digest in w.db.sessions
    requires SessionOk(w.db.users, session) && session.userId == w.db.sessions[digest].userId
    ensures var w' := w.(db := w.db.(sessions := w.db.sessions[digest := session])); Inv(verify, w') && Advances(w, w')
  {
    OneSessionRewritten(w.db.users, w.db.sessions, digest, session);
    SessionsChange(verify, w, w.db.sessions[digest := session]);
  }

  lemma OneSessionRewritten(users: map<UserId, User>, sessions: map<Digest, Session>, digest: Digest, session: Session)
    requires SessionsOk(users, sessions) && digest in sessions
    requires SessionOk(users, session) && session.userId == sessions[digest].userId
    ensures var sessions' := sessions[digest := session];
            && sessions'.Keys <= sessions.Keys
            && forall d :: d in sessions' ==>
                 SessionOk(users, sessions'[d]) && sessions'[d].userId == sessions[d].userId
  {
  }

  lemma RevokeSessionKeeps(verify: Oracle, w: World, session: Secret)
    requires Inv(verify, w)
    ensures var w' := w.(db := SessionRevoke(w.db, session).db); Inv(verify, w') && Advances(w, w')
  {
    SessionsChange(verify, w, SessionRevoke(w.db, session).db.sessions);
  }

  lemma RevokeAllShape(db: Db, id: UserId)
    requires UsersOk(db.users, db.roles)
    ensures var tx := SessionsRevokeAll(db, id);
            if tx.result.Err? then tx.db == db
            else MovesEpoch(db, tx.db, id) && SameLogin(db.users[id], tx.db.users[id])
                 && tx.db.tokens == db.tokens && tx.db.totp == db.totp && tx.db.codes == db.codes
  {
    if id in db.users { assert db.roles[id := db.roles[id]] == db.roles; }
  }

  lemma AllRevoked(verify: Oracle, w: World, w': World, id: UserId)
    requires Inv(verify, w) && MovesEpoch(w.db, w'.db, id) && SameLogin(w.db.users[id], w'.db.users[id])
    requires w'.db.tokens == w.db.tokens && w'.db.totp == w.db.totp && w'.db.codes == w.db.codes && w'.hist == w.hist
    ensures Inv(verify, w') && Advances(w, w')
  {
    MovedHistory(w.db, w.hist, w'.db, w.hist, id);
    Moved(verify, w, w', id);
  }

  lemma RevokeAllKeeps(verify: Oracle, w: World, id: UserId)
    requires Inv(verify, w)
    ensures var w' := w.(db := SessionsRevokeAll(w.db, id).db); Inv(verify, w') && Advances(w, w')
  {
    RevokeAllShape(w.db, id);
    var tx := SessionsRevokeAll(w.db, id);
    if tx.result.Ok? { AllRevoked(verify, w, w.(db := tx.db), id); } else { SameViews(w, w); }
  }

  // ---- Tokens ----

  lemma TokenAdded(verify: Oracle, w: World, id: nat, token: Token, request: Request)
    requires Inv(verify, w) && id !in w.db.tokens && token.userId in w.db.users
    requires TokenOk(id, token, request) && token.digest !in w.hist.digests
    ensures var w' := World(w.db.(tokens := w.db.tokens[id := token]),
                            w.hist.(requests := w.hist.requests[id := request],
                                    digests := w.hist.digests + {token.digest}));
            Inv(verify, w') && Advances(w, w')
  {
    var w' := World(w.db.(tokens := w.db.tokens[id := token]),
                    w.hist.(requests := w.hist.requests[id := request], digests := w.hist.digests + {token.digest}));
    TokenJoins(w.db.users, w.db.tokens, w.hist, id, token, request);
    ProvenanceFollows(w.db.sessions, w.hist, w'.hist);
    RedeemedGrows(w.db.codes, w.hist.redeemed, w.hist.digests, w'.hist.digests);
    Elsewhere(verify, w, w');
  }

  lemma TokenJoins(users: map<UserId, User>, tokens: map<nat, Token>, hist: History, id: nat, token: Token,
                   request: Request)
    requires TokensOk(users, tokens, hist.requests) && TokenDigestsOk(tokens, hist.digests)
    requires id !in tokens && token.userId in users && TokenOk(id, token, request) && token.digest !in hist.digests
    ensures TokensOk(users, tokens[id := token], hist.requests[id := request])
    ensures TokenDigestsOk(tokens[id := token], hist.digests + {token.digest})
  {
    DigestJoins(tokens, hist.digests, id, token);
  }

  lemma DigestJoins(tokens: map<nat, Token>, digests: set<Digest>, id: nat, token: Token)
    requires TokenDigestsOk(tokens, digests) && id !in tokens && token.digest !in digests
    ensures TokenDigestsOk(tokens[id := token], digests + {token.digest})
  {
  }

  lemma {:induction false} UnionDefined(rows: seq<int>)
    ensures RoleUnion(rows).Ok? ==> RoleUnion(rows).value <= Access.PERMISSION_ALL
  {
    if rows != [] { UnionDefined(rows[..|rows| - 1]); }
  }

  lemma IssueTokenShape(db: Db, userId: UserId, config: Tokens.Config, now: nat, id: nat, secret: Secret)
    requires Positive64(id)
    ensures var tx := Tokens.TokenIssue(db, userId, config, now, id, secret);
            if tx.result.Err? then tx.db == db
            else
              && id in tx.db.tokens && tx.db == db.(tokens := db.tokens[id := tx.db.tokens[id]])
              && tx.db.tokens[id].userId in db.users && tx.db.tokens[id].digest == Digest(secret)
              && LoadPermissions(db.roles, userId).Ok?
              && TokenOk(id, tx.db.tokens[id],
                         Request(config.permissions, LoadPermissions(db.roles, userId).value, config.source))
  {
    UnionDefined(RoleRows(db.roles, userId));
  }

  lemma IssueTokenKeeps(verify: Oracle, w: World, userId: UserId, config: Tokens.Config, now: nat, id: nat,
                        secret: Secret)
    requires Inv(verify, w) && Positive64(id) && id !in w.db.tokens && Digest(secret) !in w.hist.digests
    ensures var w' := StepIssueToken(w, userId, config, now, id, secret); Inv(verify, w') && Advances(w, w')
  {
    IssueTokenShape(w.db, userId, config, now, id, secret);
    var tx := Tokens.TokenIssue(w.db, userId, config, now, id, secret);
    if tx.result.Ok? {
      TokenAdded(verify, w, id, tx.db.tokens[id],
                 Request(config.permissions, LoadPermissions(w.db.roles, userId).value, config.source));
    } else {
      SameViews(w, w);
    }
  }

  lemma TokenReplaced(users: map<UserId, User>, tokens: map<nat, Token>, hist: History, id: nat, token: Token)
    requires TokensOk(users, tokens, hist.requests) && TokenDigestsOk(tokens, hist.digests)
    requires id in tokens && TokenOk(id, token, hist.requests[id])
    requires token.userId == tokens[id].userId && token.digest == tokens[id].digest
    ensures TokensOk(users, tokens[id := token], hist.requests)
    ensures TokenDigestsOk(tokens[id := token], hist.digests)
  {
  }

  lemma TokenRewritten(verify: Oracle, w: World, id: nat, token: Token)
    requires Inv(verify, w) && id in w.db.tokens && TokenOk(id, token, w.hist.requests[id])
    requires token.userId == w.db.tokens[id].userId && token.digest == w.db.tokens[id].digest
    ensures var w' := w.(db := w.db.(tokens := w.db.tokens[id := token])); Inv(verify, w') && Advances(w, w')
  {
    TokenReplaced(w.db.users, w.db.tokens, w.hist, id, token);
    Elsewhere(verify, w, w.(db := w.db.(tokens := w.db.tokens[id := token])));
  }

  lemma TokenWrites(db: Db, id: nat, now: nat)
    ensures var db' := Tokens.TokenTouch(db, id, now).db;
            db' == db || (id in db.tokens
                          && db' == db.(tokens := db.tokens[id := db.tokens[id].(lastUsedAt := Some(now))]))
    ensures var db' := Tokens.TokenRevoke(db, id, now).db;
            db' == db || (&& id in db.tokens && (db.tokens[id].revokedAt.None? ==> db.tokens[id].createdAt <= now)
                          && db' == db.(tokens := db.tokens[id := Schema.Revoked(db.tokens[id], now)]))
  {
  }

  lemma TouchTokenKeeps(verify: Oracle, w: World, id: nat, now: nat)
    requires Inv(verify, w)
    ensures var w' := w.(db := Tokens.TokenTouch(w.db, id, now).db); Inv(verify, w') && Advances(w, w')
  {
    TokenWrites(w.db, id, now);
    if Tokens.TokenTouch(w.db, id, now).db != w.db {
      TokenRewritten(verify, w, id, w.db.tokens[id].(lastUsedAt := Some(now)));
    } else {
      SameViews(w, w);
    }
  }

  lemma RevokeTokenKeeps(verify: Oracle, w: World, id: nat, now: nat)
    requires Inv(verify, w)
    ensures var w' := w.(db := Tokens.TokenRevoke(w.db, id, now).db); Inv(verify, w') && Advances(w, w')
  {
    TokenWrites(w.db, id, now);
    if Tokens.TokenRevoke(w.db, id, now).db != w.db {
      RevokedTokenOk(id, w.db.tokens[id], w.hist.requests[id], now);
      TokenRewritten(verify, w, id, Schema.Revoked(w.db.tokens[id], now));
    } else {
      SameViews(w, w);
    }
  }

  // ---- Certificate mappings ----

  lemma MappingsChange(verify: Oracle, w: World, mappings: map<nat, Mapping>)
    requires Inv(verify, w) && MappingsOk(w.db.users, mappings)
    ensures var w' := w.(db := w.db.(mappings := mappings)); Inv(verify, w') && Advances(w, w')
  {
    Elsewhere(verify, w, w.(db := w.db.(mappings := mappings)));
  }

  /** The mapping written by a create is one its reader accepts. */
  lemma CreateMappingShape(db: Db, config: Config, now: nat, id: nat)
    requires UsersOk(db.users, db.roles) && MappingsOk(db.users, db.mappings) && Positive64(id)
    ensures var tx := MappingCreate(db, config, now, id);
            && tx.db == db.(mappings := tx.db.mappings) && MappingsOk(db.users, tx.db.mappings)
            && (tx.result.Err? ==> tx.db == db)
  {
  }

  lemma CreateMappingKeeps(verify: Oracle, w: World, config: Config, now: nat, id: nat)
    requires Inv(verify, w) && Positive64(id)
    ensures var w' := w.(db := MappingCreate(w.db, config, now, id).db); Inv(verify, w') && Advances(w, w')
  {
    CreateMappingShape(w.db, config, now, id);
    MappingsChange(verify, w, MappingCreate(w.db, config, now, id).db.mappings);
  }

  lemma RevokeMappingShape(db: Db, id: nat, now: nat)
    requires MappingsOk(db.users, db.mappings)
    ensures var tx := MappingRevoke(db, id, now);
            tx.db == db.(mappings := tx.db.mappings) && MappingsOk(db.users, tx.db.mappings)
  {
  }

  lemma RevokeMappingKeeps(verify: Oracle, w: World, id: nat, now: nat)
    requires Inv(verify, w)
    ensures var w' := w.(db := MappingRevoke(w.db, id, now).db); Inv(verify, w') && Advances(w, w')
  {
    RevokeMappingShape(w.db, id, now);
    MappingsChange(verify, w, MappingRevoke(w.db, id, now).db.mappings);
  }
}
