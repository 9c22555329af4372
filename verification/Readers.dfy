/** Readers accept everything writers can produce: in no world of any run does a
    stored row read as corrupt (src/common/account.c:450-459, 1139-1157,
    src/common/account_session.c:211-235, src/common/account_token.c:277-304,
    src/common/account_mtls.c:113-133). The table constraints make this hold
    whatever the clock does: a write that would break it fails instead. */
module Readers {
  import opened Base
  import opened Schema
  import opened Users
  import opened Sessions
  import opened Totp
  import opened Mtls
  import opened World
  import opened Invariant
  import opened Reach
  import opened TokenLaws
  import Tokens

  // ---- Users ----

  lemma UsersRead(db: Db, id: UserId)
    requires UsersOk(db.users, db.roles) && id in db.users
    ensures LoadUser(db, id).Ok? && AuthenticationRowOk(id, db.users[id]) && LoadPermissions(db.roles, id).Ok?
    ensures LoadUser(db, id).value.revision == db.users[id].revision
  {
    PermissionsLoad(db.roles, id);
  }

  /** Every user of every world loads, for administration and for login, also with
      a saturated failure counter. */
  lemma UsersAlwaysRead(verify: Oracle, run: Run, k: nat, id: UserId)
    requires IsRun(verify, run) && k < |run.states|
    ensures var db := run.states[k].db;
            if id in db.users then
              LoadUser(db, id).Ok? && AuthenticationRowOk(id, db.users[id]) && LoadPermissions(db.roles, id).Ok?
            else LoadUser(db, id) == Err(ENOENT)
  {
    RunKeeps(verify, run, k);
    if id in run.states[k].db.users { UsersRead(run.states[k].db, id); }
  }

  /** No login meets a corrupt row, at either of its reads. */
  lemma LoginNeverCorrupt(verify: Oracle, run: Run, k: nat, username: string, password: Password, policy: Policy,
                          salt: nat, now: nat, attempt: Attempt)
    requires IsRun(verify, run) && k < |run.states|
    ensures LoginRead(run.states[k].db, username, password, policy, salt, now) != Refused(EILSEQ)
    ensures LoginCommit(run.states[k].db, attempt).result != Err(EILSEQ)
  {
    RunKeeps(verify, run, k);
    LoginReads(run.states[k].db, username, password, policy, salt, now);
    LoginRereads(run.states[k].db, attempt);
  }

  lemma LoginReads(db: Db, username: string, password: Password, policy: Policy, salt: nat, now: nat)
    requires UsersOk(db.users, db.roles)
    ensures LoginRead(db, username, password, policy, salt, now) != Refused(EILSEQ)
  {
    var found := FindUser(db.users, username);
    if found.Some? { UsersRead(db, found.value); }
  }

  lemma LoginRereads(db: Db, attempt: Attempt)
    requires UsersOk(db.users, db.roles)
    ensures LoginCommit(db, attempt).result != Err(EILSEQ)
  {
    var found := FindUser(db.users, attempt.username);
    if found.Some? { UsersRead(db, found.value); }
  }

  // ---- Sessions and second factors ----

  lemma SessionReads(db: Db, digest: Digest, csrf: Option<Digest>, now: nat, timeout: nat, remote: Option<seq<byte>>)
    requires UsersOk(db.users, db.roles) && SessionsOk(db.users, db.sessions)
    ensures Sessions.Authorize(db, digest, csrf, now, timeout, remote) != Err(EILSEQ)
  {
    if digest in db.sessions {
      assert SessionOk(db.users, db.sessions[digest]);
      UsersRead(db, db.sessions[digest].userId);
    }
  }

  lemma SessionsNeverCorrupt(verify: Oracle, run: Run, k: nat, session: Secret, csrf: Option<Secret>, digest: Digest,
                             now: nat, timeout: nat, remote: Option<seq<byte>>)
    requires IsRun(verify, run) && k < |run.states|
    ensures SessionValidate(run.states[k].db, session, csrf, now, timeout, remote) != Err(EILSEQ)
    ensures SessionReauthorize(run.states[k].db, digest, now, timeout, remote) != Err(EILSEQ)
  {
    RunKeeps(verify, run, k);
    SessionReads(run.states[k].db, Digest(session), if csrf.Some? then Some(Digest(csrf.value)) else None, now, timeout,
                 remote);
    SessionReads(run.states[k].db, digest, None, now, timeout, remote);
  }

  lemma FactorReads(db: Db, id: UserId)
    requires UsersOk(db.users, db.roles) && id in db.users
    ensures ReadUser(db, id) != Err(EILSEQ) && LoadPermissions(db.roles, id).Ok?
  {
    UsersRead(db, id);
  }

  /** Nor does a TOTP completion, although its reads see four different worlds. */
  lemma TotpNeverCorrupt(verify: Oracle, run: Run, i1: nat, i2: nat, i3: nat, i4: nat, password: Identity, key: nat,
                         code: nat, now: nat)
    requires IsRun(verify, run) && i1 <= i2 <= i3 <= i4 < |run.states|
    ensures TotpAuthenticate(verify, run.states[i1].db, run.states[i2].db, run.states[i3].db, run.states[i4].db,
                             password, key, code, now) != Err(EILSEQ)
  {
    RunKeeps(verify, run, i1);
    RunKeeps(verify, run, i2);
    RunAdvances(verify, run, i1, i2);
    FourReads(verify, run.states[i1].db, run.states[i2].db, run.states[i3].db, run.states[i4].db, password, key, code,
              now);
  }

  lemma CodeReads(verify: Oracle, db: Db, current: Identity, key: nat, code: nat, now: nat)
    ensures CheckCode(verify, db, current, key, code, now) != Err(EILSEQ)
  {
  }

  lemma FourReads(verify: Oracle, db1: Db, db2: Db, db3: Db, db4: Db, password: Identity, key: nat, code: nat, now: nat)
    requires UsersOk(db1.users, db1.roles) && UsersOk(db2.users, db2.roles)
    requires password.userId in db1.users ==> password.userId in db2.users
    ensures TotpAuthenticate(verify, db1, db2, db3, db4, password, key, code, now) != Err(EILSEQ)
  {
    var id := password.userId;
    if id in db1.users && ReadUser(db1, id).Ok? {
      FactorReads(db2, id);
      CodeReads(verify, db4, ReadFlag(db3, ReadRoles(db2, ReadUser(db1, id).value).value), key, code, now);
    } else if id in db1.users {
      FactorReads(db1, id);
    }
  }

  /** Nor does a recovery login. */
  lemma RecoveryNeverCorrupt(verify: Oracle, run: Run, k: nat, password: Identity, secret: Secret, now: nat)
    requires IsRun(verify, run) && k < |run.states|
    ensures RecoveryAuthenticate(run.states[k].db, password, secret, now).result != Err(EILSEQ)
  {
    RunKeeps(verify, run, k);
    RecoveryReads(run.states[k].db, password, secret, now);
  }

  lemma RecoveryReads(db: Db, password: Identity, secret: Secret, now: nat)
    requires UsersOk(db.users, db.roles)
    ensures RecoveryAuthenticate(db, password, secret, now).result != Err(EILSEQ)
  {
    if password.userId in db.users { FactorReads(db, password.userId); }
  }

  // ---- Tokens and mappings ----

  lemma TokenReads(verify: Oracle, w: World, t: nat)
    requires Inv(verify, w) && t in w.db.tokens
    ensures w.db.tokens[t].userId in w.db.users
            && TokenListingOk(t, w.db.tokens[t], w.db.users[w.db.tokens[t].userId])
  {
    var token := w.db.tokens[t];
    assert TokenOk(t, token, w.hist.requests[t]) && UserOk(token.userId, w.db.users[token.userId]);
    StoredTokenReads(t, token, w.hist.requests[t], w.db.users[token.userId], []);
  }

  /** Every stored token can be listed, and its scope text parses. */
  lemma TokensAlwaysRead(verify: Oracle, run: Run, k: nat, t: nat, now: nat, remote: seq<byte>)
    requires IsRun(verify, run) && k < |run.states| && t in run.states[k].db.tokens
    ensures var db := run.states[k].db;
            && db.tokens[t].userId in db.users && TokenListingOk(t, db.tokens[t], db.users[db.tokens[t].userId])
            && Tokens.TokenReauthorize(db, t, now, remote) != Err(EILSEQ)
  {
    RunKeeps(verify, run, k);
    TokenReads(verify, run.states[k], t);
    AuthorizesExactly(verify, run.states[k], t, now, remote);
  }

  /** No token validation meets a corrupt row, whatever secret is presented. */
  lemma TokensNeverCorrupt(verify: Oracle, run: Run, k: nat, secret: Secret, now: nat, remote: seq<byte>)
    requires IsRun(verify, run) && k < |run.states|
    ensures Tokens.TokenValidate(run.states[k].db, secret, now, remote) != Err(EILSEQ)
  {
    RunKeeps(verify, run, k);
    var found := Tokens.FindToken(run.states[k].db.tokens, Digest(secret));
    if found.Some? { AuthorizesExactly(verify, run.states[k], found.value, now, remote); }
  }

  /** Every stored mapping decodes, and creating one never reads back as corrupt. */
  lemma MappingsAlwaysRead(verify: Oracle, run: Run, k: nat, m: nat, config: Mtls.Config, now: nat, id: nat)
    requires IsRun(verify, run) && k < |run.states| && Positive64(id)
    ensures var db := run.states[k].db;
            && (m in db.mappings ==> MappingRowOk(m, db.mappings[m], db.users))
            && MappingCreate(db, config, now, id).result != Err(EILSEQ)
  {
    RunKeeps(verify, run, k);
    CreatedMappingReads(run.states[k].db, config, now, id);
  }

  lemma CreatedMappingReads(db: Db, config: Mtls.Config, now: nat, id: nat)
    requires UsersOk(db.users, db.roles) && Positive64(id)
    ensures MappingCreate(db, config, now, id).result != Err(EILSEQ)
  {
  }

  // ---- Lookups ----

  /** User names and token digests identify at most one row, so the lookups of a
      login and of a token validation are well defined. */
  lemma LookupsAreUnique(verify: Oracle, run: Run, k: nat)
    requires IsRun(verify, run) && k < |run.states|
    ensures NamesUnique(run.states[k].db.users) && DigestsUnique(run.states[k].db.tokens)
  {
    RunKeeps(verify, run, k);
    assert TokenDigestsOk(run.states[k].db.tokens, run.states[k].hist.digests);
  }
}
