/** The account database as the source runs it: tables updated in place, one
    statement after another, inside transactions that are committed or rolled
    back. Every operation is proved to leave the tables and the result that its
    one-step description in the other modules says, so what is proved there
    about runs is about this code. */
module Store {
  import opened Base
  import opened Schema
  import opened Users
  import opened Sessions
  import opened Totp
  import opened Invariant
  import opened Backoff
  import Tokens
  import Mtls
  import Access
  import Net = Network

  class AccountStore {
    var users: map<UserId, User>
    var roles: map<UserId, seq<int>>
    var sessions: map<Digest, Session>
    var tokens: map<nat, Token>
    var totp: map<UserId, Credential>
    var codes: map<UserId, map<Digest, RecoveryCode>>
    var bootstrap: Option<Bootstrap>
    var mappings: map<nat, Mapping>

    /** The tables as they were when the open transaction began. */
    var saved: Db

    function State(): Db
      reads this
    {
      Db(users, roles, sessions, tokens, totp, codes, bootstrap, mappings)
    }

    constructor ()
      ensures State() == EMPTY
    {
      users, roles, sessions, tokens := map[], map[], map[], map[];
      totp, codes, bootstrap, mappings := map[], map[], None, map[];
      saved := EMPTY;
    }

    // ---- Transactions ----

    method Begin()
      modifies this`saved
      ensures saved == State()
    {
      saved := State();
    }

    method Rollback()
      modifies this
      ensures State() == saved == old(saved)
    {
      users, roles, sessions, tokens := saved.users, saved.roles, saved.sessions, saved.tokens;
      totp, codes, bootstrap, mappings := saved.totp, saved.codes, saved.bootstrap, saved.mappings;
    }

    /** Commits on success and rolls back otherwise. */
    method Close(commit: bool)
      modifies this
      ensures State() == if commit then old(State()) else old(saved)
    {
      if !commit { Rollback(); }
    }

    // ---- Shared statements ----

    method DeleteUserSessions(id: UserId)
      modifies this`sessions
      ensures sessions == WithoutSessionsOf(old(sessions), id)
    {
      sessions := map d | d in sessions && sessions[d].userId != id :: sessions[d];
    }

    method RevokeUserTokens(id: UserId, now: nat) returns (ok: bool)
      modifies this`tokens
      ensures ok == CanRevokeTokens(old(tokens), id, now)
      ensures tokens == if ok then TokensRevoked(old(tokens), id, now) else old(tokens)
    {
      ok := forall t :: t in tokens && tokens[t].userId == id && tokens[t].revokedAt.None? ==>
              tokens[t].createdAt <= now;
      if ok {
        tokens := map t | t in tokens ::
          if tokens[t].userId == id && tokens[t].revokedAt.None?
          then tokens[t].(revokedAt := Some(now), revision := tokens[t].revision + 1) else tokens[t];
      }
    }

    /** Both counters of one user, then its sessions. */
    method AdvanceUserEpoch(id: UserId) returns (r: Result<()>)
      modifies this`users, this`sessions
      ensures id !in old(users) ==> r == Err(ENOENT)
      ensures id in old(users) && !CanAdvance(old(users)[id]) ==> r == Err(EIO)
      ensures r.Err? ==> users == old(users) && sessions == old(sessions)
      ensures id in old(users) && CanAdvance(old(users)[id]) ==>
                && r == Ok(()) && users == old(users)[id := Advanced(old(users)[id])]
                && sessions == WithoutSessionsOf(old(sessions), id)
    {
      if id !in users { return Err(ENOENT); }
      if users[id].epoch >= INT64_MAX || users[id].revision >= INT64_MAX { return Err(EIO); }
      users := users[id := users[id].(epoch := users[id].epoch + 1, revision := users[id].revision + 1)];
      DeleteUserSessions(id);
      r := Ok(());
    }

    /** The union over the role rows. */
    method LoadRoles(id: UserId) returns (permissions: Result<Access.Mask>)
      ensures permissions == LoadPermissions(roles, id)
    {
      var rows := if id in roles then roles[id] else [];
      var granted: Access.Mask := {};
      var i := 0;
      while i < |rows|
        invariant 0 <= i <= |rows|
        invariant RoleUnion(rows[..i]) == Ok(granted)
      {
        assert rows[..i + 1][..i] == rows[..i];
        if !Access.RoleValid(rows[i]) {
          UnionFails(rows, i + 1);
          return Err(EILSEQ);
        }
        granted := granted + Access.RolePermissions(rows[i]);
        i := i + 1;
      }
      assert rows[..|rows|] == rows;
      if granted == {} { return Err(EILSEQ); }
      permissions := Ok(granted);
    }

    /** Whether the user's TOTP credential is enabled; having none is not. */
    method LoadFlag(id: UserId) returns (enabled: bool)
      ensures enabled == TotpEnabled(totp, id)
    {
      enabled := false;
      if id in totp { enabled := totp[id].enabled; }
    }

    /** `jg_account_load_identity_authorization`: the roles, then the flag. */
    method LoadAuthorization(id: UserId) returns (permissions: Result<Access.Mask>, totpEnabled: bool)
      ensures permissions == LoadPermissions(roles, id)
      ensures totpEnabled == (permissions.Ok? && TotpEnabled(totp, id))
    {
      totpEnabled := false;
      permissions := LoadRoles(id);
      if permissions.Ok? { totpEnabled := LoadFlag(id); }
    }

    // ---- Bootstrap ----

    method IssueBootstrap(now: nat, lifetime: nat, secret: Secret) returns (r: Result<Secret>)
      modifies this
      ensures var tx := BootstrapIssue(old(State()), now, lifetime, secret); State() == tx.db && r == tx.result
    {
      if now == 0 || now > INT64_MAX || lifetime < BOOTSTRAP_LIFETIME_MIN || lifetime > BOOTSTRAP_LIFETIME_MAX {
        return Err(EINVAL);
      }
      if lifetime > INT64_MAX - now { return Err(EOVERFLOW); }
      Begin();
      if users != map[] { Rollback(); return Err(EEXIST); }
      bootstrap := Some(Bootstrap(Digest(secret), now, now + lifetime, None));
      r := Ok(secret);
    }

    method VerifyBootstrap(candidate: Digest, now: nat) returns (ok: bool)
      ensures ok == (bootstrap.Some? && bootstrap.value.expiresAt > now && bootstrap.value.consumedAt.None?
                     && bootstrap.value.digest == candidate)
    {
      if bootstrap.None? { return false; }
      var row := bootstrap.value;
      ok := !(row.expiresAt <= now || row.consumedAt.Some? || candidate != row.digest);
    }

    method InsertUser(id: UserId, username: string, hash: PasswordHash, role: int, forceChange: bool, now: nat)
      modifies this`users, this`roles
      ensures users == old(users)[id := NewUser(username, hash, forceChange, now)]
      ensures roles == old(roles)[id := [role]]
    {
      users := users[id := User(username, hash, true, 0, None, now, now, None, forceChange, 1, 1)];
      roles := roles[id := [role]];
    }

    method ConsumeBootstrap(now: nat) returns (r: Result<()>)
      modifies this`bootstrap
      ensures old(bootstrap).None? || old(bootstrap).value.consumedAt.Some? ==> r == Err(EACCES)
      ensures old(bootstrap).Some? && old(bootstrap).value.consumedAt.None? ==>
                r == if now < old(bootstrap).value.createdAt then Err(EIO) else Ok(())
      ensures bootstrap == if r.Ok? then Some(old(bootstrap).value.(consumedAt := Some(now))) else old(bootstrap)
    {
      if bootstrap.None? || bootstrap.value.consumedAt.Some? { return Err(EACCES); }
      if now < bootstrap.value.createdAt { return Err(EIO); }
      bootstrap := Some(bootstrap.value.(consumedAt := Some(now)));
      r := Ok(());
    }

    /** The user is written before the token is consumed, so a refused consumption
        has to be rolled back. */
    method CreateFirstAdministrator(token: Secret, username: string, password: Password, policy: Policy, salt: nat,
                                    now: nat, id: UserId) returns (r: Result<UserId>)
      modifies this
      ensures var tx := CreateInitialAdministrator(old(State()), token, username, password, policy, salt, now, id);
              State() == tx.db && r == tx.result
    {
      if token == [] || |token| > SECRET_TEXT_SIZE || !UsernameValid(username) || now == 0 || now > INT64_MAX {
        return Err(EINVAL);
      }
      var hash := HashPassword(policy, password, salt);
      if hash.Err? { return Err(hash.error); }
      Begin();
      if users != map[] { Rollback(); return Err(EEXIST); }
      var accepted := VerifyBootstrap(Digest(token), now);
      if !accepted { Rollback(); return Err(EACCES); }
      InsertUser(id, username, hash.value, Access.ADMINISTRATOR, false, now);
      var consumed := ConsumeBootstrap(now);
      if consumed.Err? { Rollback(); return Err(consumed.error); }
      r := Ok(id);
    }

    // ---- Administration ----

    method LoadUser(id: UserId) returns (r: Result<Account>)
      ensures r == Schema.LoadUser(State(), id)
    {
      if id !in users { return Err(ENOENT); }
      var user := users[id];
      var rows := if id in roles then roles[id] else [];
      if id == 0 || !UsernameValid(user.username) || user.failedLogins > 0xffff_ffff || user.revision == 0
         || |rows| != 1 || !Access.RoleValid(rows[0]) {
        return Err(EILSEQ);
      }
      var enabled := false;
      if id in totp { enabled := totp[id].enabled; }
      r := Ok(Account(id, user.username, rows[0], user.revision, user.createdAt, user.passwordChangedAt,
                      OrZero(user.lastLoginAt), OrZero(user.lockedUntil), user.failedLogins, user.enabled,
                      user.forceChange, enabled));
    }

    method CreateUser(username: string, password: Password, policy: Policy, role: int, forceChange: bool, salt: nat,
                      now: nat, id: UserId) returns (r: Result<Account>)
      modifies this
      ensures var tx := UserCreate(old(State()), username, password, policy, role, forceChange, salt, now, id);
              State() == tx.db && r == tx.result
    {
      if !UsernameValid(username) || !Access.RoleValid(role) || now == 0 || now > INT64_MAX { return Err(EINVAL); }
      var hash := HashPassword(policy, password, salt);
      if hash.Err? { return Err(hash.error); }
      Begin();
      if exists u :: u in users && users[u].username == username { Rollback(); return Err(EEXIST); }
      InsertUser(id, username, hash.value, role, forceChange, now);
      r := LoadUser(id);
      Close(r.Ok?);
    }

    /** Users, roles, sessions and tokens are written in turn. */
    method WriteUpdate(id: UserId, update: Update, now: nat) returns (ok: bool)
      requires id in users
      modifies this`users, this`roles, this`sessions, this`tokens
      ensures ok == (CanAdvance(old(users)[id]) && (!update.enabled ==> CanRevokeTokens(old(tokens), id, now)))
      ensures ok ==>
        && users == old(users)[id := Advanced(old(users)[id]).(enabled := update.enabled,
                                                               forceChange := update.forceChange)]
        && roles == old(roles)[id := [update.role]]
        && sessions == WithoutSessionsOf(old(sessions), id)
        && tokens == if update.enabled then old(tokens) else TokensRevoked(old(tokens), id, now)
    {
      if users[id].epoch >= INT64_MAX || users[id].revision >= INT64_MAX { return false; }
      users := users[id := users[id].(enabled := update.enabled, forceChange := update.forceChange,
                                      revision := users[id].revision + 1, epoch := users[id].epoch + 1)];
      roles := roles[id := [update.role]];
      DeleteUserSessions(id);
      ok := true;
      if !update.enabled { ok := RevokeUserTokens(id, now); }
    }

    /** Any refusal on the way undoes every write. */
    method UpdateUser(id: UserId, expected: nat, update: Update, now: nat) returns (r: Result<Account>)
      modifies this
      ensures var tx := UserUpdate(old(State()), id, expected, update, now); State() == tx.db && r == tx.result
    {
      if id == 0 || id > INT64_MAX || expected == 0 || expected > INT64_MAX || !Access.RoleValid(update.role)
         || now == 0 || now > INT64_MAX {
        return Err(EINVAL);
      }
      Begin();
      var current := LoadUser(id);
      if current.Err? { Rollback(); return current; }
      if current.value.revision != expected { Rollback(); return Err(ESTALE); }
      if current.value.enabled && current.value.role == Access.ADMINISTRATOR
         && (!update.enabled || update.role != Access.ADMINISTRATOR) {
        var administrators := EnabledAdministrators(State());
        if |administrators| <= 1 { Rollback(); return Err(EPERM); }
      }
      var ok := WriteUpdate(id, update, now);
      if !ok { Rollback(); return Err(EIO); }
      r := LoadUser(id);
      Close(r.Ok?);
    }

    method WriteReset(id: UserId, hash: PasswordHash, forceChange: bool, now: nat) returns (ok: bool)
      requires id in users
      modifies this`users, this`sessions, this`tokens
      ensures ok == (CanAdvance(old(users)[id]) && old(users)[id].createdAt <= now
                     && CanRevokeTokens(old(tokens), id, now))
      ensures ok ==>
        && users == old(users)[id := Advanced(old(users)[id]).(hash := hash, passwordChangedAt := now,
                                                               forceChange := forceChange, failedLogins := 0,
                                                               lockedUntil := None)]
        && sessions == WithoutSessionsOf(old(sessions), id)
        && tokens == TokensRevoked(old(tokens), id, now)
    {
      if users[id].epoch >= INT64_MAX || users[id].revision >= INT64_MAX || now < users[id].createdAt { return false; }
      users := users[id := users[id].(hash := hash, passwordChangedAt := now, forceChange := forceChange,
                                      failedLogins := 0, lockedUntil := None,
                                      revision := users[id].revision + 1, epoch := users[id].epoch + 1)];
      DeleteUserSessions(id);
      ok := RevokeUserTokens(id, now);
    }

    method ResetUserPassword(id: UserId, expected: nat, password: Password, policy: Policy, forceChange: bool,
                             salt: nat, now: nat) returns (r: Result<Account>)
      modifies this
      ensures var tx := ResetPassword(old(State()), id, expected, password, policy, forceChange, salt, now);
              State() == tx.db && r == tx.result
    {
      if id == 0 || id > INT64_MAX || expected == 0 || expected > INT64_MAX || now == 0 || now > INT64_MAX {
        return Err(EINVAL);
      }
      var hash := HashPassword(policy, password, salt);
      if hash.Err? { return Err(hash.error); }
      Begin();
      r := LoadUser(id);
      if r.Err? { Rollback(); return; }
      if r.value.revision != expected { Rollback(); return Err(ESTALE); }
      var ok := WriteReset(id, hash.value, forceChange, now);
      if !ok { Rollback(); return Err(EIO); }
      r := LoadUser(id);
      Close(r.Ok?);
    }

    // ---- Password login ----

    method FindByName(username: string) returns (found: Option<UserId>)
      requires NamesUnique(users)
      ensures found == FindUser(users, username)
    {
      if u :| u in users && users[u].username == username {
        FoundByName(users, u);
        found := Some(u);
      } else {
        found := None;
      }
    }

    /** The part of a login before its transaction. */
    method BeginLogin(username: string, password: Password, policy: Policy, salt: nat, now: nat)
      returns (start: LoginStart)
      requires NamesUnique(users)
      ensures start == LoginRead(State(), username, password, policy, salt, now)
    {
      if |password| > PASSWORD_MAX { return Refused(ERANGE); }
      if !UsernameValid(username) || now == 0 || now > INT64_MAX - LOCK_DELAY_MAX { return Refused(EINVAL); }
      var found := FindByName(username);
      if found.None? {
        var work := HashPassword(policy, seq(policy.minimumLength, _ => 0xa5), salt);
        return Refused(if work.Ok? then EACCES else EINVAL);
      }
      var id := found.value;
      var record := users[id];
      if id == 0 || record.failedLogins > FAILED_LOGIN_MAX || record.revision == 0 || record.epoch == 0 {
        return Refused(EILSEQ);
      }
      if !policy.Valid() { return Refused(EINVAL); }
      if !record.enabled { return Refused(EACCES); }
      var valid := Verifies(record.hash, password);
      if !valid && OrZero(record.lockedUntil) > now { return Refused(EAGAIN); }
      var replacement := None;
      if valid && record.hash.cost != policy.Cost() {
        var hash := HashPassword(policy, password, salt);
        if hash.Err? { return Refused(hash.error); }
        replacement := Some(hash.value);
      }
      start := Begun(Attempt(username, password, id, record, valid, replacement, now));
    }

    method RecordFailure(id: UserId, now: nat)
      requires id in users
      modifies this`users
      ensures users == old(users)[id := AfterFailure(old(users)[id], now)]
    {
      var failures := users[id].failedLogins;
      if failures < FAILED_LOGIN_MAX { failures := failures + 1; } else { failures := FAILED_LOGIN_MAX; }
      var delay := LoginLockDelay(failures);
      users := users[id := users[id].(failedLogins := failures, lockedUntil := Some(now + delay))];
    }

    /** The login transaction: whatever the reads before it found, it commits only
        against the same record, and a refused authorization undoes the success. */
    method FinishLogin(attempt: Attempt) returns (r: Result<Identity>)
      requires NamesUnique(users)
      modifies this
      ensures var tx := LoginCommit(old(State()), attempt); State() == tx.db && r == tx.result
    {
      Begin();
      var found := FindByName(attempt.username);
      if found.None? { return Err(EAGAIN); }
      var id := found.value;
      var current := users[id];
      if !AuthenticationRowOk(id, current) { Rollback(); return Err(EILSEQ); }
      if !RecordMatches(attempt, id, current) { return Err(EAGAIN); }
      if !attempt.valid {
        if OrZero(current.lockedUntil) > attempt.now { return Err(EAGAIN); }
        RecordFailure(id, attempt.now);
        return Err(EACCES);
      }
      if attempt.now < current.createdAt { Rollback(); return Err(EIO); }
      users := users[id := current.(failedLogins := 0, lockedUntil := None, lastLoginAt := Some(attempt.now),
                                    hash := if attempt.replacement.Some? then attempt.replacement.value
                                            else current.hash)];
      var permissions, enabled := LoadAuthorization(id);
      Close(permissions.Ok?);
      if permissions.Err? { return Err(permissions.error); }
      r := Ok(Identity(id, attempt.username, permissions.value, current.revision, current.epoch, current.forceChange,
                       enabled, !enabled));
    }

    // ---- Sessions ----

    method InsertSession(identity: Identity, digest: Digest, csrf: Digest, now: nat, expiresAt: nat,
                         remote: Option<seq<byte>>) returns (r: Result<()>)
      modifies this`sessions
      ensures r == if identity.userId !in users || !users[identity.userId].enabled
                      || users[identity.userId].epoch != identity.epoch then Err(EACCES)
                   else if digest in old(sessions) then Err(EIO) else Ok(())
      ensures sessions == if r.Err? then old(sessions)
                          else old(sessions)[digest := Session(identity.userId, csrf, now, expiresAt, now, remote,
                                                               identity.epoch)]
    {
      if identity.userId !in users { return Err(EACCES); }
      var user := users[identity.userId];
      if !user.enabled || user.epoch != identity.epoch { return Err(EACCES); }
      if digest in sessions { return Err(EIO); }
      sessions := sessions[digest := Session(identity.userId, csrf, now, expiresAt, now, remote, user.epoch)];
      r := Ok(());
    }

    method IssueSession(identity: Identity, now: nat, lifetime: nat, remote: Option<seq<byte>>, session: Secret,
                        csrf: Secret) returns (r: Result<Sessions.Issued>)
      modifies this
      ensures var tx := SessionIssue(old(State()), identity, now, lifetime, remote, session, csrf);
              State() == tx.db && r == tx.result
    {
      if identity.userId == 0 || identity.userId > INT64_MAX || identity.epoch == 0 || identity.epoch > INT64_MAX
         || now == 0 || now > INT64_MAX || !RemoteValid(remote) {
        return Err(EINVAL);
      }
      if identity.totpEnabled && !identity.mfaComplete { return Err(EACCES); }
      if lifetime < LIFETIME_MIN || lifetime > LIFETIME_MAX { return Err(ERANGE); }
      if lifetime > INT64_MAX - now { return Err(EOVERFLOW); }
      var inserted := InsertSession(identity, Digest(session), Digest(csrf), now, now + lifetime, remote);
      if inserted.Err? { return Err(inserted.error); }
      r := Ok(Sessions.Issued(session, csrf, now + lifetime));
    }

    /** The checks after a session digest is known; a missing CSRF digest is not
        asked for. */
    method AuthorizeSession(digest: Digest, csrf: Option<Digest>, now: nat, timeout: nat, remote: Option<seq<byte>>)
      returns (r: Result<Identity>)
      ensures r == Sessions.Authorize(State(), digest, csrf, now, timeout, remote)
    {
      if digest !in sessions || sessions[digest].userId !in users { return Err(EACCES); }
      var record, user := sessions[digest], users[sessions[digest].userId];
      if !SessionRowOk(record, user) { return Err(EILSEQ); }
      if !user.enabled || record.epoch != user.epoch || record.expiresAt <= now || record.lastSeenAt > now
         || now - record.lastSeenAt > timeout || (record.remote.Some? && record.remote != remote)
         || (csrf.Some? && csrf.value != record.csrf) {
        return Err(EACCES);
      }
      var permissions, enabled := LoadAuthorization(record.userId);
      if permissions.Err? { return Err(permissions.error); }
      r := Ok(Identity(record.userId, user.username, permissions.value, user.revision, user.epoch, user.forceChange,
                       enabled, true));
    }

    method ValidateSession(session: Secret, csrf: Option<Secret>, now: nat, timeout: nat, remote: Option<seq<byte>>)
      returns (r: Result<Identity>)
      ensures r == SessionValidate(State(), session, csrf, now, timeout, remote)
    {
      if |session| != SECRET_TEXT_SIZE || now == 0 || now > INT64_MAX || !RemoteValid(remote)
         || (csrf.Some? && |csrf.value| != SECRET_TEXT_SIZE) {
        return Err(EINVAL);
      }
      if timeout < INACTIVITY_MIN || timeout > INACTIVITY_MAX { return Err(ERANGE); }
      r := AuthorizeSession(Digest(session), if csrf.Some? then Some(Digest(csrf.value)) else None, now, timeout,
                            remote);
    }

    method ReauthorizeSession(digest: Digest, now: nat, timeout: nat, remote: Option<seq<byte>>)
      returns (r: Result<Identity>)
      ensures r == SessionReauthorize(State(), digest, now, timeout, remote)
    {
      if now == 0 || now > INT64_MAX || !RemoteValid(remote) { return Err(EINVAL); }
      if timeout < INACTIVITY_MIN || timeout > INACTIVITY_MAX { return Err(ERANGE); }
      r := AuthorizeSession(digest, None, now, timeout, remote);
    }

    method TouchSession(session: Secret, now: nat) returns (r: Result<()>)
      modifies this
      ensures var tx := SessionTouch(old(State()), session, now); State() == tx.db && r == tx.result
    {
      if |session| != SECRET_TEXT_SIZE || now == 0 || now > INT64_MAX { return Err(EINVAL); }
      var digest := Digest(session);
      var cutoff := if now >= Sessions.TOUCH_INTERVAL then now - Sessions.TOUCH_INTERVAL else 0;
      Begin();
      r := Ok(());
      if digest in sessions {
        if sessions[digest].lastSeenAt <= cutoff {
          sessions := sessions[digest := sessions[digest].(lastSeenAt := now)];
        }
        assert old(sessions)[digest := old(sessions)[digest]] == old(sessions);
        if sessions[digest].lastSeenAt < sessions[digest].createdAt { r := Err(EIO); }
      }
      Close(r.Ok?);
    }

    method RevokeSession(session: Secret) returns (r: Result<()>)
      modifies this`sessions
      ensures var tx := SessionRevoke(old(State()), session); State() == tx.db && r == tx.result
    {
      if |session| != SECRET_TEXT_SIZE { return Err(EINVAL); }
      sessions := sessions - {Digest(session)};
      r := Ok(());
    }

    method RevokeAllSessions(id: UserId) returns (r: Result<()>)
      modifies this
      ensures var tx := SessionsRevokeAll(old(State()), id); State() == tx.db && r == tx.result
    {
      if id == 0 || id > INT64_MAX { return Err(EINVAL); }
      Begin();
      r := AdvanceUserEpoch(id);
      Close(r.Ok?);
    }

    // ---- Second factors ----

    method ProvisionTotp(id: UserId, key: nat, nonce: nat, secret: Secret, now: nat) returns (r: Result<Secret>)
      modifies this
      ensures var tx := TotpProvision(old(State()), id, key, nonce, secret, now); State() == tx.db && r == tx.result
    {
      if id == 0 || id > INT64_MAX || now == 0 || now > INT64_MAX { return Err(EINVAL); }
      Begin();
      if id !in users { Rollback(); return Err(ENOENT); }
      var permissions, _ := LoadAuthorization(id);
      if permissions.Err? { Rollback(); return Err(permissions.error); }
      if !users[id].enabled { Rollback(); return Err(EACCES); }
      if id in totp && totp[id].enabled { Rollback(); return Err(EEXIST); }
      totp := totp[id := Credential(Sealed(key, nonce, secret), false, now)];
      codes := codes - {id};
      r := Ok(secret);
    }

    /** One insert per code, into rows that refuse a repeated digest. */
    method StoreRecoveryCodes(id: UserId, drawn: seq<Secret>, now: nat) returns (ok: bool)
      modifies this`codes
      ensures ok == AllDistinct(drawn)
      ensures ok ==> codes == old(codes)[id := NewCodes(drawn, now)]
    {
      codes := codes[id := map[]];
      var i := 0;
      while i < |drawn|
        invariant 0 <= i <= |drawn| && AllDistinct(drawn[..i])
        invariant codes == old(codes)[id := NewCodes(drawn[..i], now)]
      {
        var digest := Digest(drawn[i]);
        assert digest in Digests(drawn[..i]) <==> drawn[i] in drawn[..i];
        if digest in codes[id] { return false; }
        CodeStored(drawn, i, now);
        codes := codes[id := codes[id][digest := RecoveryCode(now, None)]];
        i := i + 1;
      }
      assert drawn[..|drawn|] == drawn;
      ok := true;
    }

    /** Codes, credential and epoch are written in turn. */
    method EnableTotp(id: UserId, drawn: seq<Secret>, now: nat) returns (r: Result<()>)
      requires id in totp
      modifies this`codes, this`totp, this`users, this`sessions
      ensures r == if !AllDistinct(drawn) then Err(EIO) else if id !in old(users) then Err(ENOENT)
                   else if !CanAdvance(old(users)[id]) then Err(EIO) else Ok(())
      ensures r.Ok? ==>
        && codes == old(codes)[id := NewCodes(drawn, now)]
        && totp == old(totp)[id := old(totp)[id].(enabled := true)]
        && users == old(users)[id := Advanced(old(users)[id])]
        && sessions == WithoutSessionsOf(old(sessions), id)
    {
      var stored := StoreRecoveryCodes(id, drawn, now);
      if !stored { return Err(EIO); }
      totp := totp[id := totp[id].(enabled := true)];
      r := AdvanceUserEpoch(id);
    }

    method ConfirmTotp(verify: Oracle, id: UserId, key: nat, code: nat, now: nat, drawn: seq<Secret>)
      returns (r: Result<seq<Secret>>)
      requires |drawn| == RECOVERY_CODE_COUNT
      modifies this
      ensures var tx := TotpConfirm(verify, old(State()), id, key, code, now, drawn);
              State() == tx.db && r == tx.result
    {
      if id == 0 || id > INT64_MAX || code >= CODE_LIMIT || now == 0 || now > INT64_MAX { return Err(EINVAL); }
      Begin();
      if id !in totp { Rollback(); return Err(ENOENT); }
      if totp[id].enabled { Rollback(); return Err(EALREADY); }
      if totp[id].sealed.key != key { Rollback(); return Err(EBADMSG); }
      if !verify(totp[id].sealed.secret, now, code) { Rollback(); return Err(EACCES); }
      var enabled := EnableTotp(id, drawn, now);
      Close(enabled.Ok?);
      r := if enabled.Ok? then Ok(drawn) else Err(enabled.error);
    }

    /** Credential and codes are deleted, then the epoch moves. */
    method RemoveTotp(id: UserId) returns (r: Result<()>)
      requires id in users
      modifies this`codes, this`totp, this`users, this`sessions
      ensures r == if CanAdvance(old(users)[id]) then Ok(()) else Err(EIO)
      ensures r.Ok? ==>
        && totp == old(totp) - {id} && codes == old(codes) - {id}
        && users == old(users)[id := Advanced(old(users)[id])]
        && sessions == WithoutSessionsOf(old(sessions), id)
    {
      totp := totp - {id};
      codes := codes - {id};
      r := AdvanceUserEpoch(id);
    }

    method DisableTotp(id: UserId, expected: nat) returns (r: Result<Account>)
      modifies this
      ensures var tx := TotpDisable(old(State()), id, expected); State() == tx.db && r == tx.result
    {
      if id == 0 || id > INT64_MAX || expected > INT64_MAX { return Err(EINVAL); }
      Begin();
      r := LoadUser(id);
      if r.Err? { Rollback(); return; }
      if expected != 0 && r.value.revision != expected { Rollback(); return Err(ESTALE); }
      if id !in totp { Rollback(); return Err(ENOENT); }
      var removed := RemoveTotp(id);
      if removed.Err? { Rollback(); return Err(removed.error); }
      r := LoadUser(id);
      Close(r.Ok?);
    }

    /** The user row of a current identity; the later reads fill in the rest. */
    method LoadIdentityRow(id: UserId) returns (r: Result<Identity>)
      ensures r == ReadUser(State(), id)
    {
      if id !in users { return Err(ENOENT); }
      var user := users[id];
      if user.username == [] || |user.username| > USERNAME_MAX || user.revision == 0 || user.epoch == 0 {
        return Err(EILSEQ);
      }
      if !user.enabled { return Err(EACCES); }
      r := Ok(Identity(id, user.username, {}, user.revision, user.epoch, user.forceChange, false, false));
    }

    method LoadCurrentIdentity(id: UserId) returns (r: Result<Identity>)
      ensures r == CurrentIdentity(State(), id)
    {
      r := LoadIdentityRow(id);
      if r.Err? { return; }
      var permissions, enabled := LoadAuthorization(id);
      if permissions.Err? { return Err(permissions.error); }
      r := Ok(r.value.(permissions := permissions.value, totpEnabled := enabled, mfaComplete := !enabled));
    }

    /** The credential, against which the code is checked. */
    method CheckTotpCode(verify: Oracle, current: Identity, key: nat, code: nat, now: nat)
      returns (r: Result<Identity>)
      ensures r == CheckCode(verify, State(), current, key, code, now)
    {
      var id := current.userId;
      if id !in totp || !totp[id].enabled { return Err(ENOENT); }
      if totp[id].sealed.key != key { return Err(EBADMSG); }
      if !verify(totp[id].sealed.secret, now, code) { return Err(EACCES); }
      r := Ok(current.(mfaComplete := true));
    }

    /** Undisturbed, the four reads see one state. */
    method AuthenticateTotp(verify: Oracle, password: Identity, key: nat, code: nat, now: nat)
      returns (r: Result<Identity>)
      ensures var db := State(); r == TotpAuthenticate(verify, db, db, db, db, password, key, code, now)
    {
      if password.userId == 0 || code >= CODE_LIMIT || now == 0 { return Err(EINVAL); }
      var current := LoadCurrentIdentity(password.userId);
      if current.Err? { return current; }
      if !PasswordIdentityCurrent(password, current.value) { return Err(EACCES); }
      r := CheckTotpCode(verify, current.value, key, code, now);
    }

    method ConsumeRecoveryCode(id: UserId, digest: Digest, now: nat) returns (r: Result<()>)
      modifies this`codes
      ensures var rows := CodesOf(old(codes), id);
              if digest !in rows || rows[digest].usedAt.Some? then r == Err(EACCES) && codes == old(codes)
              else if now < rows[digest].createdAt then r == Err(EIO) && codes == old(codes)
              else r == Ok(()) && codes == old(codes)[id := rows[digest := rows[digest].(usedAt := Some(now))]]
    {
      if id !in codes || digest !in codes[id] || codes[id][digest].usedAt.Some? { return Err(EACCES); }
      if now < codes[id][digest].createdAt { return Err(EIO); }
      codes := codes[id := codes[id][digest := codes[id][digest].(usedAt := Some(now))]];
      r := Ok(());
    }

    method AuthenticateRecovery(password: Identity, code: Secret, now: nat) returns (r: Result<Identity>)
      modifies this
      ensures var tx := RecoveryAuthenticate(old(State()), password, code, now); State() == tx.db && r == tx.result
    {
      if password.userId == 0 || |code| != SECRET_TEXT_SIZE || now == 0 || now > INT64_MAX { return Err(EINVAL); }
      Begin();
      r := LoadCurrentIdentity(password.userId);
      if r.Err? { Rollback(); return; }
      if !PasswordIdentityCurrent(password, r.value) { Rollback(); return Err(EACCES); }
      var consumed := ConsumeRecoveryCode(r.value.userId, Digest(code), now);
      Close(consumed.Ok?);
      r := if consumed.Ok? then Ok(r.value.(mfaComplete := true)) else Err(consumed.error);
    }

    // ---- Tokens ----

    /** The scope text, printed into a buffer of the maximum size and read back. */
    method FormatScopes(permissions: Access.Mask) returns (scopes: string)
      requires permissions != {} && permissions <= Access.PERMISSION_ALL
      ensures scopes == Access.Print(permissions)
    {
      var buffer := new char[Access.SCOPE_TEXT_MAX + 1];
      var formatted := Access.ScopeFormat(permissions, buffer);
      Access.PrintedText(permissions);
      scopes := Access.TextIn(buffer);
      Terminated(buffer[..], Access.Print(permissions), scopes);
    }

    /** The network with its host bits cleared. */
    method CanonicalSource(source: Option<Schema.Network>) returns (stored: Option<Schema.Network>)
      requires source.Some? ==> NetworkOk(source.value)
      ensures stored == Tokens.StoredNetwork(source)
    {
      if source.None? { return None; }
      var address := new byte[16];
      Net.CanonicalizeSourceAddress(address, source.value.address, source.value.prefix);
      stored := Some(Schema.Network(address[..|source.value.address|], source.value.prefix));
    }

    method IssueToken(userId: UserId, config: Tokens.Config, now: nat, id: nat, secret: Secret)
      returns (r: Result<Tokens.Issued>)
      modifies this
      ensures var tx := Tokens.TokenIssue(old(State()), userId, config, now, id, secret);
              State() == tx.db && r == tx.result
    {
      if userId == 0 || userId > INT64_MAX || now == 0 || now > INT64_MAX || !Tokens.ConfigValid(config, now) {
        return Err(EINVAL);
      }
      Begin();
      if userId !in users { Rollback(); return Err(ENOENT); }
      var owner, _ := LoadAuthorization(userId);
      if owner.Err? { Rollback(); return Err(owner.error); }
      if !users[userId].enabled || !Access.Grants(owner.value, config.permissions) { Rollback(); return Err(EACCES); }
      var scopes := FormatScopes(config.permissions);
      if exists t :: t in tokens && tokens[t].digest == Digest(secret) { Rollback(); return Err(EIO); }
      var source := CanonicalSource(config.source);
      tokens := tokens[id := Token(userId, config.name, Digest(secret), scopes, now,
                                   if config.expiresAt == 0 then None else Some(config.expiresAt), None, None, source,
                                   config.rate, 1)];
      r := Ok(Tokens.Issued(id, secret));
    }

    method AuthorizeToken(id: nat, now: nat, remote: seq<byte>) returns (r: Result<Identity>)
      requires id in tokens && tokens[id].userId in users
      ensures r == Tokens.Authorize(State(), id, now, remote)
    {
      var record, user := tokens[id], users[tokens[id].userId];
      if !TokenRowOk(id, record, user) { return Err(EILSEQ); }
      var scoped := Access.ScopeParse(record.scopes);
      if scoped.Err? { return Err(EILSEQ); }
      if record.revokedAt.Some? { return Err(EACCES); }
      if !user.enabled || user.forceChange || (record.expiresAt.Some? && record.expiresAt.value <= now)
         || !Tokens.SourceMatches(record.source, remote) {
        return Err(EACCES);
      }
      var permissions, _ := LoadAuthorization(record.userId);
      if permissions.Err? { return Err(permissions.error); }
      var granted := permissions.value * scoped.value;
      if granted == {} { return Err(EACCES); }
      r := Ok(Identity(record.userId, user.username, granted, user.revision, user.epoch, false, false, true));
    }

    method ValidateToken(secret: Secret, now: nat, remote: seq<byte>) returns (r: Result<Tokens.Validated>)
      requires DigestsUnique(tokens)
      ensures r == Tokens.TokenValidate(State(), secret, now, remote)
    {
      if |secret| != SECRET_TEXT_SIZE || now == 0 || now > INT64_MAX || !AddressSize(|remote|) { return Err(EINVAL); }
      var digest := Digest(secret);
      if t :| t in tokens && tokens[t].digest == digest {
        assert Tokens.HasDigest(tokens, t, digest);
        if tokens[t].userId !in users { return Err(EACCES); }
        var identity := AuthorizeToken(t, now, remote);
        r := if identity.Ok? then Ok(Tokens.Validated(identity.value, t, tokens[t].rate)) else Err(identity.error);
      } else {
        r := Err(EACCES);
      }
    }

    method ReauthorizeToken(id: nat, now: nat, remote: seq<byte>) returns (r: Result<Identity>)
      ensures r == Tokens.TokenReauthorize(State(), id, now, remote)
    {
      if id == 0 || id > INT64_MAX || now == 0 || now > INT64_MAX || !AddressSize(|remote|) { return Err(EINVAL); }
      if id !in tokens || tokens[id].userId !in users { return Err(EACCES); }
      r := AuthorizeToken(id, now, remote);
    }

    method TouchToken(id: nat, now: nat) returns (r: Result<()>)
      modifies this`tokens
      ensures var tx := Tokens.TokenTouch(old(State()), id, now); State() == tx.db && r == tx.result
    {
      if id == 0 || id > INT64_MAX || now == 0 || now > INT64_MAX { return Err(EINVAL); }
      var cutoff := if now >= Tokens.TOUCH_INTERVAL then now - Tokens.TOUCH_INTERVAL else 0;
      if id in tokens && (tokens[id].lastUsedAt.None? || tokens[id].lastUsedAt.value <= cutoff) {
        if now < tokens[id].createdAt { return Err(EIO); }
        tokens := tokens[id := tokens[id].(lastUsedAt := Some(now))];
      }
      r := Ok(());
    }

    method RevokeToken(id: nat, now: nat) returns (r: Result<()>)
      modifies this`tokens
      ensures var tx := Tokens.TokenRevoke(old(State()), id, now); State() == tx.db && r == tx.result
    {
      if id == 0 || id > INT64_MAX || now == 0 || now > INT64_MAX { return Err(EINVAL); }
      if id !in tokens { return Err(ENOENT); }
      var row := tokens[id];
      if row.revokedAt.None? {
        if now < row.createdAt { return Err(EIO); }
        row := row.(revokedAt := Some(now), revision := row.revision + 1);
      }
      tokens := tokens[id := row];
      r := Ok(());
    }

    // ---- Certificate mappings ----

    method CreateMapping(config: Mtls.Config, now: nat, id: nat) returns (r: Result<Mapping>)
      modifies this`mappings
      ensures var tx := Mtls.MappingCreate(old(State()), config, now, id); State() == tx.db && r == tx.result
    {
      if now == 0 || now > INT64_MAX || !Mtls.ConfigValid(config) { return Err(EINVAL); }
      if config.notBefore > now || config.notAfter < now { return Err(EACCES); }
      if config.userId != 0 && config.userId !in users { return Err(ENOENT); }
      if exists m :: m in mappings && mappings[m].fingerprint == config.fingerprint { return Err(EEXIST); }
      var row := Mapping(config.fingerprint, if config.userId != 0 then Some(config.userId) else None,
                         if config.role != 0 then Some(config.role) else None, true, now, config.subject,
                         config.issuer, config.notBefore, config.notAfter, None, 1);
      mappings := mappings[id := row];
      r := if MappingRowOk(id, row, users) then Ok(row) else Err(EILSEQ);
    }

    method RevokeMapping(id: nat, now: nat) returns (r: Result<()>)
      modifies this`mappings
      ensures var tx := Mtls.MappingRevoke(old(State()), id, now); State() == tx.db && r == tx.result
    {
      if id == 0 || id > INT64_MAX || now == 0 || now > INT64_MAX { return Err(EINVAL); }
      if id !in mappings { return Err(ENOENT); }
      var row := mappings[id];
      if row.revokedAt.None? {
        if now < row.createdAt { return Err(EIO); }
        row := row.(revokedAt := Some(now), revision := row.revision + 1);
      }
      mappings := mappings[id := row.(enabled := false)];
      r := Ok(());
    }

    method AuthorizeMapping(fingerprint: seq<byte>, userId: UserId, now: nat) returns (r: Result<()>)
      ensures r == Mtls.MappingAuthorize(State(), fingerprint, userId, now)
    {
      if |fingerprint| != 32 || userId == 0 || userId > INT64_MAX || now == 0 || now > INT64_MAX {
        return Err(EINVAL);
      }
      var rows := if userId in roles then roles[userId] else [];
      if m :| m in mappings && Mtls.Authorizes(mappings[m], rows, fingerprint, userId, now) {
        r := Ok(());
      } else {
        r := Err(EACCES);
      }
    }
  }

  /** A corrupt role among the first rows makes the whole union corrupt. */
  lemma {:induction false} UnionFails(rows: seq<int>, n: nat)
    requires n <= |rows| && RoleUnion(rows[..n]) == Err(EILSEQ)
    ensures RoleUnion(rows) == Err(EILSEQ)
    decreases |rows|
  {
    if n == |rows| {
      assert rows[..n] == rows;
    } else {
      assert rows[..|rows| - 1][..n] == rows[..n];
      UnionFails(rows[..|rows| - 1], n);
    }
  }

  /** Storing one more distinct code. */
  lemma CodeStored(drawn: seq<Secret>, i: nat, now: nat)
    requires i < |drawn| && AllDistinct(drawn[..i]) && drawn[i] !in drawn[..i]
    ensures AllDistinct(drawn[..i + 1])
    ensures NewCodes(drawn[..i + 1], now) == NewCodes(drawn[..i], now)[Digest(drawn[i]) := RecoveryCode(now, None)]
  {
    assert drawn[..i + 1] == drawn[..i] + [drawn[i]];
    assert Digests(drawn[..i + 1]) == Digests(drawn[..i]) + {Digest(drawn[i])} by {
      forall d | d in Digests(drawn[..i]) ensures d in Digests(drawn[..i + 1]) {
        var k :| 0 <= k < i && d == Digest(drawn[..i][k]);
        assert d == Digest(drawn[..i + 1][k]);
      }
      assert Digest(drawn[..i + 1][i]) in Digests(drawn[..i + 1]);
    }
  }

  /** Text that ends at the first zero of a buffer is the text before that zero. */
  lemma Terminated(buffer: string, printed: string, text: string)
    requires |printed| < |buffer| && buffer[..|printed|] == printed && buffer[|printed|] == '\0' && '\0' !in printed
    requires text <= buffer && '\0' !in text && (|text| < |buffer| ==> buffer[|text|] == '\0')
    ensures text == printed
  {
    assert forall k :: 0 <= k < |printed| ==> printed[k] == buffer[k];
    assert |text| == |printed|;
  }
}
