/** Web sessions (src/common/account_session.c). */
module Sessions {
  import opened Base
  import opened Schema

  const LIFETIME_MIN: nat := 300
  const LIFETIME_MAX: nat := 604800
  const INACTIVITY_MIN: nat := 60
  const INACTIVITY_MAX: nat := 86400
  const TOUCH_INTERVAL: nat := 60

  datatype Issued = Issued(session: Secret, csrf: Secret, expiresAt: nat)

  /** `session` and `csrf` are the fresh secrets drawn for this session. */
  function SessionIssue(db: Db, identity: Identity, now: nat, lifetime: nat, remote: Option<seq<byte>>,
                        session: Secret, csrf: Secret): Tx<Issued> {
    if !Positive64(identity.userId) || !Positive64(identity.epoch) || !Positive64(now) || !RemoteValid(remote)
    then Tx(db, Err(EINVAL))
    else if identity.totpEnabled && !identity.mfaComplete then Tx(db, Err(EACCES))
    else if !(LIFETIME_MIN <= lifetime <= LIFETIME_MAX) then Tx(db, Err(ERANGE))
    else if now + lifetime > INT64_MAX then Tx(db, Err(EOVERFLOW))
    else if identity.userId !in db.users || !db.users[identity.userId].enabled
            || db.users[identity.userId].epoch != identity.epoch then Tx(db, Err(EACCES))
    else if Digest(session) in db.sessions then Tx(db, Err(EIO))
    else Tx(db.(sessions := db.sessions[Digest(session) :=
                  Session(identity.userId, Digest(csrf), now, now + lifetime, now, remote, identity.epoch)]),
            Ok(Issued(session, csrf, now + lifetime)))
  }

  function AddressMatches(session: Session, remote: Option<seq<byte>>): bool {
    session.remote.None? || session.remote == remote
  }

  /** The freshness, address and CSRF tests on a loaded session. */
  predicate Live(session: Session, user: User, csrf: Option<Digest>, now: nat, timeout: nat,
                 remote: Option<seq<byte>>) {
    && user.enabled
    && session.epoch == user.epoch
    && session.expiresAt > now
    && session.lastSeenAt <= now
    && now - session.lastSeenAt <= timeout
    && AddressMatches(session, remote)
    && (csrf.Some? ==> csrf.value == session.csrf)
  }

  function Authorize(db: Db, digest: Digest, csrf: Option<Digest>, now: nat, timeout: nat,
                     remote: Option<seq<byte>>): Result<Identity> {
    if digest !in db.sessions || db.sessions[digest].userId !in db.users then Err(EACCES)
    else
      var session := db.sessions[digest];
      var user := db.users[session.userId];
      if !SessionRowOk(session, user) then Err(EILSEQ)
      else if !Live(session, user, csrf, now, timeout, remote) then Err(EACCES)
      else match LoadPermissions(db.roles, session.userId)
        case Err(e) => Err(e)
        case Ok(permissions) =>
          Ok(Identity(session.userId, user.username, permissions, user.revision, user.epoch, user.forceChange,
                      TotpEnabled(db.totp, session.userId), true))
  }

  function SessionValidate(db: Db, session: Secret, csrf: Option<Secret>, now: nat, timeout: nat,
                           remote: Option<seq<byte>>): Result<Identity> {
    if |session| != SECRET_TEXT_SIZE || !Positive64(now) || !RemoteValid(remote)
       || (csrf.Some? && |csrf.value| != SECRET_TEXT_SIZE) then Err(EINVAL)
    else if !(INACTIVITY_MIN <= timeout <= INACTIVITY_MAX) then Err(ERANGE)
    else Authorize(db, Digest(session), if csrf.Some? then Some(Digest(csrf.value)) else None, now, timeout, remote)
  }

  function SessionReauthorize(db: Db, digest: Digest, now: nat, timeout: nat, remote: Option<seq<byte>>)
    : Result<Identity>
  {
    if !Positive64(now) || !RemoteValid(remote) then Err(EINVAL)
    else if !(INACTIVITY_MIN <= timeout <= INACTIVITY_MAX) then Err(ERANGE)
    else Authorize(db, digest, None, now, timeout, remote)
  }

  /** One activity write, skipped within the touch interval. */
  function Touched(session: Session, now: nat): Session {
    if session.lastSeenAt <= (if now >= TOUCH_INTERVAL then now - TOUCH_INTERVAL else 0)
    then session.(lastSeenAt := now) else session
  }

  function SessionTouch(db: Db, session: Secret, now: nat): Tx<()> {
    if |session| != SECRET_TEXT_SIZE || !Positive64(now) then Tx(db, Err(EINVAL))
    else if Digest(session) !in db.sessions then Tx(db, Ok(()))
    else
      var touched := Touched(db.sessions[Digest(session)], now);
      if touched.lastSeenAt < touched.createdAt then Tx(db, Err(EIO))
      else Tx(db.(sessions := db.sessions[Digest(session) := touched]), Ok(()))
  }

  function SessionRevoke(db: Db, session: Secret): Tx<()> {
    if |session| != SECRET_TEXT_SIZE then Tx(db, Err(EINVAL))
    else Tx(db.(sessions := db.sessions - {Digest(session)}), Ok(()))
  }

  function SessionsRevokeAll(db: Db, id: UserId): Tx<()> {
    if !Positive64(id) then Tx(db, Err(EINVAL))
    else if id !in db.users then Tx(db, Err(ENOENT))
    else if !CanAdvance(db.users[id]) then Tx(db, Err(EIO))
    else Tx(db.(users := db.users[id := Advanced(db.users[id])],
                sessions := WithoutSessionsOf(db.sessions, id)), Ok(()))
  }
}
