# JanusGate accounts and audit chain, verified

A Dafny model of the account database and the audit log of JanusGate, with
proofs about every run of them.

**Accounts.** Users, roles, web sessions, API tokens, TOTP credentials, recovery
codes, the bootstrap credential and client-certificate mappings live in SQLite
tables that about twenty operations change. `Schema` holds the tables as maps.
`Users`, `Sessions`, `Totp`, `Tokens` and `Mtls` describe each operation as one
function from tables to tables and a result. `Store.AccountStore` is the same
code in the source's form: tables updated in place, statement by statement,
inside transactions that commit or roll back; each of its methods is proved to
do what the function says. `World` lets any number of callers interleave: a
login is two steps, a TOTP completion four, and a change of one's own password
three with a login between each two, and anything may come in between.
`Replay` performs the actions of any run on a store, read by read, and ends with
the tables of that run and with callers that hold its unfinished logins, TOTP
completions and password changes and its identities, so what is proved about runs
is proved about the code in place.
`Invariant`, the `Keep*` modules and `Reach` prove what every world of every run
satisfies. The remaining modules draw the conclusions, and `Restore` says how far
they reach when a backup is put back.

The central fact is that a user's authentication state is a function of its
session epoch: between two worlds of a run either the epoch grew, or nothing
changed but more recovery codes being spent (`Reach.RunAdvances`). That is why
a validated session may claim complete multifactor authentication without
checking anything, why a password change may carry that claim over to the next
session, and why the unprotected reads of a TOTP completion are safe.

**Audit log.** `AuditFormat` is the byte encoding that is hashed, `AuditHash` its
computation piece by piece, `AuditChain` the table with append and verification,
and `AuditEvidence` what a successful verification is worth. The hash is a
parameter about which nothing is assumed: where an injective hash would be
needed, the two colliding inputs, taken from the chains at hand, are exhibited.

**Below both.** `Access` (roles, scope lists), `Network` (source networks of
tokens), `BigEndian` and `Utf8`.

## Premises

- Write transactions are atomic and serialised; one read statement sees one state.
- SQLite assigns row identifiers that are positive and not in use; audit row
  identifiers increase.
- Drawn session, token and recovery secrets have digests never issued before. A
  digest determines its secret, a password hash its password, a sealed TOTP secret
  its key and secret. Whether a TOTP code is right is a parameter.
- Identities passed to session issue and recovery come from an earlier password,
  TOTP or recovery authentication or are the one that a password change makes of a
  login and a session (`src/daemon/management_identity.c:905`), those passed to TOTP
  completion from one of these or from a validated session. Token identities are not
  among them. These are all the callers in `src/daemon/management_identity.c`.
- Table constraints hold: a write that would break a CHECK or UNIQUE clause of
  `src/common/database.c`, or push a counter past the signed 64-bit range, fails
  with an I/O error and is rolled back. With them no premise about the clock is
  needed anywhere.
- A run holds no full restore and no restore of a recovery checkpoint
  (`src/common/database.c:2249` and `2362`, reached from
  `src/daemon/management_backup.c:1336` and `src/daemon/management_recovery.c:618`).
  These put a whole account database back: users can disappear, epochs go back, and
  revoked tokens, ended sessions and spent recovery codes are live again
  (`docs/recovery.md:49-52`). Every result about the rest of a run ends at one.
  `Restore` has timelines with restores in them and says what survives: everything
  proved of one world of a run holds of every world of a timeline, and everything
  proved of several worlds holds of a stretch without a restore. A restored archive
  is a world of some run, of this appliance or another, and callers hold nothing
  across a restore but what the archive knows of. Between restores no operation of
  the source deletes a user.

## Where the code decides

- A plain user can be created while no administrator exists, so the law is that
  an administrator, once there, remains; not that users imply an administrator.
- A 64-bit big-endian write into a buffer with room for four to seven bytes writes
  the high half and then fails. The 16- and 32-bit writers leave the buffer alone.
- The delay never refuses the right password, but two other things do. A policy of
  another cost whose lengths the password does not meet refuses the rehash with
  ERANGE (`Backoff.RehashLocksOut`), and a rehash by another login between the two
  parts of a login turns it away with EAGAIN (`Backoff.RehashTurnsAway`).
  `Backoff.RightPasswordLogsIn` and `Backoff.InterleavedLogin` say exactly when.
- Nothing that is revoked stays revoked across a full restore: whatever a step did, an
  archive from before it undoes (`Restore.RestoreUndoes`), so tokens, sessions,
  certificates and recovery codes that ended are good again. The stretches without a
  restore keep what is proved about the rest of a run (`Restore.StretchIsRun`).
- A session need not have a second factor of its own epoch. Whoever changes the own
  password gets a new session on the factor behind the old one, in the next epoch and
  without another code (`OlderFactor.FactorOfAnEarlierEpoch`). What holds is that the
  factor is of the present enrolment and that only such changes came since; it is of the
  present epoch exactly if none did (`Origins.FactorEpochIsCurrent`).
- Cutting off the newest rows of the audit log is never reported; only the number
  of rows and the newest digest show it. The restore of a recovery checkpoint does
  just that to the rows appended since.
- A visit 59 seconds after the last recorded one is not recorded, so gaps between
  visits are safe up to the inactivity limit less 59 seconds and not beyond.

## Model

| member | source | states |
|---|---|---|
| SecondFactor.ValidatedSessionIsComplete | src/common/account_session.c:323-414 | In every world of every run, a session that validates was issued from a grant made with the user's present password and, if TOTP is enabled, with a right code for the enabled secret or a now spent recovery code under the present enrolment; so the unconditional `mfa_complete` is sound. |
| SecondFactor.ReauthorizedSessionIsComplete | src/common/account_session.c:451-523 | The same for reauthorisation by digest. |
| Origins.StoredSessionOrigin | src/common/account_session.c:97-150 | Every stored session goes back to steps of the run: under the present epoch the commit of a password login of its owner, one, the same or later, that handed out a complete identity of it, and one that issued the session from just that identity; and, under the present credential and enrolment, the one that accepted the second factor, since when the owner's epoch moved only with changes of the own password, once with each. |
| Origins.SessionOrigin | src/common/account_session.c:323-414 | So does every session that validates. |
| Origins.FactorEpochIsCurrent | src/daemon/management_identity.c:893-908 | The second factor of a session was accepted under the present epoch exactly if the owner has not changed the own password since. |
| Origins.FactorOrigin | src/daemon/management_identity.c:893-908 | The same for every identity that could issue a session now, through any number of password changes. |
| Origins.ChangeOrigin | src/daemon/management_identity.c:793-882 | Behind a change of the own password are, under the epoch that it ends, a validated session of that user and the commit of a login by the password then current, which is not the new one. |
| Origins.RenewalFindsSameFactor | src/daemon/management_identity.c:893-904 | Over any run, a login at the revision that the reset returned finds TOTP as the session found it: comparing that too never refuses. |
| Origins.PasswordOrigin | src/common/account_totp.c:550-706 | Behind every identity handed out in a run, however often completed, resumed or renewed, is the commit of a password login of the same user under the same epoch. |
| Renewal.PasswordChangeRenews | src/daemon/management_identity.c:793-908 | From every session that validates at the end of a run, a password change with nothing in between goes through: the old session is refused, the new one validates as the same identity one revision and epoch later, on the same second factor. |
| OlderFactor.FactorOfAnEarlierEpoch | src/daemon/management_identity.c:905-907 | A run, for all passwords, recovery codes and secrets of the right form, that ends with a valid session whose second factor was accepted under an earlier epoch. |
| SecondFactor.TotpCompletionIsSafe | src/common/account_totp.c:550-603 | For four reads at any points of a run: if the epoch returned is current at some later point, the code was checked against the secret enabled there, that credential was in force ever since, and permissions and revision are the current ones. |
| Reach.RunKeeps | src/common/account.c:861-994 | Every world of every run satisfies the invariant over all tables and all identities handed out. |
| Reach.RunAdvances | src/common/account_totp.c:338-389 | Between two worlds of a run each user's roles, enablement, password, credential and enrolment are unchanged, or its epoch grew. |
| Growth.RunContinues | src/common/account_session.c:526-565 | Between two worlds of a run ended sessions stay ended, token and mapping revocations stand, a certificate gets no second mapping, and an administrator remains. |
| Restore.WorldsAreReachable | src/common/database.c:2362-2446 | Every world of a timeline, whatever was put back before it, ends some run without restores, so whatever holds of one world of a run holds of it. |
| Restore.TimelineKeeps | src/common/database.c:2199-2246 | In particular the invariant over all tables and identities. |
| Restore.StretchIsRun | src/common/database.c:2249-2298 | A stretch of a timeline without a restore is the end of some run, so whatever holds of several worlds of a run holds of its worlds. |
| Restore.StretchContinues | src/common/database.c:2362-2446 | In particular users only advance and nothing that ended comes back. |
| Restore.RestoreUndoes | src/common/database.c:2362-2446 | Whatever one step after a run did, putting back an archive from before it undoes. |
| Restore.RestoreRevivesToken | src/common/database.c:2362-2446 | Any token that authorises at the end of a run can be revoked, be dead, and authorise again after an archive from before is put back. |
| Restore.RestoreRevivesSession | src/common/database.c:2362-2446 | Any session that validates can be ended and validate again. |
| Restore.RestoreRevivesCode | src/common/database.c:2362-2446 | Any recovery code that logs a user in can be spent, so that no recovery of the user takes it, and log in again. |
| Restore.RestoreRevivesCertificate | src/common/database.c:2362-2446 | Any certificate that authorises can be revoked, authorise nobody, and authorise again. |
| Restore.TokensAuthorise | src/common/account_token.c:193-253 | There are such tokens, for every password, policy and scopes that are valid. |
| Revocation.SessionsCarryTheEpoch | src/common/account_session.c:568-640 | In every world a user's revision equals its epoch and every stored session carries its owner's epoch. |
| Revocation.EarlierSessionNeverValidates | src/common/account_session.c:323-414 | Once its owner's epoch moved, a session stored before never validates or reauthorises again. |
| Revocation.EarlierIdentityOpensNothing | src/common/account_session.c:97-150 | An identity handed out before the epoch moved issues no session afterwards and changes nothing. |
| Revocation.EarlierIdentityCompletesNothing | src/common/account_totp.c:537-547 | Nor can it be completed by a TOTP code, whatever the later reads find, or by a recovery code. |
| Revocation.InvalidationIsFinal | src/common/account_totp.c:338-389 | After a successful update, password reset or change, TOTP confirmation or removal, or revoke-all, every earlier session of the user is gone and every earlier identity is stale for the rest of the run. |
| Passwords.HashVerifiesLastPassword | src/common/account.c:997-1104 | Whatever logins, rehashes and resets interleave, the stored hash verifies a password exactly if it is the last one set by a successful create, reset or change. |
| Passwords.StaleLoginCommitsNothing | src/common/account.c:1512-1574 | A login whose first read came before the epoch moved ends in EAGAIN and writes neither failure, success nor rehash. |
| Passwords.LoginReturnsOneState | src/common/account.c:1469-1579 | A successful login returns epoch, revision, permissions and TOTP state of one committed state, and presented the password set last. |
| Backoff.LoginLockDelay | src/common/account.c:1218-1229 | The doubling loop computes min(2^(n-1), 3600). |
| Backoff.FailuresKeepTheirDistance | src/common/account.c:1232-1279 | Of the failures counted since the last success or password change, number k comes at least the sum of the first k delays after the first; the stored counter is their number, saturated. |
| Backoff.LockIsIrrelevant | src/common/account.c:1517-1551 | With the right password neither half of a login, each on its own database, depends on lock time or failure count. |
| Backoff.RightPasswordLogsIn | src/common/account.c:1469-1579 | In every world and for all arguments, the exact outcome of a login with the last password set when nothing comes between its halves; no lock or failure count occurs in it. |
| Backoff.InterleavedLogin | src/common/account.c:1525-1579 | A login begun anywhere in a run with the right password and committed anywhere later succeeds exactly if epoch, revision, enablement, forced change and stored hash are those it read and the account is not younger than its clock; otherwise it changes nothing. |
| Backoff.RehashTurnsAway | src/common/account.c:1183-1193 | A run, for every password and pair of policies that it meets and that differ in cost: of two logins begun at once after the change, the first commit rehashes and turns the second away. |
| Backoff.RehashLocksOut | src/common/account.c:1520-1524 | A run, for every password and change to a policy of another cost whose lengths it does not meet: the login is refused before the transaction. |
| Administrators.AdministratorRemains | src/common/account.c:898-906 | Once an enabled administrator exists, every later world has one. |
| Growth.UpdateKeepsAdministrators | src/common/account.c:582-612 | No update removes the last enabled administrator. |
| Administrators.FirstIsAdministrator | src/common/account.c:228-306 | The first administrator is afterwards the only enabled administrator. |
| Administrators.AnyUserEndsBootstrap | src/common/account.c:130-182 | From the first user on, issuing a bootstrap token and creating a first administrator fail for all arguments and change nothing. |
| Administrators.OneFirstAdministrator | src/common/account.c:339-404 | Over any run at most one creation of a first administrator succeeds. |
| Administrators.OnlyTheLatestToken | src/common/account.c:185-225 | It succeeds only with the token of the last successful issue, before its expiry. |
| Recovery.TenCodesWhileEnabled | src/common/account_totp.c:253-305 | Used and unused together a user has exactly ten recovery codes while TOTP is enabled and none otherwise. |
| Recovery.CodeWorksOnce | src/common/account_totp.c:606-647 | A code that logged a user in never does so again in the run. |
| Recovery.TenRecoveriesPerEnrolment | src/common/account_totp.c:650-706 | A stretch of a run without a new confirmation has at most ten successful recovery logins of a user. |
| TokenLaws.AuthorizesExactly | src/common/account_token.c:757-779 | When and what a stored token authorises, said in terms of the request at issue instead of the stored text and network; both directions. |
| TokenLaws.TokenGrantsTheIntersection | src/common/account_token.c:835-905 | From its issue on a token that reauthorises grants exactly the owner's current permissions intersected with the scopes asked for, which the owner held then, and only to peers in the configured network before expiry. |
| TokenLaws.ValidatedTokenGrantsTheIntersection | src/common/account_token.c:721-805 | So does a token that validates by its secret, with its own identifier and rate. |
| TokenLaws.ValidationAgrees | src/common/account_token.c:518-656 | Validation by secret authorises exactly what reauthorisation by identifier does. |
| TokenLaws.RevokedTokenStaysRevoked | src/common/account_token.c:908-950 | A revoked token authorises nobody for the rest of the run; revocation time and revision stay. |
| TokenLaws.RevocationByAnyPathIsFinal | src/common/account.c:550-579 | So after revoking it, disabling its owner, or resetting or changing the owner's password; its revision moved exactly once. |
| Certificates.RevokedCertificateStaysRevoked | src/common/account_mtls.c:484-537 | A certificate whose mappings are revoked authorises nobody for the rest of the run and gets no new mapping. |
| Certificates.RevocationEndsCertificate | src/common/account_mtls.c:438-481 | So after any successful revocation of a mapping. |
| Certificates.RevokeIsIdempotent | src/common/account_mtls.c:438-481 | Revoking again changes nothing and still succeeds. |
| Certificates.CreationIsSafe | src/common/account_mtls.c:198-308 | Whatever runs between the three statements of a creation, a user found is still there, and what is read back decodes and is the inserted row, at most revoked since. |
| Certificates.CertificateAuthorizesExactly | src/common/account_mtls.c:484-537 | In every world a certificate authorises a user exactly if some step of the run created a mapping of it that no later step revoked, that is valid at the time, and that names the user or a role the user has now; whether the user is enabled is not asked. |
| Readers.UsersAlwaysRead | src/common/account.c:429-521 | Every user of every world loads, for administration and for login. |
| Readers.LoginNeverCorrupt | src/common/account.c:1107-1180 | Neither read of a login meets a corrupt row. |
| Readers.SessionsNeverCorrupt | src/common/account_session.c:169-262 | No session read meets a corrupt row. |
| Readers.TotpNeverCorrupt | src/common/account_totp.c:464-534 | Nor does a TOTP completion whose reads see different worlds. |
| Readers.RecoveryNeverCorrupt | src/common/account_totp.c:650-706 | Nor does a recovery login. |
| Readers.TokensAlwaysRead | src/common/account_token.c:256-338 | Every stored token can be listed and its scope text parses. |
| Readers.TokensNeverCorrupt | src/common/account_token.c:518-656 | No token validation meets a corrupt row, whatever secret is presented. |
| Readers.MappingsAlwaysRead | src/common/account_mtls.c:89-158 | Every stored mapping decodes. |
| Readers.LookupsAreUnique | src/common/account_token.c:518-656 | User names and token digests identify at most one row. |
| Activity.ActivityWritesAreApart | src/common/account_session.c:281-320 | Over any stretch of a run a session's activity is unwritten or at least a minute later; expiry, owner, epoch and address never change. |
| Activity.RefusedOnlyForCause | src/common/account_session.c:377-385 | The complete outcome of validating a stored session in any world: refused only for malformed arguments, expiry, inactivity, a clock behind its activity, address or CSRF; enablement and epoch never decide. |
| Activity.ActivityFollows | src/common/account_session.c:281-320 | However a run interleaves, the stored activity is at most the last touch of the session and lags it by less than a minute. |
| Activity.ActiveClientNeverIdles | src/common/account_session.c:377-385 | So a session still stored validates before expiry for a client back within the limit less 59 seconds of its last visit, whatever else ran. |
| Activity.SilentClientIdles | src/common/account_session.c:377-385 | And is refused once every visit is longer ago than the limit, whatever else ran and whatever the clocks of the visits did. |
| Activity.LongerGapIdles | src/common/account_session.c:417-448 | One second more than that gap and it can idle out, for every limit. |
| Replay.Perform | include/janusgate/account.h:13-14 | Any step of a world that satisfies the invariant, performed in place and read by read, leaves the tables of the next world and the attempts, readings, password changes and identities its history records. |
| Replay.PerformRun | include/janusgate/account.h:13-14 | So does a whole run on an empty store. |
| Store.AccountStore.Rollback | src/common/database.c:1640-1660 | Restores every table as it was when the transaction began. |
| Store.AccountStore.Close | src/common/account.c:983-990 | Keeps the writes on success and undoes them all otherwise. |
| Store.AccountStore.RevokeUserTokens | src/common/account.c:550-579 | Exactly the user's unrevoked tokens are revoked, or none if the schema refuses. |
| Store.AccountStore.AdvanceUserEpoch | src/common/account_totp.c:338-389 | Epoch and revision move together and the sessions go, or nothing changes. |
| Store.AccountStore.LoadRoles | src/common/account.c:1365-1381 | The loop computes the union over the role rows; an unknown role or no permission is corrupt. |
| Store.AccountStore.LoadAuthorization | src/common/account.c:1343-1422 | The permissions, and whether TOTP is enabled. |
| Store.AccountStore.IssueBootstrap | src/common/account.c:130-182 | New tables and result are those of `Users.BootstrapIssue`. |
| Store.AccountStore.ConsumeBootstrap | src/common/account.c:309-336 | Consumes once, not before creation. |
| Store.AccountStore.CreateFirstAdministrator | src/common/account.c:339-404 | New tables and result are those of `Users.CreateInitialAdministrator`, partial writes undone. |
| Store.AccountStore.LoadUser | src/common/account.c:482-521 | The administrative view of a user, or why there is none. |
| Store.AccountStore.CreateUser | src/common/account.c:726-858 | New tables and result are those of `Users.UserCreate`. |
| Store.AccountStore.WriteUpdate | src/common/account.c:907-977 | The four writes of an update, and when the schema refuses one. |
| Store.AccountStore.UpdateUser | src/common/account.c:861-994 | New tables and result are those of `Users.UserUpdate`, partial writes undone. |
| Store.AccountStore.WriteReset | src/common/account.c:1040-1086 | The three writes of a reset, and when the schema refuses one. |
| Store.AccountStore.ResetUserPassword | src/common/account.c:997-1104 | New tables and result are those of `Users.ResetPassword`, partial writes undone. |
| Store.AccountStore.FindByName | src/common/account.c:1107-1180 | Finds the user of that name, if any. |
| Store.AccountStore.BeginLogin | src/common/account.c:1496-1524 | The part of a login before its transaction is `Users.LoginRead`. |
| Store.AccountStore.RecordFailure | src/common/account.c:1232-1279 | Counts one failure, saturated, and sets the lock by the delay loop. |
| Store.AccountStore.FinishLogin | src/common/account.c:1525-1579 | The login transaction is `Users.LoginCommit`; a success is undone if the authorization cannot be loaded. |
| Store.AccountStore.InsertSession | src/common/account_session.c:20-94 | Inserts only for an enabled user at the same epoch. |
| Store.AccountStore.IssueSession | src/common/account_session.c:97-150 | New tables and result are those of `Sessions.SessionIssue`. |
| Store.AccountStore.AuthorizeSession | src/common/account_session.c:363-409 | The freshness, address and CSRF tests, then the permissions now. |
| Store.AccountStore.ValidateSession | src/common/account_session.c:323-414 | The result is that of `Sessions.SessionValidate`. |
| Store.AccountStore.ReauthorizeSession | src/common/account_session.c:451-523 | The result is that of `Sessions.SessionReauthorize`. |
| Store.AccountStore.TouchSession | src/common/account_session.c:417-448 | New tables and result are those of `Sessions.SessionTouch`. |
| Store.AccountStore.RevokeSession | src/common/account_session.c:526-565 | New tables and result are those of `Sessions.SessionRevoke`. |
| Store.AccountStore.RevokeAllSessions | src/common/account_session.c:568-640 | New tables and result are those of `Sessions.SessionsRevokeAll`. |
| Store.AccountStore.ProvisionTotp | src/common/account_totp.c:163-233 | New tables and result are those of `Totp.TotpProvision`. |
| Store.AccountStore.StoreRecoveryCodes | src/common/account_totp.c:253-305 | The insert loop stores exactly the drawn codes, or fails on a repeated one. |
| Store.AccountStore.EnableTotp | src/common/account_totp.c:433-445 | The writes of a confirmation in turn, and which of them is refused. |
| Store.AccountStore.ConfirmTotp | src/common/account_totp.c:392-461 | New tables and result are those of `Totp.TotpConfirm`, partial writes undone. |
| Store.AccountStore.RemoveTotp | src/common/account_totp.c:738-766 | The deletions and the epoch step of a removal. |
| Store.AccountStore.DisableTotp | src/common/account_totp.c:709-783 | New tables and result are those of `Totp.TotpDisable`. |
| Store.AccountStore.LoadCurrentIdentity | src/common/account_totp.c:464-534 | The identity of an enabled user now. |
| Store.AccountStore.CheckTotpCode | src/common/account_totp.c:579-598 | The result is that of `Totp.CheckCode`. |
| Store.AccountStore.AuthenticateTotp | src/common/account_totp.c:550-603 | Undisturbed, the result is that of `Totp.TotpAuthenticate` on one state. |
| Store.AccountStore.ConsumeRecoveryCode | src/common/account_totp.c:606-647 | Marks one unused code used, or changes nothing. |
| Store.AccountStore.AuthenticateRecovery | src/common/account_totp.c:650-706 | New tables and result are those of `Totp.RecoveryAuthenticate`. |
| Store.AccountStore.FormatScopes | src/common/account_token.c:227-231 | The scope text always fits its buffer and is the canonical text. |
| Store.AccountStore.CanonicalSource | src/common/account_token.c:87-190 | Stores the network with its host bits cleared. |
| Store.AccountStore.IssueToken | src/common/account_token.c:193-253 | New tables and result are those of `Tokens.TokenIssue`. |
| Store.AccountStore.AuthorizeToken | src/common/account_token.c:757-779 | The checks on a loaded token, then the intersection of permissions. |
| Store.AccountStore.ValidateToken | src/common/account_token.c:721-805 | The result is that of `Tokens.TokenValidate`. |
| Store.AccountStore.ReauthorizeToken | src/common/account_token.c:835-905 | The result is that of `Tokens.TokenReauthorize`. |
| Store.AccountStore.TouchToken | src/common/account_token.c:808-832 | New tables and result are those of `Tokens.TokenTouch`. |
| Store.AccountStore.RevokeToken | src/common/account_token.c:908-950 | New tables and result are those of `Tokens.TokenRevoke`. |
| Store.AccountStore.CreateMapping | src/common/account_mtls.c:198-308 | New tables and result are those of `Mtls.MappingCreate`. |
| Store.AccountStore.RevokeMapping | src/common/account_mtls.c:438-481 | New tables and result are those of `Mtls.MappingRevoke`. |
| Store.AccountStore.AuthorizeMapping | src/common/account_mtls.c:484-537 | The result is that of `Mtls.MappingAuthorize`. |
| AuditFormat.CheckEvent | src/common/audit.c:105-150 | Accepts exactly the valid events; EOVERFLOW exactly for a value past the signed range in an event whose actor and revisions are otherwise valid, EINVAL for every other. |
| AuditFormat.UniquelyDecodable | src/common/audit.c:202-234 | Equal hashed bytes of valid events imply equal predecessor and equal fields. |
| AuditHash.HashState.UpdateU64 | src/common/audit.c:159-165 | Absorbs a big-endian 64-bit integer. |
| AuditHash.HashState.UpdateText | src/common/audit.c:168-178 | Absorbs a length-prefixed text. |
| AuditHash.HashState.UpdateOptionalText | src/common/audit.c:181-188 | Absorbs a presence flag and, if present, the text. |
| AuditHash.HashState.UpdateOptionalU64 | src/common/audit.c:191-199 | Absorbs a presence flag and, if present, the integer. |
| AuditHash.ComputeEventHash | src/common/audit.c:202-234 | The streamed digest is the hash of the canonical bytes. |
| AuditChain.MaterialOfNewRow | src/common/audit.c:292-371 | A stored row reads back as its event. |
| AuditChain.RowOfMaterial | src/common/audit.c:570-599 | Rows that read as the same event with the same digests differ at most in identifier. |
| AuditChain.VerifyRow | src/common/audit.c:765-806 | A row passes exactly if it is well formed, linked and correctly hashed. |
| AuditChain.AuditLog.Verify | src/common/audit.c:809-862 | Valid exactly if every row passes; otherwise the earliest failing row is named. |
| AuditChain.AuditLog.Append | src/common/audit.c:420-469 | Links to the newest row, and exactly when and with which error it refuses. |
| AuditEvidence.AppendedChainsVerify | src/common/audit.c:420-469 | Any chain built only by successful appends verifies. |
| AuditEvidence.AppendsNeverHide | src/common/audit.c:809-862 | Later appends never change the report on a broken chain. |
| AuditEvidence.SameHeadSameChain | src/common/audit.c:765-806 | Two verified chains of equal length and newest digest agree row by row but for identifiers, or two of their rows collide. |
| AuditEvidence.ChangesAreEvident | src/common/audit.c:809-862 | Changing any row of a verified chain is reported, changes the newest digest, or exhibits a collision. |
| AuditEvidence.TruncationIsNotReported | src/common/audit.c:809-862 | Cutting off the newest rows leaves a chain that verifies; only the number of rows shows it, and the newest digest unless rows collide or one digest is all zero. |
| AuditEvidence.DifferentLengths | src/common/audit.c:237-272 | For different lengths the longer chain would also need an all-zero digest at one named row. |
| Utf8.TextValid | src/common/checked.c:125-172 | Accepts exactly the encodings of texts of printable scalar values (sections 3 and 4 of RFC 3629); no index is out of bounds. |
| Utf8.AcceptsExactlyUtf8 | src/common/checked.c:125-172 | The accepting recursion and the standard's encoding agree in both directions. |
| Utf8.EncodingIsUnique | src/common/checked.c:125-172 | No byte string encodes two texts. |
| BigEndian.ReadU16 | src/common/checked.c:36-48 | Reads in range exactly the value of the two bytes. |
| BigEndian.ReadU32 | src/common/checked.c:51-64 | Reads in range exactly the value of the four bytes. |
| BigEndian.ReadU64 | src/common/checked.c:67-81 | Reads in range exactly the value of the eight bytes. |
| BigEndian.WriteU16 | src/common/checked.c:84-95 | Replaces exactly two bytes, or nothing. |
| BigEndian.WriteU32 | src/common/checked.c:98-111 | Replaces exactly four bytes, or nothing. |
| BigEndian.WriteU64 | src/common/checked.c:114-122 | Replaces exactly eight bytes; on failure exactly the high half or nothing. |
| BigEndian.WrittenReadsBack | src/common/checked.c:84-122 | What was written reads back at every width and the rest of the buffer is untouched. |
| BigEndian.BytesOfValue | src/common/checked.c:36-81 | Encoding the value of bytes gives the bytes back. |
| Network.CanonicalizeSourceAddress | src/common/account_token.c:39-58 | Clears exactly the host bits, in place, and the unused rest of the buffer. |
| Network.StoredNetworkMatches | src/common/account_token.c:659-679 | A peer matches the stored network exactly if its leading bits equal those of the address as configured (section 3.1 of RFC 4632, section 2.3 of RFC 4291). |
| Network.CanonicalIdempotent | src/common/account_token.c:39-58 | Clearing host bits twice is clearing them once. |
| Access.FindScope | src/common/access.c:55-66 | The search loop finds the first exact name. |
| Access.ScopeParse | src/common/access.c:69-108 | The parser's loops compute `Access.Parse`. |
| Access.ParseExactly | src/common/access.c:69-108 | Parsing accepts exactly the comma-joined lists of distinct known names, in any order, and returns their set. |
| Access.AppendText | src/common/access.c:111-124 | Appends in place exactly if text and terminator fit, else leaves the buffer alone. |
| Access.ScopeFormat | src/common/access.c:127-159 | Writes the canonical text, or ENOSPC exactly if it does not fit, or EINVAL. |
| Access.RoundTrip | src/common/access.c:127-159 | Parsing a formatted mask returns it, for every nonzero defined mask. |
| Access.CanonicalReordering | src/common/access.c:127-159 | Formatting a parsed list gives the same names in vocabulary order. |
| Access.ListFits | src/common/access.c:69-108 | The 192-byte limit never rejects a list of distinct names. |

## Left out

- SQLite itself: statement preparation, binding, error translation and busy handling.
- Cryptography: Argon2id, the TOTP computation, XChaCha20, BLAKE2b, randomness, constant-time comparison and clearing of secrets.
- Null arguments, and output records cleared on failure.
- The loops of the field validators for user names, token names and certificate names: they are predicates here.
- Full restores and recovery checkpoint restores: how an archive is read, checked, merged with retained history and copied (`src/common/database.c:2199-2446`); `Restore` takes only the database that is put back.
- Configuration restores, which keep the account tables.
- Listing and paging of users, tokens, mappings and audit records.
- `jg_size_add` and `jg_size_multiply`: one comparison each.
- The unknown-user timing work, beyond its effect on the result.
- SQLite choosing a random row identifier once the largest one is in use.
- The overflow test of the audit verifier's record counter.
- Of a password change, the request and its fields, the retry limit of requests, and the audit record; a reset rolled back for want of one is no step.
- Alert configuration, the command-line tool, HTTP and IPC transport, policy, packet and DNS code.
- Store.AccountStore.AuthenticateTotp: runs its reads undisturbed; interleaved reads are steps of `World`, performed by `Replay`.
- Store.AccountStore.CreateMapping: runs the three statements of the source undisturbed; what can come between them is in `Certificates.CreationIsSafe`.
- Recovery.CodeWorksOnce: rests on the premise that drawn codes are never drawn again.
