# Unauthenticated account and session repository, in Dafny

This project models the transaction engine behind the unauthenticated side
of an authentication service: registering an account (`CreateUser`),
logging in (`Login`), verifying an email address (`VerifyEmail`), rotating
a refresh token (`RefreshToken`), requesting and performing a password
reset (`RequestPasswordReset`, `ResetPassword`), and the read-only lookups
beside them. There are five logical tables: users, sessions, refresh
tokens, email verifications and reset codes.

Each operation opens a transaction and runs a fixed sequence of lookups,
validity checks and writes against storage capabilities (savers,
updaters, deleters). Then it either commits or returns early. An early
return leaves the transaction to the deferred rollback.

Layout:

- `Types.dfy` (`AuthTypes`): the records, the gRPC status codes, the time
  constants (24 hours, 7 days, one year) and the failure points (`Fault`).
- `Tables.dfy` (`Tables`): the five tables as one value (`Store`), the
  reads and single-table writes the capabilities perform, and the store
  invariant `Valid`.
- `Effects.dfy` (`Effects`): for each operation, a function giving the
  status it returns and the committed tables afterwards. It is stated all
  at once: either every write of the operation is visible, or none is.
- `Transaction.dfy` (`Transaction`): class `Tx`, the transaction's private
  working copy, with one method per storage capability.
- `Repository.dfy` (`Repository`): class `UnauthenticatedRepository`,
  holding the committed tables. It has `Begin`, `Commit`, the provider
  reads, and the operations written as the source writes them (step by
  step on a `Tx`, returning early on error). Each operation is proved to
  have exactly the effect its `Effects` function states.
- `Properties.dfy` (`Properties`): properties that span several calls.
  These are invariant preservation over any history of calls (`Run`),
  use-once codes and tokens, the expiry boundary, register-then-login, and
  the password-reset finding below.

Inputs taken as parameters: the current time `now` (an integer number of
seconds), the values the source generates (`Generated`: new user id,
session id, verification code, access token, refresh token), the
password hash `hashed` that `hashPassword` would produce, the password
check `verify` (an arbitrary `(hash, password) -> bool`), the device name
and the request's IP address, and the set of steps that fail on this call
(`faults`).

Storage assumptions. The capability implementations are not part of this
model, so their behaviour is taken from the call sites:

- an insert fails when its key is taken: a user's id or email, a session
  id, a refresh-token string, or a (user id, code) pair;
- an update of a missing user row changes nothing and does not fail;
- `DeleteEmailVerification(tx, userID)` and `DeleteResetCode(tx, &ID)`
  delete every record of that user, whatever its code;
- `DeleteRefreshToken(tx, token)` deletes by token string;
- the providers (`UserByEmail`, `GetEmailVerification`, `GetRefreshToken`,
  `GetSessionByID`) take no transaction, so they read the committed
  tables;
- `UserByEmail` returns the first matching user row, and that email
  lookup is the only place where row order matters.

Where the design text and the code disagree, the model follows the code:

- The error codes are `AlreadyExists` for a used verification code,
  `DeadlineExceeded` for an expired one, and `Unauthenticated` for a
  missing or expired refresh token. The design text names these
  AlreadyUsed, Expired and InvalidToken.
- Expiry is `ExpiresAt.Before(now)`, so a code or token whose expiry
  equals `now` is still accepted. The design text calls it usable only
  while `now < expiresAt`.
- A failed commit, or a failed session lookup in `RefreshToken`, is
  returned without a status wrapper. The model reports it as `Unknown`,
  which is the code gRPC gives such an error.
- `RefreshToken` does not check the session's own expiry. It also takes
  the new token's device info from the session, not from the request's
  device.
- `ResetPassword` never commits: see Findings.

## Model

| member | source | states |
|---|---|---|
| `Effects.LoginEffect` | internal/auth/unauthenticated_repository.go:101-141 | NotFound exactly when no user has the email; Unauthenticated exactly when the found user's hash rejects the password; any failure leaves every table unchanged. Success exactly when no step fails and the new session id and token are unused. Success adds exactly one session for that user (expires now + 1 year) and one refresh token bound to it (expires now + 7 days, the session's device); the users, verification and reset-code tables stay the same. |
| `Effects.CreateUserEffect` | internal/auth/unauthenticated_repository.go:143-215 | Any failure leaves every table unchanged, with Internal, or Unknown only for a failed commit. Success exactly when no step fails and the id, email, (id, code), session id and token are all unused. Success appends one user (unverified, active, no two-factor, created/updated now), adds one unused verification expiring now + 24 h, one session and one refresh token. The returned code and expiry equal the stored ones. |
| `Effects.VerifyEmailEffect` | internal/auth/unauthenticated_repository.go:320-362 | Error order: NotFound when no record for (user, code); else AlreadyExists when used, checked before expiry; else DeadlineExceeded when `expiresAt < now`. Each failure leaves every table unchanged. Success exactly when no write fails; it marks the user verified and removes that user's verification records, both in one commit. |
| `Effects.RefreshTokenEffect` | internal/auth/unauthenticated_repository.go:364-408 | Unauthenticated exactly when the token is unknown or expired; any failure leaves every table unchanged. On success the old token is gone and exactly one new token is added, differing from the old. It keeps the old token's user and its session's id and device, and expires now + 7 days. No other table changes. |
| `Effects.RequestPasswordResetEffect` | internal/auth/unauthenticated_repository.go:225-265 | Success exactly when no step fails and (user, code) is unused. It adds exactly one reset code (unused, created now, expiring at the caller's time) and nothing else. A failure changes nothing. |
| `Effects.ResetPasswordEffect` | internal/auth/unauthenticated_repository.go:266-290 | As written: reports success exactly when begin, the password update and the reset-code deletion do not fail, and in every case leaves the committed tables unchanged. |
| `Effects.ResetPasswordCommittedEffect` | internal/auth/unauthenticated_repository.go:266-290 | Corrected: on success the user's hash is replaced and the user's reset codes are removed, in one commit; a failure changes nothing. |
| `Tables.FirstWithEmail` | internal/auth/unauthenticated_repository.go:121-124 | The user lookup by email: the position of the first row with that email, or none exactly when no row has it. |
| `Tables.MarkVerified` | internal/auth/unauthenticated_repository.go:347 | Sets the verified flag of the rows with that id and changes nothing else; ids and emails are kept. |
| `Tables.ReplacePasswordHash` | internal/auth/unauthenticated_repository.go:280 | Replaces the hash of the rows with that id and changes nothing else; ids and emails are kept. |
| `Tables.DropCodesOf` | internal/auth/unauthenticated_repository.go:352 | Deletion by user id: keeps exactly the records of other users, unchanged. |
| `Transaction.Tx.SaveUser` | internal/auth/unauthenticated_repository.go:185-188 | Appends the user to the working copy unless the save fails or the id or email is taken; nothing else changes. |
| `Transaction.Tx.StoreEmailVerification` | internal/auth/unauthenticated_repository.go:411-417 | Adds the record under (user, code) unless the store fails or the key is taken. |
| `Transaction.Tx.CreateSession` | internal/auth/unauthenticated_repository.go:434-437 | Adds the session under its id unless the write fails or the id is taken. |
| `Transaction.Tx.StoreRefreshToken` | internal/auth/unauthenticated_repository.go:453-462 | Adds the token under its string unless the write fails or the string is taken. |
| `Transaction.Tx.StoreResetCode` | internal/auth/unauthenticated_repository.go:245-257 | Adds the reset code under (user, code) unless the write fails or the key is taken. |
| `Transaction.Tx.UpdateUserVerificationStatus` | internal/auth/unauthenticated_repository.go:347-350 | Marks the user verified in the working copy unless the update fails. |
| `Transaction.Tx.UpdatePassword` | internal/auth/unauthenticated_repository.go:280-283 | Replaces the user's hash in the working copy unless the update fails. |
| `Transaction.Tx.DeleteEmailVerification` | internal/auth/unauthenticated_repository.go:352-355 | Removes the user's verification records from the working copy unless the delete fails. |
| `Transaction.Tx.DeleteResetCode` | internal/auth/unauthenticated_repository.go:285-288 | Removes the user's reset codes from the working copy unless the delete fails. |
| `Transaction.Tx.DeleteRefreshToken` | internal/auth/unauthenticated_repository.go:397-400 | Removes the token from the working copy unless the delete fails. |
| `Repository.StoreVerificationEmail` | internal/auth/unauthenticated_repository.go:410-423 | Stores an unused verification record created now; fails with Internal exactly when the store fails or the key is taken. |
| `Repository.UnauthenticatedRepository.Begin` | internal/auth/unauthenticated_repository.go:107-110 | Either fails, or yields a new transaction whose working copy equals the committed tables. |
| `Repository.UnauthenticatedRepository.Commit` | internal/auth/unauthenticated_repository.go:135-138 | On success the committed tables become the working copy; on failure they stay as they were. |
| `Repository.UnauthenticatedRepository.GetUserByEmail` | internal/auth/unauthenticated_repository.go:217-223 | The user found has that email and is stored; none exactly when no stored user has it. |
| `Repository.UnauthenticatedRepository.GetVerificationCode` | internal/auth/unauthenticated_repository.go:295-297 | Exact match on (user id, code): found exactly when stored, and then the stored record. |
| `Repository.UnauthenticatedRepository.GetResetPasswordCode` | internal/auth/unauthenticated_repository.go:292-294 | Exact match on (user id, code): found exactly when stored, and then the stored record. |
| `Repository.UnauthenticatedRepository.CreateNewRefreshToken` | internal/auth/unauthenticated_repository.go:444-465 | Succeeds exactly when neither generator fails, the store does not fail and the token is new. It then returns the minted pair and adds exactly the token record (session's id and device, expiry now + 7 days). Every failure is Internal. |
| `Repository.UnauthenticatedRepository.CreateNewSession` | internal/auth/unauthenticated_repository.go:424-443 | Builds the session (expiry now + 1 year). Succeeds exactly when the session and its first token can both be stored, and then adds exactly those two records. Every failure is Internal. |
| `Repository.UnauthenticatedRepository.Login` | internal/auth/unauthenticated_repository.go:101-141 | Its result and the new committed tables are exactly those of `LoginEffect`. |
| `Repository.UnauthenticatedRepository.CreateUser` | internal/auth/unauthenticated_repository.go:143-215 | Its result and the new committed tables are exactly those of `CreateUserEffect`. |
| `Repository.UnauthenticatedRepository.RequestPasswordReset` | internal/auth/unauthenticated_repository.go:225-265 | Its result and the new committed tables are exactly those of `RequestPasswordResetEffect`. |
| `Repository.UnauthenticatedRepository.ResetPassword` | internal/auth/unauthenticated_repository.go:266-290 | As written: its result is that of `ResetPasswordEffect`, and it leaves the committed tables untouched. |
| `Repository.UnauthenticatedRepository.ResetPasswordCommitted` | internal/auth/unauthenticated_repository.go:266-290 | Corrected: its result and new committed tables are exactly those of `ResetPasswordCommittedEffect`. |
| `Repository.UnauthenticatedRepository.SendVerificationEmail` | internal/auth/unauthenticated_repository.go:299-319 | Fails with Internal exactly when the transaction cannot begin, otherwise returns no user; it changes nothing. |
| `Repository.UnauthenticatedRepository.VerifyEmail` | internal/auth/unauthenticated_repository.go:320-362 | Its result and the new committed tables are exactly those of `VerifyEmailEffect`. |
| `Repository.UnauthenticatedRepository.RefreshToken` | internal/auth/unauthenticated_repository.go:364-408 | Its result and the new committed tables are exactly those of `RefreshTokenEffect`. |
| `Properties.WithSessionKeepsValid` | internal/auth/unauthenticated_repository.go:424-465 | A fresh session of an existing user plus one fresh token bound to it keeps the store invariant, including at most one token per session. |
| `Properties.LoginKeepsValid` | internal/auth/unauthenticated_repository.go:121-140 | Login keeps the store invariant. |
| `Properties.CreateUserKeepsValid` | internal/auth/unauthenticated_repository.go:161-214 | Registration keeps the store invariant: ids and emails stay unique, and every code, session and token belongs to a stored user. |
| `Properties.VerifyEmailKeepsValid` | internal/auth/unauthenticated_repository.go:347-361 | Email verification keeps the store invariant. |
| `Properties.RefreshTokenKeepsValid` | internal/auth/unauthenticated_repository.go:387-407 | Rotation keeps the store invariant, in particular at most one refresh token per session. |
| `Properties.RequestPasswordResetKeepsValid` | internal/auth/unauthenticated_repository.go:245-264 | Requesting a reset keeps the store invariant. |
| `Properties.ResetPasswordCommittedKeepsValid` | internal/auth/unauthenticated_repository.go:280-290 | The corrected reset keeps the store invariant. |
| `Properties.ApplyKeepsValid` | internal/auth/unauthenticated_repository.go:17-51 | Any single call of the repository's operations keeps the store invariant. |
| `Properties.RunKeepsValid` | internal/auth/unauthenticated_repository.go:17-51 | Any sequence of calls, each with any failures, keeps the store invariant. |
| `Properties.RegisterThenLogin` | internal/auth/unauthenticated_repository.go:143-215 | After a successful registration, logging in with the same email and a password the stored hash accepts succeeds and opens a session of the new account. |
| `Properties.VerifyEmailOnlyOnce` | internal/auth/unauthenticated_repository.go:334-355 | After a successful verification the user is verified, and a second use of the same code fails with NotFound and changes nothing. |
| `Properties.RotationReplacesToken` | internal/auth/unauthenticated_repository.go:378-407 | After a rotation, the old token is refused with Unauthenticated and nothing changes. The new token rotates successfully until its expiry. |
| `Properties.RotationKeepsBinding` | internal/auth/unauthenticated_repository.go:387-392 | Under the invariant, the new token has the old token's session and user and expires now + 7 days. |
| `Properties.StaleRefreshTokenRefused` | internal/auth/unauthenticated_repository.go:383-385 | A token minted more than seven days ago is refused with Unauthenticated and nothing is written. |
| `Properties.VerifyEmailAcceptsAtExpiry` | internal/auth/unauthenticated_repository.go:343-345 | A verification code whose expiry equals now is accepted; one second later it is DeadlineExceeded. |
| `Properties.RefreshTokenAcceptsAtExpiry` | internal/auth/unauthenticated_repository.go:383-385 | A refresh token whose expiry equals now still rotates; one second later it is refused. |
| `Properties.ResetPasswordKeepsOldPassword` | internal/auth/unauthenticated_repository.go:273-290 | As written, RequestPasswordReset then a successful ResetPassword leaves the old password working for Login and the reset code stored. |
| `Properties.ResetPasswordCommittedReplacesPassword` | internal/auth/unauthenticated_repository.go:280-290 | With the commit, the old password fails with Unauthenticated, the new one logs in, and the reset code is gone. |

## Left out

- Password hashing and verification are crypto primitives outside this
  model. `hashed` stands for `hashPassword(password)` and `verify` for
  `verifyPassword`, an arbitrary function.
- Token, code and id generation (`generateAccessToken`,
  `generateRefreshToken`, `generateVerificationCode`, `uuid.New`) are
  inputs (`Generated`). Their failures are faults. Collisions are not
  assumed away: an insert of a taken key fails.
- `getIpAddr(ctx)` and `device.GetName()` are plain string inputs.
- The database driver, isolation levels and concurrent transactions are
  left out. Transactions run one at a time, and two racing rotations of one
  token are not modelled.
- Error messages, `slog` logging of rollback errors and the `fmt.Printf`
  timing output are left out. Errors are status codes only.
- Each operation reads the clock once (`now`), where the source calls
  `time.Now()` several times. The zero values and the `time.Now()`
  returned beside an error are not modelled.
- A year is taken as 365 days, so `AddDate(1, 0, 0)` across a leap day is
  not captured.
- Provider failures other than "not found" are not modelled separately.
  A failed lookup is the same as a missing record, which the source also
  maps to one status. For `GetSessionByID` the model covers only the
  missing session.
- `NewUnauthenticatedRepository` wiring is left out. The repository's
  constructor takes the initial tables instead.
- `Properties.Run` replays histories with the corrected `ResetPassword`.
  The as-written one changes nothing, so it trivially keeps the
  invariant.

## Findings

| source | as written | input that shows it | evidently intended | confidence | as-written member | corrected member |
|---|---|---|---|---|---|---|
| internal/auth/unauthenticated_repository.go:289 | `ResetPassword` returns nil without `tx.Commit()`, so the deferred `Rollback` discards `UpdatePassword` and `DeleteResetCode` | `RequestPasswordReset(id, "R1", now + 1h)`, then `ResetPassword` with a new hash and no failing step: it reports success, yet `Login` with the old password still succeeds and the reset code is still stored | commit before returning, so the new hash and the removal of the reset codes become visible together | high (not executed) | `Properties.ResetPasswordKeepsOldPassword` | `Properties.ResetPasswordCommittedReplacesPassword` |
