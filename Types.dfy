/**
 * Entities, status codes, time constants and failure points of the
 * unauthenticated account/session repository.
 */
module AuthTypes {

  /** Opaque unique identifiers (uuid.UUID) of users and sessions. */
  type Uuid = string

  /** Instants and durations, in seconds. */
  type Time = int

  const Hour: int := 3600
  const Day: int := 24 * Hour

  /** A verification code issued at registration is valid for 24 hours. */
  const VerificationLifetime: int := 24 * Hour
  /** A refresh token is valid for 7 days from the moment it is minted. */
  const RefreshTokenLifetime: int := 7 * Day
  /** A session lasts one year (`AddDate(1, 0, 0)`), taken as a fixed duration. */
  const SessionLifetime: int := 365 * Day

  datatype Option<T> = None | Some(value: T)

  /** The gRPC status code an operation fails with. `Unknown` stands for an
      error returned without a status wrapper (a failed commit, a failed
      session lookup), which gRPC reports as codes.Unknown. */
  datatype Code = NotFound | Unauthenticated | AlreadyExists | DeadlineExceeded | Internal | Unknown

  datatype Result<T> = Ok(value: T) | Err(code: Code)

  datatype AccountStatus = Active | Suspended | Deleted

  datatype User = User(
    id: Uuid,
    username: string,
    bio: string,
    email: string,
    passwordHash: string,
    isVerified: bool,
    accountStatus: AccountStatus,
    twoFactorEnabled: bool,
    createdAt: Time,
    updatedAt: Time)

  datatype Session = Session(
    id: Uuid,
    userId: Uuid,
    deviceInfo: string,
    ipAddress: string,
    createdAt: Time,
    expiresAt: Time)

  datatype RefreshToken = RefreshToken(
    token: string,
    userId: Uuid,
    sessionId: Uuid,
    expiresAt: Time,
    deviceInfo: string)

  datatype EmailVerification = EmailVerification(
    userId: Uuid,
    code: string,
    createdAt: Time,
    expiresAt: Time,
    used: bool)

  datatype ResetCode = ResetCode(
    userId: Uuid,
    code: string,
    createdAt: Time,
    expiresAt: Time,
    used: bool)

  /** `expiresAt.Before(now)`: strictly earlier, so a record that expires at
      exactly `now` is still accepted. */
  predicate Expired(expiresAt: Time, now: Time) {
    expiresAt < now
  }

  /** The steps of an operation that can fail for reasons outside the model
      (the database driver, the password hasher, the token signer). An
      operation is given the set of steps that fail on this call. */
  datatype Fault =
    | BeginFails
    | HashFails
    | SaveUserFails
    | StoreVerificationFails
    | CreateSessionFails
    | AccessTokenFails
    | RefreshTokenFails
    | StoreRefreshTokenFails
    | UpdateVerifiedFails
    | DeleteVerificationFails
    | DeleteRefreshTokenFails
    | StoreResetCodeFails
    | UpdatePasswordFails
    | DeleteResetCodeFails
    | CommitFails

  /** No step in `steps` fails on this call. */
  predicate NoneFail(faults: set<Fault>, steps: set<Fault>) {
    forall f :: f in steps ==> f !in faults
  }

  /** Values the source draws from `uuid.New()`, `generateVerificationCode()`,
      `generateAccessToken` and `generateRefreshToken`. */
  datatype Generated = Generated(
    userId: Uuid,
    sessionId: Uuid,
    code: string,
    accessToken: string,
    refreshToken: string)

  datatype TokenPair = TokenPair(accessToken: string, refreshToken: string)

  datatype LoginReply = LoginReply(accessToken: string, refreshToken: string, user: User)

  datatype CreateUserReply = CreateUserReply(
    accessToken: string,
    refreshToken: string,
    user: User,
    code: string,
    codeExpiresAt: Time)
}
