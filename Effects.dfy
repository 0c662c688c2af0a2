/**
 * What each repository operation does to the committed tables, stated on
 * values and all at once: either the whole unit of work becomes visible
 * together, or the operation fails with one status code and nothing is
 * visible. The methods of UnauthenticatedRepository, which perform the
 * writes one by one on a transaction, are proved to have exactly these
 * effects.
 */
module Effects {
  import opened AuthTypes
  import opened Tables

  // ------------------------------------------------------ record builders

  /** The user record `CreateUser` saves. */
  function NewUser(id: Uuid, username: string, bio: string, email: string, hash: string, now: Time): User {
    User(id, username, bio, email, hash, false, Active, false, now, now)
  }

  /** The session record `createNewSession` creates. */
  function NewSession(id: Uuid, userId: Uuid, device: string, ip: string, now: Time): Session {
    Session(id, userId, device, ip, now, now + SessionLifetime)
  }

  /** The refresh-token record `createNewRefreshToken` stores for `session`. */
  function NewRefreshToken(token: string, userId: Uuid, session: Session, now: Time): RefreshToken {
    RefreshToken(token, userId, session.id, now + RefreshTokenLifetime, session.deviceInfo)
  }

  /** The steps of `createNewRefreshToken` that can fail. */
  const MintSteps: set<Fault> := {AccessTokenFails, RefreshTokenFails, StoreRefreshTokenFails}

  /** The steps of `createNewSession` that can fail. */
  const SessionSteps: set<Fault> := MintSteps + {CreateSessionFails}

  /** `createNewRefreshToken` succeeds on working copy `s`. */
  predicate RefreshTokenIssuable(s: Store, tok: RefreshToken, faults: set<Fault>) {
    && AccessTokenFails !in faults
    && RefreshTokenFails !in faults
    && StoreRefreshTokenFails !in faults
    && tok.token !in s.refreshTokens
  }

  /** `createNewSession` succeeds on working copy `s`. */
  predicate SessionIssuable(s: Store, sess: Session, tok: RefreshToken, faults: set<Fault>) {
    CreateSessionFails !in faults && sess.id !in s.sessions && RefreshTokenIssuable(s, tok, faults)
  }

  function WithSession(s: Store, sess: Session, tok: RefreshToken): Store {
    s.(sessions := s.sessions[sess.id := sess], refreshTokens := s.refreshTokens[tok.token := tok])
  }

  /** `s'` holds, beyond `s`, exactly one new session `sessionId` of user
      `userId` that expires a year from `now`, and exactly one new refresh
      token `token` bound to it that expires seven days from `now`. */
  ghost predicate SessionIssued(s: Store, s': Store, userId: Uuid, sessionId: Uuid, token: string,
                                device: string, ip: string, now: Time)
  {
    && AddsOne(s.sessions, s'.sessions, sessionId)
    && AddsOne(s.refreshTokens, s'.refreshTokens, token)
    && s'.sessions[sessionId] == Session(sessionId, userId, device, ip, now, now + SessionLifetime)
    && s'.refreshTokens[token] == RefreshToken(token, userId, sessionId, now + RefreshTokenLifetime, device)
  }

  // ---------------------------------------------------------------- Login

  function LoginEffect(s: Store, email: string, password: string, verify: (string, string) -> bool,
                       device: string, ip: string, now: Time, gen: Generated, faults: set<Fault>)
    : (r: (Result<LoginReply>, Store))
    ensures r.0.Err? ==> r.1 == s
    ensures r.0 == Err(NotFound) <==> BeginFails !in faults && UserByEmail(s.users, email).None?
    ensures r.0 == Err(Unauthenticated) <==>
      && BeginFails !in faults
      && UserByEmail(s.users, email).Some?
      && !verify(UserByEmail(s.users, email).value.passwordHash, password)
    ensures r.0.Ok? <==>
      && NoneFail(faults, SessionSteps + {BeginFails, CommitFails})
      && UserByEmail(s.users, email).Some?
      && verify(UserByEmail(s.users, email).value.passwordHash, password)
      && gen.sessionId !in s.sessions
      && gen.refreshToken !in s.refreshTokens
    ensures r.0.Ok? ==>
      && UserByEmail(s.users, email) == Some(r.0.value.user)
      && r.0.value.accessToken == gen.accessToken
      && r.0.value.refreshToken == gen.refreshToken
      && r.1 == s.(sessions := r.1.sessions, refreshTokens := r.1.refreshTokens)
      && SessionIssued(s, r.1, r.0.value.user.id, gen.sessionId, gen.refreshToken, device, ip, now)
  {
    if BeginFails in faults then (Err(Internal), s)
    else match UserByEmail(s.users, email)
      case None => (Err(NotFound), s)
      case Some(u) =>
        if !verify(u.passwordHash, password) then (Err(Unauthenticated), s)
        else
          var sess := NewSession(gen.sessionId, u.id, device, ip, now);
          var tok := NewRefreshToken(gen.refreshToken, u.id, sess, now);
          if !SessionIssuable(s, sess, tok, faults) then (Err(Internal), s)
          else if CommitFails in faults then (Err(Unknown), s)
          else (Ok(LoginReply(gen.accessToken, gen.refreshToken, u)), WithSession(s, sess, tok))
  }

  // ----------------------------------------------------------- CreateUser

  function CreateUserEffect(s: Store, email: string, username: string, bio: string, hashed: string,
                            device: string, ip: string, now: Time, gen: Generated, faults: set<Fault>)
    : (r: (Result<CreateUserReply>, Store))
    ensures r.0.Err? ==> r.1 == s
    ensures r.0.Err? ==> r.0.code == Internal || (r.0.code == Unknown && CommitFails in faults)
    ensures r.0.Ok? <==>
      && NoneFail(faults, SessionSteps + {BeginFails, HashFails, SaveUserFails, StoreVerificationFails, CommitFails})
      && (forall i :: 0 <= i < |s.users| ==> s.users[i].id != gen.userId && s.users[i].email != email)
      && (gen.userId, gen.code) !in s.emailVerifications
      && gen.sessionId !in s.sessions
      && gen.refreshToken !in s.refreshTokens
    ensures r.0.Ok? ==>
      var u := r.0.value.user;
      && r.1.users == s.users + [u]
      && u.id == gen.userId && u.email == email && u.username == username && u.bio == bio
      && u.passwordHash == hashed && !u.isVerified && u.accountStatus == Active && !u.twoFactorEnabled
      && u.createdAt == now && u.updatedAt == now
      && AddsOne(s.emailVerifications, r.1.emailVerifications, (u.id, gen.code))
      && r.1.emailVerifications[(u.id, gen.code)] == EmailVerification(u.id, gen.code, now, now + VerificationLifetime, false)
      && r.0.value.code == gen.code
      && r.0.value.codeExpiresAt == r.1.emailVerifications[(u.id, gen.code)].expiresAt
      && r.0.value.accessToken == gen.accessToken
      && r.0.value.refreshToken == gen.refreshToken
      && SessionIssued(s, r.1, u.id, gen.sessionId, gen.refreshToken, device, ip, now)
      && r.1.resetCodes == s.resetCodes
  {
    if BeginFails in faults || HashFails in faults then (Err(Internal), s)
    else
      var u := NewUser(gen.userId, username, bio, email, hashed, now);
      if SaveUserFails in faults || !UserInsertable(s.users, u) then (Err(Internal), s)
      else
        var expiresAt := now + VerificationLifetime;
        var ev := EmailVerification(u.id, gen.code, now, expiresAt, false);
        if StoreVerificationFails in faults || (u.id, gen.code) in s.emailVerifications then (Err(Internal), s)
        else
          var sess := NewSession(gen.sessionId, u.id, device, ip, now);
          var tok := NewRefreshToken(gen.refreshToken, u.id, sess, now);
          if !SessionIssuable(s, sess, tok, faults) then (Err(Internal), s)
          else if CommitFails in faults then (Err(Unknown), s)
          else
            var s' := WithSession(s.(users := s.users + [u],
                                     emailVerifications := s.emailVerifications[(u.id, gen.code) := ev]),
                                  sess, tok);
            (Ok(CreateUserReply(gen.accessToken, gen.refreshToken, u, gen.code, expiresAt)), s')
  }

  // ---------------------------------------------------------- VerifyEmail

  function VerifyEmailEffect(s: Store, userId: Uuid, code: string, now: Time, faults: set<Fault>)
    : (r: (Result<()>, Store))
    ensures r.0.Err? ==> r.1 == s
    ensures r.0 == Err(NotFound) <==> BeginFails !in faults && (userId, code) !in s.emailVerifications
    ensures r.0 == Err(AlreadyExists) <==>
      BeginFails !in faults && (userId, code) in s.emailVerifications && s.emailVerifications[(userId, code)].used
    ensures r.0 == Err(DeadlineExceeded) <==>
      && BeginFails !in faults
      && (userId, code) in s.emailVerifications
      && !s.emailVerifications[(userId, code)].used
      && Expired(s.emailVerifications[(userId, code)].expiresAt, now)
    ensures r.0.Ok? <==>
      && NoneFail(faults, {BeginFails, UpdateVerifiedFails, DeleteVerificationFails, CommitFails})
      && (userId, code) in s.emailVerifications
      && !s.emailVerifications[(userId, code)].used
      && !Expired(s.emailVerifications[(userId, code)].expiresAt, now)
    ensures r.0.Ok? ==>
      r.1 == s.(users := MarkVerified(s.users, userId),
                emailVerifications := DropCodesOf(s.emailVerifications, userId))
  {
    if BeginFails in faults then (Err(Internal), s)
    else if (userId, code) !in s.emailVerifications then (Err(NotFound), s)
    else
      var ev := s.emailVerifications[(userId, code)];
      if ev.used then (Err(AlreadyExists), s)
      else if Expired(ev.expiresAt, now) then (Err(DeadlineExceeded), s)
      else if UpdateVerifiedFails in faults || DeleteVerificationFails in faults then (Err(Internal), s)
      else if CommitFails in faults then (Err(Unknown), s)
      else (Ok(()), s.(users := MarkVerified(s.users, userId),
                       emailVerifications := DropCodesOf(s.emailVerifications, userId)))
  }

  // --------------------------------------------------------- RefreshToken

  function RefreshTokenEffect(s: Store, token: string, now: Time, gen: Generated, faults: set<Fault>)
    : (r: (Result<TokenPair>, Store))
    ensures r.0.Err? ==> r.1 == s
    ensures r.0 == Err(Unauthenticated) <==>
      BeginFails !in faults && (token !in s.refreshTokens || Expired(s.refreshTokens[token].expiresAt, now))
    ensures r.0.Ok? <==>
      && NoneFail(faults, MintSteps + {BeginFails, DeleteRefreshTokenFails, CommitFails})
      && token in s.refreshTokens
      && !Expired(s.refreshTokens[token].expiresAt, now)
      && s.refreshTokens[token].sessionId in s.sessions
      && gen.refreshToken !in s.refreshTokens
    ensures r.0.Ok? ==>
      var prev := s.refreshTokens[token];
      var t := gen.refreshToken;
      && r.0.value == TokenPair(gen.accessToken, t)
      && t != token
      && token !in r.1.refreshTokens
      && AddsOne(s.refreshTokens - {token}, r.1.refreshTokens, t)
      && r.1.refreshTokens[t] == RefreshToken(t, prev.userId, s.sessions[prev.sessionId].id,
                                              now + RefreshTokenLifetime, s.sessions[prev.sessionId].deviceInfo)
      && r.1 == s.(refreshTokens := r.1.refreshTokens)
  {
    if BeginFails in faults then (Err(Internal), s)
    else if token !in s.refreshTokens then (Err(Unauthenticated), s)
    else
      var prev := s.refreshTokens[token];
      if Expired(prev.expiresAt, now) then (Err(Unauthenticated), s)
      else if prev.sessionId !in s.sessions then (Err(Unknown), s)
      else
        var tok := NewRefreshToken(gen.refreshToken, prev.userId, s.sessions[prev.sessionId], now);
        if !RefreshTokenIssuable(s, tok, faults) || DeleteRefreshTokenFails in faults then (Err(Internal), s)
        else if CommitFails in faults then (Err(Unknown), s)
        else
          var s' := s.(refreshTokens := s.refreshTokens[tok.token := tok] - {token});
          (Ok(TokenPair(gen.accessToken, gen.refreshToken)), s')
  }

  // ------------------------------------------------- RequestPasswordReset

  function RequestPasswordResetEffect(s: Store, userId: Uuid, code: string, expiresAt: Time, now: Time,
                                      faults: set<Fault>)
    : (r: (Result<()>, Store))
    ensures r.0.Err? ==> r.1 == s
    ensures r.0.Ok? <==>
      NoneFail(faults, {BeginFails, StoreResetCodeFails, CommitFails}) && (userId, code) !in s.resetCodes
    ensures r.0.Ok? ==>
      && AddsOne(s.resetCodes, r.1.resetCodes, (userId, code))
      && r.1.resetCodes[(userId, code)] == ResetCode(userId, code, now, expiresAt, false)
      && r.1 == s.(resetCodes := r.1.resetCodes)
  {
    if BeginFails in faults then (Err(Internal), s)
    else if StoreResetCodeFails in faults || (userId, code) in s.resetCodes then (Err(Internal), s)
    else if CommitFails in faults then (Err(Unknown), s)
    else (Ok(()), s.(resetCodes := s.resetCodes[(userId, code) := ResetCode(userId, code, now, expiresAt, false)]))
  }

  // -------------------------------------------------------- ResetPassword

  /** `ResetPassword` as written: it reports success without committing, so
      the deferred rollback discards both of its writes. */
  function ResetPasswordEffect(s: Store, updated: User, faults: set<Fault>): (r: (Result<()>, Store))
    ensures r.1 == s
    ensures r.0.Ok? <==> NoneFail(faults, {BeginFails, UpdatePasswordFails, DeleteResetCodeFails})
    ensures r.0.Err? ==> r.0.code == Internal
  {
    if !NoneFail(faults, {BeginFails, UpdatePasswordFails, DeleteResetCodeFails}) then (Err(Internal), s)
    else (Ok(()), s)
  }

  /** `ResetPassword` with the commit its design calls for: the new hash and
      the removal of the user's reset codes become visible together. */
  function ResetPasswordCommittedEffect(s: Store, updated: User, faults: set<Fault>): (r: (Result<()>, Store))
    ensures r.0.Err? ==> r.1 == s
    ensures r.0.Ok? <==> NoneFail(faults, {BeginFails, UpdatePasswordFails, DeleteResetCodeFails, CommitFails})
    ensures r.0.Ok? ==>
      r.1 == s.(users := ReplacePasswordHash(s.users, updated.id, updated.passwordHash),
                resetCodes := DropCodesOf(s.resetCodes, updated.id))
  {
    if !NoneFail(faults, {BeginFails, UpdatePasswordFails, DeleteResetCodeFails}) then (Err(Internal), s)
    else if CommitFails in faults then (Err(Unknown), s)
    else (Ok(()), s.(users := ReplacePasswordHash(s.users, updated.id, updated.passwordHash),
                     resetCodes := DropCodesOf(s.resetCodes, updated.id)))
  }
}
