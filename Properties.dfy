/**
 * Properties of the repository's operations that relate several calls or
 * hold across every history: the store invariant, the use-once behaviour of
 * verification codes and refresh tokens, the expiry boundary, the
 * register-then-login round trip, and the missing commit in ResetPassword.
 */
module Properties {
  import opened AuthTypes
  import opened Tables
  import opened Effects

  // ------------------------------------------------------- table helpers

  lemma UserIdsAppend(users: seq<User>, u: User)
    ensures UserIds(users + [u]) == UserIds(users) + {u.id}
  {
    var us := users + [u];
    forall id | id in UserIds(us) ensures id in UserIds(users) + {u.id} {
      var i :| 0 <= i < |us| && us[i].id == id;
      if i < |users| {
        assert users[i].id == id;
      }
    }
    forall id | id in UserIds(users) + {u.id} ensures id in UserIds(us) {
      if id == u.id {
        assert us[|users|].id == id;
      } else {
        var i :| 0 <= i < |users| && users[i].id == id;
        assert us[i].id == id;
      }
    }
  }

  /** Two tables whose rows agree on id and email, position by position. */
  ghost predicate SameKeys(a: seq<User>, b: seq<User>) {
    |a| == |b| && forall i :: 0 <= i < |a| ==> a[i].id == b[i].id && a[i].email == b[i].email
  }

  lemma SameKeysUserIds(a: seq<User>, b: seq<User>)
    requires SameKeys(a, b)
    ensures UserIds(a) == UserIds(b)
  {
  }

  /** Updating columns other than the email keeps the email lookup's row. */
  lemma SameKeysFirstWithEmail(a: seq<User>, b: seq<User>, email: string)
    requires SameKeys(a, b)
    ensures FirstWithEmail(a, email) == FirstWithEmail(b, email)
  {
  }

  lemma FoundUserIsStored(users: seq<User>, email: string)
    requires UserByEmail(users, email).Some?
    ensures UserByEmail(users, email).value.id in UserIds(users)
  {
  }

  /** A newly appended user is the one its email finds. */
  lemma AppendedUserFound(users: seq<User>, u: User)
    requires UserInsertable(users, u)
    ensures UserByEmail(users + [u], u.email) == Some(u)
  {
    assert (users + [u])[|users|] == u;
  }

  // ----------------------------------------------- invariant preservation

  lemma WithSessionKeepsValid(s: Store, sess: Session, tok: RefreshToken)
    requires Valid(s)
    requires sess.id !in s.sessions && sess.userId in UserIds(s.users)
    requires tok.token !in s.refreshTokens
    requires tok.sessionId == sess.id && tok.userId == sess.userId
    ensures Valid(WithSession(s, sess, tok))
  {
  }

  lemma LoginKeepsValid(s: Store, email: string, password: string, verify: (string, string) -> bool,
                        device: string, ip: string, now: Time, gen: Generated, faults: set<Fault>)
    requires Valid(s)
    ensures Valid(LoginEffect(s, email, password, verify, device, ip, now, gen, faults).1)
  {
    var r := LoginEffect(s, email, password, verify, device, ip, now, gen, faults);
    if r.0.Ok? {
      var u := UserByEmail(s.users, email).value;
      FoundUserIsStored(s.users, email);
      var sess := NewSession(gen.sessionId, u.id, device, ip, now);
      WithSessionKeepsValid(s, sess, NewRefreshToken(gen.refreshToken, u.id, sess, now));
    }
  }

  lemma CreateUserKeepsValid(s: Store, email: string, username: string, bio: string, hashed: string,
                             device: string, ip: string, now: Time, gen: Generated, faults: set<Fault>)
    requires Valid(s)
    ensures Valid(CreateUserEffect(s, email, username, bio, hashed, device, ip, now, gen, faults).1)
  {
    var r := CreateUserEffect(s, email, username, bio, hashed, device, ip, now, gen, faults);
    if r.0.Ok? {
      var u := NewUser(gen.userId, username, bio, email, hashed, now);
      var ev := EmailVerification(u.id, gen.code, now, now + VerificationLifetime, false);
      var s1 := s.(users := s.users + [u], emailVerifications := s.emailVerifications[(u.id, gen.code) := ev]);
      UserIdsAppend(s.users, u);
      assert UsersUnique(s1.users) by {
        forall i, j | 0 <= i < j < |s1.users|
          ensures s1.users[i].id != s1.users[j].id && s1.users[i].email != s1.users[j].email
        {
          if j == |s.users| {
            assert s1.users[i] == s.users[i];
          }
        }
      }
      assert Valid(s1);
      var sess := NewSession(gen.sessionId, u.id, device, ip, now);
      WithSessionKeepsValid(s1, sess, NewRefreshToken(gen.refreshToken, u.id, sess, now));
    }
  }

  lemma VerifyEmailKeepsValid(s: Store, userId: Uuid, code: string, now: Time, faults: set<Fault>)
    requires Valid(s)
    ensures Valid(VerifyEmailEffect(s, userId, code, now, faults).1)
  {
  }

  lemma RefreshTokenKeepsValid(s: Store, token: string, now: Time, gen: Generated, faults: set<Fault>)
    requires Valid(s)
    ensures Valid(RefreshTokenEffect(s, token, now, gen, faults).1)
  {
  }

  lemma RequestPasswordResetKeepsValid(s: Store, userId: Uuid, code: string, expiresAt: Time, now: Time,
                                       faults: set<Fault>)
    requires Valid(s)
    ensures Valid(RequestPasswordResetEffect(s, userId, code, expiresAt, now, faults).1)
  {
  }

  lemma ResetPasswordCommittedKeepsValid(s: Store, updated: User, faults: set<Fault>)
    requires Valid(s)
    ensures Valid(ResetPasswordCommittedEffect(s, updated, faults).1)
  {
  }

  // ------------------------------------------------------------ histories

  /** One call of the repository, with everything the source would draw from
      the clock, the generators and the failing storage. */
  datatype Request =
    | LoginRequest(email: string, password: string, device: string, ip: string, now: Time,
                   gen: Generated, faults: set<Fault>)
    | CreateUserRequest(email: string, username: string, bio: string, hashed: string,
                        device: string, ip: string, now: Time, gen: Generated, faults: set<Fault>)
    | VerifyEmailRequest(userId: Uuid, code: string, now: Time, faults: set<Fault>)
    | RefreshTokenRequest(token: string, now: Time, gen: Generated, faults: set<Fault>)
    | RequestPasswordResetRequest(userId: Uuid, code: string, expiresAt: Time, now: Time, faults: set<Fault>)
    | ResetPasswordRequest(updated: User, faults: set<Fault>)

  /** The committed tables after one call (the corrected ResetPassword). */
  function Apply(s: Store, q: Request, verify: (string, string) -> bool): Store {
    match q
    case LoginRequest(email, password, device, ip, now, gen, faults) =>
      LoginEffect(s, email, password, verify, device, ip, now, gen, faults).1
    case CreateUserRequest(email, username, bio, hashed, device, ip, now, gen, faults) =>
      CreateUserEffect(s, email, username, bio, hashed, device, ip, now, gen, faults).1
    case VerifyEmailRequest(userId, code, now, faults) =>
      VerifyEmailEffect(s, userId, code, now, faults).1
    case RefreshTokenRequest(token, now, gen, faults) =>
      RefreshTokenEffect(s, token, now, gen, faults).1
    case RequestPasswordResetRequest(userId, code, expiresAt, now, faults) =>
      RequestPasswordResetEffect(s, userId, code, expiresAt, now, faults).1
    case ResetPasswordRequest(updated, faults) =>
      ResetPasswordCommittedEffect(s, updated, faults).1
  }

  /** The committed tables after a sequence of calls, one after the other. */
  function Run(s: Store, qs: seq<Request>, verify: (string, string) -> bool): Store
    decreases |qs|
  {
    if qs == [] then s else Run(Apply(s, qs[0], verify), qs[1..], verify)
  }

  lemma ApplyKeepsValid(s: Store, q: Request, verify: (string, string) -> bool)
    requires Valid(s)
    ensures Valid(Apply(s, q, verify))
  {
    match q
    case LoginRequest(email, password, device, ip, now, gen, faults) =>
      LoginKeepsValid(s, email, password, verify, device, ip, now, gen, faults);
    case CreateUserRequest(email, username, bio, hashed, device, ip, now, gen, faults) =>
      CreateUserKeepsValid(s, email, username, bio, hashed, device, ip, now, gen, faults);
    case VerifyEmailRequest(userId, code, now, faults) =>
      VerifyEmailKeepsValid(s, userId, code, now, faults);
    case RefreshTokenRequest(token, now, gen, faults) =>
      RefreshTokenKeepsValid(s, token, now, gen, faults);
    case RequestPasswordResetRequest(userId, code, expiresAt, now, faults) =>
      RequestPasswordResetKeepsValid(s, userId, code, expiresAt, now, faults);
    case ResetPasswordRequest(updated, faults) =>
      ResetPasswordCommittedKeepsValid(s, updated, faults);
  }

  /** From the empty database, every history of calls keeps every refresh
      token bound to a live session of its user, at most one per session,
      and keeps user ids and emails unique. */
  lemma {:induction false} RunKeepsValid(s: Store, qs: seq<Request>, verify: (string, string) -> bool)
    requires Valid(s)
    ensures Valid(Run(s, qs, verify))
    decreases |qs|
  {
    if qs != [] {
      ApplyKeepsValid(s, qs[0], verify);
      RunKeepsValid(Apply(s, qs[0], verify), qs[1..], verify);
    }
  }

  lemma EmptyStoreValid()
    ensures Valid(EmptyStore)
  {
  }

  // ------------------------------------------------------------ scenarios

  /** Registering and then logging in with the same email and password
      succeeds and opens a session of the new account. */
  lemma RegisterThenLogin(s: Store, email: string, password: string, verify: (string, string) -> bool,
                          username: string, bio: string, hashed: string, device: string, ip: string,
                          now: Time, gen: Generated, faults: set<Fault>,
                          now2: Time, gen2: Generated, faults2: set<Fault>)
    requires verify(hashed, password)
    requires CreateUserEffect(s, email, username, bio, hashed, device, ip, now, gen, faults).0.Ok?
    requires gen2.sessionId !in s.sessions && gen2.sessionId != gen.sessionId
    requires gen2.refreshToken !in s.refreshTokens && gen2.refreshToken != gen.refreshToken
    requires NoneFail(faults2, SessionSteps + {BeginFails, CommitFails})
    ensures
      var s1 := CreateUserEffect(s, email, username, bio, hashed, device, ip, now, gen, faults).1;
      var login := LoginEffect(s1, email, password, verify, device, ip, now2, gen2, faults2);
      && login.0.Ok?
      && login.0.value.user.id == gen.userId
      && login.1.sessions[gen2.sessionId].userId == gen.userId
  {
    var u := NewUser(gen.userId, username, bio, email, hashed, now);
    AppendedUserFound(s.users, u);
  }

  /** A verification code works once: the first use marks the account
      verified and removes the code, so any later use finds nothing. */
  lemma VerifyEmailOnlyOnce(s: Store, userId: Uuid, code: string, now: Time, faults: set<Fault>,
                            now2: Time, faults2: set<Fault>)
    requires VerifyEmailEffect(s, userId, code, now, faults).0.Ok?
    requires BeginFails !in faults2
    ensures
      var s1 := VerifyEmailEffect(s, userId, code, now, faults).1;
      && (forall i :: 0 <= i < |s1.users| && s1.users[i].id == userId ==> s1.users[i].isVerified)
      && VerifyEmailEffect(s1, userId, code, now2, faults2) == (Err(NotFound), s1)
  {
  }

  /** After a rotation the old token is rejected, and the new one is
      accepted until it expires. */
  lemma RotationReplacesToken(s: Store, token: string, now: Time, gen: Generated, faults: set<Fault>,
                              now2: Time, gen2: Generated, faults2: set<Fault>)
    requires Valid(s)
    requires RefreshTokenEffect(s, token, now, gen, faults).0.Ok?
    requires NoneFail(faults2, MintSteps + {BeginFails, DeleteRefreshTokenFails, CommitFails})
    requires gen2.refreshToken != gen.refreshToken && gen2.refreshToken !in s.refreshTokens
    requires now2 <= now + RefreshTokenLifetime
    ensures
      var s1 := RefreshTokenEffect(s, token, now, gen, faults).1;
      && RefreshTokenEffect(s1, token, now2, gen2, faults2) == (Err(Unauthenticated), s1)
      && RefreshTokenEffect(s1, gen.refreshToken, now2, gen2, faults2).0.Ok?
  {
  }

  /** Under the invariant a rotated token stays bound to the same session
      and user as the token it replaces. */
  lemma RotationKeepsBinding(s: Store, token: string, now: Time, gen: Generated, faults: set<Fault>)
    requires Valid(s)
    requires RefreshTokenEffect(s, token, now, gen, faults).0.Ok?
    ensures
      var t := RefreshTokenEffect(s, token, now, gen, faults).1.refreshTokens[gen.refreshToken];
      && t.sessionId == s.refreshTokens[token].sessionId
      && t.userId == s.refreshTokens[token].userId
      && t.expiresAt == now + RefreshTokenLifetime
  {
  }

  /** A refresh token minted at `issuedAt` is refused once more than seven
      days have passed, and nothing is written. */
  lemma StaleRefreshTokenRefused(s: Store, token: string, issuedAt: Time, now: Time, gen: Generated,
                                 faults: set<Fault>)
    requires token in s.refreshTokens && s.refreshTokens[token].expiresAt == issuedAt + RefreshTokenLifetime
    requires now > issuedAt + RefreshTokenLifetime
    requires BeginFails !in faults
    ensures RefreshTokenEffect(s, token, now, gen, faults) == (Err(Unauthenticated), s)
  {
  }

  /** A verification code whose expiry is exactly `now` is still accepted. */
  lemma VerifyEmailAcceptsAtExpiry(s: Store, userId: Uuid, code: string, now: Time)
    requires (userId, code) in s.emailVerifications
    requires !s.emailVerifications[(userId, code)].used
    requires s.emailVerifications[(userId, code)].expiresAt == now
    ensures VerifyEmailEffect(s, userId, code, now, {}).0.Ok?
    ensures VerifyEmailEffect(s, userId, code, now + 1, {}).0 == Err(DeadlineExceeded)
  {
  }

  /** A refresh token whose expiry is exactly `now` still rotates. */
  lemma RefreshTokenAcceptsAtExpiry(s: Store, token: string, now: Time, gen: Generated)
    requires Valid(s)
    requires token in s.refreshTokens && s.refreshTokens[token].expiresAt == now
    requires gen.refreshToken !in s.refreshTokens
    ensures RefreshTokenEffect(s, token, now, gen, {}).0.Ok?
    ensures RefreshTokenEffect(s, token, now + 1, gen, {}).0 == Err(Unauthenticated)
  {
  }

  // ------------------------------------------------------ ResetPassword

  /** As written, a reset that reports success leaves the old password
      working: the password update is rolled back. */
  lemma ResetPasswordKeepsOldPassword(s: Store, u: User, oldPassword: string, newHash: string,
                                      verify: (string, string) -> bool, code: string, expiresAt: Time,
                                      device: string, ip: string, now: Time, gen: Generated)
    requires UserByEmail(s.users, u.email) == Some(u)
    requires verify(u.passwordHash, oldPassword)
    requires (u.id, code) !in s.resetCodes
    requires gen.sessionId !in s.sessions && gen.refreshToken !in s.refreshTokens
    ensures
      var s1 := RequestPasswordResetEffect(s, u.id, code, expiresAt, now, {});
      var s2 := ResetPasswordEffect(s1.1, u.(passwordHash := newHash), {});
      && s1.0.Ok? && s2.0.Ok?
      && (u.id, code) in s2.1.resetCodes
      && LoginEffect(s2.1, u.email, oldPassword, verify, device, ip, now, gen, {}).0.Ok?
  {
  }

  /** With the commit, the new password works, the old one (if the new hash
      rejects it) fails with Unauthenticated, and the reset code is gone. */
  lemma ResetPasswordCommittedReplacesPassword(s: Store, u: User, oldPassword: string, newPassword: string,
                                               newHash: string, verify: (string, string) -> bool,
                                               code: string, expiresAt: Time,
                                               device: string, ip: string, now: Time, gen: Generated)
    requires UserByEmail(s.users, u.email) == Some(u)
    requires verify(newHash, newPassword) && !verify(newHash, oldPassword)
    requires (u.id, code) !in s.resetCodes
    requires gen.sessionId !in s.sessions && gen.refreshToken !in s.refreshTokens
    ensures
      var s1 := RequestPasswordResetEffect(s, u.id, code, expiresAt, now, {});
      var s2 := ResetPasswordCommittedEffect(s1.1, u.(passwordHash := newHash), {});
      && s1.0.Ok? && s2.0.Ok?
      && (u.id, code) !in s2.1.resetCodes
      && LoginEffect(s2.1, u.email, oldPassword, verify, device, ip, now, gen, {}).0 == Err(Unauthenticated)
      && LoginEffect(s2.1, u.email, newPassword, verify, device, ip, now, gen, {}).0.Ok?
  {
  }
}
