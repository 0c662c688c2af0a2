/**
 * The unauthenticated repository: the committed tables, begin and commit,
 * the three providers' reads, and the operations, each of which opens one
 * transaction, performs its lookups, checks and writes in the source's
 * order and commits only at the end. An early return leaves the
 * transaction uncommitted, which is what the deferred rollback amounts to.
 */
module Repository {
  import opened AuthTypes
  import opened Tables
  import opened Effects
  import opened Transaction

  /** `storeVerificationEmail`: saves an unused verification record. */
  method StoreVerificationEmail(tx: Tx, userId: Uuid, code: string, expiresAt: Time, now: Time, fault: bool)
    returns (err: Option<Code>)
    modifies tx
    ensures err.None? == (!fault && (userId, code) !in old(tx.emailVerifications))
    ensures err.Some? ==> err.value == Internal
    ensures tx.View() == if err.None?
      then old(tx.View()).(emailVerifications := old(tx.emailVerifications)[(userId, code) := EmailVerification(userId, code, now, expiresAt, false)])
      else old(tx.View())
  {
    var ok := tx.StoreEmailVerification(EmailVerification(userId, code, now, expiresAt, false), fault);
    if !ok {
      return Some(Internal);
    }
    return None;
  }

  class UnauthenticatedRepository {
    var users: seq<User>
    var sessions: map<Uuid, Session>
    var refreshTokens: map<string, RefreshToken>
    var emailVerifications: map<CodeKey, EmailVerification>
    var resetCodes: map<CodeKey, ResetCode>

    /** The committed state of the five tables. */
    function Committed(): Store
      reads this
    {
      Store(users, sessions, refreshTokens, emailVerifications, resetCodes)
    }

    constructor (s: Store)
      ensures Committed() == s
    {
      users := s.users;
      sessions := s.sessions;
      refreshTokens := s.refreshTokens;
      emailVerifications := s.emailVerifications;
      resetCodes := s.resetCodes;
    }

    // ------------------------------------------------ transaction boundary

    /** `BeginTx`: a working copy of the committed tables. */
    method Begin(fault: bool) returns (tx: Tx?)
      ensures (tx == null) == fault
      ensures tx != null ==> fresh(tx) && tx.View() == Committed()
    {
      if fault {
        return null;
      }
      tx := new Tx(Committed());
    }

    /** `tx.Commit()`: all of the working copy becomes visible, or none. */
    method Commit(tx: Tx, fault: bool) returns (ok: bool)
      modifies this
      ensures ok == !fault
      ensures Committed() == if ok then tx.View() else old(Committed())
    {
      ok := !fault;
      if ok {
        users, sessions, refreshTokens := tx.users, tx.sessions, tx.refreshTokens;
        emailVerifications, resetCodes := tx.emailVerifications, tx.resetCodes;
      }
    }

    // ---------------------------------------------------------- providers

    /** `GetUserByEmail`: the first user row with that email. */
    function GetUserByEmail(email: string): (r: Option<User>)
      reads this
      ensures r.Some? ==> r.value in users && r.value.email == email
      ensures r.None? <==> forall i :: 0 <= i < |users| ==> users[i].email != email
    {
      UserByEmail(users, email)
    }

    /** `GetVerificationCode`: exact match on (user id, code). */
    function GetVerificationCode(userId: Uuid, code: string): (r: Option<EmailVerification>)
      reads this
      ensures r.Some? <==> (userId, code) in emailVerifications
      ensures r.Some? ==> r.value == emailVerifications[(userId, code)]
    {
      if (userId, code) in emailVerifications then Some(emailVerifications[(userId, code)]) else None
    }

    /** `GetResetPasswordCode`: exact match on (user id, code). */
    function GetResetPasswordCode(userId: Uuid, code: string): (r: Option<ResetCode>)
      reads this
      ensures r.Some? <==> (userId, code) in resetCodes
      ensures r.Some? ==> r.value == resetCodes[(userId, code)]
    {
      if (userId, code) in resetCodes then Some(resetCodes[(userId, code)]) else None
    }

    // ------------------------------------------------------------ helpers

    /** `createNewRefreshToken`: mints an access token and a refresh token
        for `session` and stores the refresh token, valid for seven days. */
    method CreateNewRefreshToken(tx: Tx, userId: Uuid, session: Session, now: Time, gen: Generated, faults: set<Fault>)
      returns (r: Result<TokenPair>)
      modifies tx
      ensures r.Ok? == RefreshTokenIssuable(old(tx.View()), NewRefreshToken(gen.refreshToken, userId, session, now), faults)
      ensures r.Ok? ==> r.value == TokenPair(gen.accessToken, gen.refreshToken)
      ensures r.Err? ==> r.code == Internal
      ensures tx.View() == if r.Ok?
        then var tok := NewRefreshToken(gen.refreshToken, userId, session, now);
             old(tx.View()).(refreshTokens := old(tx.refreshTokens)[tok.token := tok])
        else old(tx.View())
    {
      if AccessTokenFails in faults {
        return Err(Internal);
      }
      var accessToken := gen.accessToken;
      if RefreshTokenFails in faults {
        return Err(Internal);
      }
      var refreshToken := gen.refreshToken;
      var ok := tx.StoreRefreshToken(
        NewRefreshToken(refreshToken, userId, session, now),
        StoreRefreshTokenFails in faults);
      if !ok {
        return Err(Internal);
      }
      return Ok(TokenPair(accessToken, refreshToken));
    }

    /** `createNewSession`: a one-year session for `dbUser` and its first
        refresh token. */
    method CreateNewSession(tx: Tx, dbUser: User, device: string, ip: string, now: Time, gen: Generated, faults: set<Fault>)
      returns (r: Result<TokenPair>, session: Session)
      modifies tx
      ensures session == NewSession(gen.sessionId, dbUser.id, device, ip, now)
      ensures r.Ok? == SessionIssuable(old(tx.View()), session, NewRefreshToken(gen.refreshToken, dbUser.id, session, now), faults)
      ensures r.Ok? ==> r.value == TokenPair(gen.accessToken, gen.refreshToken)
      ensures r.Ok? ==> tx.View() == WithSession(old(tx.View()), session, NewRefreshToken(gen.refreshToken, dbUser.id, session, now))
      ensures r.Err? ==> r.code == Internal
    {
      session := Session(gen.sessionId, dbUser.id, device, ip, now, now + SessionLifetime);
      var ok := tx.CreateSession(session, CreateSessionFails in faults);
      if !ok {
        return Err(Internal), session;
      }
      r := CreateNewRefreshToken(tx, dbUser.id, session, now, gen, faults);
    }

    // --------------------------------------------------------- operations

    /** `Login`: user by email, password check, then a new session. */
    method Login(email: string, password: string, verify: (string, string) -> bool,
                 device: string, ip: string, now: Time, gen: Generated, faults: set<Fault>)
      returns (r: Result<LoginReply>)
      modifies this
      ensures (r, Committed()) == LoginEffect(old(Committed()), email, password, verify, device, ip, now, gen, faults)
    {
      var tx := Begin(BeginFails in faults);
      if tx == null {
        return Err(Internal);
      }
      var found := GetUserByEmail(email);
      if found.None? {
        return Err(NotFound);
      }
      var dbUser := found.value;
      if !verify(dbUser.passwordHash, password) {
        return Err(Unauthenticated);
      }
      var pair, _ := CreateNewSession(tx, dbUser, device, ip, now, gen, faults);
      if pair.Err? {
        return Err(pair.code);
      }
      var ok := Commit(tx, CommitFails in faults);
      if !ok {
        return Err(Unknown);
      }
      return Ok(LoginReply(pair.value.accessToken, pair.value.refreshToken, dbUser));
    }

    /** `CreateUser`: user, 24-hour verification code, session and refresh
        token, in one transaction. `hashed` is `hashPassword(password)`. */
    method CreateUser(email: string, username: string, bio: string, hashed: string,
                      device: string, ip: string, now: Time, gen: Generated, faults: set<Fault>)
      returns (r: Result<CreateUserReply>)
      modifies this
      ensures (r, Committed()) == CreateUserEffect(old(Committed()), email, username, bio, hashed, device, ip, now, gen, faults)
    {
      var tx := Begin(BeginFails in faults);
      if tx == null {
        return Err(Internal);
      }
      if HashFails in faults {
        return Err(Internal);
      }
      var dbUser := User(gen.userId, username, bio, email, hashed, false, Active, false, now, now);
      var ok := tx.SaveUser(dbUser, SaveUserFails in faults);
      if !ok {
        return Err(Internal);
      }
      var code := gen.code;
      var expirationTime := now + VerificationLifetime;
      var err := StoreVerificationEmail(tx, dbUser.id, code, expirationTime, now, StoreVerificationFails in faults);
      if err.Some? {
        return Err(err.value);
      }
      var pair, _ := CreateNewSession(tx, dbUser, device, ip, now, gen, faults);
      if pair.Err? {
        return Err(pair.code);
      }
      ok := Commit(tx, CommitFails in faults);
      if !ok {
        return Err(Unknown);
      }
      return Ok(CreateUserReply(pair.value.accessToken, pair.value.refreshToken, dbUser, code, expirationTime));
    }

    /** `RequestPasswordReset`: stores an unused reset code that expires at
        the caller's `expirationTime`. */
    method RequestPasswordReset(userId: Uuid, code: string, expirationTime: Time, now: Time, faults: set<Fault>)
      returns (r: Result<()>)
      modifies this
      ensures (r, Committed()) == RequestPasswordResetEffect(old(Committed()), userId, code, expirationTime, now, faults)
    {
      var tx := Begin(BeginFails in faults);
      if tx == null {
        return Err(Internal);
      }
      var ok := tx.StoreResetCode(ResetCode(userId, code, now, expirationTime, false), StoreResetCodeFails in faults);
      if !ok {
        return Err(Internal);
      }
      ok := Commit(tx, CommitFails in faults);
      if !ok {
        return Err(Unknown);
      }
      return Ok(());
    }

    /** `ResetPassword` as written: both writes go to the transaction, and
        the method returns without committing it. */
    method ResetPassword(updated: User, faults: set<Fault>) returns (r: Result<()>)
      ensures (r, Committed()) == ResetPasswordEffect(Committed(), updated, faults)
    {
      var tx := Begin(BeginFails in faults);
      if tx == null {
        return Err(Internal);
      }
      var ok := tx.UpdatePassword(updated.id, updated.passwordHash, UpdatePasswordFails in faults);
      if !ok {
        return Err(Internal);
      }
      ok := tx.DeleteResetCode(updated.id, DeleteResetCodeFails in faults);
      if !ok {
        return Err(Internal);
      }
      return Ok(());
    }

    /** `ResetPassword` with the missing commit added. */
    method ResetPasswordCommitted(updated: User, faults: set<Fault>) returns (r: Result<()>)
      modifies this
      ensures (r, Committed()) == ResetPasswordCommittedEffect(old(Committed()), updated, faults)
    {
      var tx := Begin(BeginFails in faults);
      if tx == null {
        return Err(Internal);
      }
      var ok := tx.UpdatePassword(updated.id, updated.passwordHash, UpdatePasswordFails in faults);
      if !ok {
        return Err(Internal);
      }
      ok := tx.DeleteResetCode(updated.id, DeleteResetCodeFails in faults);
      if !ok {
        return Err(Internal);
      }
      ok := Commit(tx, CommitFails in faults);
      if !ok {
        return Err(Unknown);
      }
      return Ok(());
    }

    /** `SendVerificationEmail`: opens a transaction and returns nothing. */
    method SendVerificationEmail(userId: Uuid, faults: set<Fault>) returns (r: Result<Option<User>>)
      ensures r.Err? <==> BeginFails in faults
      ensures r.Err? ==> r.code == Internal
      ensures r.Ok? ==> r.value.None?
    {
      var tx := Begin(BeginFails in faults);
      if tx == null {
        return Err(Internal);
      }
      return Ok(None);
    }

    /** `VerifyEmail`: lookup, used check, expiry check, then mark the user
        verified and delete their verification codes in one commit. */
    method VerifyEmail(userId: Uuid, code: string, now: Time, faults: set<Fault>) returns (r: Result<()>)
      modifies this
      ensures (r, Committed()) == VerifyEmailEffect(old(Committed()), userId, code, now, faults)
    {
      var tx := Begin(BeginFails in faults);
      if tx == null {
        return Err(Internal);
      }
      var found := GetVerificationCode(userId, code);
      if found.None? {
        return Err(NotFound);
      }
      var record := found.value;
      if record.used {
        return Err(AlreadyExists);
      }
      if Expired(record.expiresAt, now) {
        return Err(DeadlineExceeded);
      }
      var ok := tx.UpdateUserVerificationStatus(userId, UpdateVerifiedFails in faults);
      if !ok {
        return Err(Internal);
      }
      ok := tx.DeleteEmailVerification(userId, DeleteVerificationFails in faults);
      if !ok {
        return Err(Internal);
      }
      ok := Commit(tx, CommitFails in faults);
      if !ok {
        return Err(Unknown);
      }
      return Ok(());
    }

    /** `RefreshToken`: rotate a live refresh token. The new token is stored
        before the old one is deleted; both happen in one commit. */
    method RefreshToken(token: string, now: Time, gen: Generated, faults: set<Fault>) returns (r: Result<TokenPair>)
      modifies this
      ensures (r, Committed()) == RefreshTokenEffect(old(Committed()), token, now, gen, faults)
    {
      var tx := Begin(BeginFails in faults);
      if tx == null {
        return Err(Internal);
      }
      if token !in refreshTokens {
        return Err(Unauthenticated);
      }
      var refreshToken := refreshTokens[token];
      if Expired(refreshToken.expiresAt, now) {
        return Err(Unauthenticated);
      }
      if refreshToken.sessionId !in sessions {
        return Err(Unknown);
      }
      var session := sessions[refreshToken.sessionId];
      var pair := CreateNewRefreshToken(tx, refreshToken.userId, session, now, gen, faults);
      if pair.Err? {
        return Err(pair.code);
      }
      var ok := tx.DeleteRefreshToken(token, DeleteRefreshTokenFails in faults);
      if !ok {
        return Err(Internal);
      }
      ok := Commit(tx, CommitFails in faults);
      if !ok {
        return Err(Unknown);
      }
      return Ok(pair.value);
    }
  }
}
