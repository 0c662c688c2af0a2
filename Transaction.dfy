/**
 * An open database transaction: a private working copy of the five tables
 * that the storage capabilities (savers, updaters, deleters) write to.
 * Nothing written here is visible until the repository commits it; a
 * rollback simply drops the object.
 */
module Transaction {
  import opened AuthTypes
  import opened Tables

  class Tx {
    var users: seq<User>
    var sessions: map<Uuid, Session>
    var refreshTokens: map<string, RefreshToken>
    var emailVerifications: map<CodeKey, EmailVerification>
    var resetCodes: map<CodeKey, ResetCode>

    /** The tables as this transaction sees them. */
    function View(): Store
      reads this
    {
      Store(users, sessions, refreshTokens, emailVerifications, resetCodes)
    }

    constructor (s: Store)
      ensures View() == s
    {
      users := s.users;
      sessions := s.sessions;
      refreshTokens := s.refreshTokens;
      emailVerifications := s.emailVerifications;
      resetCodes := s.resetCodes;
    }

    /** `user.Saver.SaveUser`: fails when the driver fails or the id or the
        email is already taken. */
    method SaveUser(u: User, fault: bool) returns (ok: bool)
      modifies this
      ensures ok == (!fault && UserInsertable(old(users), u))
      ensures View() == if ok then old(View()).(users := old(users) + [u]) else old(View())
    {
      ok := !fault && UserInsertable(users, u);
      if ok {
        users := users + [u];
      }
    }

    /** `verification.Saver.StoreEmailVerification`. */
    method StoreEmailVerification(ev: EmailVerification, fault: bool) returns (ok: bool)
      modifies this
      ensures ok == (!fault && (ev.userId, ev.code) !in old(emailVerifications))
      ensures View() == if ok then old(View()).(emailVerifications := old(emailVerifications)[(ev.userId, ev.code) := ev])
                        else old(View())
    {
      ok := !fault && (ev.userId, ev.code) !in emailVerifications;
      if ok {
        emailVerifications := emailVerifications[(ev.userId, ev.code) := ev];
      }
    }

    /** `sessions.Saver.CreateSession`. */
    method CreateSession(sess: Session, fault: bool) returns (ok: bool)
      modifies this
      ensures ok == (!fault && sess.id !in old(sessions))
      ensures View() == if ok then old(View()).(sessions := old(sessions)[sess.id := sess]) else old(View())
    {
      ok := !fault && sess.id !in sessions;
      if ok {
        sessions := sessions[sess.id := sess];
      }
    }

    /** `sessions.Saver.StoreRefreshToken`. */
    method StoreRefreshToken(tok: RefreshToken, fault: bool) returns (ok: bool)
      modifies this
      ensures ok == (!fault && tok.token !in old(refreshTokens))
      ensures View() == if ok then old(View()).(refreshTokens := old(refreshTokens)[tok.token := tok]) else old(View())
    {
      ok := !fault && tok.token !in refreshTokens;
      if ok {
        refreshTokens := refreshTokens[tok.token := tok];
      }
    }

    /** `verification.Saver.StoreResetCode`. */
    method StoreResetCode(rc: ResetCode, fault: bool) returns (ok: bool)
      modifies this
      ensures ok == (!fault && (rc.userId, rc.code) !in old(resetCodes))
      ensures View() == if ok then old(View()).(resetCodes := old(resetCodes)[(rc.userId, rc.code) := rc]) else old(View())
    {
      ok := !fault && (rc.userId, rc.code) !in resetCodes;
      if ok {
        resetCodes := resetCodes[(rc.userId, rc.code) := rc];
      }
    }

    /** `user.Updater.UpdateUserVerificationStatus(tx, id, true)`. */
    method UpdateUserVerificationStatus(userId: Uuid, fault: bool) returns (ok: bool)
      modifies this
      ensures ok == !fault
      ensures View() == if ok then old(View()).(users := MarkVerified(old(users), userId)) else old(View())
    {
      ok := !fault;
      if ok {
        users := MarkVerified(users, userId);
      }
    }

    /** `user.Updater.UpdatePassword`. */
    method UpdatePassword(userId: Uuid, hash: string, fault: bool) returns (ok: bool)
      modifies this
      ensures ok == !fault
      ensures View() == if ok then old(View()).(users := ReplacePasswordHash(old(users), userId, hash)) else old(View())
    {
      ok := !fault;
      if ok {
        users := ReplacePasswordHash(users, userId, hash);
      }
    }

    /** `verification.Deleter.DeleteEmailVerification(tx, userID)`. */
    method DeleteEmailVerification(userId: Uuid, fault: bool) returns (ok: bool)
      modifies this
      ensures ok == !fault
      ensures View() == if ok then old(View()).(emailVerifications := DropCodesOf(old(emailVerifications), userId))
                        else old(View())
    {
      ok := !fault;
      if ok {
        emailVerifications := DropCodesOf(emailVerifications, userId);
      }
    }

    /** `verification.Deleter.DeleteResetCode(tx, &ID)`. */
    method DeleteResetCode(userId: Uuid, fault: bool) returns (ok: bool)
      modifies this
      ensures ok == !fault
      ensures View() == if ok then old(View()).(resetCodes := DropCodesOf(old(resetCodes), userId)) else old(View())
    {
      ok := !fault;
      if ok {
        resetCodes := DropCodesOf(resetCodes, userId);
      }
    }

    /** `sessions.Deleter.DeleteRefreshToken(tx, token)`. */
    method DeleteRefreshToken(token: string, fault: bool) returns (ok: bool)
      modifies this
      ensures ok == !fault
      ensures View() == if ok then old(View()).(refreshTokens := old(refreshTokens) - {token}) else old(View())
    {
      ok := !fault;
      if ok {
        refreshTokens := refreshTokens - {token};
      }
    }
  }
}
