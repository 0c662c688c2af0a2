/**
 * The five logical tables (users, sessions, refresh tokens, email
 * verifications, reset codes) as one value, the reads and single-table
 * writes the storage capabilities perform on them, and the invariant the
 * operations keep.
 */
module Tables {
  import opened AuthTypes

  /** Email verifications and reset codes are looked up by (user id, code). */
  type CodeKey = (Uuid, string)

  /** Users are rows in insertion order; the other tables are keyed by their
      primary key (session id, token string, (user id, code)). */
  datatype Store = Store(
    users: seq<User>,
    sessions: map<Uuid, Session>,
    refreshTokens: map<string, RefreshToken>,
    emailVerifications: map<CodeKey, EmailVerification>,
    resetCodes: map<CodeKey, ResetCode>)

  const EmptyStore: Store := Store([], map[], map[], map[], map[])

  // ---------------------------------------------------------------- reads

  /** Position of the first row whose email is `email`, if any. */
  function FirstWithEmail(users: seq<User>, email: string): (r: Option<nat>)
    ensures r.Some? ==> r.value < |users| && users[r.value].email == email
    ensures r.Some? ==> forall j :: 0 <= j < r.value ==> users[j].email != email
    ensures r.None? ==> forall j :: 0 <= j < |users| ==> users[j].email != email
  {
    if |users| == 0 then None
    else if users[0].email == email then Some(0)
    else match FirstWithEmail(users[1..], email)
      case None => None
      case Some(i) => Some(i + 1)
  }

  /** The user provider's `UserByEmail`. */
  function UserByEmail(users: seq<User>, email: string): Option<User> {
    match FirstWithEmail(users, email)
    case None => None
    case Some(i) => Some(users[i])
  }

  function UserIds(users: seq<User>): set<Uuid> {
    set i | 0 <= i < |users| :: users[i].id
  }

  // --------------------------------------------------------------- writes

  /** `SaveUser` succeeds only when neither the id nor the email is taken. */
  predicate UserInsertable(users: seq<User>, u: User) {
    forall i :: 0 <= i < |users| ==> users[i].id != u.id && users[i].email != u.email
  }

  /** `UpdateUserVerificationStatus(tx, id, true)`. */
  function MarkVerified(users: seq<User>, id: Uuid): (r: seq<User>)
    ensures |r| == |users|
    ensures forall i :: 0 <= i < |r| ==> r[i].id == users[i].id && r[i].email == users[i].email
    ensures forall i :: 0 <= i < |r| ==> r[i].isVerified == (users[i].isVerified || users[i].id == id)
    ensures forall i :: 0 <= i < |r| ==> r[i] == users[i].(isVerified := r[i].isVerified)
  {
    seq(|users|, i requires 0 <= i < |users| =>
      if users[i].id == id then users[i].(isVerified := true) else users[i])
  }

  /** `UpdatePassword(tx, id, hash)`. */
  function ReplacePasswordHash(users: seq<User>, id: Uuid, hash: string): (r: seq<User>)
    ensures |r| == |users|
    ensures forall i :: 0 <= i < |r| ==> r[i].id == users[i].id && r[i].email == users[i].email
    ensures forall i :: 0 <= i < |r| ==> r[i].passwordHash == (if users[i].id == id then hash else users[i].passwordHash)
    ensures forall i :: 0 <= i < |r| ==> r[i] == users[i].(passwordHash := r[i].passwordHash)
  {
    seq(|users|, i requires 0 <= i < |users| =>
      if users[i].id == id then users[i].(passwordHash := hash) else users[i])
  }

  /** `DeleteEmailVerification(tx, userID)` and `DeleteResetCode(tx, &ID)`:
      every code of the user goes, whatever its code string. */
  function DropCodesOf<V>(m: map<CodeKey, V>, userId: Uuid): (r: map<CodeKey, V>)
    ensures forall k :: k in r <==> k in m && k.0 != userId
    ensures forall k :: k in r ==> r[k] == m[k]
  {
    map k | k in m && k.0 != userId :: m[k]
  }

  /** `m'` is `m` with exactly one new entry, at key `k`. */
  ghost predicate AddsOne<K, V>(m: map<K, V>, m': map<K, V>, k: K) {
    k !in m && k in m' && m' == m[k := m'[k]]
  }

  // ------------------------------------------------------------ invariant

  ghost predicate UsersUnique(users: seq<User>) {
    forall i, j :: 0 <= i < j < |users| ==> users[i].id != users[j].id && users[i].email != users[j].email
  }

  ghost predicate SessionsOwned(s: Store) {
    forall sid :: sid in s.sessions ==>
      s.sessions[sid].id == sid && s.sessions[sid].userId in UserIds(s.users)
  }

  /** Every refresh token belongs to an existing session of the same user. */
  ghost predicate TokensBound(s: Store) {
    forall t :: t in s.refreshTokens ==>
      && s.refreshTokens[t].token == t
      && s.refreshTokens[t].sessionId in s.sessions
      && s.sessions[s.refreshTokens[t].sessionId].userId == s.refreshTokens[t].userId
  }

  /** A session is the parent of at most one refresh token. */
  ghost predicate OneTokenPerSession(rt: map<string, RefreshToken>) {
    forall t1, t2 :: t1 in rt && t2 in rt && t1 != t2 ==> rt[t1].sessionId != rt[t2].sessionId
  }

  ghost predicate VerificationsOwned(s: Store) {
    forall k :: k in s.emailVerifications ==>
      && s.emailVerifications[k].userId == k.0
      && s.emailVerifications[k].code == k.1
      && k.0 in UserIds(s.users)
  }

  ghost predicate ResetCodesKeyed(rc: map<CodeKey, ResetCode>) {
    forall k :: k in rc ==> rc[k].userId == k.0 && rc[k].code == k.1
  }

  ghost predicate Valid(s: Store) {
    && UsersUnique(s.users)
    && SessionsOwned(s)
    && TokensBound(s)
    && OneTokenPerSession(s.refreshTokens)
    && VerificationsOwned(s)
    && ResetCodesKeyed(s.resetCodes)
  }
}
