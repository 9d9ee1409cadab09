/**
 * The passkey ceremony coordinator of api/server.js as pure functions on the
 * coordinator's whole state: the two pending-session maps and the user store.
 *
 * Each of the four route handlers is one function from the old state and the
 * request to an Outcome: the new state and the reply sent back.  The clock
 * (`Date.now()`), the random session id, the user id and challenge minted by
 * the options generator, and the verdict of the WebAuthn verifier are inputs.
 */
module Ceremony {

  datatype Option<+T> = None | Some(value: T)

  /** Lifetime of a pending ceremony, in milliseconds. */
  const SessionTtl: int := 60000

  // The `error` strings of the 400 replies.
  const EmailRequired: string := "Email is required"
  const UserExists: string := "User already exists"
  const RegistrationNotFound: string := "Registration info not found"
  const NoUserForEmail: string := "No user for this email"
  const AuthenticationNotFound: string := "Authentication info not found"
  const InvalidUser: string := "Invalid user"

  type Bytes = seq<bv8>

  /**
   * A user's single stored passkey.  `transports` is the property the
   * authentication handler reads back; None stands for an absent property.
   */
  datatype Passkey = Passkey(
    id: string,
    publicKey: Bytes,
    counter: nat,
    deviceType: string,
    backedUp: bool,
    transports: Option<seq<string>>)

  /** A stored user; the key of the user map is the user's id. */
  datatype User = User(email: string, passKey: Passkey)

  /** A pending registration ceremony. */
  datatype RegInfo = RegInfo(userId: string, email: string, challenge: string, expires: int)

  /** A pending authentication ceremony. */
  datatype AuthInfo = AuthInfo(userId: string, challenge: string, expires: int)

  datatype State = State(
    regSessions: map<string, RegInfo>,
    authSessions: map<string, AuthInfo>,
    users: map<string, User>)

  /** The credential fields verifyRegistrationResponse extracts on success. */
  datatype RegistrationInfo = RegistrationInfo(
    credentialId: string,
    publicKey: Bytes,
    counter: nat,
    deviceType: string,
    backedUp: bool)

  /** What verifyRegistrationResponse answers for the stored challenge. */
  datatype RegistrationVerdict = RegistrationVerdict(verified: bool, info: RegistrationInfo)

  /** What verifyAuthenticationResponse answers for the stored challenge and passkey. */
  datatype AuthenticationVerdict = AuthenticationVerdict(verified: bool, newCounter: nat)

  /** The part of the generated ceremony options the coordinator decides. */
  datatype Options =
    | RegistrationOptions(userId: string, userName: string, challenge: string)
    | AuthenticationOptions(credentialId: string, transports: Option<seq<string>>, challenge: string)

  datatype Reply =
    | Issued(options: Options, sessionId: string)  // 200 {...options, sessionId}
    | Verified                                    // 200 {verified: true}
    | Rejected(error: string)                     // 400 {error}
    | NotVerified                                 // 400 {verified: false, error: "Verification failed"}

  datatype Outcome = Outcome(state: State, reply: Reply)

  const Empty: State := State(map[], map[], map[])

  /** Strict: an entry whose deadline is exactly `now` is still live. */
  predicate IsExpired(expires: int, now: int) {
    now > expires
  }

  /** The user stored under `id` has the address `email`. */
  predicate IsOwner(users: map<string, User>, id: string, email: string) {
    id in users && users[id].email == email
  }

  /** Some stored user has the address `email`. */
  predicate HasEmail(users: map<string, User>, email: string) {
    exists id | id in users :: users[id].email == email
  }

  /**
   * `found` is an answer the user store's lookup by email may give: absent
   * exactly when nobody has the address, otherwise the id of someone who has it.
   * Several users can share an address (see Runs.DuplicateEmailRegistrations),
   * and then any of them is an admissible answer.
   */
  predicate FoundBy(users: map<string, User>, email: string, found: Option<string>) {
    match found
    case None => !HasEmail(users, email)
    case Some(id) => IsOwner(users, id, email)
  }

  /** `sid` names a registration session that is present and not expired. */
  predicate LiveReg(s: State, sid: string, now: int) {
    sid != "" && sid in s.regSessions && !IsExpired(s.regSessions[sid].expires, now)
  }

  /** `sid` names an authentication session that is present and not expired. */
  predicate LiveAuth(s: State, sid: string, now: int) {
    sid != "" && sid in s.authSessions && !IsExpired(s.authSessions[sid].expires, now)
  }

  /** The credential fields a stored passkey carries, as the verifier extracted them. */
  function Credential(p: Passkey): RegistrationInfo {
    RegistrationInfo(p.id, p.publicKey, p.counter, p.deviceType, p.backedUp)
  }

  /**
   * The passkey record as the registration handler writes it: the client's
   * transports are stored under the key `transport`, which nothing reads, so
   * the `transports` property read back later is absent.
   */
  function PasskeyAsWritten(info: RegistrationInfo, transports: Option<seq<string>>): (p: Passkey)
    ensures Credential(p) == info
    ensures p.transports == None
  {
    Passkey(info.credentialId, info.publicKey, info.counter, info.deviceType, info.backedUp, None)
  }

  /** The passkey record with the client's transports stored where they are read back. */
  function NewPasskey(info: RegistrationInfo, transports: Option<seq<string>>): (p: Passkey)
    ensures Credential(p) == info
    ensures p.transports == transports
    ensures p == PasskeyAsWritten(info, transports).(transports := transports)
  {
    Passkey(info.credentialId, info.publicKey, info.counter, info.deviceType, info.backedUp, transports)
  }

  /** Removes a truthy session id; a missing (empty) id leaves the map as it is. */
  function Evict<V>(m: map<string, V>, sid: string): (r: map<string, V>)
    ensures sid != "" ==> sid !in r
    ensures sid == "" ==> r == m
    ensures r.Keys <= m.Keys && forall k | k in r :: r[k] == m[k]
    ensures forall k | k in m && k != sid :: k in r
  {
    if sid == "" then m else m - {sid}
  }

  /**
   * GET /init-register.  `sid` is the fresh session id; `userId` and
   * `challenge` are what the registration options generator minted.
   */
  function InitRegister(s: State, email: string, sid: string, userId: string, challenge: string, now: int): (r: Outcome)
    ensures r.reply.Issued? <==> email != "" && !HasEmail(s.users, email)
    ensures email == "" ==> r == Outcome(s, Rejected(EmailRequired))
    ensures email != "" && HasEmail(s.users, email) ==> r == Outcome(s, Rejected(UserExists))
    ensures r.reply.Issued? ==>
      && r.reply == Issued(RegistrationOptions(userId, email, challenge), sid)
      && r.state.regSessions.Keys == s.regSessions.Keys + {sid}
      && r.state.regSessions[sid] == RegInfo(userId, email, challenge, now + SessionTtl)
      && (forall k | k in s.regSessions && k != sid :: r.state.regSessions[k] == s.regSessions[k])
      && r.state.authSessions == s.authSessions
      && r.state.users == s.users
  {
    if email == "" then
      Outcome(s, Rejected(EmailRequired))
    else if HasEmail(s.users, email) then
      Outcome(s, Rejected(UserExists))
    else
      var info := RegInfo(userId, email, challenge, now + SessionTtl);
      Outcome(s.(regSessions := s.regSessions[sid := info]),
              Issued(RegistrationOptions(userId, email, challenge), sid))
  }

  /**
   * POST /verify-register.  `transports` is the body's `transports` property
   * and `verdict` the verifier's answer for the body and the stored challenge.
   */
  function VerifyRegister(s: State, sid: string, transports: Option<seq<string>>,
                          verdict: RegistrationVerdict, now: int): (r: Outcome)
    // a user is created exactly when the session is live and the verifier agrees
    ensures r.reply == Verified <==> LiveReg(s, sid, now) && verdict.verified
    ensures r.state.users != s.users ==> r.reply == Verified
    // missing, empty or expired: rejected and evicted, nothing else changes
    ensures !LiveReg(s, sid, now) ==>
      && r.reply == Rejected(RegistrationNotFound)
      && r.state == s.(regSessions := Evict(s.regSessions, sid))
    // success: the pending user becomes a stored user and the session is consumed
    ensures r.reply == Verified ==>
      var info := s.regSessions[sid];
      && sid !in r.state.regSessions
      && r.state.regSessions == s.regSessions - {sid}
      && r.state.users.Keys == s.users.Keys + {info.userId}
      && r.state.users[info.userId] == User(info.email, PasskeyAsWritten(verdict.info, transports))
      && (forall id | id in s.users && id != info.userId :: r.state.users[id] == s.users[id])
      && r.state.authSessions == s.authSessions
    // rejected by the verifier: the session stays, nothing changes
    ensures LiveReg(s, sid, now) && !verdict.verified ==> r == Outcome(s, NotVerified)
  {
    if !LiveReg(s, sid, now) then
      Outcome(s.(regSessions := Evict(s.regSessions, sid)), Rejected(RegistrationNotFound))
    else
      var info := s.regSessions[sid];
      if verdict.verified then
        var user := User(info.email, PasskeyAsWritten(verdict.info, transports));
        Outcome(State(s.regSessions - {sid}, s.authSessions, s.users[info.userId := user]), Verified)
      else
        Outcome(s, NotVerified)
  }

  /**
   * POST /verify-register with the passkey record corrected: the same
   * handler, except that the created user's passkey keeps the transports.
   */
  function VerifyRegisterCorrected(s: State, sid: string, transports: Option<seq<string>>,
                                   verdict: RegistrationVerdict, now: int): (r: Outcome)
    // same reply, same sessions and same user ids as the handler as written
    ensures r.reply == VerifyRegister(s, sid, transports, verdict, now).reply
    ensures r.state.regSessions == VerifyRegister(s, sid, transports, verdict, now).state.regSessions
    ensures r.state.authSessions == VerifyRegister(s, sid, transports, verdict, now).state.authSessions
    ensures r.state.users.Keys == VerifyRegister(s, sid, transports, verdict, now).state.users.Keys
    // the only difference: the created user's passkey keeps the transports
    ensures r.reply != Verified ==> r == VerifyRegister(s, sid, transports, verdict, now)
    ensures r.reply == Verified ==>
      var info := s.regSessions[sid];
      && r.state.users[info.userId] == User(info.email, NewPasskey(verdict.info, transports))
      && (forall id | id in s.users && id != info.userId :: r.state.users[id] == s.users[id])
  {
    if LiveReg(s, sid, now) && verdict.verified then
      var info := s.regSessions[sid];
      var user := User(info.email, NewPasskey(verdict.info, transports));
      Outcome(State(s.regSessions - {sid}, s.authSessions, s.users[info.userId := user]), Verified)
    else
      VerifyRegister(s, sid, transports, verdict, now)
  }

  /**
   * GET /init-auth.  `found` is the user store's answer to the lookup by
   * email (only consulted when an email is given); `sid` is the fresh session
   * id and `challenge` what the authentication options generator minted.
   */
  function InitAuth(s: State, email: string, found: Option<string>, sid: string, challenge: string, now: int): (r: Outcome)
    requires email != "" ==> FoundBy(s.users, email, found)
    ensures r.reply.Issued? <==> email != "" && HasEmail(s.users, email)
    ensures email == "" ==> r == Outcome(s, Rejected(EmailRequired))
    ensures email != "" && !HasEmail(s.users, email) ==> r == Outcome(s, Rejected(NoUserForEmail))
    ensures r.reply.Issued? ==>
      var owner := found.value;
      && IsOwner(s.users, owner, email)
      && r.reply == Issued(AuthenticationOptions(s.users[owner].passKey.id, s.users[owner].passKey.transports, challenge), sid)
      && r.state.authSessions.Keys == s.authSessions.Keys + {sid}
      && r.state.authSessions[sid] == AuthInfo(owner, challenge, now + SessionTtl)
      && (forall k | k in s.authSessions && k != sid :: r.state.authSessions[k] == s.authSessions[k])
      && r.state.regSessions == s.regSessions
      && r.state.users == s.users
  {
    if email == "" then
      Outcome(s, Rejected(EmailRequired))
    else
      match found
      case None => Outcome(s, Rejected(NoUserForEmail))
      case Some(owner) =>
        var passKey := s.users[owner].passKey;
        Outcome(s.(authSessions := s.authSessions[sid := AuthInfo(owner, challenge, now + SessionTtl)]),
                Issued(AuthenticationOptions(passKey.id, passKey.transports, challenge), sid))
  }

  /** The session's user exists and holds the credential the client answered with. */
  predicate CredentialMatches(s: State, sid: string, credentialId: string)
    requires sid in s.authSessions
  {
    var userId := s.authSessions[sid].userId;
    userId in s.users && s.users[userId].passKey.id == credentialId
  }

  /**
   * POST /verify-auth.  `credentialId` is the body's `id` and `verdict` the
   * verifier's answer for the body, the stored challenge and the stored passkey.
   */
  function VerifyAuth(s: State, sid: string, credentialId: string,
                      verdict: AuthenticationVerdict, now: int): (r: Outcome)
    ensures r.reply == Verified <==>
      LiveAuth(s, sid, now) && CredentialMatches(s, sid, credentialId) && verdict.verified
    // missing, empty or expired: rejected and evicted, nothing else changes
    ensures !LiveAuth(s, sid, now) ==>
      && r.reply == Rejected(AuthenticationNotFound)
      && r.state == s.(authSessions := Evict(s.authSessions, sid))
    // unknown user or foreign credential: rejected, the session stays, no counter moves
    ensures LiveAuth(s, sid, now) && !CredentialMatches(s, sid, credentialId) ==>
      r == Outcome(s, Rejected(InvalidUser))
    // success: the counter becomes exactly the verifier's new counter, the session is consumed
    ensures r.reply == Verified ==>
      var userId := s.authSessions[sid].userId;
      && sid !in r.state.authSessions
      && r.state.authSessions == s.authSessions - {sid}
      && r.state.users.Keys == s.users.Keys
      && r.state.users[userId].passKey.counter == verdict.newCounter
      && r.state.users[userId] == s.users[userId].(passKey := r.state.users[userId].passKey)
      && r.state.users[userId].passKey == s.users[userId].passKey.(counter := verdict.newCounter)
      && (forall id | id in s.users && id != userId :: r.state.users[id] == s.users[id])
      && r.state.regSessions == s.regSessions
    // rejected by the verifier: the session stays, nothing changes
    ensures LiveAuth(s, sid, now) && CredentialMatches(s, sid, credentialId) && !verdict.verified ==>
      r == Outcome(s, NotVerified)
  {
    if !LiveAuth(s, sid, now) then
      Outcome(s.(authSessions := Evict(s.authSessions, sid)), Rejected(AuthenticationNotFound))
    else if !CredentialMatches(s, sid, credentialId) then
      Outcome(s, Rejected(InvalidUser))
    else
      var userId := s.authSessions[sid].userId;
      if verdict.verified then
        var user := s.users[userId];
        var updated := user.(passKey := user.passKey.(counter := verdict.newCounter));
        Outcome(s.(authSessions := s.authSessions - {sid}, users := s.users[userId := updated]), Verified)
      else
        Outcome(s, NotVerified)
  }

  /**
   * A registration session minted at `now0` is accepted up to and including
   * its deadline `now0 + SessionTtl`, and turned away (and evicted) after it.
   */
  lemma RegistrationDeadline(s: State, email: string, sid: string, userId: string, challenge: string, now0: int,
                             transports: Option<seq<string>>, verdict: RegistrationVerdict, now: int)
    requires email != "" && !HasEmail(s.users, email) && sid != "" && sid !in s.regSessions
    ensures var s1 := InitRegister(s, email, sid, userId, challenge, now0).state;
      && LiveReg(s1, sid, now) == (now <= now0 + SessionTtl)
      && (now > now0 + SessionTtl ==>
            VerifyRegister(s1, sid, transports, verdict, now) == Outcome(s, Rejected(RegistrationNotFound)))
  {
  }

  /**
   * Expiry is strict and final: an entry is still live at its deadline, and
   * once it has expired it stays expired at every later time.
   */
  lemma ExpiryIsStrictAndFinal(expires: int, now: int, later: int)
    ensures !IsExpired(expires, expires)
    ensures IsExpired(expires, now) && now <= later ==> IsExpired(expires, later)
    ensures !IsExpired(expires, later) && now <= later ==> !IsExpired(expires, now)
  {
  }

  /**
   * As written, the transports a client sends with its registration never
   * reach the sign-in options: after verify-register and init-auth for the
   * new user, the options advertise no transports, whatever was sent.
   */
  lemma TransportsLostAsWritten(s: State, email: string, sid1: string, userId: string, challenge1: string,
                                now1: int, transports: Option<seq<string>>, info: RegistrationInfo, now2: int,
                                sid2: string, challenge2: string, now3: int)
    requires email != "" && !HasEmail(s.users, email) && sid1 != "" && now1 <= now2 <= now1 + SessionTtl
    ensures
      var s1 := InitRegister(s, email, sid1, userId, challenge1, now1).state;
      var s2 := VerifyRegister(s1, sid1, transports, RegistrationVerdict(true, info), now2).state;
      && FoundBy(s2.users, email, Some(userId))
      && InitAuth(s2, email, Some(userId), sid2, challenge2, now3).reply
           == Issued(AuthenticationOptions(info.credentialId, None, challenge2), sid2)
  {
  }

  /**
   * With the record corrected, the sign-in options advertise exactly the
   * transports the client sent with its registration.
   */
  lemma TransportsKeptWhenCorrected(s: State, email: string, sid1: string, userId: string, challenge1: string,
                                    now1: int, transports: Option<seq<string>>, info: RegistrationInfo, now2: int,
                                    sid2: string, challenge2: string, now3: int)
    requires email != "" && !HasEmail(s.users, email) && sid1 != "" && now1 <= now2 <= now1 + SessionTtl
    ensures
      var s1 := InitRegister(s, email, sid1, userId, challenge1, now1).state;
      var s2 := VerifyRegisterCorrected(s1, sid1, transports, RegistrationVerdict(true, info), now2).state;
      && FoundBy(s2.users, email, Some(userId))
      && InitAuth(s2, email, Some(userId), sid2, challenge2, now3).reply
           == Issued(AuthenticationOptions(info.credentialId, transports, challenge2), sid2)
  {
  }
}
