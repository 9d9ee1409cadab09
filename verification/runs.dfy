/**
 * Runs of the coordinator: sequences of requests handled one at a time, each
 * as one atomic step, from some state.  What the environment guarantees for a
 * request (random ids never collide with live ones, the user store answers
 * lookups by email truthfully, the verifier applies its signature-counter rule)
 * is stated separately, so that each property says which guarantees it needs.
 */
module Runs {
  import opened Ceremony

  datatype Request =
    | InitRegisterReq(email: string, sid: string, userId: string, challenge: string, now: int)
    | VerifyRegisterReq(sid: string, transports: Option<seq<string>>, regVerdict: RegistrationVerdict, now: int)
    | InitAuthReq(email: string, found: Option<string>, sid: string, challenge: string, now: int)
    | VerifyAuthReq(sid: string, credentialId: string, authVerdict: AuthenticationVerdict, now: int)

  /**
   * The environment's guarantees for one request: minted session ids are
   * non-empty and not live, a minted user id is neither stored nor pending,
   * and a lookup by email answers with an owner of the email.
   */
  ghost predicate Admissible(s: State, q: Request) {
    match q
    case InitRegisterReq(_, sid, userId, _, _) =>
      && sid != "" && sid !in s.regSessions
      && userId !in s.users
      && (forall k | k in s.regSessions :: s.regSessions[k].userId != userId)
    case InitAuthReq(email, found, sid, _, _) =>
      && sid != "" && sid !in s.authSessions
      && (email != "" ==> FoundBy(s.users, email, found))
    case _ => true
  }

  /** Dispatches a request to its route handler. */
  function Handle(s: State, q: Request): Outcome
    requires Admissible(s, q)
  {
    match q
    case InitRegisterReq(email, sid, userId, challenge, now) => InitRegister(s, email, sid, userId, challenge, now)
    case VerifyRegisterReq(sid, transports, verdict, now) => VerifyRegister(s, sid, transports, verdict, now)
    case InitAuthReq(email, found, sid, challenge, now) => InitAuth(s, email, found, sid, challenge, now)
    case VerifyAuthReq(sid, credentialId, verdict, now) => VerifyAuth(s, sid, credentialId, verdict, now)
  }

  /** Every request of the run is admissible in the state it meets. */
  ghost predicate AdmissibleRun(s: State, qs: seq<Request>)
    decreases |qs|
  {
    |qs| == 0 || (Admissible(s, qs[0]) && AdmissibleRun(Handle(s, qs[0]).state, qs[1..]))
  }

  /** The state after the whole run. */
  function Final(s: State, qs: seq<Request>): State
    requires AdmissibleRun(s, qs)
    decreases |qs|
  {
    if |qs| == 0 then s else Final(Handle(s, qs[0]).state, qs[1..])
  }

  /** The replies of the run, one per request, in order. */
  function Replies(s: State, qs: seq<Request>): (rs: seq<Reply>)
    requires AdmissibleRun(s, qs)
    ensures |rs| == |qs|
    ensures |qs| > 0 ==> rs[0] == Handle(s, qs[0]).reply
    decreases |qs|
  {
    if |qs| == 0 then [] else [Handle(s, qs[0]).reply] + Replies(Handle(s, qs[0]).state, qs[1..])
  }

  /**
   * The signature-counter rule of verifyAuthenticationResponse: a non-zero
   * counter must strictly advance, and a counter that stays at zero means the
   * authenticator does not count.
   */
  predicate CounterAccepted(stored: nat, next: nat) {
    (stored == 0 && next == 0) || next > stored
  }

  /** The verifier only says yes to an authentication whose counter passes the rule. */
  ghost predicate CounterChecked(s: State, q: Request) {
    (q.VerifyAuthReq? && q.authVerdict.verified && q.sid in s.authSessions && s.authSessions[q.sid].userId in s.users)
      ==> CounterAccepted(s.users[s.authSessions[q.sid].userId].passKey.counter, q.authVerdict.newCounter)
  }

  /** The verifier applies the counter rule at every step of the run. */
  ghost predicate CheckedRun(s: State, qs: seq<Request>)
    requires AdmissibleRun(s, qs)
    decreases |qs|
  {
    |qs| == 0 || (CounterChecked(s, qs[0]) && CheckedRun(Handle(s, qs[0]).state, qs[1..]))
  }

  /**
   * The coordinator's invariant: a pending registration carries a user id
   * that is not stored yet and that no other pending registration carries,
   * and a pending authentication belongs to a stored user.
   */
  ghost predicate Inv(s: State) {
    && (forall k | k in s.regSessions :: s.regSessions[k].userId !in s.users)
    && (forall k, k' | k in s.regSessions && k' in s.regSessions && k != k' ::
          s.regSessions[k].userId != s.regSessions[k'].userId)
    && (forall k | k in s.authSessions :: s.authSessions[k].userId in s.users)
  }

  lemma EmptyInv()
    ensures Inv(Empty)
  {
  }

  lemma StepPreservesInv(s: State, q: Request)
    requires Inv(s) && Admissible(s, q)
    ensures Inv(Handle(s, q).state)
  {
  }

  lemma {:induction false} RunPreservesInv(s: State, qs: seq<Request>)
    requires Inv(s) && AdmissibleRun(s, qs)
    ensures Inv(Final(s, qs))
    decreases |qs|
  {
    if |qs| > 0 {
      StepPreservesInv(s, qs[0]);
      RunPreservesInv(Handle(s, qs[0]).state, qs[1..]);
    }
  }

  /**
   * Nobody is ever deleted from the user store, a stored user keeps its email
   * and credential, and its signature counter never goes down.
   */
  ghost predicate UsersKept(s: State, s': State) {
    forall id | id in s.users ::
      && id in s'.users
      && s'.users[id].email == s.users[id].email
      && s'.users[id].passKey.id == s.users[id].passKey.id
      && s'.users[id].passKey.publicKey == s.users[id].passKey.publicKey
      && s'.users[id].passKey.counter >= s.users[id].passKey.counter
  }

  lemma StepKeepsUsers(s: State, q: Request)
    requires Inv(s) && Admissible(s, q) && CounterChecked(s, q)
    ensures UsersKept(s, Handle(s, q).state)
  {
  }

  /** The anti-replay guarantee of the whole coordinator, over any run. */
  lemma {:induction false} CountersNeverDecrease(s: State, qs: seq<Request>)
    requires Inv(s) && AdmissibleRun(s, qs) && CheckedRun(s, qs)
    ensures UsersKept(s, Final(s, qs))
    decreases |qs|
  {
    if |qs| > 0 {
      var s1 := Handle(s, qs[0]).state;
      StepPreservesInv(s, qs[0]);
      StepKeepsUsers(s, qs[0]);
      CountersNeverDecrease(s1, qs[1..]);
    }
  }

  /** Under the invariant, "Invalid user" only ever means a credential from the wrong account. */
  lemma InvalidUserMeansForeignCredential(s: State, sid: string, credentialId: string,
                                          verdict: AuthenticationVerdict, now: int)
    requires Inv(s)
    ensures VerifyAuth(s, sid, credentialId, verdict, now).reply == Rejected(InvalidUser) <==>
      LiveAuth(s, sid, now) && s.users[s.authSessions[sid].userId].passKey.id != credentialId
  {
  }

  /** No request of the run mints a registration session under `sid`. */
  ghost predicate NeverMintsReg(qs: seq<Request>, sid: string) {
    forall i | 0 <= i < |qs| :: !(qs[i].InitRegisterReq? && qs[i].sid == sid)
  }

  /** No request of the run mints an authentication session under `sid`. */
  ghost predicate NeverMintsAuth(qs: seq<Request>, sid: string) {
    forall i | 0 <= i < |qs| :: !(qs[i].InitAuthReq? && qs[i].sid == sid)
  }

  /** Once a registration id is not live, only a new mint under it could make it acceptable. */
  lemma {:induction false} RegistrationStaysGone(s: State, qs: seq<Request>, sid: string)
    requires AdmissibleRun(s, qs) && sid !in s.regSessions && NeverMintsReg(qs, sid)
    ensures sid !in Final(s, qs).regSessions
    ensures forall i | 0 <= i < |qs| && qs[i].VerifyRegisterReq? && qs[i].sid == sid ::
      Replies(s, qs)[i] == Rejected(RegistrationNotFound)
    decreases |qs|
  {
    if |qs| > 0 {
      var s1 := Handle(s, qs[0]).state;
      assert sid !in s1.regSessions;
      assert NeverMintsReg(qs[1..], sid) by {
        forall i | 0 <= i < |qs[1..]| ensures !(qs[1..][i].InitRegisterReq? && qs[1..][i].sid == sid) {
          assert qs[1..][i] == qs[i + 1];
        }
      }
      RegistrationStaysGone(s1, qs[1..], sid);
      forall i | 0 < i < |qs| && qs[i].VerifyRegisterReq? && qs[i].sid == sid
        ensures Replies(s, qs)[i] == Rejected(RegistrationNotFound)
      {
        assert Replies(s, qs)[i] == Replies(s1, qs[1..])[i - 1];
        assert qs[1..][i - 1] == qs[i];
      }
    }
  }

  /** Once an authentication id is not live, only a new mint under it could make it acceptable. */
  lemma {:induction false} AuthenticationStaysGone(s: State, qs: seq<Request>, sid: string)
    requires AdmissibleRun(s, qs) && sid !in s.authSessions && NeverMintsAuth(qs, sid)
    ensures sid !in Final(s, qs).authSessions
    ensures forall i | 0 <= i < |qs| && qs[i].VerifyAuthReq? && qs[i].sid == sid ::
      Replies(s, qs)[i] == Rejected(AuthenticationNotFound)
    decreases |qs|
  {
    if |qs| > 0 {
      var s1 := Handle(s, qs[0]).state;
      assert sid !in s1.authSessions;
      assert NeverMintsAuth(qs[1..], sid) by {
        forall i | 0 <= i < |qs[1..]| ensures !(qs[1..][i].InitAuthReq? && qs[1..][i].sid == sid) {
          assert qs[1..][i] == qs[i + 1];
        }
      }
      AuthenticationStaysGone(s1, qs[1..], sid);
      forall i | 0 < i < |qs| && qs[i].VerifyAuthReq? && qs[i].sid == sid
        ensures Replies(s, qs)[i] == Rejected(AuthenticationNotFound)
      {
        assert Replies(s, qs)[i] == Replies(s1, qs[1..])[i - 1];
        assert qs[1..][i - 1] == qs[i];
      }
    }
  }

  /**
   * A registration session is accepted at most once: after a verified
   * registration, every later attempt with the same id is "not found".
   */
  lemma {:induction false} RegistrationIsOneShot(s: State, q: Request, qs: seq<Request>)
    requires q.VerifyRegisterReq? && Admissible(s, q) && Handle(s, q).reply == Verified
    requires AdmissibleRun(Handle(s, q).state, qs) && NeverMintsReg(qs, q.sid)
    ensures forall i | 0 <= i < |qs| && qs[i].VerifyRegisterReq? && qs[i].sid == q.sid ::
      Replies(Handle(s, q).state, qs)[i] == Rejected(RegistrationNotFound)
  {
    RegistrationStaysGone(Handle(s, q).state, qs, q.sid);
  }

  /**
   * An authentication session is accepted at most once: after a verified
   * authentication, every later attempt with the same id is "not found".
   */
  lemma {:induction false} AuthenticationIsOneShot(s: State, q: Request, qs: seq<Request>)
    requires q.VerifyAuthReq? && Admissible(s, q) && Handle(s, q).reply == Verified
    requires AdmissibleRun(Handle(s, q).state, qs) && NeverMintsAuth(qs, q.sid)
    ensures forall i | 0 <= i < |qs| && qs[i].VerifyAuthReq? && qs[i].sid == q.sid ::
      Replies(Handle(s, q).state, qs)[i] == Rejected(AuthenticationNotFound)
  {
    AuthenticationStaysGone(Handle(s, q).state, qs, q.sid);
  }

  /**
   * The whole life of an account: register, sign in, and the two session ids
   * are spent.  As the handlers are written, the sign-in options advertise no
   * transports (see Ceremony.TransportsLostAsWritten), and the counter becomes
   * the verifier's new counter.
   */
  lemma RegisterThenSignIn(s: State, email: string, sid1: string, userId: string, challenge1: string, now1: int,
                           transports: Option<seq<string>>, info: RegistrationInfo, now2: int,
                           sid2: string, challenge2: string, now3: int, newCounter: nat, now4: int)
    requires email != "" && !HasEmail(s.users, email)
    requires sid1 != "" && sid2 != "" && sid2 !in s.authSessions
    requires now1 <= now2 <= now1 + SessionTtl && now3 <= now4 <= now3 + SessionTtl
    ensures
      var o1 := InitRegister(s, email, sid1, userId, challenge1, now1);
      var o2 := VerifyRegister(o1.state, sid1, transports, RegistrationVerdict(true, info), now2);
      var o3 := InitAuth(o2.state, email, Some(userId), sid2, challenge2, now3);
      var o4 := VerifyAuth(o3.state, sid2, info.credentialId, AuthenticationVerdict(true, newCounter), now4);
      && o1.reply == Issued(RegistrationOptions(userId, email, challenge1), sid1)
      && o2.reply == Verified
      && o3.reply == Issued(AuthenticationOptions(info.credentialId, None, challenge2), sid2)
      && o4.reply == Verified
      && o4.state.users[userId].passKey.counter == newCounter
      && VerifyRegister(o4.state, sid1, transports, RegistrationVerdict(true, info), now4).reply
           == Rejected(RegistrationNotFound)
      && VerifyAuth(o4.state, sid2, info.credentialId, AuthenticationVerdict(true, newCounter), now4).reply
           == Rejected(AuthenticationNotFound)
  {
  }

  /**
   * The duplicate-email check happens only when a registration starts: two
   * registrations for one address that overlap both succeed, and the store
   * ends with two users sharing the address.
   */
  lemma DuplicateEmailRegistrations(email: string, info1: RegistrationInfo, info2: RegistrationInfo)
    requires email != ""
    ensures
      var qs := [InitRegisterReq(email, "s1", "u1", "c1", 0), InitRegisterReq(email, "s2", "u2", "c2", 0),
                 VerifyRegisterReq("s1", None, RegistrationVerdict(true, info1), 1),
                 VerifyRegisterReq("s2", None, RegistrationVerdict(true, info2), 1)];
      && AdmissibleRun(Empty, qs)
      && Replies(Empty, qs)[2] == Verified && Replies(Empty, qs)[3] == Verified
      && IsOwner(Final(Empty, qs).users, "u1", email) && IsOwner(Final(Empty, qs).users, "u2", email)
  {
    var qs := [InitRegisterReq(email, "s1", "u1", "c1", 0), InitRegisterReq(email, "s2", "u2", "c2", 0),
               VerifyRegisterReq("s1", None, RegistrationVerdict(true, info1), 1),
               VerifyRegisterReq("s2", None, RegistrationVerdict(true, info2), 1)];
    var s1 := Handle(Empty, qs[0]).state;
    var s2 := Handle(s1, qs[1]).state;
    var s3 := Handle(s2, qs[2]).state;
    var s4 := Handle(s3, qs[3]).state;
    assert !HasEmail(s1.users, email);
    assert "s1" in s2.regSessions && "s2" in s2.regSessions;
    assert "s2" in s3.regSessions && "u1" in s3.users;
    assert qs[1..][1..][1..][1..] == [];
    assert AdmissibleRun(s4, qs[1..][1..][1..][1..]);
    assert AdmissibleRun(s3, qs[1..][1..][1..]);
    assert AdmissibleRun(s2, qs[1..][1..]);
    assert AdmissibleRun(s1, qs[1..]);
    assert Final(Empty, qs) == s4 by {
      assert Final(s3, qs[1..][1..][1..]) == s4;
      assert Final(s2, qs[1..][1..]) == s4;
      assert Final(s1, qs[1..]) == s4;
    }
    assert Replies(s2, qs[1..][1..]) == [Handle(s2, qs[2]).reply, Handle(s3, qs[3]).reply] by {
      assert Replies(s3, qs[1..][1..][1..]) == [Handle(s3, qs[3]).reply];
    }
    assert Replies(Empty, qs)[2] == Replies(s2, qs[1..][1..])[0];
    assert Replies(Empty, qs)[3] == Replies(s2, qs[1..][1..])[1];
  }
}
