/**
 * The server's module-level state and route handlers as an object: the two
 * session maps and the user store are fields that the handlers update in
 * place.  Each handler is specified by the Ceremony function of the same
 * name: the new state and the reply are what that function gives for the old
 * state, so every property proved in Ceremony and Runs holds of the object.
 */
module Server {
  import opened Ceremony

  class Coordinator {
    var regSessions: map<string, RegInfo>
    var authSessions: map<string, AuthInfo>
    /** Stands in for the user store module: users by id. */
    var users: map<string, User>

    /** The whole state as a value. */
    function Model(): State
      reads this
    {
      State(regSessions, authSessions, users)
    }

    constructor ()
      ensures Model() == Empty
    {
      regSessions := map[];
      authSessions := map[];
      users := map[];
    }

    /**
     * The user store's lookup by email: the id of a user with that address,
     * or None when nobody has it.
     */
    method UserByEmail(email: string) returns (found: Option<string>)
      ensures FoundBy(users, email, found)
      ensures found.Some? <==> HasEmail(users, email)
    {
      if id :| id in users && users[id].email == email {
        found := Some(id);
      } else {
        found := None;
      }
    }

    /** GET /init-register. */
    method InitRegister(email: string, sid: string, userId: string, challenge: string, now: int)
      returns (reply: Reply)
      modifies this
      ensures Outcome(Model(), reply) == Ceremony.InitRegister(old(Model()), email, sid, userId, challenge, now)
    {
      if email == "" {
        return Rejected(EmailRequired);
      }
      var existing := UserByEmail(email);
      if existing.Some? {
        return Rejected(UserExists);
      }
      regSessions := regSessions[sid := RegInfo(userId, email, challenge, now + SessionTtl)];
      reply := Issued(RegistrationOptions(userId, email, challenge), sid);
    }

    /** POST /verify-register. */
    method VerifyRegister(sid: string, transports: Option<seq<string>>, verdict: RegistrationVerdict, now: int)
      returns (reply: Reply)
      modifies this
      ensures Outcome(Model(), reply) == Ceremony.VerifyRegister(old(Model()), sid, transports, verdict, now)
    {
      if sid == "" || sid !in regSessions || IsExpired(regSessions[sid].expires, now) {
        if sid != "" {
          regSessions := regSessions - {sid};
        }
        return Rejected(RegistrationNotFound);
      }
      var info := regSessions[sid];
      if verdict.verified {
        users := users[info.userId := User(info.email, PasskeyAsWritten(verdict.info, transports))];
        regSessions := regSessions - {sid};
        reply := Verified;
      } else {
        reply := NotVerified;
      }
    }

    /**
     * GET /init-auth.  The ghost `found` is the answer the lookup by email
     * gave, which decides whose session is minted.
     */
    method InitAuth(email: string, sid: string, challenge: string, now: int)
      returns (reply: Reply, ghost found: Option<string>)
      modifies this
      ensures email != "" ==> FoundBy(old(users), email, found)
      ensures Outcome(Model(), reply) == Ceremony.InitAuth(old(Model()), email, found, sid, challenge, now)
    {
      found := None;
      if email == "" {
        return Rejected(EmailRequired), found;
      }
      var user := UserByEmail(email);
      found := user;
      if user.None? {
        return Rejected(NoUserForEmail), found;
      }
      var passKey := users[user.value].passKey;
      authSessions := authSessions[sid := AuthInfo(user.value, challenge, now + SessionTtl)];
      reply := Issued(AuthenticationOptions(passKey.id, passKey.transports, challenge), sid);
    }

    /** POST /verify-auth. */
    method VerifyAuth(sid: string, credentialId: string, verdict: AuthenticationVerdict, now: int)
      returns (reply: Reply)
      modifies this
      ensures Outcome(Model(), reply) == Ceremony.VerifyAuth(old(Model()), sid, credentialId, verdict, now)
    {
      if sid == "" || sid !in authSessions || IsExpired(authSessions[sid].expires, now) {
        if sid != "" {
          authSessions := authSessions - {sid};
        }
        return Rejected(AuthenticationNotFound);
      }
      var info := authSessions[sid];
      if info.userId !in users || users[info.userId].passKey.id != credentialId {
        return Rejected(InvalidUser);
      }
      if verdict.verified {
        var user := users[info.userId];
        users := users[info.userId := user.(passKey := user.passKey.(counter := verdict.newCounter))];
        authSessions := authSessions - {sid};
        reply := Verified;
      } else {
        reply := NotVerified;
      }
    }
  }

  /** A client of the object: one account's whole life, and the replay of both session ids. */
  method ReplayAfterSignIn(info: RegistrationInfo, newCounter: nat)
    returns (replayRegister: Reply, replaySignIn: Reply)
    ensures replayRegister == Rejected(RegistrationNotFound)
    ensures replaySignIn == Rejected(AuthenticationNotFound)
  {
    var server := new Coordinator();
    var r1 := server.InitRegister("alice@example.com", "S1", "u1", "C1", 0);
    assert r1.Issued?;
    var r2 := server.VerifyRegister("S1", Some(["internal"]), RegistrationVerdict(true, info), 1000);
    assert r2 == Verified;
    assert IsOwner(server.users, "u1", "alice@example.com");
    var r3, found := server.InitAuth("alice@example.com", "S2", "C2", 2000);
    assert found == Some("u1");
    assert r3 == Issued(AuthenticationOptions(info.credentialId, None, "C2"), "S2");
    var r4 := server.VerifyAuth("S2", info.credentialId, AuthenticationVerdict(true, newCounter), 3000);
    assert r4 == Verified && server.users["u1"].passKey.counter == newCounter;
    replayRegister := server.VerifyRegister("S1", Some(["internal"]), RegistrationVerdict(true, info), 4000);
    replaySignIn := server.VerifyAuth("S2", info.credentialId, AuthenticationVerdict(true, newCounter), 4000);
  }
}
