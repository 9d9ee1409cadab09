# Passkey ceremony coordinator

A Dafny model of the relying-party server in `api/server.js` of a small
WebAuthn ("passkey") demo. The server runs two ceremonies, and each ceremony
has two steps:

- **registration**: `GET /init-register` mints a challenge and a pending
  registration; `POST /verify-register` checks the client's answer and stores
  the new user with their passkey;
- **authentication**: `GET /init-auth` mints a challenge for an existing user;
  `POST /verify-auth` checks the answer against the stored passkey and stores
  the authenticator's new signature counter.

Pending ceremonies live in two in-memory maps, `regSessions` and
`authSessions`, keyed by a random session id. Each entry expires 60000 ms
after it is minted. Expiry is lazy: a lookup that finds an expired or missing
entry answers "not found" and deletes the key.

The model has three modules:

- `Ceremony` (ceremony.dfy) holds the data and the four handlers as functions
  from the old state and the request to the new state and the reply. Their
  `ensures` clauses state each handler's single-step guarantees. These cover
  the error paths, the entry that is minted, the user that is created, the
  counter that is replaced, the session that is consumed, and everything that
  stays unchanged.
- `Runs` (runs.dfy) looks at sequences of requests and proves three things by
  induction:
  - the coordinator's invariant is preserved;
  - stored users are never lost and their counters never decrease, given the
    verifier's counter rule;
  - a session id that is verified is never accepted again, as long as no
    later request mints the same id anew (`Runs.NeverMintsReg`,
    `Runs.NeverMintsAuth`).

  It also has two scenarios: a whole account life, and two registrations that
  overlap for one email.
- `Server` (coordinator.dfy) holds the handlers as imperative code. A
  class `Coordinator` has the three maps as fields and updates them in place.
  Each method's `ensures` equates the new state and the reply with the
  `Ceremony` function of the old state, so every property above holds of the
  object too.

Inputs that the server gets from the outside are parameters:

- the clock (`now` instead of `Date.now()`);
- the random session id;
- the user id and challenge minted by the options generators;
- the WebAuthn verifier's verdict (`verified`, the extracted credential, and
  `newCounter`).

The user store module is not part of this model. A map from user id to user
stands in for it. Its lookup by email is the answer `found` that `FoundBy`
allows: None exactly when nobody has the address, otherwise the id of some
user who has it.

Some behaviour of the code may look unintended; the model follows the code:

- When the verifier rejects the answer (api/server.js:105-109, 177-181), the
  session is kept rather than consumed.
- On "Invalid user" (api/server.js:155-157), the session is kept.
- The duplicate-email check happens only at `/init-register`. Two overlapping
  registrations for one address both succeed (`Runs.DuplicateEmailRegistrations`).
- The counter is replaced, not maxed (api/server.js:173). The counter property
  is therefore proved under the verifier's own rule, `Runs.CounterAccepted`:
  a non-zero counter must strictly grow.

Fresh ids are not a precondition of the single-step handlers, because the
code simply overwrites the map entry. Freshness of session ids and user ids is
an assumption of the run-level lemmas (`Runs.Admissible`). A missing or empty
`email` or `sessionId` is modelled as the empty string, which the code treats
as falsy. Other non-string values are not modelled.

The handlers store the new passkey as the code writes it
(`Ceremony.PasskeyAsWritten`), so its transports are never read back; see
"## Findings". `Ceremony.VerifyRegisterCorrected` is the registration handler
with that record corrected.

## Model

| member | source | states |
|---|---|---|
| `Ceremony.InitRegister` | api/server.js:50-76 | A session is issued iff the email is non-empty and no user has it. An empty email gives "Email is required" and a taken email gives "User already exists"; in both cases the state is unchanged. On success, exactly one entry is added under the session id, `RegInfo(userId, email, challenge, now + 60000)`. All other entries, the auth sessions and the users are unchanged, and the reply carries the options and the session id. |
| `Ceremony.VerifyRegister` | api/server.js:78-110 | A user is created iff the session is non-empty, present, not expired (`now <= expires`) and the verifier said yes. A missing, empty or expired session gives "Registration info not found", evicts that key (an empty id deletes nothing), and changes nothing else. On success the session's userId becomes a stored user with the session's email and the passkey record as the code writes it (the verified credential, no readable transports), the session is removed, and other users are unchanged. On verifier failure the reply is `verified: false` and the whole state is unchanged, including the session. |
| `Ceremony.VerifyRegisterCorrected` | api/server.js:78-110 | The registration handler with the passkey record corrected. It gives the same reply, the same session maps and the same user ids as the handler as written. When no user is created, the whole outcome is the same. When one is, its passkey keeps the client's transports and other users are unchanged. |
| `Ceremony.PasskeyAsWritten` | api/server.js:95-102 | The record the code stores carries exactly the credential the verifier extracted, and no readable transports. |
| `Ceremony.NewPasskey` | api/server.js:95-102 | The corrected record carries the same credential and the client's transports, and differs from the as-written record only in its transports. |
| `Ceremony.InitAuth` | api/server.js:112-143 | A session is issued iff the email is non-empty and some user has it. Otherwise the reply is "Email is required" or "No user for this email" and the state is unchanged. On success, one entry `AuthInfo(owner, challenge, now + 60000)` is added for the user the lookup returned. The options name that user's credential id and transports, and nothing else changes. |
| `Ceremony.VerifyAuth` | api/server.js:145-182 | Verified iff the session is live, its user exists and holds the answered credential id, and the verifier said yes. A missing or expired session gives "Authentication info not found" and is evicted. An unknown user or foreign credential gives "Invalid user" with the state unchanged. On success the user's counter becomes exactly `newCounter` (replacement, not max), the rest of that user is unchanged, the session is removed, and other users and the registration sessions are unchanged. On verifier failure the state is unchanged. |
| `Ceremony.Evict` | api/server.js:83 | Deleting a truthy session id removes exactly that key and keeps every other entry unchanged. An empty id leaves the map equal to what it was. |
| `Ceremony.ExpiryIsStrictAndFinal` | api/server.js:46-48 | `isExpired` is strict: an entry is still live at its own deadline. Once an entry has expired it stays expired at every later time, and an entry live at some time was live at every earlier time. |
| `Ceremony.RegistrationDeadline` | api/server.js:46-48 | A registration minted at `t` is live exactly while `now <= t + 60000` (strict expiry: still live at the deadline). After the deadline, verification answers "Registration info not found" and the state is back to what it was before the mint. |
| `Ceremony.TransportsLostAsWritten` | api/server.js:95-102 | For every transports value the client sends, after a successful verify-register as written, init-auth for the new user advertises no transports. |
| `Ceremony.TransportsKeptWhenCorrected` | api/server.js:95-102 | With the corrected record, init-auth for the new user advertises exactly the transports the client sent, whatever they were. |
| `Runs.EmptyInv` | api/server.js:39-40 | The empty server (both maps and the store empty) satisfies the coordinator invariant. |
| `Runs.StepPreservesInv` | api/server.js:67-73 | Every admissible request preserves the invariant. Pending registrations carry user ids that are unstored and pairwise distinct, and pending authentications belong to stored users. |
| `Runs.RunPreservesInv` | api/server.js:94-104 | The invariant holds after any admissible run from a state that satisfies it (induction over the run). |
| `Runs.StepKeepsUsers` | api/server.js:172-174 | From a state satisfying the coordinator invariant, one admissible step never removes a stored user or changes its email, credential id or public key. Under the verifier's counter rule, it never lowers the counter. |
| `Runs.CountersNeverDecrease` | api/server.js:159-176 | From a state satisfying the coordinator invariant, over any admissible run where the verifier applies the counter rule, every stored user survives with its email and credential, and its signature counter never decreases. |
| `Runs.InvalidUserMeansForeignCredential` | api/server.js:154-157 | Under the invariant, "Invalid user" is replied exactly when the session is live and the answered credential id differs from the session user's passkey id. |
| `Runs.RegistrationStaysGone` | api/server.js:80-85 | Once a registration id is not in the map, and no later request mints it again, every later verify-register with that id gets "Registration info not found" and the id stays absent. |
| `Runs.AuthenticationStaysGone` | api/server.js:147-152 | Once an authentication id is not in the map, and no later request mints it again, every later verify-auth with that id gets "Authentication info not found" and the id stays absent. |
| `Runs.RegistrationIsOneShot` | api/server.js:103 | After a verified registration, every later verify-register with the same session id is "not found", in any admissible run in which no later init-register mints that id again. |
| `Runs.AuthenticationIsOneShot` | api/server.js:174 | After a verified authentication, every later verify-auth with the same session id is "not found", in any admissible run in which no later init-auth mints that id again. |
| `Runs.RegisterThenSignIn` | api/server.js:50-182 | Register, verify, init-auth and verify-auth in turn within the deadlines. The replies are issued, verified, issued (advertising the credential id and, as the code is written, no transports) and verified. The counter becomes the verifier's new counter, and replaying either session id is "not found". |
| `Runs.DuplicateEmailRegistrations` | api/server.js:56-58 | Two registrations for one address that overlap both verify, and the store ends with two users sharing the address. |
| `Server.Coordinator.constructor` | api/server.js:39-40 | The server starts with both session maps and the user store empty. |
| `Server.Coordinator.UserByEmail` | api/server.js:118-121 | The lookup returns the id of a user with that address iff one exists, otherwise None. |
| `Server.Coordinator.InitRegister` | api/server.js:50-76 | Updates the registration map in place. The new state and the reply equal `Ceremony.InitRegister` of the old state. |
| `Server.Coordinator.VerifyRegister` | api/server.js:78-110 | Deletes from the registration map and creates a user in place. The new state and the reply equal `Ceremony.VerifyRegister` of the old state. |
| `Server.Coordinator.InitAuth` | api/server.js:112-143 | Adds to the authentication map in place. The state and the reply equal `Ceremony.InitAuth` of the old state, for a lookup answer that `FoundBy` allows. |
| `Server.Coordinator.VerifyAuth` | api/server.js:145-182 | Replaces the counter and deletes the session in place. The new state and the reply equal `Ceremony.VerifyAuth` of the old state. |
| `Server.ReplayAfterSignIn` | api/server.js:78-110 | A client driving one object through register and sign-in gets "not found" when it replays either session id. |

## Findings

| source | as written | input that shows it | evidently intended | confidence | as-written member | corrected member |
|---|---|---|---|---|---|---|
| api/server.js:95-102 | The new passkey record stores the client's transports under the key `transport`. Lines 129 and 168 read `passKey.transports`, which is therefore always absent. | A verify-register body with a top-level `transports: ["internal"]`. The later init-auth options advertise no transports. | Store them under `transports`, so the authentication options carry the client's transports. The bundled browser client nests them as `response.transports`, so the intended source may be `req.body.response.transports`. | medium, not executed; the user store module is not part of this model | `Ceremony.TransportsLostAsWritten` | `Ceremony.TransportsKeptWhenCorrected` |

The handlers in `Ceremony`, `Runs` and `Server` follow the code as written and store `Ceremony.PasskeyAsWritten`. `Ceremony.VerifyRegisterCorrected` stores `Ceremony.NewPasskey` instead, and `Ceremony.TransportsKeptWhenCorrected` proves the intended behaviour about it.

## Left out

- Cryptography: the WebAuthn checks inside the four `@simplewebauthn/server` calls are not modelled. They are the checks of sections 7.1 and 7.2 of W3C Web Authentication Level 2. Their results are inputs: the minted user id and challenge, and the verdict with its credential fields and new counter. The relying-party id, relying-party name and expected origin are configuration passed to those calls, so they are not modelled either.
- Verifier exceptions: `verifyRegistrationResponse` (api/server.js:87) and `verifyAuthenticationResponse` (api/server.js:159) can throw, for example on a replayed counter or a malformed body. The handlers do not catch the error, so nothing after the `await` runs. What the client then sees depends on the Express version: Express 5 answers with status 500, while under Express 4 on current Node the unhandled rejection ends the process and the in-memory session maps are lost. As a modelling choice, a throw is an input verdict with `verified: false`: the state is unchanged and the reply is `NotVerified`. Neither the 500 answer nor the process exit is modelled.
- Randomness: `createSessionId` is left out, and the session id is a parameter. Its freshness is assumed only by the run-level lemmas, through `Runs.Admissible`.
- The clock: `Date.now()` is left out, and the time is the parameter `now`.
- Storage: the user store module is not part of this model. Only a map from user id to user is modelled, with a lookup by email that may return any user with that address.
- `isExpired`'s `typeof expires === "number"` test: every stored `expires` is a number, so the test is always true and is not modelled.
- Transport: the Express, CORS and cookie-parser setup, the environment configuration, `app.listen`, and the unused `parseJsonOrNull` are left out.
- Concurrency: `async` handlers and concurrent requests are not modelled. Each handler is one atomic step, so races between duplicate verifications are not captured.
- Requests: request bodies are reduced to what the coordinator reads: `sessionId`, `id`, `transports` and `email`. The rest of the options object is not modelled.
- `client/main.js` (the browser side) is not part of this model.
- `Runs.CountersNeverDecrease`: this holds only when the verifier applies its counter rule (`Runs.CounterChecked`). The coordinator itself replaces the counter unconditionally.
