# Neon Null alpha signup — a Dafny model

The Neon Null backend (`server.js`) hands out Steam keys to alpha testers.
Its state is a fixed pool of keys (`steamKeys`), a cursor into it
(`keyIndex`) and an in-memory list of registered testers (`alphaTesters`).
`getNextSteamKey` returns the key under the cursor and advances it, or
`null` once the pool is used up. The `POST /api/alpha-signup` handler
validates name and email (400), refuses an email that is already registered
(409), allocates a key or gives up (503), appends the tester record, and
only then sends the welcome mail; if the mail fails it answers 500 but keeps
the record and the consumed key. `GET /api/alpha-stats` reports the number of
signups and the number of keys left.

The project has two modules:

- `signup_spec.dfy`, module `SignupSpec`: the state as a value (`Store`), the
  request handler as a pure step function (`Signup`), key allocation
  (`NextKey`), runs of requests (`Run`), the stats read (`Stats`), the state
  invariant (`Valid`) and the lemmas about them.
- `signup_server.dfy`, module `SignupServer`: the state as an object
  (`SignupService`, with `steamKeys`, `keyIndex` and `alphaTesters` as fields)
  whose methods update it in place step by step, each proved to do exactly
  what the step function says, and `FindByEmail`, the linear search behind
  `alphaTesters.find(...)`.

Modelling choices:

- A missing or falsy `name`, `email` or `experience` in the JSON body is the
  empty string. The duplicate check is exact string equality: no trimming, no
  case folding.
- The outcome of `transporter.sendMail` is an input (`mailDelivered`), and
  the `new Date()` reading is an opaque string input (`signupDate`).
- The code checks `!steamKey` after `keyIndex++` has run. So an empty key in
  the pool would be consumed and still answered with 503. `Signup` models
  this literally. The invariant `Valid` therefore requires every pool key to
  be non-empty, which holds for the pool at server.js:47-52.
  `EmptyKeyDesynchronises` shows what goes wrong otherwise.
- A failed mail answers 500, as the `catch` block at server.js:254-260
  does; the record and the consumed key stay.
- Issued keys are distinct whenever the pool's keys are distinct
  (`IssuedKeysDistinct`). The shipped pool's keys are distinct.

## Model

| member | source | states |
|---|---|---|
| `SignupSpec.Initial` | server.js:20-54 | the start state (pool, cursor 0, no testers) satisfies the invariant exactly when no pool key is empty |
| `SignupSpec.ExperienceOrDefault` | server.js:230 | the stored experience is never empty and is the given one whenever that is non-empty |
| `SignupSpec.NextKeyBehaviour` | server.js:57-62 | with the cursor at or past the end: no key and the state unchanged; otherwise the key at the old cursor and the cursor advanced by exactly one; the cursor never decreases nor passes the pool's end |
| `SignupSpec.SignupStatus` | server.js:196-261 | the answer is always one of 200, 400, 409, 500, 503; 400 iff name or email is empty; 409 iff both are present and the email is registered; 503 iff the pool is exhausted for a new valid request; 200 iff a record was appended and the mail went out; 500 iff a record was appended and the mail failed |
| `SignupSpec.RejectionLeavesStore` | server.js:201-224 | 400, 409 and 503 are exactly the answers that leave list and cursor unchanged |
| `SignupSpec.CommitAppendsRecord` | server.js:218-234 | for any store: a request with non-empty name and email, an unregistered email and a non-empty key left is committed (200 or 500); on 200 or 500 exactly one record is appended (given name and email, key at the old cursor, defaulted experience), earlier records are untouched and the cursor advances by one |
| `SignupSpec.SignupPreservesValid` | server.js:209-234 | one request keeps the invariant: unique emails, one tester per issued key, tester i holds pool key i, cursor within the pool |
| `SignupSpec.RunPreservesValid` | server.js:196-261 | the invariant holds after any sequence of signup requests |
| `SignupSpec.RunOnlyGrows` | server.js:54-62 | over any run the pool is unchanged, the cursor never decreases and the tester list only grows at its end |
| `SignupSpec.ExhaustedIsFinal` | server.js:217-224 | once the cursor reaches the end of the pool, every later request leaves the state unchanged and answers 400, 409 or 503 |
| `SignupSpec.CommitsCounted` | server.js:226-260 | over any run the number of records appended equals the number of 200 answers plus the number of 500 answers |
| `SignupSpec.IssuedKeysDistinct` | server.js:47-62 | in a valid state, testers hold pairwise distinct keys whenever the pool's keys are distinct |
| `SignupSpec.StatsBalance` | server.js:264-270 | in a valid state keysRemaining is never negative, totalSignups + keysRemaining equals the pool size, and keysRemaining is 0 exactly when allocation yields no key |
| `SignupSpec.ThreeKeysScenario` | server.js:196-270 | pool A1,B2,C3: three new emails get A1, B2, C3 in order, the fourth gets 503, stats report 3 signups and 0 keys |
| `SignupSpec.DuplicateScenario` | server.js:209-215 | re-registering the same email with another name answers 409 and totalSignups stays 1 |
| `SignupSpec.MailFailureKeepsCommit` | server.js:226-260 | a failed mail answers 500 but the key stays consumed: the next signup gets the next key |
| `SignupSpec.EmptyKeyDesynchronises` | server.js:218-224 | an empty pool key is consumed yet answered with 503, leaving cursor 1 with no tester |
| `SignupServer.FindByEmail` | server.js:209 | returns nothing exactly when no tester has the email; otherwise the first tester whose email matches exactly |
| `SignupServer.SignupService.constructor` | server.js:20-54 | the service starts with the given pool, cursor 0 and an empty list; valid when no key is empty |
| `SignupServer.SignupService.GetNextSteamKey` | server.js:57-62 | past the end: null and cursor unchanged; otherwise the key at the old cursor and the cursor advanced by one; the tester list is untouched |
| `SignupServer.SignupService.Signup` | server.js:196-261 | the in-place handler yields the status and new state of the step function `SignupSpec.Signup` and keeps the invariant |
| `SignupServer.SignupService.Stats` | server.js:264-270 | reports the list length and pool size minus cursor; with the invariant, never negative and summing to the pool size |

## Left out

- Express setup, CORS, body parsing, static files, `app.listen` and the
  module export (server.js:10-16, 278-283): HTTP plumbing with no state.
- The mail transport and `sendMail` (server.js:24-30, 237-244): foreign I/O,
  reduced to the boolean `mailDelivered`.
- `generateWelcomeEmail` (server.js:65-193): an HTML template that only
  interpolates name, key and an environment variable.
- `new Date()` readings, console logging and the `/api/health` endpoint
  (server.js:232, 247, 255, 273-275): clock and output, no state.
- Interleaving of concurrent requests at the `await` on server.js:244: the
  model runs requests one at a time.
- JSON bodies whose fields are not strings (numbers, booleans, objects):
  only strings are modelled, with falsy meaning empty.
- The JSON message texts of the responses: only the status code is modelled.
