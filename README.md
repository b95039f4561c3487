# API gateway: session and cart state

A Dafny model of the session-authenticated API gateway in `main.go` and of
its in-memory mock database in `mock_db.go`.

- `wrappers.dfy` (module `Wrappers`) holds `Option`. The model uses it for
  Go's nil slices, for the results of the registry scans, for a missing
  cookie and for a request body that fails to decode.
- `mock_db.dfy` (module `MockDb`) holds the catalog and user value types and
  the mock tables as constants. It also holds the four catalog lookups as
  pure functions: schools, grades of a school, classes of a grade, and the
  equipment list of a selection.
- `gateway.dfy` (module `Gateway`) holds the rest of `main.go`:
  - the session token generator, a method that fills a 32-slot buffer in a loop;
  - the credential scan of the login endpoint (`FirstMatch`);
  - the authorization gate of the auth-status endpoint (`AuthStatus`), a
    pure function of the cookie, the session table and the registry;
  - class `Server<E>`, which holds the two shared tables. `sessions` maps a
    token to a user ID and `carts` maps a user ID to a list of entries.
    Its methods are `Login` and `Cart`.

Each handler's answer is a `Result`: `Ok` with the value the handler
encodes, or `Err` with `BadRequest` (400), `Unauthorized` (401) or
`MethodNotAllowed` (405).

The session table starts empty. `Valid()` states that every session names
a registered user ID, and `Login` keeps it. The cart store is generic in
its entry type `E`. The handler uses `[]Equipment` (main.go:289, 295),
but `MockCarts` is declared over `[]CartEntry` (mock_db.go:118), so the
source as written does not type-check. The model relies on neither type.
`Gateway.Start` builds the process's starting state: a `Server<CartEntry>`
with no sessions and `MockDb.MockCarts` as its carts.

Inputs that come from outside the program become parameters:
- The HTTP method is a string.
- A request body is an `Option`. `None` means the JSON decoder failed.
- The cookie is an `Option<string>`. `None` means no `sessionid` cookie.
- The 32 values the package-level `rand.Intn(62)` returns are a sequence
  `draws`, each below 62.

## Model

| member | source | states |
|---|---|---|
| `MockDb.GetSchools` | mock_db.go:59-61 | returns the fixed school table unchanged, and it has five schools (so it is non-empty) |
| `MockDb.GradesIn` | mock_db.go:67-72 | the scan answers Some exactly when some school in the table has the given ID, and then it answers the full grade list |
| `MockDb.GetGradesBySchoolID` | mock_db.go:65-73 | full grade list (four grades) iff the ID belongs to a school in `MockSchools`, nil otherwise |
| `MockDb.GetClassesByGradeID` | mock_db.go:76-83 | nil iff `GetGradesBySchoolID(schoolId)` is nil, i.e. iff the school is unknown; otherwise the full eight-class list |
| `MockDb.ClassesIgnoreGrade` | mock_db.go:81-82 | the class list does not depend on the grade ID |
| `MockDb.EquipmentKey` | mock_db.go:87 | the composite key is school, dash, grade, dash, class: its length, the two dash positions, and the three segments it is made of |
| `MockDb.EquipmentKeyNeverDefault` | mock_db.go:87-95 | no selection builds the key `"default"`, so the default list is reached only by the fallback |
| `MockDb.GetEquipmentList` | mock_db.go:86-96 | the list stored under the composite key when present, else the `"default"` list; never empty |
| `MockDb.EquipmentFor191` | mock_db.go:38-42 | selection 1/9/1 yields the three-item list stored under `"1-9-1"` |
| `MockDb.SchoolLookupExamples` | mock_database_test.go:34-60 | school "1" has grades and classes; school "999" has neither |
| `MockDb.MockUserIdsDistinct` | mock_db.go:100-104 | the registry's user IDs are pairwise distinct |
| `Gateway.Code` | main.go:215-307 | the three error answers write 400 (missing userid, malformed body), 401 (bad credentials or session) and 405 (wrong method), each code for exactly one answer |
| `Gateway.GenerateSessionId` | main.go:14-22 | the token has length 32, every character is in the 62-letter alphabet, and position i holds the letter of the i-th draw |
| `Gateway.FirstMatch` | main.go:254-255 | None iff no record matches both username and password; otherwise a matching record with no matching record before it |
| `Gateway.AvnerLogin` | mock_db.go:101 | "avner"/"2004" matches record {1, avner}; "avner" with any other password matches nothing |
| `Gateway.FindUserById` | main.go:228-233 | None iff no record has the ID; otherwise the first record, in registry order, with that ID |
| `Gateway.FindUserByOwnId` | main.go:228-231 | with distinct IDs, looking up a record's own ID yields that record |
| `Gateway.AuthStatus` | main.go:215-236 | Ok iff a cookie is present, its token is in the session table and the mapped user ID is registered; Ok carries that user's userid/username; every failure is 401; the table is only read |
| `Gateway.RegisteredTokenResolves` | main.go:222-235 | while every session names a registered user, a token is accepted iff it is in the session table |
| `Gateway.StatusAfterIssue` | main.go:257-258 | after recording token -> a record's user ID, auth status on that token answers that record's identity |
| `Gateway.Server.constructor` | main.go:12 | the process starts with an empty session table, the initial carts, and the session invariant holding |
| `Gateway.Start` | main.go:12 | the starting state is a fresh server with an empty session table, `MockCarts` as the cart table, and the session invariant holding |
| `Gateway.Server.Login` | main.go:238-275 | non-POST: 405. Malformed body: 400. No match: 401. All three leave sessions unchanged. On a match of the first matching record, sessions gains exactly token -> its user ID and nothing else changes. The token is well formed, the answer is that record's identity, and auth status on the token answers it. The session invariant and the carts are preserved |
| `Gateway.Server.Cart` | main.go:277-307 | empty userid: 400. GET: the stored cart, or empty for an unknown user. POST/PUT: the cart is replaced by the body (400 if the body is malformed). Any other method: 405. Only a successful POST/PUT changes anything, sessions never change, and the session invariant is kept |
| `Gateway.LoginThenStatus` | main.go:254-269 | a POSTed login succeeds iff the credentials match a record. On success the answer is the first matching record's identity with a well-formed token, and sessions gain exactly token -> the answered user ID; on failure the answer is 401 and sessions are unchanged. Carts never change and the session invariant is kept, so scenarios chain. Auth status with the issued token answers the identity the login answered |
| `Gateway.ReplaceThenGet` | main.go:293-300 | a POST then a GET for the same user answers exactly the posted list (a replace, not an append). The cart table afterwards is the old one with only that user's entry replaced, sessions are unchanged, and the session invariant is kept |

## Left out

- HTTP plumbing is not modelled. That covers route registration and
  `main`, the CORS wrapper and its OPTIONS short-circuit, `JSONError`,
  response writers, header setting and the cookie's attributes (Path,
  HttpOnly). A handler's answer is modelled as a `Result` value.
- JSON encoding and decoding are library calls. A decode failure is a
  `None` body. Encoding failures (500) are not modelled.
- Go can distinguish a cart stored as nil (a POST of `null`) from an empty
  list. Sequences cannot, so both read back as the empty list.
- Randomness and time are not modelled. The `draws` parameter stands for
  the package-level source behind `rand.Intn`, and each draw is assumed
  below 62, as `rand.Intn(62)` promises. The generator seeded from
  `time.Now` (main.go:15) is built and thrown away, so the seed never
  reaches the draws. Before Go 1.20 the package-level source was seeded
  with 1, so the tokens repeat from one start to the next. The model does
  not fix any seed.
- Gateway.Server.Login: no token-uniqueness guarantee. The source overwrites
  `sessions[sessionID]` without checking for a collision, and the model does
  the same. An issued token that collides rebinds the existing session.
- The catalog HTTP handlers (`getSchoolsHandler` and the others) are not
  modelled. They only check for missing query parameters and encode the
  lookups modelled in `MockDb`.
- Concurrency is not modelled. The handlers share the two Go maps without
  locking, and a sequential model cannot express that.
- Logging and process start-up are not modelled.
- Logout and session expiry are not modelled, because the gateway has neither.
- Auth status fails with a single 401 whether the cookie is missing or
  unresolvable. The model follows the code here and does not distinguish a
  missing credential from an invalid one.
