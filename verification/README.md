# Authentication core of fastapi-jwt, modelled in Dafny

The repository is a small FastAPI credential service in two variants.

- `main.py` (the JWT variant) stores users with a bcrypt hash of their password.
  It issues a signed bearer token at login, with claims `sub` (the email) and `exp` (30 minutes on).
  It resolves such a token back to the stored user on `/users/me`.
- `main_without_jwt.py` (the plaintext variant) first gates on the request's content type.
  It then runs an ordered chain of guards, each answering with an HTTP status code.
  It stores and compares passwords as plain text.

The model treats every handler as a pure transition.
It takes the credential store (a `map` from email to record) and the parsed request fields.
It returns a `Step`: the store afterwards, and either the reply or the kind of failure.
Foreign pieces are parameters, not axioms:

- bcrypt is a `Hashing.Hasher` value: a `hash(password, salt)` function and a `verify(password, hash)` predicate.
  `Sound(h)` says a password verifies against its own hash.
  `Binding(h)` says only that password does. This is an idealisation, since bcrypt compares only the first 72 bytes.
  The per-call random salt is an input.
- JWT signing is a `Tokens.Codec` value: `encode` and `parse`.
  `RoundTrips(k)` says that a token the server signed parses back to its claims.
  Bad signatures and malformed tokens are `parse` failing, for reasons the model does not open up.
  `Tokens.Decode` adds the two claim checks jose makes on the claims this service issues.
  An `exp` must stand for an integer timestamp that is not yet past: a token is still good in its expiry second.
  jose reads `exp` with Python's `int()`, so a text `exp` holding a decimal numeral counts as that timestamp.
  A `sub` must be text.
- The clock is an input `now`, in whole seconds since the epoch.
  This matches jose, which floors both the `exp` it writes and the clock it compares against.

Modules: `Basics` (Option, Result, Python truthiness of a field), `Hashing`, `Tokens`,
`JwtService` (main.py), `SignupLog` (signups handled one after another), and `PlainService` (main_without_jwt.py).

Behaviour of the code that is easy to get wrong, and that the model keeps:

- A token delta of zero is falsy in Python, so `create_access_token` gives it the 15-minute default. The token does not expire at once.
- In the JWT variant, an unknown email and a wrong password are one failure: a 401 with the same message. A duplicate signup is a 400.
  The plaintext variant tells them apart: 401 against 403, and 409 for a duplicate.
- All token failures in the JWT variant are the same 401.
  The model keeps `TokenInvalid`, `SubjectMissing` and `SubjectUnknown` apart, and `StatusOf` maps each of them to 401.

## Model

| member | source | states |
|---|---|---|
| Tokens.Decode | main.py:76-83 | decoding hands back exactly the parsed claims when the signature check succeeds and the claims are accepted at `now`, and nothing otherwise: never claims whose `exp` has passed or is not an integer, nor a `sub` that is not text |
| Tokens.DecodeEncoded | main.py:67-77 | a token the server signed decodes to exactly its claims while they are accepted at `now`, and fails once they are not |
| Tokens.TextExpiryAccepted | main.py:76-77 | claims whose `exp` is the decimal numeral of `n` are accepted exactly up to and including second `n`, as if `exp` were the timestamp `n` |
| JwtService.AuthenticateUser | main.py:50-58 | fails when the email is not a key; fails when the password does not verify against the stored hash; otherwise returns exactly the stored record |
| JwtService.AccessClaims | main.py:60-66 | keeps every input claim except `exp` and adds only `exp`; `exp = now + delta` for a non-zero delta, and `now + 15 min` when the delta is absent or zero |
| JwtService.AccessTokenDecodes | main.py:60-68 | a token from `create_access_token` decodes to exactly the claims it signed up to and including their expiry second and is refused after it; with a zero delta it is still good 15 minutes on |
| JwtService.GetCurrentUser | main.py:70-89 | decode failure is rejected; decoded claims without `sub` are rejected; it succeeds exactly when `sub` is a key of the current store, and then returns that stored record; every failure is a 401 |
| JwtService.ReadUsersMe | main.py:151-153 | answers with the current user's public fields (username, email); fails exactly when the current-user check fails, with that check's own failure, which is always a 401; the store is unchanged |
| JwtService.LoginForAccessToken | main.py:91-113 | never changes the store; succeeds exactly when the email is registered and the password verifies; any failure is the single 401 kind; on success the type is "bearer" and the token signs `sub = stored email`, `exp = now + 30 min` |
| JwtService.ApiSignup | main.py:115-149 | a falsy field gives 400 MissingField, and a registered email then gives 400 AlreadyRegistered, both leaving the store unchanged; otherwise it succeeds, inserts `{username: name, email, hash(password, salt)}` at the email, adds exactly that key and keeps every other record |
| JwtService.SignupPreservesWellFormed | main.py:129-147 | signup keeps every key non-empty, every record's email equal to its key and every name non-empty |
| JwtService.SecondSignupRefused | main.py:135-140 | after a successful signup, another signup for the same email is refused and the first record stays |
| JwtService.LoginAfterSignup | main.py:142-148 | with a sound hasher, after signup the same password authenticates to the stored record and login succeeds |
| JwtService.WrongPasswordAfterSignup | main.py:54-57 | with a binding hasher, after signup any other password is refused |
| JwtService.IdentifyAfterLogin | main.py:76-113 | a login token resolves to the same stored record, and to its public fields, at any time up to 30 minutes after issue (no earlier bound: the service issues no `nbf`) |
| JwtService.LoginTokenExpires | main.py:109-111 | after those 30 minutes the same token is rejected as invalid |
| JwtService.IdentifyAfterRemoval | main.py:84-86 | an unexpired token whose subject is no longer in the store is rejected as unknown |
| JwtService.SignupLoginIdentify | main.py:115-153 | signup, then login, then `/users/me` returns the new user's name and email while the token lives |
| SignupLog.Replay | main.py:135-148 | handling signups one after another never removes or replaces a record already in the store |
| SignupLog.ReplayKeys | main.py:129-148 | after a sequence of signups the store holds exactly the starting keys plus the emails of the requests whose fields were all present |
| SignupLog.ReplayFirstWins | main.py:135-147 | a new email ends up with the record of its first admissible signup; later ones for it change nothing |
| SignupLog.ReplayPreservesWellFormed | main.py:129-147 | any sequence of signups keeps the store well formed |
| SignupLog.TwoSignupsBothKept | main.py:142-148 | two signups with different emails on an empty store both end up in it with their own records |
| PlainService.ApiLogin | main_without_jwt.py:32-62 | never changes the store; 415 exactly for an unsupported content type; then 400 exactly for a falsy email; then 401 exactly for an unknown email; then 403 exactly when the password differs from the stored one; 200 otherwise |
| PlainService.ApiSignup | main_without_jwt.py:64-99 | 415 exactly for an unsupported content type; then 400 exactly when a field is falsy; then 409 exactly for a registered email; any failure leaves the store unchanged; success stores `{name, password, token: ""}` at the email, adds exactly that key and keeps every other record |
| PlainService.GateBeforeStore | main_without_jwt.py:34-75 | an unsupported content type gets 415 from both handlers whatever the store holds, and the store stays |
| PlainService.MissingEmailBeforeStore | main_without_jwt.py:45-52 | a login without an email gets 400 whatever the store holds |
| PlainService.SignupPreservesWellFormed | main_without_jwt.py:81-95 | signup keeps keys, names and passwords non-empty and tokens empty |
| PlainService.LoginAfterSignup | main_without_jwt.py:58-62 | after a signup the same password logs in with 200 and any other gets 403; a repeat signup conflicts with 409; the stored record is `{name, password, ""}` |
| PlainService.LoginRevealsRegistration | main_without_jwt.py:54-60 | with a wrong password, the status tells a registered email (403) from an unknown one (401) |

## Left out

- File storage: `get_credentials` and `save_credentials` (aiofiles and JSON) are not modelled, in either variant. The store is a value passed in and returned. A missing or corrupt file, and records that lack fields, are not modelled.
- HTTP machinery: routing, dependency injection, `HTTPException` and the body and form parsing. Handlers take the parsed fields and, in the plaintext variant, the Content-Type header.
- Non-string JSON values in request bodies are not modelled. Every field is either absent or a string.
- `main.py` signup parses any non-JSON content type as a form and has no 415 gate. Its fields are modelled after parsing, so the content type plays no part there.
- `JwtService.LoginForAccessToken`: email and password are strings. The OAuth2 form dependency refuses a request whose username or password is missing or empty before the handler runs, so only non-empty strings reach it; the model also answers `""` with the 401 failure. A JSON body lacking them is not modelled.
- Concurrency: signups are modelled one after another (`SignupLog`). The load-modify-save race between concurrent requests is not modelled.
- bcrypt internals and salting, and HS256 signing and the secret key. These appear only through the `Hasher` and `Codec` parameters and their laws.
- Tokens.Decode: Python's `int()` also accepts surrounding whitespace, underscores between digits and non-ASCII digits in a text `exp`. The model accepts only an optional sign followed by ASCII digits. JSON numbers with a fraction, and booleans, are not modelled as claim values.
- jose's checks on registered claims other than `exp` and `sub`, such as `nbf`, `iat`, `aud` and `iss`. The service never issues those claims. A JSON `null` claim value is not modelled either.
- Time is whole seconds. A token lifetime with a fractional part is not modelled.
- Fixed `GET` handlers (the dashboard and `/login` with 405), the static-file mount and the templates. None of them touch credentials.
- `data_generator.py`: a one-off script that writes random Faker users to a file.
