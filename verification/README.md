# Account API authentication core, in Dafny

A model of the request-decision logic of the Go bank service's HTTP layer
(`api/account.go`): the JWT ownership guard `withJWTAuth` that protects
`/account/{id}`, the `handleLogin` flow that issues tokens, the claim set
`createJWT` signs, the `makeHTTPHandleFunc` adapter that turns handler errors
into 400 responses, the per-route method dispatch, and the path-id parser
`getID` with the `strconv.Atoi` semantics it relies on.

Everything is a pure function over immutable values. A request is a
`Request` record (HTTP method, optional `x-jwt-token` header, the `{id}` path
variable, the already-decoded JSON body or its decoding error). The storage
backend is a `Storage` record of lookup functions whose errors are the
backend's own text; the JWT library bound to the server secret is a `Jwt`
record of a signing and a parsing function; `ValidatePassword` is a predicate
parameter. The guard returns an `Outcome`: `Respond(status, body)`,
`CallHandler`, or `Abort` for the panic the code raises when the token's
`accountNumber` claim is not a number (the HTTP server recovers it and writes
nothing).

Files:
- `Wrappers.dfy`: `Option` and `Result`.
- `Decimal.dfy`: decimal strings for Go's 64-bit `int` — what they mean
  (`DecimalValue`), how `strconv.Atoi` scans them (`ParseInt`), how
  `strconv.Itoa` writes them (`FormatInt`), and round trips in both
  directions.
- `Types.dfy`: accounts, requests, response bodies, claims, collaborators.
- `Api.dfy`: the decision functions of `api/account.go`.
- `Properties.dfy`: lemmas relating login, token issuance, the guard and
  the handlers behind it.

The central promise: the handler behind `/account/{id}` runs exactly when the
token parses, is valid, the path id is a decimal integer in range, storage
returns an account for it, and that account's number equals the token's
`accountNumber` claim (`Api.WithJwtAuth`, `Api.Authorized`). Every other
authentication or ownership failure yields the one response
403 `{"error":"permission denied"}`; a missing account yields the distinct
400 `{"error":"This account does not exist"}`. The one exception is a valid
token whose `accountNumber` claim is not a number: once the account is
found, reading that claim panics and the request ends with no response
(`Outcome.Abort`).

Facts about the code that shape the model:
- Nothing compares the `expiresAt` claim (the constant `15000`) with a
  clock, so the model has no notion of time.
- An unknown number at login returns the storage error, which the adapter
  sends as 400, while a wrong password gets 403.
- `JWT_SECRET` is read on every call and used even when empty; the model
  keeps the secret inside the `Jwt` parameter.
- A login body of JSON `null` decodes without error into a nil request;
  reading its number panics, the server recovers, and no response is
  written (`HandlerResult.Panicked`).

## Model

| member | source | states |
|---|---|---|
| Decimal.ParseInt | api/account.go:261 | `strconv.Atoi` succeeds exactly on an optional sign followed by at least one ASCII digit whose value fits Go's 64-bit `int`, and then yields that value |
| Decimal.ParseFormatRoundTrip | api/account.go:259-266 | any in-range id written as `strconv.Itoa` writes it parses back to the same id |
| Decimal.FormatParseRoundTrip | api/account.go:259-266 | any accepted id string without `+`, redundant leading zeros or `-0` is exactly what `strconv.Itoa` writes for its value |
| Api.GetId | api/account.go:259-266 | `getID` succeeds exactly when the path id is an in-range decimal integer, returning its value; otherwise it fails with "This id is not a valid integer" |
| Api.CreateJwt | api/account.go:232-242 | the token signs the claim set {expiresAt: 15000, accountNumber: the account's number}: under a library that parses back what it signs, the token validates to that account's number; a signing error is returned unchanged |
| Api.MakeHttpHandleFunc | api/account.go:250-257 | a handler error becomes 400 `{"error": err}`; a handler that returned nil gets nothing more written; nothing is written exactly when the handler panicked |
| Api.HandleLogin | api/account.go:41-71 | non-POST gives 400 "use POST" before decoding or lookup; decode and lookup errors are returned; a `null` body, and only that, panics; a wrong password gives 403 "Either number or password is incorect" and nothing else does; a signing error is returned; 200 exactly when the password matches and signing succeeds, and then the response number is the stored account's, the token is the one `createJWT` signed, and it validates to that number |
| Api.WithJwtAuth | api/account.go:178-218 | the handler is called iff token valid, id parses, account found and its number equals the claim; a rejected or invalid token, or an unparsable id, gives 403 permission denied whatever storage holds; 400 "This account does not exist" iff the lookup fails; every response is one of those two |
| Api.HandleAccount | api/account.go:73-84 | GET runs the listing handler, POST the creation handler, any method outside {GET, POST} is "method not allowed <method>" |
| Api.HandleAccountWithId | api/account.go:95-155 | methods outside {GET, DELETE} give "method not allowed <method>"; a bad id gives the getID error; GET writes 200 with the account storage finds, and returns the lookup error otherwise; DELETE asks storage to delete exactly the parsed id, writes 200 `{"deleted": id}` when that succeeds and returns the delete error otherwise; a written response is always 200 |
| Api.HandleTransfer | api/account.go:158-169 | only POST with a decodable body succeeds (200 echo); other methods give "method <m>  not supported, you should use POST instead"; decode errors are returned |
| Api.ServeAccountById | api/account.go:33 | on the guarded route, storage is asked to delete an account, or an account is returned, only when the request is authorized for it, and the returned account's number is the token's claim; an unauthorized request gets exactly the guard's 403 or 400 response, or ends with no response when the claim panic aborts; an authorized GET gets 200 with the target account, an authorized DELETE deletes the parsed id and gets 200 `{"deleted": id}` or 400 with the delete error, and other methods get 400 "method not allowed <method>" |
| Properties.LoginTokenOpensOwnAccount | api/account.go:60-70 | the token of a successful login, presented on the path of the same account's id, reaches the handler, a GET there returns that account, and the login response number is that account's |
| Properties.LoginTokenDeniedElsewhere | api/account.go:207-211 | the token of a successful login presented on the path of an account with another number gets 403 permission denied and deletes nothing |
| Properties.WrongPasswordIssuesNoToken | api/account.go:56-58 | a wrong password yields 403 regardless of the token library, so no token is signed |
| Properties.LoginErrorsBecome400 | api/account.go:47-54 | a POST login whose body fails to decode or whose number is not found reaches the client as 400 with the error's text; a `null` body reaches it as no response |
| Properties.MissingHeaderDenied | api/account.go:182-186 | with no token header, and a library that refuses the empty token, the route answers 403 permission denied |
| Properties.NoLookupBeforeIdParses | api/account.go:182-201 | until the token is accepted and the id parses, the guard's answer is the same for any storage |

## Left out

- HTTP serving and routing (`Run`, lines 28-39): only the fact that
  `/account/{id}` is the one route wrapped by the middleware is kept, as
  `Api.ServeAccountById`; the other routes are their handlers plus
  `Api.MakeHttpHandleFunc`.
- JSON encoding and decoding and `WriteJSON` (lines 172-176): responses are
  `(status, body)` values and request bodies arrive already decoded or as a
  decoding error; encoding never fails in the model.
- JWT parsing, HS256 signing and the HMAC algorithm check (lines 221-230,
  238-241): library cryptography, modelled as the `Jwt` parameter;
  `SignerAgrees` is the one promise taken from it.
- Reading `JWT_SECRET` from the environment: part of the `Jwt` parameter.
- Token expiry: the code never checks it.
- Api.WithJwtAuth: the `accountNumber` claim is an integer, so the
  `int64(claims["accountNumber"].(float64))` conversion of line 208 is not
  modelled: it truncates a fractional claim (a claim of 42.5 matches account
  number 42), loses precision beyond 2^53, and gives an undefined result for
  floats outside the `int64` range.
- `Account.ValidatePassword` and `types.NewAccount` live in the `types`
  package, which is not part of this model: the former is a predicate
  parameter, the latter is not modelled.
- The storage backend: lookups and deletion are functions given as
  parameters, with no transactions and no concurrency.
- `handleGetAccount` and `handleCreateAccount` (lines 86-93, 123-141):
  pass-through plumbing; `Api.HandleAccount` takes their results as given.
- The echoed transfer body and the account listing content: bodies without
  content.
- Logging and `fmt.Println` (lines 36, 180, 214).
- Decimal.ParseInt: says only whether `strconv.Atoi` succeeds and with what
  value, not whether it reports a syntax or a range error, because `getID`
  replaces either with the same message.
