/** The records the account API works on: accounts, requests and responses,
    the JWT claim set, and the collaborators (storage, token library) that
    the decision logic consults but that are not part of this model. */
module Types {
  import opened Wrappers

  /** The fields of an account that the authentication layer reads.
      `encryptedPassword` only mirrors the Go struct: the password check
      itself is a parameter of the login flow. */
  datatype Account = Account(id: int, number: int, encryptedPassword: string)

  /** Body of `POST /login`. It is decoded into a pointer, so a JSON `null`
      body decodes without error to no request at all. */
  datatype LoginRequest = LoginRequest(number: int, password: string)

  /** An incoming request: its HTTP method, the `x-jwt-token` header (absent or
      present), the `{id}` path variable (empty on routes without one), and
      the result of decoding its JSON body into the handler's request type. */
  datatype Request<B> = Request(
    httpMethod: string,
    jwtToken: Option<string>,
    idVar: string,
    body: Result<B, string>)

  /** JSON bodies the API writes. */
  datatype Body =
    | ApiError(error: string)                // {"error": ...}
    | Text(text: string)                     // a bare JSON string
    | LoginResponse(token: string, number: int)
    | AccountJson(account: Account)
    | DeletedJson(deleted: int)              // {"deleted": id}
    | TransferEcho                           // echoed transfer request, not modelled

  datatype Response = Response(status: int, body: Body)

  const StatusOK: int := 200
  const StatusBadRequest: int := 400
  const StatusForbidden: int := 403

  /** What an API handler (`apiFunc`) does: writes a response and returns
      nil, returns an error without writing, or panics without writing. */
  datatype HandlerResult = Wrote(response: Response) | Failed(err: string) | Panicked

  /** What the JWT middleware decides for one request. `Abort` is the panic
      raised when the `accountNumber` claim is not a number; the HTTP server
      recovers it and no response is written. */
  datatype Outcome = Respond(status: int, body: Body) | CallHandler | Abort

  /** The claims `createJWT` signs. */
  datatype ClaimSet = ClaimSet(expiresAt: int, accountNumber: int)

  /** The `accountNumber` claim of a parsed token: a number, or anything else
      (missing, a string, ...). */
  datatype Claim = NumberClaim(value: int) | NotNumber

  /** What parsing a token string yields: an error, or a token with its
      `Valid` flag and its `accountNumber` claim. */
  datatype Validation = Rejected(reason: string) | Parsed(valid: bool, accountNumber: Claim)

  /** The JWT library bound to the server's secret: signing a claim set and
      parsing/verifying a token string. */
  datatype Jwt = Jwt(sign: ClaimSet -> Result<string, string>, validate: string -> Validation)

  /** The storage collaborator. Errors are the backend's own text;
      `deleteAccount` yields the error it returns, if any. */
  datatype Storage = Storage(
    accountById: int -> Result<Account, string>,
    accountByNumber: int -> Result<Account, string>,
    deleteAccount: int -> Option<string>)
}
