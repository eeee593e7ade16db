/** The request-decision logic of the account API: the JWT ownership guard,
    the login flow, the claim set a login token carries, the error-to-response
    adapter, the per-route method dispatch and the path-id parser. Every
    function is pure; storage and the JWT library are parameters. */
module Api {
  import opened Wrappers
  import opened Types
  import Decimal

  const PermissionDenied := "permission denied"
  const AccountDoesNotExist := "This account does not exist"
  const InvalidId := "This id is not a valid integer"
  const UsePost := "this method is not supported you should use POST instead"
  const BadCredentials := "Either number or password is incorect"

  /** The constant `createJWT` stores under the `expiresAt` claim. Nothing
      compares it with a clock. */
  const ExpiresAtClaim := 15000

  /** The one rejection the guard gives for every authentication or
      ownership failure. */
  const Denied := Respond(StatusForbidden, ApiError(PermissionDenied))

  /** The guard's answer when the path names no stored account. */
  const NotFound := Respond(StatusBadRequest, ApiError(AccountDoesNotExist))

  function MethodNotAllowed(httpMethod: string): string {
    "method not allowed " + httpMethod
  }

  function TransferMethodError(httpMethod: string): string {
    "method " + httpMethod + "  not supported, you should use POST instead"
  }

  // ---------------------------------------------------------------------
  // Routes and the methods each one serves

  datatype Route = LoginRoute | AccountRoute | AccountByIdRoute | TransferRoute

  /** The API surface: the methods each route accepts. */
  function AllowedMethods(route: Route): set<string> {
    match route
    case LoginRoute => {"POST"}
    case AccountRoute => {"GET", "POST"}
    case AccountByIdRoute => {"GET", "DELETE"}
    case TransferRoute => {"POST"}
  }

  // ---------------------------------------------------------------------
  // Path id

  /** The `{id}` variable denotes a decimal integer that fits Go's `int`. */
  predicate IdParses(idVar: string) {
    Decimal.IsDecimalInteger(idVar) && Decimal.InIntRange(Decimal.DecimalValue(idVar))
  }

  /** `getID`: the path id as an integer, or the fixed error message. */
  function GetId(idVar: string): (r: Result<int, string>)
    ensures r.Success? <==> IdParses(idVar)
    ensures r.Success? ==> r.value == Decimal.DecimalValue(idVar)
    ensures r.Failure? ==> r.error == InvalidId
  {
    match Decimal.ParseInt(idVar)
    case Some(id) => Success(id)
    case None => Failure(InvalidId)
  }

  // ---------------------------------------------------------------------
  // Tokens

  /** The token string read from the `x-jwt-token` header; an absent header
      reads as the empty string. */
  function TokenString(header: Option<string>): string {
    header.GetOr("")
  }

  /** Whatever the JWT library signs, it later parses as a valid token
      carrying the signed account number. This is the library's promise
      under one secret, taken as a hypothesis. */
  ghost predicate SignerAgrees(jwt: Jwt) {
    forall c: ClaimSet :: jwt.sign(c).Success? ==>
      jwt.validate(jwt.sign(c).value) == Parsed(true, NumberClaim(c.accountNumber))
  }

  /** `createJWT`: signs the claim set {expiresAt: 15000, accountNumber:
      the account's number}. */
  function CreateJwt(account: Account, jwt: Jwt): (r: Result<string, string>)
    ensures SignerAgrees(jwt) && r.Success? ==>
      jwt.validate(r.value) == Parsed(true, NumberClaim(account.number))
    ensures r.Failure? <==> jwt.sign(ClaimSet(ExpiresAtClaim, account.number)).Failure?
    ensures r.Success? ==> r == jwt.sign(ClaimSet(ExpiresAtClaim, account.number))
    ensures r.Failure? ==> r.error == jwt.sign(ClaimSet(ExpiresAtClaim, account.number)).error
  {
    jwt.sign(ClaimSet(ExpiresAtClaim, account.number))
  }

  // ---------------------------------------------------------------------
  // Error-to-response adapter

  /** `makeHTTPHandleFunc`: what reaches the client. An error from the
      handler becomes a 400 with `{"error": err}`; a handler that wrote its
      response gets nothing more written; a panic passes through the adapter
      and nothing is written. */
  function MakeHttpHandleFunc(r: HandlerResult): (resp: Option<Response>)
    ensures resp.None? <==> r.Panicked?
    ensures r.Failed? ==> resp == Some(Response(StatusBadRequest, ApiError(r.err)))
    ensures r.Wrote? ==> resp == Some(r.response)
  {
    match r
    case Failed(err) => Some(Response(StatusBadRequest, ApiError(err)))
    case Wrote(response) => Some(response)
    case Panicked => None
  }

  // ---------------------------------------------------------------------
  // Login

  /** The login body decoded to a request (not an error, not `null`). */
  predicate LoginDecoded(req: Request<Option<LoginRequest>>) {
    req.body.Success? && req.body.value.Some?
  }

  function Login(req: Request<Option<LoginRequest>>): LoginRequest
    requires LoginDecoded(req)
  {
    req.body.value.value
  }

  /** The account a login request is checked against: defined when the
      method is POST, the body decodes to a request and storage finds its
      number. */
  function LoginAccount(req: Request<Option<LoginRequest>>, storage: Storage): Option<Account> {
    if req.httpMethod == "POST" && LoginDecoded(req)
       && storage.accountByNumber(Login(req).number).Success?
    then Some(storage.accountByNumber(Login(req).number).value)
    else None
  }

  /** `handleLogin`: method check, body decoding, lookup by number, password
      check, token issuance. A `null` body leaves the decoded request nil
      and reading its number panics. */
  function HandleLogin(req: Request<Option<LoginRequest>>, storage: Storage,
                       validatePassword: (Account, string) -> bool, jwt: Jwt): (r: HandlerResult)
    ensures req.httpMethod !in AllowedMethods(LoginRoute) <==>
      r == Wrote(Response(StatusBadRequest, Text(UsePost)))
    ensures req.httpMethod == "POST" && req.body.Failure? ==> r == Failed(req.body.error)
    ensures r.Panicked? <==> req.httpMethod == "POST" && req.body.Success? && req.body.value.None?
    ensures req.httpMethod == "POST" && LoginDecoded(req)
            && storage.accountByNumber(Login(req).number).Failure? ==>
      r == Failed(storage.accountByNumber(Login(req).number).error)
    ensures r == Wrote(Response(StatusForbidden, Text(BadCredentials))) <==>
      LoginAccount(req, storage).Some?
      && !validatePassword(LoginAccount(req, storage).value, Login(req).password)
    ensures LoginAccount(req, storage).Some?
            && validatePassword(LoginAccount(req, storage).value, Login(req).password)
            && CreateJwt(LoginAccount(req, storage).value, jwt).Failure? ==>
      r == Failed(CreateJwt(LoginAccount(req, storage).value, jwt).error)
    ensures r.Wrote? && r.response.status == StatusOK <==>
      LoginAccount(req, storage).Some?
      && validatePassword(LoginAccount(req, storage).value, Login(req).password)
      && CreateJwt(LoginAccount(req, storage).value, jwt).Success?
    ensures r.Wrote? && r.response.status == StatusOK ==>
      && r.response.body.LoginResponse?
      && r.response.body.number == LoginAccount(req, storage).value.number
      && r.response.body.token == CreateJwt(LoginAccount(req, storage).value, jwt).value
      && (SignerAgrees(jwt) ==>
            jwt.validate(r.response.body.token) == Parsed(true, NumberClaim(r.response.body.number)))
  {
    if req.httpMethod != "POST" then
      Wrote(Response(StatusBadRequest, Text(UsePost)))
    else
      match req.body
      case Failure(err) => Failed(err)
      case Success(None) => Panicked
      case Success(Some(login)) =>
        match storage.accountByNumber(login.number)
        case Failure(err) => Failed(err)
        case Success(account) =>
          if !validatePassword(account, login.password) then
            Wrote(Response(StatusForbidden, Text(BadCredentials)))
          else
            match CreateJwt(account, jwt)
            case Failure(err) => Failed(err)
            case Success(token) => Wrote(Response(StatusOK, LoginResponse(token, account.number)))
  }

  // ---------------------------------------------------------------------
  // JWT ownership guard

  /** The header token parses and is valid. */
  predicate TokenAccepted<B>(req: Request<B>, jwt: Jwt) {
    var v := jwt.validate(TokenString(req.jwtToken));
    v.Parsed? && v.valid
  }

  /** The path id parses and storage returns an account for it. */
  predicate TargetFound<B>(req: Request<B>, storage: Storage) {
    IdParses(req.idVar) && storage.accountById(Decimal.DecimalValue(req.idVar)).Success?
  }

  /** The account the path names. */
  function Target<B>(req: Request<B>, storage: Storage): Account
    requires TargetFound(req, storage)
  {
    storage.accountById(Decimal.DecimalValue(req.idVar)).value
  }

  /** The ownership rule: a valid token whose `accountNumber` claim is the
      number of the account the path names. */
  predicate Authorized<B>(req: Request<B>, storage: Storage, jwt: Jwt) {
    && TokenAccepted(req, jwt)
    && TargetFound(req, storage)
    && jwt.validate(TokenString(req.jwtToken)).accountNumber == NumberClaim(Target(req, storage).number)
  }

  /** `withJWTAuth`: validate the header token, parse the path id, look the
      account up, compare its number with the token's claim, and only then
      hand the request to the wrapped handler. */
  function WithJwtAuth<B>(req: Request<B>, storage: Storage, jwt: Jwt): (o: Outcome)
    ensures o.CallHandler? <==> Authorized(req, storage, jwt)
    ensures !TokenAccepted(req, jwt) ==> o == Denied
    ensures TokenAccepted(req, jwt) && !IdParses(req.idVar) ==> o == Denied
    ensures o == NotFound <==>
      TokenAccepted(req, jwt) && IdParses(req.idVar) && !TargetFound(req, storage)
    ensures o.Abort? <==>
      TokenAccepted(req, jwt) && TargetFound(req, storage)
      && jwt.validate(TokenString(req.jwtToken)).accountNumber.NotNumber?
    ensures o.Respond? ==> o == Denied || o == NotFound
  {
    match jwt.validate(TokenString(req.jwtToken))
    case Rejected(_) => Denied
    case Parsed(valid, claim) =>
      if !valid then Denied
      else
        match GetId(req.idVar)
        case Failure(_) => Denied
        case Success(id) =>
          match storage.accountById(id)
          case Failure(_) => NotFound
          case Success(account) =>
            match claim
            case NotNumber => Abort
            case NumberClaim(n) => if account.number != n then Denied else CallHandler
  }

  // ---------------------------------------------------------------------
  // Method dispatch

  /** `handleAccount`: GET runs the listing handler, POST the creation
      handler (both given by their results), anything else is an error. */
  function HandleAccount<B>(req: Request<B>, listAccounts: HandlerResult,
                            createAccount: HandlerResult): (r: HandlerResult)
    ensures req.httpMethod == "GET" ==> r == listAccounts
    ensures req.httpMethod == "POST" ==> r == createAccount
    ensures req.httpMethod !in AllowedMethods(AccountRoute) ==>
      r == Failed(MethodNotAllowed(req.httpMethod))
  {
    if req.httpMethod == "GET" then listAccounts
    else if req.httpMethod == "POST" then createAccount
    else Failed(MethodNotAllowed(req.httpMethod))
  }

  /** A handler's result together with the id it asked storage to delete,
      if it did. */
  datatype Reply = Reply(result: HandlerResult, deleteCall: Option<int>)

  /** `handleAccountWithID`, with `handleGetAccountByID` and
      `handleDeleteAccount` behind it. */
  function HandleAccountWithId<B>(req: Request<B>, storage: Storage): (r: Reply)
    ensures req.httpMethod !in AllowedMethods(AccountByIdRoute) ==>
      r == Reply(Failed(MethodNotAllowed(req.httpMethod)), None)
    ensures req.httpMethod in AllowedMethods(AccountByIdRoute) && !IdParses(req.idVar) ==>
      r == Reply(Failed(InvalidId), None)
    ensures r.deleteCall.Some? <==> req.httpMethod == "DELETE" && IdParses(req.idVar)
    ensures r.deleteCall.Some? ==> r.deleteCall.value == Decimal.DecimalValue(req.idVar)
    ensures !r.result.Panicked?
    ensures r.result.Wrote? ==> r.result.response.status == StatusOK
    ensures req.httpMethod == "GET" && TargetFound(req, storage) ==>
      r == Reply(Wrote(Response(StatusOK, AccountJson(Target(req, storage)))), None)
    ensures req.httpMethod == "GET" && IdParses(req.idVar) && !TargetFound(req, storage) ==>
      r == Reply(Failed(storage.accountById(Decimal.DecimalValue(req.idVar)).error), None)
    ensures req.httpMethod == "DELETE" && IdParses(req.idVar)
            && storage.deleteAccount(Decimal.DecimalValue(req.idVar)).None? ==>
      r.result == Wrote(Response(StatusOK, DeletedJson(Decimal.DecimalValue(req.idVar))))
    ensures req.httpMethod == "DELETE" && IdParses(req.idVar)
            && storage.deleteAccount(Decimal.DecimalValue(req.idVar)).Some? ==>
      r.result == Failed(storage.deleteAccount(Decimal.DecimalValue(req.idVar)).value)
    ensures r.result.Wrote? && req.httpMethod == "GET" ==>
      TargetFound(req, storage) && r.result.response.body == AccountJson(Target(req, storage))
    ensures r.result.Wrote? && req.httpMethod == "DELETE" ==>
      && IdParses(req.idVar)
      && storage.deleteAccount(Decimal.DecimalValue(req.idVar)).None?
      && r.result.response.body == DeletedJson(Decimal.DecimalValue(req.idVar))
  {
    if req.httpMethod == "GET" then
      match GetId(req.idVar)
      case Failure(err) => Reply(Failed(err), None)
      case Success(id) =>
        match storage.accountById(id)
        case Failure(err) => Reply(Failed(err), None)
        case Success(account) => Reply(Wrote(Response(StatusOK, AccountJson(account))), None)
    else if req.httpMethod == "DELETE" then
      match GetId(req.idVar)
      case Failure(err) => Reply(Failed(err), None)
      case Success(id) =>
        match storage.deleteAccount(id)
        case Some(err) => Reply(Failed(err), Some(id))
        case None => Reply(Wrote(Response(StatusOK, DeletedJson(id))), Some(id))
    else
      Reply(Failed(MethodNotAllowed(req.httpMethod)), None)
  }

  /** `handleTransfer`: only POST with a decodable body succeeds; the body is
      echoed back. */
  function HandleTransfer<B>(req: Request<B>): (r: HandlerResult)
    ensures req.httpMethod !in AllowedMethods(TransferRoute) ==>
      r == Failed(TransferMethodError(req.httpMethod))
    ensures r.Wrote? <==> req.httpMethod in AllowedMethods(TransferRoute) && req.body.Success?
    ensures r.Wrote? ==> r.response == Response(StatusOK, TransferEcho)
    ensures req.httpMethod == "POST" && req.body.Failure? ==> r == Failed(req.body.error)
  {
    if req.httpMethod == "POST" then
      match req.body
      case Failure(err) => Failed(err)
      case Success(_) => Wrote(Response(StatusOK, TransferEcho))
    else
      Failed(TransferMethodError(req.httpMethod))
  }

  // ---------------------------------------------------------------------
  // The guarded route

  /** What `/account/{id}` ends with: a response and the id storage was
      asked to delete, or an aborted request. */
  datatype Served = Served(response: Response, deleteCall: Option<int>) | Aborted

  /** `/account/{id}`: `withJWTAuth` around `makeHTTPHandleFunc(handleAccountWithID)`. */
  function ServeAccountById<B>(req: Request<B>, storage: Storage, jwt: Jwt): (s: Served)
    ensures s.Served? && s.deleteCall.Some? ==>
      Authorized(req, storage, jwt) && s.deleteCall.value == Decimal.DecimalValue(req.idVar)
    ensures s.Served? && s.response.body.AccountJson? ==>
      && Authorized(req, storage, jwt)
      && jwt.validate(TokenString(req.jwtToken)).accountNumber
         == NumberClaim(s.response.body.account.number)
    ensures !Authorized(req, storage, jwt) ==>
      s.Aborted? || (s.deleteCall.None? && s.response.body.ApiError?)
    ensures s.Aborted? <==> WithJwtAuth(req, storage, jwt).Abort?
    ensures WithJwtAuth(req, storage, jwt).Respond? ==>
      s == Served(Response(WithJwtAuth(req, storage, jwt).status, WithJwtAuth(req, storage, jwt).body), None)
    ensures Authorized(req, storage, jwt) && req.httpMethod == "GET" ==>
      s == Served(Response(StatusOK, AccountJson(Target(req, storage))), None)
    ensures Authorized(req, storage, jwt) && req.httpMethod == "DELETE" ==>
      && s.Served?
      && s.deleteCall == Some(Decimal.DecimalValue(req.idVar))
      && s.response == (if storage.deleteAccount(Decimal.DecimalValue(req.idVar)).None?
                        then Response(StatusOK, DeletedJson(Decimal.DecimalValue(req.idVar)))
                        else Response(StatusBadRequest,
                               ApiError(storage.deleteAccount(Decimal.DecimalValue(req.idVar)).value)))
    ensures Authorized(req, storage, jwt) && req.httpMethod !in AllowedMethods(AccountByIdRoute) ==>
      s == Served(Response(StatusBadRequest, ApiError(MethodNotAllowed(req.httpMethod))), None)
  {
    match WithJwtAuth(req, storage, jwt)
    case Respond(status, body) => Served(Response(status, body), None)
    case Abort => Aborted
    case CallHandler =>
      var reply := HandleAccountWithId(req, storage);
      match MakeHttpHandleFunc(reply.result)
      case Some(response) => Served(response, reply.deleteCall)
      case None => Aborted
  }
}
