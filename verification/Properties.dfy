/** Properties that relate several operations of the account API: the token
    a login issues against the ownership guard, and the guard against the
    handlers and adapter behind it. */
module Properties {
  import opened Wrappers
  import opened Types
  import opened Api
  import Decimal

  /** A successful login's token opens the path of the logged-in account,
      written as `strconv.Itoa` writes its id, provided storage finds that
      account by id as well as by number; a GET there returns that account. */
  lemma LoginTokenOpensOwnAccount<B>(login: Request<Option<LoginRequest>>, storage: Storage,
                                     validatePassword: (Account, string) -> bool, jwt: Jwt,
                                     account: Account, token: string, number: int, next: Request<B>)
    requires SignerAgrees(jwt)
    requires HandleLogin(login, storage, validatePassword, jwt)
             == Wrote(Response(StatusOK, LoginResponse(token, number)))
    requires LoginAccount(login, storage) == Some(account)
    requires storage.accountById(account.id) == Success(account)
    requires Decimal.InIntRange(account.id)
    requires next.jwtToken == Some(token) && next.idVar == Decimal.FormatInt(account.id)
    ensures WithJwtAuth(next, storage, jwt) == CallHandler
    ensures number == account.number
    ensures next.httpMethod == "GET" ==>
      ServeAccountById(next, storage, jwt) == Served(Response(StatusOK, AccountJson(account)), None)
  {
    Decimal.ParseFormatRoundTrip(account.id);
  }

  /** The token a login issues for one account is refused, with the uniform
      403, on the path of any account with a different number. */
  lemma LoginTokenDeniedElsewhere<B>(login: Request<Option<LoginRequest>>, storage: Storage,
                                     validatePassword: (Account, string) -> bool, jwt: Jwt,
                                     token: string, number: int, next: Request<B>)
    requires SignerAgrees(jwt)
    requires HandleLogin(login, storage, validatePassword, jwt)
             == Wrote(Response(StatusOK, LoginResponse(token, number)))
    requires next.jwtToken == Some(token)
    requires TargetFound(next, storage) && Target(next, storage).number != number
    ensures WithJwtAuth(next, storage, jwt) == Denied
    ensures ServeAccountById(next, storage, jwt) == Served(Response(StatusForbidden, ApiError(PermissionDenied)), None)
  {
  }

  /** A wrong password is answered with 403 without consulting the token
      library: no token is signed. */
  lemma WrongPasswordIssuesNoToken(login: Request<Option<LoginRequest>>, storage: Storage,
                                   validatePassword: (Account, string) -> bool, jwt: Jwt, other: Jwt)
    requires LoginAccount(login, storage).Some?
    requires !validatePassword(LoginAccount(login, storage).value, Login(login).password)
    ensures HandleLogin(login, storage, validatePassword, jwt)
            == HandleLogin(login, storage, validatePassword, other)
    ensures MakeHttpHandleFunc(HandleLogin(login, storage, validatePassword, jwt))
            == Some(Response(StatusForbidden, Text(BadCredentials)))
  {
  }

  /** A login whose body does not decode or whose number storage cannot find
      reaches the client as a 400 carrying the error's own text; a `null`
      body reaches it as nothing at all. */
  lemma LoginErrorsBecome400(login: Request<Option<LoginRequest>>, storage: Storage,
                             validatePassword: (Account, string) -> bool, jwt: Jwt)
    requires login.httpMethod == "POST"
    requires LoginAccount(login, storage).None?
    ensures MakeHttpHandleFunc(HandleLogin(login, storage, validatePassword, jwt))
            == if login.body.Failure? then Some(Response(StatusBadRequest, ApiError(login.body.error)))
               else if !LoginDecoded(login) then None
               else Some(Response(StatusBadRequest, ApiError(storage.accountByNumber(Login(login).number).error)))
  {
  }

  /** With no `x-jwt-token` header the guard reads the empty token; as long
      as the library refuses that, the request is denied whatever the path
      and storage hold. */
  lemma MissingHeaderDenied<B>(req: Request<B>, storage: Storage, jwt: Jwt)
    requires req.jwtToken.None?
    requires !(jwt.validate("").Parsed? && jwt.validate("").valid)
    ensures ServeAccountById(req, storage, jwt) == Served(Response(StatusForbidden, ApiError(PermissionDenied)), None)
  {
  }

  /** Until the token is accepted and the path id parses, the guard's answer
      does not depend on storage: no account is looked up before then. */
  lemma NoLookupBeforeIdParses<B>(req: Request<B>, storage: Storage, other: Storage, jwt: Jwt)
    requires !TokenAccepted(req, jwt) || !IdParses(req.idVar)
    ensures WithJwtAuth(req, storage, jwt) == WithJwtAuth(req, other, jwt)
  {
  }
}
