/**
 * `LoginRouter.route` of src/presentation/routers/login-router.js: it reads
 * the credentials from the request body, answers a bad request for the first
 * missing one, asks the authentication use case for a token, and turns every
 * error raised on the way into a server error.
 */
module Routers {

  import opened Errors
  import opened Js
  import UseCases

  /**
   * The responses of the http-response helpers, whose module is not part of
   * this model: only the variant and what the router puts into it are kept.
   */
  datatype HttpResponse =
    | BadRequest(error: Error)
    | Unauthorized
    | Ok(accessToken: Value)
    | ServerError

  /** The two fields destructured from the request body. */
  datatype Credentials = Credentials(email: Value, password: Value)

  /** One call of `authUseCase.auth`, with its arguments. */
  datatype AuthCall = AuthCall(email: Value, password: Value)

  /** `authUseCase.auth` as the router awaits it: a token value, or a rejection. */
  type AuthPort = (Value, Value) -> Outcome<Value>

  /** A `LoginRouter` instance: the use case bound at construction. */
  datatype LoginRouter = LoginRouter(authUseCase: Dependency<AuthPort>)

  /** A response together with the calls made to the use case while producing it. */
  datatype Routed = Routed(response: HttpResponse, calls: seq<AuthCall>)

  /**
   * `const { email, password } = httpRequest.body`: a TypeError exactly when
   * the request or its body is undefined or null; otherwise the two fields.
   */
  function ReadCredentials(httpRequest: Value): (r: Outcome<Credentials>)
    ensures r.Throw? <==> Nullish(httpRequest) || Nullish(Get(httpRequest, "body").value)
    ensures r.Throw? ==> r.error == TypeError
    ensures r.Return? ==> r.value.email == Get(Get(httpRequest, "body").value, "email").value
    ensures r.Return? ==> r.value.password == Get(Get(httpRequest, "body").value, "password").value
  {
    match Get(httpRequest, "body")
    case Throw(e) => Throw(e)
    case Return(body) =>
      match Get(body, "email")
      case Throw(e) => Throw(e)
      case Return(email) =>
        match Get(body, "password")
        case Throw(e) => Throw(e)
        case Return(password) => Return(Credentials(email, password))
  }

  /** The body of the `try` block: may throw. */
  function RouteBody(router: LoginRouter, httpRequest: Value): (r: Traced<HttpResponse, AuthCall>) {
    match ReadCredentials(httpRequest)
    case Throw(e) => Traced(Throw(e), [])
    case Return(Credentials(email, password)) =>
      if !Truthy(email) then
        Traced(Return(BadRequest(MissingParam("email"))), [])
      else if !Truthy(password) then
        Traced(Return(BadRequest(MissingParam("password"))), [])
      else
        match router.authUseCase
        case Absent => Traced(Throw(TypeError), [])
        case LacksMethod => Traced(Throw(TypeError), [])
        case Provides(auth) =>
          match auth(email, password)
          case Throw(e) => Traced(Throw(e), [AuthCall(email, password)])
          case Return(accessToken) =>
            if !Truthy(accessToken) then
              Traced(Return(Unauthorized), [AuthCall(email, password)])
            else
              Traced(Return(Ok(accessToken)), [AuthCall(email, password)])
  }

  /**
   * `route(httpRequest)`: the `try` block with its catch-all. The use case is
   * consulted at most once, only with two truthy credentials and then with
   * exactly those; a bad request names one of the two credentials; and the
   * answer is Ok exactly when that one call returned a truthy token, which
   * the answer then carries.
   */
  function Route(router: LoginRouter, httpRequest: Value): (r: Routed)
    ensures ReadCredentials(httpRequest).Throw? ==> r.response == ServerError
    ensures r.calls == [] || exists c :: ReadCredentials(httpRequest) == Return(c) && r.calls == [AuthCall(c.email, c.password)]
    ensures r.calls != [] ==> Truthy(r.calls[0].email) && Truthy(r.calls[0].password) && router.authUseCase.Provides?
    ensures r.response.BadRequest? ==> r.calls == [] && r.response.error in {MissingParam("email"), MissingParam("password")}
    ensures r.response.Ok? <==>
      r.calls != [] && router.authUseCase.op(r.calls[0].email, r.calls[0].password).Return?
                    && Truthy(router.authUseCase.op(r.calls[0].email, r.calls[0].password).value)
    ensures r.response.Ok? ==>
      router.authUseCase.op(r.calls[0].email, r.calls[0].password) == Return(r.response.accessToken)
  {
    var body := RouteBody(router, httpRequest);
    match body.outcome
    case Return(response) => Routed(response, body.calls)
    case Throw(_) => Routed(ServerError, body.calls)
  }

  /** A falsy email is a bad request naming the email, whatever the password; the use case is not called. */
  lemma MissingEmailIsBadRequest(router: LoginRouter, httpRequest: Value, email: Value, password: Value)
    requires ReadCredentials(httpRequest) == Return(Credentials(email, password))
    requires !Truthy(email)
    ensures Route(router, httpRequest) == Routed(BadRequest(MissingParam("email")), [])
  {
  }

  /** A truthy email with a falsy password is a bad request naming the password; the use case is not called. */
  lemma MissingPasswordIsBadRequest(router: LoginRouter, httpRequest: Value, email: Value, password: Value)
    requires ReadCredentials(httpRequest) == Return(Credentials(email, password))
    requires Truthy(email) && !Truthy(password)
    ensures Route(router, httpRequest) == Routed(BadRequest(MissingParam("password")), [])
  {
  }

  /** The email is checked first: when both credentials are falsy, the bad request names the email. */
  lemma EmailCheckedFirst(router: LoginRouter, httpRequest: Value, email: Value, password: Value)
    requires ReadCredentials(httpRequest) == Return(Credentials(email, password))
    requires !Truthy(email) && !Truthy(password)
    ensures Route(router, httpRequest).response == BadRequest(MissingParam("email"))
  {
  }

  /** With both credentials present, the use case is called exactly once, with both unchanged. */
  lemma AuthCalledOnceWithCredentials(auth: AuthPort, httpRequest: Value, email: Value, password: Value)
    requires ReadCredentials(httpRequest) == Return(Credentials(email, password))
    requires Truthy(email) && Truthy(password)
    ensures Route(LoginRouter(Provides(auth)), httpRequest).calls == [AuthCall(email, password)]
  {
  }

  /** A falsy token (null, undefined, "", ...) is answered as unauthorized. */
  lemma FalsyTokenIsUnauthorized(auth: AuthPort, httpRequest: Value, email: Value, password: Value)
    requires ReadCredentials(httpRequest) == Return(Credentials(email, password))
    requires Truthy(email) && Truthy(password)
    requires auth(email, password).Return? && !Truthy(auth(email, password).value)
    ensures Route(LoginRouter(Provides(auth)), httpRequest).response == Unauthorized
  {
  }

  /** A truthy token is answered as Ok carrying that very token. */
  lemma TruthyTokenIsOk(auth: AuthPort, httpRequest: Value, email: Value, password: Value, token: Value)
    requires ReadCredentials(httpRequest) == Return(Credentials(email, password))
    requires Truthy(email) && Truthy(password)
    requires auth(email, password) == Return(token) && Truthy(token)
    ensures Route(LoginRouter(Provides(auth)), httpRequest).response == Ok(token)
  {
  }

  /** An error raised by the use case is answered as a server error. */
  lemma AuthErrorIsServerError(auth: AuthPort, httpRequest: Value, email: Value, password: Value)
    requires ReadCredentials(httpRequest) == Return(Credentials(email, password))
    requires Truthy(email) && Truthy(password)
    requires auth(email, password).Throw?
    ensures Route(LoginRouter(Provides(auth)), httpRequest).response == ServerError
  {
  }

  /** A router without a usable use case answers a server error once the guards pass, without any call. */
  lemma MissingUseCaseIsServerError(router: LoginRouter, httpRequest: Value, email: Value, password: Value)
    requires ReadCredentials(httpRequest) == Return(Credentials(email, password))
    requires Truthy(email) && Truthy(password)
    requires !router.authUseCase.Provides?
    ensures Route(router, httpRequest) == Routed(ServerError, [])
  {
  }

  /**
   * A request whose destructuring throws (an absent or primitive request, or
   * a missing, undefined or null body) is answered as a server error rather
   * than thrown.
   */
  lemma MalformedRequestIsServerError(router: LoginRouter, httpRequest: Value)
    requires ReadCredentials(httpRequest).Throw?
    ensures Route(router, httpRequest) == Routed(ServerError, [])
  {
  }

  /** The router wired to the use case of auth-usecase.js. */
  function WiredRouter(useCase: UseCases.AuthUseCase): (r: LoginRouter) {
    LoginRouter(Provides((email: Value, password: Value) => UseCases.Auth(useCase, email, password).outcome))
  }

  /**
   * Wired to the use case as written, the router never answers Ok: the use
   * case yields only `null` or `undefined`, or throws.
   */
  lemma WiredRouterNeverOk(useCase: UseCases.AuthUseCase, httpRequest: Value)
    ensures !Route(WiredRouter(useCase), httpRequest).response.Ok?
  {
  }
}
