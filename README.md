# Login pipeline of node-clean-architecture-tdd, modelled in Dafny

This project models the decision logic of a small Node.js login service:

- `LoginRouter.route` (src/presentation/routers/login-router.js) turns one
  HTTP-shaped request into exactly one response: a bad request naming the
  first missing credential, unauthorized, ok with the access token, or a
  server error for anything thrown.
- `AuthUseCase.auth` (src/domain/usecases/auth-usecase.js) checks email and
  then password, looks the user up by email once, and returns `null` for an
  absent user.
- `Encrypter.compare` (src/utils/helpers/encrypter.js) checks value and then
  hash, then hands back bcrypt's verdict unchanged.
- The `Invalid` error (src/utils/errors/invalid-param-error.js) builds the
  message `Invalid param <name>` and the name `Invalid`.

All four are pure decision code, so the model is functional:

- `Js.Value` is a JavaScript value. `Js.Truthy` is JavaScript truthiness, used
  for the `!x` guards. `Js.Get` is a property read, which throws a TypeError
  on `undefined`/`null`.
- Exceptions and promise rejections are `Js.Outcome` (`Return(v)` or
  `Throw(e)`), over the error values in `Errors.Error`.
- Each collaborator is a function parameter: `authUseCase.auth`, the
  repository's `load`, and `bcrypt.compare`. An injected collaborator is a
  `Js.Dependency`: absent, lacking the method, or providing it. Calling
  through the first two is a TypeError.
- Call counts and arguments are kept in a log. Each operation that calls a
  collaborator returns a `Js.Traced` value, or `Routers.Routed` for the router: the outcome plus
  the list of collaborator calls made, in order.

Modules follow the source tree: `Errors` (src/utils/errors), `Js` (JavaScript
semantics), `Helpers` (src/utils/helpers), `UseCases` (src/domain/usecases),
`Routers` (src/presentation/routers). `Wrappers` holds `Option`.

`auth` does not compare the password, mint a token or record one. Once a
user is found it ends without a `return` and yields `undefined`, so
`UseCases.Auth` never yields a truthy value, and the router wired to this use
case never answers Ok (`Routers.WiredRouterNeverOk`). Neither login-router.js nor
auth-usecase.js checks the email format or raises `Invalid` for a missing
collaborator.

## Model

| member | source | states |
|---|---|---|
| `Errors.NewInvalid` | src/utils/errors/invalid-param-error.js:2-5 | the name is the constant "Invalid"; stripping the prefix "Invalid param " from the message gives back exactly the parameter name |
| `Errors.DropPrefixOfConcat` | src/utils/errors/invalid-param-error.js:3 | the prefix matcher applied to prefix + rest returns rest (proved by induction on the prefix) |
| `Errors.DropPrefixSound` | src/utils/errors/invalid-param-error.js:3 | whenever the prefix matcher succeeds, the input is the prefix followed by what it returned (induction) |
| `Errors.InvalidMessageFormat` | src/utils/errors/invalid-param-error.js:3 | a message names paramName exactly when it equals the message `new Invalid(paramName)` builds, in both directions |
| `Errors.InvalidMessagesDistinct` | src/utils/errors/invalid-param-error.js:3 | distinct parameter names give distinct messages |
| `Errors.InvalidNameConstant` | src/utils/errors/invalid-param-error.js:4 | the name is "Invalid" whatever the parameter name |
| `Js.Get` | src/presentation/routers/login-router.js:10 | a property read throws exactly when the receiver is undefined or null, and then throws a TypeError; on an object it yields the own property or undefined |
| `Helpers.Compare` | src/utils/helpers/encrypter.js:4-13 | the comparator is consulted exactly when value and hash are both truthy; then it is consulted once, with both arguments unchanged, and its outcome is the result; otherwise the result throws MissingParam for the first falsy argument |
| `Helpers.MissingValueThrows` | src/utils/helpers/encrypter.js:5-7 | a falsy value throws MissingParam('value') whatever the hash, with no comparison |
| `Helpers.MissingHashThrows` | src/utils/helpers/encrypter.js:8-10 | a truthy value with a falsy hash throws MissingParam('hash'), with no comparison |
| `Helpers.ValueCheckedFirst` | src/utils/helpers/encrypter.js:5-10 | for every falsy value and falsy hash, the error names 'value' |
| `Helpers.GuardFailureIgnoresComparator` | src/utils/helpers/encrypter.js:5-11 | when a guard fails, the result is the same for any two comparators |
| `Helpers.VerdictPassedThrough` | src/utils/helpers/encrypter.js:11-12 | with both present, a true or false verdict of the comparator is the result, unchanged |
| `Helpers.RejectionPropagates` | src/utils/helpers/encrypter.js:11 | a rejection of the comparator propagates as the same error |
| `UseCases.Auth` | src/domain/usecases/auth-usecase.js:8-19 | a falsy email throws MissingParam('email') and a truthy email with a falsy password throws MissingParam('password'), both with no call; `load` is called at most once, only with the email unchanged, and exactly when both are truthy and a repository is bound; any value returned is null or undefined |
| `UseCases.MissingEmailThrows` | src/domain/usecases/auth-usecase.js:9-11 | a falsy email throws MissingParam('email') even if the password is missing too, and nothing is loaded |
| `UseCases.MissingPasswordThrows` | src/domain/usecases/auth-usecase.js:12-14 | a truthy email with a falsy password throws MissingParam('password'), and nothing is loaded |
| `UseCases.NoArgumentsNamesEmail` | src/domain/usecases/auth-usecase.spec.js:33-37 | `auth()` with no arguments throws MissingParam('email') |
| `UseCases.LoadsOnceWithEmail` | src/domain/usecases/auth-usecase.js:15 | with valid inputs, `load` is called exactly once, with the email unchanged |
| `UseCases.AbsentUserIsNull` | src/domain/usecases/auth-usecase.js:16-18 | a falsy user makes `auth` return null |
| `UseCases.FoundUserIsUndefined` | src/domain/usecases/auth-usecase.js:15-19 | a truthy user makes `auth` return undefined |
| `UseCases.NeverYieldsToken` | src/domain/usecases/auth-usecase.js:15-19 | no input and no repository make `auth` return a truthy value |
| `UseCases.LoadErrorPropagates` | src/domain/usecases/auth-usecase.js:15 | an error raised by `load` propagates unchanged |
| `UseCases.MissingRepositoryIsTypeError` | src/domain/usecases/auth-usecase.js:15 | with valid inputs, an absent repository or one without `load` makes `auth` throw a TypeError, with no call |
| `Routers.ReadCredentials` | src/presentation/routers/login-router.js:10 | destructuring throws a TypeError exactly when the request or its body is undefined or null; otherwise email and password are the body's fields |
| `Routers.Route` | src/presentation/routers/login-router.js:8-25 | a request whose destructuring throws gives ServerError; the use case is called at most once, only with two truthy credentials read from the body and then with exactly those; a bad request names email or password and follows no call; the answer is Ok exactly when that single call returned a truthy token, and Ok carries that very token |
| `Routers.MissingEmailIsBadRequest` | src/presentation/routers/login-router.js:11-13 | a falsy email gives BadRequest(MissingParam('email')) whatever the password, with no call |
| `Routers.MissingPasswordIsBadRequest` | src/presentation/routers/login-router.js:14-16 | a truthy email with a falsy password gives BadRequest(MissingParam('password')), with no call |
| `Routers.EmailCheckedFirst` | src/presentation/routers/login-router.js:11-16 | for every request whose email and password are both falsy, the bad request names 'email' |
| `Routers.AuthCalledOnceWithCredentials` | src/presentation/routers/login-router.js:17 | with both credentials present, the use case is called exactly once, with the same email and password |
| `Routers.FalsyTokenIsUnauthorized` | src/presentation/routers/login-router.js:18-20 | a falsy token from the use case gives Unauthorized |
| `Routers.TruthyTokenIsOk` | src/presentation/routers/login-router.js:21 | a truthy token t gives Ok whose access token is t |
| `Routers.AuthErrorIsServerError` | src/presentation/routers/login-router.js:17-24 | an error raised by the use case gives ServerError |
| `Routers.MissingUseCaseIsServerError` | src/presentation/routers/login-router.js:17-24 | an absent use case, or one without `auth`, gives ServerError with no call |
| `Routers.MalformedRequestIsServerError` | src/presentation/routers/login-router.js:9-10 | every request whose destructuring throws (absent or primitive request; missing, undefined or null body) gives ServerError rather than an exception, with no call |
| `Routers.WiredRouterNeverOk` | src/domain/usecases/auth-usecase.js:15-19 | the router composed with the use case as written never answers Ok |

## Left out

- async/await: each awaited call is a sequential call whose outcome is a value or a thrown error. Scheduling is not modelled.
- bcrypt.compare is an arbitrary function parameter. The hash algorithm is foreign code.
- The repository's `load` and the router's `authUseCase.auth` are also arbitrary function parameters. User records are only truthy or falsy, as the code treats them.
- The http-response helpers and MissingParamError are not part of this model. Responses are the four variants, with no status codes or message text. MissingParamError keeps only its parameter name. The router imports it from ../helpers/missing-param-error, while the use case and the encrypter import it from utils/errors; the model uses one `Errors.MissingParam` for both, and no modelled behaviour depends on the difference, because the router answers every error raised by the use case with ServerError.
- Falsiness of NaN, -0 and BigInt 0n is not modelled, because numbers are integers here.
- Properties inherited from prototypes and getters that throw are not modelled. The keys read as data properties (body, email, password) are never inherited. The methods `auth` and `load`, which usually live on a prototype, are modelled by `Js.Dependency` whether they are own or inherited.
- Errors.NewInvalid: the parameter name is a string. JavaScript's stringification of a non-string parameter name in the template literal is not modelled.
- Token generation, token persistence, password comparison inside the use case, dependency checks that raise `Invalid`, and email-format checking do not appear in the modelled code, so they are not modelled.
- The email validator and the inline classes of the test files (src/utils/helpers/email-validatior.spec.js, and the inline classes in auth-usecase.spec.js and encrypter.spec.js) are test scaffolding. Their tests are used only as evidence.
