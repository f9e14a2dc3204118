/**
 * `AuthUseCase.auth` of src/domain/usecases/auth-usecase.js: two ordered
 * presence guards, one lookup of the user by email, and `null` for an absent
 * user. As written, a found user makes `auth` end without a return
 * statement, so it yields `undefined`: no token is produced.
 */
module UseCases {

  import opened Errors
  import opened Js

  /** One call of the repository's `load`, with its argument. */
  datatype LoadCall = LoadCall(email: Value)

  /** `loadUserByEmailRopository.load` as `auth` awaits it: a user value, or a rejection. */
  type Loader = Value -> Outcome<Value>

  /** An `AuthUseCase` instance: the repository bound at construction (the field keeps the source's spelling). */
  datatype AuthUseCase = AuthUseCase(loadUserByEmailRopository: Dependency<Loader>)

  /**
   * `auth(email, password)`. It fails with `MissingParam` for the first falsy
   * argument before any lookup; otherwise it calls `load` at most once, with
   * the email unchanged, and never yields anything but `null` or `undefined`.
   */
  function Auth(useCase: AuthUseCase, email: Value, password: Value): (r: Traced<Value, LoadCall>)
    ensures !Truthy(email) ==> r == Traced(Throw(MissingParam("email")), [])
    ensures Truthy(email) && !Truthy(password) ==> r == Traced(Throw(MissingParam("password")), [])
    ensures r.calls == [] || r.calls == [LoadCall(email)]
    ensures r.calls != [] <==> Truthy(email) && Truthy(password) && useCase.loadUserByEmailRopository.Provides?
    ensures r.outcome.Return? ==> r.outcome.value in {Null, Undefined}
  {
    if !Truthy(email) then
      Traced(Throw(MissingParam("email")), [])
    else if !Truthy(password) then
      Traced(Throw(MissingParam("password")), [])
    else
      match useCase.loadUserByEmailRopository
      case Absent => Traced(Throw(TypeError), [])
      case LacksMethod => Traced(Throw(TypeError), [])
      case Provides(load) =>
        match load(email)
        case Throw(e) => Traced(Throw(e), [LoadCall(email)])
        case Return(user) =>
          if !Truthy(user) then Traced(Return(Null), [LoadCall(email)])
          else Traced(Return(Undefined), [LoadCall(email)])
  }

  /** A falsy email is reported, even when the password is missing too, and nothing is loaded. */
  lemma MissingEmailThrows(useCase: AuthUseCase, email: Value, password: Value)
    requires !Truthy(email)
    ensures Auth(useCase, email, password) == Traced(Throw(MissingParam("email")), [])
  {
  }

  /** With a truthy email, a falsy password is reported and nothing is loaded. */
  lemma MissingPasswordThrows(useCase: AuthUseCase, email: Value, password: Value)
    requires Truthy(email) && !Truthy(password)
    ensures Auth(useCase, email, password) == Traced(Throw(MissingParam("password")), [])
  {
  }

  /** `auth()` with no arguments names the email (the test at auth-usecase.spec.js:33-37). */
  lemma NoArgumentsNamesEmail(useCase: AuthUseCase)
    ensures Auth(useCase, Undefined, Undefined).outcome == Throw(MissingParam("email"))
  {
  }

  /** With valid inputs and a repository, `load` is called exactly once, with the email. */
  lemma LoadsOnceWithEmail(load: Loader, email: Value, password: Value)
    requires Truthy(email) && Truthy(password)
    ensures Auth(AuthUseCase(Provides(load)), email, password).calls == [LoadCall(email)]
  {
  }

  /** A falsy user makes `auth` return `null`. */
  lemma AbsentUserIsNull(load: Loader, email: Value, password: Value)
    requires Truthy(email) && Truthy(password)
    requires load(email).Return? && !Truthy(load(email).value)
    ensures Auth(AuthUseCase(Provides(load)), email, password).outcome == Return(Null)
  {
  }

  /** A truthy user makes `auth` return `undefined`. */
  lemma FoundUserIsUndefined(load: Loader, email: Value, password: Value)
    requires Truthy(email) && Truthy(password)
    requires load(email).Return? && Truthy(load(email).value)
    ensures Auth(AuthUseCase(Provides(load)), email, password).outcome == Return(Undefined)
  {
  }

  /** Whatever happens, `auth` never yields a truthy value it could hand out as a token. */
  lemma NeverYieldsToken(useCase: AuthUseCase, email: Value, password: Value)
    ensures Auth(useCase, email, password).outcome.Return? ==> !Truthy(Auth(useCase, email, password).outcome.value)
  {
  }

  /** An error raised by `load` propagates unchanged. */
  lemma LoadErrorPropagates(load: Loader, email: Value, password: Value, e: Error)
    requires Truthy(email) && Truthy(password)
    requires load(email) == Throw(e)
    ensures Auth(AuthUseCase(Provides(load)), email, password).outcome == Throw(e)
  {
  }

  /** A missing repository, or one without `load`, surfaces as a TypeError once the guards pass. */
  lemma MissingRepositoryIsTypeError(useCase: AuthUseCase, email: Value, password: Value)
    requires Truthy(email) && Truthy(password)
    requires !useCase.loadUserByEmailRopository.Provides?
    ensures Auth(useCase, email, password) == Traced(Throw(TypeError), [])
  {
  }
}
