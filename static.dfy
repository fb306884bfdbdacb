/** The static helpers of src/ResultStatic.cs: type-fixing constructors and
    the `Try` wrappers that turn a thrown exception into an Error payload. */
module Static {
  import opened Prelude
  import opened Results
  import opened Tasks
  import Values

  /** `Result.Ok<TOk, TError>`: the struct's own Ok constructor. */
  function Ok<T, E>(v: T): (r: Result<T, E>)
    ensures r == NewOk(v)
  {
    Result<T, E>.Ok(v)
  }

  /** `Result.Ok<TOk>`: an Ok result whose error type is fixed to `string`. */
  function OkWithStringError<T>(v: T): (r: Result<T, string>)
    ensures r == NewOk(v)
  {
    Result<T, string>.Ok(v)
  }

  /** `Result.Error<TOk, TError>`: the struct's own Error constructor. */
  function Error<T, E>(e: E): (r: Result<T, E>)
    ensures r == NewError(e)
  {
    Result<T, E>.Error(e)
  }

  /** `Result.Error<TError>`: an Error result whose ok type is fixed to `Success`. */
  function ErrorWithSuccess<E>(e: E): (r: Result<Success, E>)
    ensures r == NewError(e)
  {
    Result<Success, E>.Error(e)
  }

  /** `Try`: runs `func` once; Ok of what it returns, or Error carrying
      exactly the exception it throws. */
  function Try<T>(func: () -> Outcome<T>): (r: Result<T, Exn>)
    ensures r.IsOk() <==> func().Returned?
    ensures r.IsOk() ==> r.okValue == func().value
    ensures r.IsError() ==> r.errorValue == func().exn
  {
    match func()
    case Returned(v) => Result<T, Exn>.Ok(v)
    case Thrown(x) => Result<T, Exn>.Error(x)
  }

  /** `TryAsync`: calls `func` and awaits the returned Task; Ok of the
      task's value, or Error carrying the exception thrown either by the
      call itself or by the awaited task. */
  function TryAsync<T>(func: () -> Outcome<Task<T>>): (r: Result<T, Exn>)
    ensures func().Thrown? ==> r == NewError(func().exn)
    ensures func().Returned? && Await(func().value).Returned? ==> r == NewOk(Await(func().value).value)
    ensures func().Returned? && Await(func().value).Thrown? ==> r == NewError(Await(func().value).exn)
  {
    match func()
    case Thrown(x) => Result<T, Exn>.Error(x)
    case Returned(t) =>
      match Await(t)
      case Returned(v) => Result<T, Exn>.Ok(v)
      case Thrown(x) => Result<T, Exn>.Error(x)
  }

  /** `Try` and `GetValueOrThrow` are inverse: unwrapping the caught result
      (whose error payload is an exception, so it is rethrown as it is)
      gives back exactly what the function did. */
  lemma TryThenGetValueOrThrow<T>(func: () -> Outcome<T>, render: Exn -> string)
    ensures Values.GetValueOrThrow(Try(func), (x: Exn) => Some(x), render) == func()
  {
  }

  /** `TryAsync` on a function returning an already-completed task is `Try`
      on a function returning its value. */
  lemma TryAsyncOfCompleted<T>(func: () -> Outcome<T>)
    ensures TryAsync(() => func().Map(FromResult)) == Try(func)
  {
  }
}
