/** The async adaptation layer of src/ResultAsyncExtensions.cs. Each
    combinator is a method that returns how the returned Task completes
    (`o`: a value or the exception of a faulted await), and a ghost `trace`
    of what it did on the way: which callback it invoked and which tasks it
    awaited, in order. The trace is how "the dead side is never invoked or
    awaited" is stated. Callbacks are total functions; an async callback
    returns a task, and a synchronous action returns the outcome of running it. */
module Async {
  import opened Prelude
  import opened Results
  import opened Tasks
  import Linq

  /** How awaiting a task of ok payloads and wrapping its value as Ok completes. */
  function AwaitOk<T, E>(t: Task<T>): (o: Outcome<Result<T, E>>)
    ensures o.Returned? <==> Await(t).Returned?
    ensures o.Returned? ==> o.value == NewOk(Await(t).value)
    ensures o.Thrown? ==> o.exn == Await(t).exn
  {
    Await(t).Map((v: T) => Result<T, E>.Ok(v))
  }

  /** How awaiting a task of error payloads and wrapping its value as Error completes. */
  function AwaitError<T, E>(t: Task<E>): (o: Outcome<Result<T, E>>)
    ensures o.Returned? <==> Await(t).Returned?
    ensures o.Returned? ==> o.value == NewError(Await(t).value)
    ensures o.Thrown? ==> o.exn == Await(t).exn
  {
    Await(t).Map((e: E) => Result<T, E>.Error(e))
  }

  /** `ToTask` over a pending ok payload: awaits it on Ok; on Error the error
      comes out and nothing is awaited. */
  method ToTask<T, E>(r: Result<Task<T>, E>) returns (o: Outcome<Result<T, E>>, ghost trace: seq<Event>)
    ensures r.IsOk() ==> o == AwaitOk(r.okValue)
    ensures r.IsOk() ==> trace == [Awaited(r.okValue.id)]
    ensures r.IsError() ==> o == Returned(NewError(r.errorValue))
    ensures r.IsError() ==> trace == []
  {
    if r.IsOk() {
      o := AwaitOk(r.okValue);
      trace := [Awaited(r.okValue.id)];
      return;
    }
    o := Returned(Result<T, E>.Error(r.errorValue));
    trace := [];
  }

  /** `ToTask` over a pending error payload: awaits it on Error; on Ok the
      payload comes out and nothing is awaited. */
  method ToTaskError<T, E>(r: Result<T, Task<E>>) returns (o: Outcome<Result<T, E>>, ghost trace: seq<Event>)
    ensures r.IsOk() ==> o == Returned(NewOk(r.okValue))
    ensures r.IsOk() ==> trace == []
    ensures r.IsError() ==> o == AwaitError(r.errorValue)
    ensures r.IsError() ==> trace == [Awaited(r.errorValue.id)]
  {
    if r.IsOk() {
      o := Returned(Result<T, E>.Ok(r.okValue));
      trace := [];
      return;
    }
    o := AwaitError(r.errorValue);
    trace := [Awaited(r.errorValue.id)];
  }

  /** `ToTask` when both payloads are pending: only the live side's task is
      awaited. */
  method ToTaskBoth<T, E>(r: Result<Task<T>, Task<E>>) returns (o: Outcome<Result<T, E>>, ghost trace: seq<Event>)
    ensures r.IsOk() ==> o == AwaitOk(r.okValue)
    ensures r.IsOk() ==> trace == [Awaited(r.okValue.id)]
    ensures r.IsError() ==> o == AwaitError(r.errorValue)
    ensures r.IsError() ==> trace == [Awaited(r.errorValue.id)]
  {
    if r.IsOk() {
      o := AwaitOk(r.okValue);
      trace := [Awaited(r.okValue.id)];
      return;
    }
    o := AwaitError(r.errorValue);
    trace := [Awaited(r.errorValue.id)];
  }

  /** `Tap`: on Ok invokes the action and awaits it, then hands back the
      original result unchanged (unless the action faults); on Error does
      nothing at all. */
  method Tap<T, E>(r: Result<T, E>, action: T -> Task<()>) returns (o: Outcome<Result<T, E>>, ghost trace: seq<Event>)
    ensures o.Returned? ==> o.value == r
    ensures o.Thrown? <==> r.IsOk() && Await(action(r.okValue)).Thrown?
    ensures o.Thrown? ==> o.exn == Await(action(r.okValue)).exn
    ensures r.IsOk() ==> trace == [Invoked(OkCallback), Awaited(action(r.okValue).id)]
    ensures r.IsError() ==> trace == []
  {
    trace := [];
    if r.IsOk() {
      var pending := action(r.okValue);
      trace := [Invoked(OkCallback), Awaited(pending.id)];
      var done := Await(pending);
      if done.Thrown? {
        return Thrown(done.exn), trace;
      }
    }
    o := Returned(r);
  }

  /** Async `Match` with an async ok branch: exactly one branch runs, and
      the ok branch's task is awaited. */
  method MatchAsyncOk<T, E, U>(r: Result<T, E>, ok: T -> Task<U>, error: E -> U) returns (o: Outcome<U>, ghost trace: seq<Event>)
    ensures r.IsOk() ==> o == Await(ok(r.okValue))
    ensures r.IsOk() ==> trace == [Invoked(OkCallback), Awaited(ok(r.okValue).id)]
    ensures r.IsError() ==> o == Returned(error(r.errorValue))
    ensures r.IsError() ==> trace == [Invoked(ErrorCallback)]
  {
    if r.IsOk() {
      var pending := ok(r.okValue);
      o := Await(pending);
      trace := [Invoked(OkCallback), Awaited(pending.id)];
    } else {
      o := Returned(error(r.errorValue));
      trace := [Invoked(ErrorCallback)];
    }
  }

  /** Async `Match` with an async error branch: exactly one branch runs, and
      the error branch's task is awaited. */
  method MatchAsyncError<T, E, U>(r: Result<T, E>, ok: T -> U, error: E -> Task<U>) returns (o: Outcome<U>, ghost trace: seq<Event>)
    ensures r.IsOk() ==> o == Returned(ok(r.okValue))
    ensures r.IsOk() ==> trace == [Invoked(OkCallback)]
    ensures r.IsError() ==> o == Await(error(r.errorValue))
    ensures r.IsError() ==> trace == [Invoked(ErrorCallback), Awaited(error(r.errorValue).id)]
  {
    if r.IsOk() {
      o := Returned(ok(r.okValue));
      trace := [Invoked(OkCallback)];
    } else {
      var pending := error(r.errorValue);
      o := Await(pending);
      trace := [Invoked(ErrorCallback), Awaited(pending.id)];
    }
  }

  /** `SwitchAsync` with two async actions: exactly one runs and is awaited. */
  method SwitchAsync<T, E>(r: Result<T, E>, ok: T -> Task<()>, error: E -> Task<()>) returns (o: Outcome<()>, ghost trace: seq<Event>)
    ensures r.IsOk() ==> o == Await(ok(r.okValue))
    ensures r.IsOk() ==> trace == [Invoked(OkCallback), Awaited(ok(r.okValue).id)]
    ensures r.IsError() ==> o == Await(error(r.errorValue))
    ensures r.IsError() ==> trace == [Invoked(ErrorCallback), Awaited(error(r.errorValue).id)]
  {
    if r.IsOk() {
      var pending := ok(r.okValue);
      o := Await(pending);
      trace := [Invoked(OkCallback), Awaited(pending.id)];
    } else {
      var pending := error(r.errorValue);
      o := Await(pending);
      trace := [Invoked(ErrorCallback), Awaited(pending.id)];
    }
  }

  /** `SwitchAsync` with an async ok action and a synchronous error action. */
  method SwitchAsyncOk<T, E>(r: Result<T, E>, ok: T -> Task<()>, error: E -> Outcome<()>) returns (o: Outcome<()>, ghost trace: seq<Event>)
    ensures r.IsOk() ==> o == Await(ok(r.okValue))
    ensures r.IsOk() ==> trace == [Invoked(OkCallback), Awaited(ok(r.okValue).id)]
    ensures r.IsError() ==> o == error(r.errorValue)
    ensures r.IsError() ==> trace == [Invoked(ErrorCallback)]
  {
    if r.IsOk() {
      var pending := ok(r.okValue);
      o := Await(pending);
      trace := [Invoked(OkCallback), Awaited(pending.id)];
    } else {
      o := error(r.errorValue);
      trace := [Invoked(ErrorCallback)];
    }
  }

  /** `SwitchAsync` with a synchronous ok action and an async error action. */
  method SwitchAsyncError<T, E>(r: Result<T, E>, ok: T -> Outcome<()>, error: E -> Task<()>) returns (o: Outcome<()>, ghost trace: seq<Event>)
    ensures r.IsOk() ==> o == ok(r.okValue)
    ensures r.IsOk() ==> trace == [Invoked(OkCallback)]
    ensures r.IsError() ==> o == Await(error(r.errorValue))
    ensures r.IsError() ==> trace == [Invoked(ErrorCallback), Awaited(error(r.errorValue).id)]
  {
    if r.IsOk() {
      o := ok(r.okValue);
      trace := [Invoked(OkCallback)];
    } else {
      var pending := error(r.errorValue);
      o := Await(pending);
      trace := [Invoked(ErrorCallback), Awaited(pending.id)];
    }
  }

  /** The callback a synchronous combinator invokes: the ok one exactly when
      the result is Ok and the combinator has one, likewise for Error. The
      combinators below build on `Linq.Select`, `SelectError`, `SelectBoth`
      and `SelectMany`, whose callbacks are total functions, so the event is
      read off the receiver's tag rather than recorded where the callback is
      applied; "not invoked on the dead side" holds by this definition. */
  ghost function Invocation<T, E>(r: Result<T, E>, hasOk: bool, hasError: bool): seq<Event>
  {
    if r.IsOk() then (if hasOk then [Invoked(OkCallback)] else [])
    else (if hasError then [Invoked(ErrorCallback)] else [])
  }

  /** `SelectAsync`: `Select` then `ToTask`. On Ok the selector is invoked
      and its task awaited; on Error the same error comes out, with no
      invocation and no await. */
  method SelectAsync<T, E, U>(r: Result<T, E>, selector: T -> Task<U>) returns (o: Outcome<Result<U, E>>, ghost trace: seq<Event>)
    ensures r.IsOk() ==> o == AwaitOk(selector(r.okValue))
    ensures r.IsOk() ==> trace == [Invoked(OkCallback), Awaited(selector(r.okValue).id)]
    ensures r.IsError() ==> o == Returned(NewError(r.errorValue))
    ensures r.IsError() ==> trace == []
  {
    var mapped := Linq.Select(r, selector);
    ghost var awaited;
    o, awaited := ToTask(mapped);
    trace := Invocation(r, true, false) + awaited;
  }

  /** Two-selector `SelectAsync`, both selectors async: only the live side's
      selector is invoked, and only its task is awaited. */
  method SelectBothAsync<T, E, U, F>(r: Result<T, E>, okSelector: T -> Task<U>, errorSelector: E -> Task<F>)
    returns (o: Outcome<Result<U, F>>, ghost trace: seq<Event>)
    ensures r.IsOk() ==> o == AwaitOk(okSelector(r.okValue))
    ensures r.IsOk() ==> trace == [Invoked(OkCallback), Awaited(okSelector(r.okValue).id)]
    ensures r.IsError() ==> o == AwaitError(errorSelector(r.errorValue))
    ensures r.IsError() ==> trace == [Invoked(ErrorCallback), Awaited(errorSelector(r.errorValue).id)]
  {
    var mapped := Linq.SelectBoth(r, okSelector, errorSelector);
    ghost var awaited;
    o, awaited := ToTaskBoth(mapped);
    trace := Invocation(r, true, true) + awaited;
  }

  /** Two-selector `SelectAsync` with a synchronous ok selector and an async
      error selector. */
  method SelectBothAsyncError<T, E, U, F>(r: Result<T, E>, okSelector: T -> U, errorSelector: E -> Task<F>)
    returns (o: Outcome<Result<U, F>>, ghost trace: seq<Event>)
    ensures r.IsOk() ==> o == Returned(NewOk(okSelector(r.okValue)))
    ensures r.IsOk() ==> trace == [Invoked(OkCallback)]
    ensures r.IsError() ==> o == AwaitError(errorSelector(r.errorValue))
    ensures r.IsError() ==> trace == [Invoked(ErrorCallback), Awaited(errorSelector(r.errorValue).id)]
  {
    var mapped := Linq.SelectBoth(r, okSelector, errorSelector);
    ghost var awaited;
    o, awaited := ToTaskError(mapped);
    trace := Invocation(r, true, true) + awaited;
  }

  /** Two-selector `SelectAsync` with an async ok selector and a synchronous
      error selector. */
  method SelectBothAsyncOk<T, E, U, F>(r: Result<T, E>, okSelector: T -> Task<U>, errorSelector: E -> F)
    returns (o: Outcome<Result<U, F>>, ghost trace: seq<Event>)
    ensures r.IsOk() ==> o == AwaitOk(okSelector(r.okValue))
    ensures r.IsOk() ==> trace == [Invoked(OkCallback), Awaited(okSelector(r.okValue).id)]
    ensures r.IsError() ==> o == Returned(NewError(errorSelector(r.errorValue)))
    ensures r.IsError() ==> trace == [Invoked(ErrorCallback)]
  {
    var mapped := Linq.SelectBoth(r, okSelector, errorSelector);
    ghost var awaited;
    o, awaited := ToTask(mapped);
    trace := Invocation(r, true, true) + awaited;
  }

  /** `SelectErrorAsync`: `SelectError` then `ToTask`. On Ok the payload comes
      out with no invocation and no await. */
  method SelectErrorAsync<T, E, F>(r: Result<T, E>, selector: E -> Task<F>) returns (o: Outcome<Result<T, F>>, ghost trace: seq<Event>)
    ensures r.IsOk() ==> o == Returned(NewOk(r.okValue))
    ensures r.IsOk() ==> trace == []
    ensures r.IsError() ==> o == AwaitError(selector(r.errorValue))
    ensures r.IsError() ==> trace == [Invoked(ErrorCallback), Awaited(selector(r.errorValue).id)]
  {
    var mapped := Linq.SelectError(r, selector);
    ghost var awaited;
    o, awaited := ToTaskError(mapped);
    trace := Invocation(r, false, true) + awaited;
  }

  /** `SelectManyAsync` with a binder whose ok payload is pending: on Error
      the error comes out, `bind` not invoked and nothing awaited; on Ok the
      bound result's pending payload, if any, is awaited. */
  method SelectManyAsync<T, E, U>(r: Result<T, E>, bind: T -> Result<Task<U>, E>) returns (o: Outcome<Result<U, E>>, ghost trace: seq<Event>)
    ensures r.IsError() ==> o == Returned(NewError(r.errorValue))
    ensures r.IsError() ==> trace == []
    ensures r.IsOk() && bind(r.okValue).IsOk() ==>
      o == AwaitOk(bind(r.okValue).okValue)
    ensures r.IsOk() && bind(r.okValue).IsOk() ==>
      trace == [Invoked(OkCallback), Awaited(bind(r.okValue).okValue.id)]
    ensures r.IsOk() && bind(r.okValue).IsError() ==>
      o == Returned(NewError(bind(r.okValue).errorValue))
    ensures r.IsOk() && bind(r.okValue).IsError() ==>
      trace == [Invoked(OkCallback)]
  {
    var bound := Linq.SelectMany(r, bind);
    ghost var awaited;
    o, awaited := ToTask(bound);
    trace := Invocation(r, true, false) + awaited;
  }

  /** `SelectManyAsync` with a binder whose error payload is pending: the
      receiver's error is lifted by `Task.FromResult`, so on Error the same
      error comes out, `bind` not invoked and only that completed task awaited. */
  method SelectManyAsyncError<T, E, U>(r: Result<T, E>, bind: T -> Result<U, Task<E>>) returns (o: Outcome<Result<U, E>>, ghost trace: seq<Event>)
    ensures r.IsError() ==> o == Returned(NewError(r.errorValue))
    ensures r.IsError() ==> trace == [Awaited(Completed)]
    ensures r.IsOk() && bind(r.okValue).IsOk() ==>
      o == Returned(NewOk(bind(r.okValue).okValue))
    ensures r.IsOk() && bind(r.okValue).IsOk() ==>
      trace == [Invoked(OkCallback)]
    ensures r.IsOk() && bind(r.okValue).IsError() ==>
      o == AwaitError(bind(r.okValue).errorValue)
    ensures r.IsOk() && bind(r.okValue).IsError() ==>
      trace == [Invoked(OkCallback), Awaited(bind(r.okValue).errorValue.id)]
  {
    var lifted := Linq.SelectError(r, FromResult);
    var bound := Linq.SelectMany(lifted, bind);
    ghost var awaited;
    o, awaited := ToTaskError(bound);
    trace := Invocation(r, true, false) + awaited;
  }

  /** `SelectManyAsync` with a binder whose payloads are both pending: on
      Error the lifted error comes out and `bind` is not invoked; on Ok only
      the live side of the bound result is awaited. */
  method SelectManyAsyncBoth<T, E, U>(r: Result<T, E>, bind: T -> Result<Task<U>, Task<E>>) returns (o: Outcome<Result<U, E>>, ghost trace: seq<Event>)
    ensures r.IsError() ==> o == Returned(NewError(r.errorValue))
    ensures r.IsError() ==> trace == [Awaited(Completed)]
    ensures r.IsOk() && bind(r.okValue).IsOk() ==>
      o == AwaitOk(bind(r.okValue).okValue)
    ensures r.IsOk() && bind(r.okValue).IsOk() ==>
      trace == [Invoked(OkCallback), Awaited(bind(r.okValue).okValue.id)]
    ensures r.IsOk() && bind(r.okValue).IsError() ==>
      o == AwaitError(bind(r.okValue).errorValue)
    ensures r.IsOk() && bind(r.okValue).IsError() ==>
      trace == [Invoked(OkCallback), Awaited(bind(r.okValue).errorValue.id)]
  {
    var lifted := Linq.SelectError(r, FromResult);
    var bound := Linq.SelectMany(lifted, bind);
    ghost var awaited;
    o, awaited := ToTaskBoth(bound);
    trace := Invocation(r, true, false) + awaited;
  }

  /** `SelectManyAsync` with a binder returning a pending Result: on Error the
      error comes out without invoking `bind`; on Ok the awaited `bind(v)`. */
  method SelectManyAsyncTask<T, E, U>(r: Result<T, E>, bind: T -> Task<Result<U, E>>) returns (o: Outcome<Result<U, E>>, ghost trace: seq<Event>)
    ensures r.IsError() ==> o == Returned(NewError(r.errorValue))
    ensures r.IsError() ==> trace == []
    ensures r.IsOk() ==> o == Await(bind(r.okValue))
    ensures r.IsOk() ==> trace == [Invoked(OkCallback), Awaited(bind(r.okValue).id)]
  {
    if r.IsError() {
      o := Returned(Result<U, E>.Error(r.errorValue));
      trace := [];
    } else {
      var pending := bind(r.okValue);
      o := Await(pending);
      trace := [Invoked(OkCallback), Awaited(pending.id)];
    }
  }
}
