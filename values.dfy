/** The extraction helpers of src/ResultValueExtensions.cs. A C# `out`
    parameter is a component of the returned tuple; a C# nullable is an
    `Option`; a throw is a `Thrown` outcome. */
module Values {
  import opened Prelude
  import opened Results
  import Linq

  /** `TryOk`: whether the result is Ok, and the `OkValue` slot (the
      payload, or `default` when Error). */
  function TryOk<T, E>(r: Result<T, E>): (res: (bool, Option<T>))
    ensures res.0 <==> r.IsOk()
    ensures res.0 <==> res.1.Some?
    ensures res.0 ==> NewOk(res.1.value) == r
  {
    (r.IsOk(), r.OkSlot())
  }

  /** `TryError`: whether the result is Error, and the `ErrorValue` slot (the
      payload, or `default` when Ok). */
  function TryError<T, E>(r: Result<T, E>): (res: (bool, Option<E>))
    ensures res.0 <==> r.IsError()
    ensures res.0 <==> res.1.Some?
    ensures res.0 ==> NewError(res.1.value) == r
  {
    (r.IsError(), r.ErrorSlot())
  }

  /** `TryGet`: whether the result is Ok, and both slots: exactly one holds
      the live payload, the other `default`. */
  function TryGet<T, E>(r: Result<T, E>): (res: (bool, Option<T>, Option<E>))
    ensures res.0 <==> r.IsOk()
    ensures res.0 ==> res.1.Some? && res.2 == None && r == NewOk(res.1.value)
    ensures !res.0 ==> res.1 == None && res.2.Some? && r == NewError(res.2.value)
  {
    (r.IsOk(), r.OkSlot(), r.ErrorSlot())
  }

  /** `Deconstruct` (its four constraint variants collapsed into one): the
      tag and both slots, each slot `default` (`None`) when it is dead. */
  function Deconstruct<T, E>(r: Result<T, E>): (res: (bool, Option<T>, Option<E>))
    ensures res == TryGet(r)
  {
    (r.IsOk(), r.OkSlot(), r.ErrorSlot())
  }

  /** Deconstruction loses nothing: results with the same parts are equal. */
  lemma DeconstructIsInjective<T, E>(a: Result<T, E>, b: Result<T, E>)
    requires Deconstruct(a) == Deconstruct(b)
    ensures a == b
  {
  }

  /** The exception `GetValueOrThrow()` raises for an error payload: the
      payload itself when its runtime type is an exception (`asException`
      is the `is Exception` test), otherwise an InvalidResult whose message
      is the payload's text (`render` is its string interpolation). */
  function ErrorToException<E>(e: E, asException: E -> Option<Exn>, render: E -> string): (x: Exn)
  {
    match asException(e)
    case Some(x) => x
    case None => InvalidResult(render(e))
  }

  /** `GetValueOrThrow()`: the ok payload, or the exception for the error. */
  function GetValueOrThrow<T, E>(r: Result<T, E>, asException: E -> Option<Exn>, render: E -> string): (o: Outcome<T>)
    ensures o.Returned? <==> r.IsOk()
    ensures o.Returned? ==> o.value == r.okValue
    ensures r.IsError() && asException(r.errorValue).Some? ==> o == Thrown(asException(r.errorValue).value)
    ensures r.IsError() && asException(r.errorValue).None? ==> o == Thrown(InvalidResult(render(r.errorValue)))
  {
    if r.IsError() then Thrown(ErrorToException(r.errorValue, asException, render))
    else Returned(r.okValue)
  }

  /** `GetValueOrThrow(formatMessage)`: the ok payload, or an InvalidResult
      carrying the formatted error; the formatter is not used on Ok. */
  function GetValueOrThrowFormatted<T, E>(r: Result<T, E>, formatMessage: E -> string): (o: Outcome<T>)
    ensures o.Returned? <==> r.IsOk()
    ensures o.Returned? ==> o.value == r.okValue
    ensures o.Thrown? ==> o.exn == InvalidResult(formatMessage(r.errorValue))
  {
    if r.IsError() then Thrown(InvalidResult(formatMessage(r.errorValue)))
    else Returned(r.okValue)
  }

  /** `GetValueOrThrow(getException)`: the ok payload, or the exception the
      factory builds from the error; the factory is not used on Ok. */
  function GetValueOrThrowWith<T, E>(r: Result<T, E>, getException: E -> Exn): (o: Outcome<T>)
    ensures o.Returned? <==> r.IsOk()
    ensures o.Returned? ==> o.value == r.okValue
    ensures o.Thrown? ==> o.exn == getException(r.errorValue)
  {
    if r.IsError() then Thrown(getException(r.errorValue))
    else Returned(r.okValue)
  }

  /** `ThrowIfError()`: completes on Ok, throws what `GetValueOrThrow()` would on Error. */
  function ThrowIfError<T, E>(r: Result<T, E>, asException: E -> Option<Exn>, render: E -> string): (o: Outcome<()>)
    ensures o.Returned? <==> r.IsOk()
    ensures o.Thrown? ==> o.exn == GetValueOrThrow(r, asException, render).exn
  {
    if !r.IsError() then Returned(())
    else match asException(r.errorValue)
      case Some(x) => Thrown(x)
      case None => Thrown(InvalidResult(render(r.errorValue)))
  }

  /** `ThrowIfError(formatMessage)`: completes on Ok, throws what
      `GetValueOrThrow(formatMessage)` would on Error. */
  function ThrowIfErrorFormatted<T, E>(r: Result<T, E>, formatMessage: E -> string): (o: Outcome<()>)
    ensures o.Returned? <==> r.IsOk()
    ensures o.Thrown? ==> o.exn == GetValueOrThrowFormatted(r, formatMessage).exn
  {
    if r.IsError() then Thrown(InvalidResult(formatMessage(r.errorValue))) else Returned(())
  }

  /** `ThrowIfError(getException)`: completes on Ok, throws what
      `GetValueOrThrow(getException)` would on Error. */
  function ThrowIfErrorWith<T, E>(r: Result<T, E>, getException: E -> Exn): (o: Outcome<()>)
    ensures o.Returned? <==> r.IsOk()
    ensures o.Thrown? ==> o.exn == GetValueOrThrowWith(r, getException).exn
  {
    if r.IsError() then Thrown(getException(r.errorValue)) else Returned(())
  }

  /** Formatting the message is a special case of building the exception. */
  lemma FormattedIsFactory<T, E>(r: Result<T, E>, formatMessage: E -> string)
    ensures GetValueOrThrowFormatted(r, formatMessage) == GetValueOrThrowWith(r, (e: E) => InvalidResult(formatMessage(e)))
    ensures ThrowIfErrorFormatted(r, formatMessage) == ThrowIfErrorWith(r, (e: E) => InvalidResult(formatMessage(e)))
  {
  }

  /** `DefaultValue`: the ok payload, or `fallback`. */
  function DefaultValue<T, E>(r: Result<T, E>, fallback: T): (v: T)
    ensures r.IsOk() ==> v == r.okValue
    ensures r.IsError() ==> v == fallback
  {
    r.Match(ok => ok, _ => fallback)
  }

  /** `DefaultWith`: the ok payload, or the thunk applied to the error; the
      thunk matters only on Error. */
  function DefaultWith<T, E>(r: Result<T, E>, defThunk: E -> T): (v: T)
    ensures r.IsOk() ==> v == r.okValue
    ensures r.IsError() ==> v == defThunk(r.errorValue)
  {
    r.Match(ok => ok, defThunk)
  }

  /** A constant fallback is a thunk that ignores the error; on Ok no thunk
      is consulted at all. */
  lemma DefaultValueIsConstantThunk<T, E>(r: Result<T, E>, fallback: T, thunk1: E -> T, thunk2: E -> T)
    ensures DefaultValue(r, fallback) == DefaultWith(r, (_: E) => fallback)
    ensures r.IsOk() ==> DefaultWith(r, thunk1) == DefaultWith(r, thunk2)
  {
  }

  /** `AsNullable`: the same tag, the ok payload wrapped as present. */
  function AsNullable<T, E>(r: Result<T, E>): (m: Result<Option<T>, E>)
    ensures m.IsOk() <==> r.IsOk()
    ensures m.IsOk() ==> m.okValue == Some(r.okValue)
    ensures m.IsError() ==> m.errorValue == r.errorValue
  {
    Linq.Select(r, (x: T) => Some(x))
  }

  /** `ToNullable`: present with the payload on Ok, absent on Error. */
  function ToNullable<T, E>(r: Result<T, E>): (n: Option<T>)
    ensures n.Some? <==> r.IsOk()
    ensures n.Some? ==> r == NewOk(n.value)
  {
    if r.IsOk() then Some(r.okValue) else None
  }

  /** The nullable view agrees with `TryOk` and with `AsEnumerable`. */
  lemma ToNullableAgrees<T, E>(r: Result<T, E>)
    ensures ToNullable(r) == TryOk(r).1
    ensures ToNullable(r).Some? ==> Linq.AsEnumerable(r) == [ToNullable(r).value]
  {
  }

  /** `ToResult`: the second fail-fast traversal, with its own loop; it
      agrees with `Linq.ToSingleResult` and stops at the first error. */
  method ToResult<T, E>(rs: seq<Result<T, E>>) returns (res: Result<seq<T>, E>, ghost visited: nat)
    ensures res == Linq.Traverse(rs)
    ensures visited <= |rs|
    ensures res.IsOk() ==> visited == |rs|
    ensures res.IsError() ==>
      && 0 < visited
      && rs[visited - 1] == Error(res.errorValue)
      && forall k :: 0 <= k < visited - 1 ==> rs[k].IsOk()
  {
    var okResults: seq<T> := [];
    visited := 0;
    var i := 0;
    while i < |rs|
      invariant 0 <= i <= |rs| && visited == i
      invariant forall k :: 0 <= k < i ==> rs[k].IsOk()
      invariant okResults == Linq.GetOkValues(rs[..i])
    {
      var result := rs[i];
      visited := visited + 1;
      if result.IsOk() {
        assert rs[..i + 1] == rs[..i] + [result];
        Linq.FiltersAppend(rs[..i], [result]);
        okResults := okResults + [result.okValue];
      } else {
        Linq.TraverseStopsAtFirstError(rs, i);
        return Error(result.errorValue), visited;
      }
      i := i + 1;
    }
    assert rs[..i] == rs;
    Linq.TraverseAllOk(rs);
    res := Ok(okResults);
  }
}
