/** The Result value type of src/Resulteles/Result.cs: a readonly struct with a
    tag `IsOk` and two slots, of which only the one the tag names is live. */
module Results {
  import opened Prelude

  /** The marker used as the Ok payload when success carries no information. */
  datatype Success = Success

  /** Either an Ok payload or an Error payload. The struct's constructors are
      the two datatype constructors; its slots are the views `OkSlot` and
      `ErrorSlot` below, where `None` stands for the C# `default` value. */
  datatype Result<T, E> = Ok(okValue: T) | Error(errorValue: E)
  {
    /** `IsOk`: the tag. When it is set the result was built by the Ok
        constructor around its ok payload, and otherwise by the Error
        constructor around its error payload. */
    predicate IsOk()
      ensures IsOk() ==> Ok? && this == Ok(okValue)
      ensures !IsOk() ==> Error? && this == Error(errorValue)
    {
      Ok?
    }

    /** `IsError`: the negation of `IsOk`. */
    predicate IsError()
      ensures IsError() <==> !IsOk()
    {
      Error?
    }

    /** The `OkValue` slot: the payload when Ok, `default` when Error. */
    function OkSlot(): (slot: Option<T>)
      ensures slot.Some? <==> IsOk()
      ensures IsOk() ==> slot.value == okValue
    {
      if Ok? then Some(okValue) else None
    }

    /** The `ErrorValue` slot: the payload when Error, `default` when Ok. */
    function ErrorSlot(): (slot: Option<E>)
      ensures slot.Some? <==> IsError()
      ensures IsError() ==> slot.value == errorValue
    {
      if Error? then Some(errorValue) else None
    }

    /** `Match`: applies exactly one of the two functions, to the live payload. */
    function Match<U>(ok: T -> U, error: E -> U): (u: U)
      ensures IsOk() ==> u == ok(OkSlot().value)
      ensures IsError() ==> u == error(ErrorSlot().value)
    {
      if IsOk() then ok(okValue) else error(errorValue)
    }

    /** `Value`: the live payload as an `object`; `boxOk` and `boxError` are
        the upcasts of the two payload types to `object`, so this is `Match`
        applied to those upcasts. */
    function Value<O>(boxOk: T -> O, boxError: E -> O): (o: O)
      ensures IsOk() ==> o == boxOk(OkSlot().value)
      ensures IsError() ==> o == boxError(ErrorSlot().value)
    {
      Match(boxOk, boxError)
    }

    /** `Switch`: runs exactly one of the two actions, on the live payload; an
        action either completes or throws, and so does `Switch`. */
    function Switch(ok: T -> Outcome<()>, error: E -> Outcome<()>): (o: Outcome<()>)
      ensures IsOk() ==> o == ok(OkSlot().value)
      ensures IsError() ==> o == error(ErrorSlot().value)
      ensures o == Match(ok, error)
    {
      if IsOk() then ok(okValue) else error(errorValue)
    }
  }

  /** The Ok constructor `new Result(okValue)`, also reached through the static
      `Result<TOk, TError>.Ok` and the implicit conversion from a bare `TOk`. */
  function NewOk<T, E>(v: T): (r: Result<T, E>)
    ensures r.IsOk() && r.OkSlot() == Some(v) && r.ErrorSlot() == None
  {
    Ok(v)
  }

  /** The Error constructor `new Result(error)`, also reached through the static
      `Result<TOk, TError>.Error` and the implicit conversion from a bare `TError`. */
  function NewError<T, E>(e: E): (r: Result<T, E>)
    ensures r.IsError() && r.ErrorSlot() == Some(e) && r.OkSlot() == None
  {
    Error(e)
  }

  /** Only one slot is ever live: the other holds `default`. */
  lemma DeadSlotIsDefault<T, E>(r: Result<T, E>)
    ensures r.IsOk() ==> r.ErrorSlot() == None && r.OkSlot() == Some(r.okValue)
    ensures r.IsError() ==> r.OkSlot() == None && r.ErrorSlot() == Some(r.errorValue)
  {
  }

  /** Full names of the two payload types, as `typeof(..).FullName` gives them. */
  datatype TypeNames = TypeNames(okType: string, errorType: string)

  /** The diagnostic carried by a failed unsafe cast. */
  function CastMessage(side: string, shown: string, fromType: string, toType: string): string
  {
    "Unable to cast '" + side + "' result value " + shown + " of type " + fromType + " to type " + toType
  }

  /** The explicit cast to `TOk`: the Ok payload, or an InvalidCast failure
      naming the error payload (rendered by `renderError`) and both types. */
  function CastToOk<T, E>(r: Result<T, E>, names: TypeNames, renderError: E -> string): (o: Outcome<T>)
    ensures o.Returned? <==> r.IsOk()
    ensures o.Returned? ==> NewOk(o.value) == r
    ensures o.Thrown? ==>
      o.exn == InvalidCast(CastMessage("Error", renderError(r.errorValue), names.errorType, names.okType))
  {
    if r.IsOk() then Returned(r.okValue)
    else Thrown(InvalidCast(CastMessage("Error", renderError(r.errorValue), names.errorType, names.okType)))
  }

  /** The explicit cast to `TError`: the Error payload, or an InvalidCast
      failure naming the ok payload (rendered by `renderOk`) and both types. */
  function CastToError<T, E>(r: Result<T, E>, names: TypeNames, renderOk: T -> string): (o: Outcome<E>)
    ensures o.Returned? <==> r.IsError()
    ensures o.Returned? ==> NewError(o.value) == r
    ensures o.Thrown? ==>
      o.exn == InvalidCast(CastMessage("Ok", renderOk(r.okValue), names.okType, names.errorType))
  {
    if r.IsError() then Returned(r.errorValue)
    else Thrown(InvalidCast(CastMessage("Ok", renderOk(r.okValue), names.okType, names.errorType)))
  }

  /** Casting a constructed result back recovers the payload on its own side
      and fails with InvalidCast on the other. */
  lemma CastRoundTrip<T, E>(v: T, e: E, names: TypeNames, renderOk: T -> string, renderError: E -> string)
    ensures CastToOk(NewOk<T, E>(v), names, renderError) == Returned(v)
    ensures CastToError(NewError<T, E>(e), names, renderOk) == Returned(e)
    ensures CastToOk(NewError<T, E>(e), names, renderError).Thrown?
    ensures CastToOk(NewError<T, E>(e), names, renderError).exn.InvalidCast?
    ensures CastToError(NewOk<T, E>(v), names, renderOk).exn.InvalidCast?
  {
  }

  /** `Equals`: compares the tags and both slots, as the struct does. It holds
      exactly when the two results are the same value, that is, when they
      have the same tag and equal live payloads. */
  function Equals<T(==), E(==)>(a: Result<T, E>, b: Result<T, E>): (eq: bool)
    ensures eq <==> a == b
    ensures eq <==>
      && a.IsOk() == b.IsOk()
      && (a.IsOk() ==> a.okValue == b.okValue)
      && (a.IsError() ==> a.errorValue == b.errorValue)
  {
    a.IsOk() == b.IsOk() && a.OkSlot() == b.OkSlot() && a.ErrorSlot() == b.ErrorSlot()
  }

  /** `operator ==`: the same as `Equals`. */
  function EqualsOperator<T(==), E(==)>(a: Result<T, E>, b: Result<T, E>): (eq: bool)
    ensures eq == Equals(a, b)
    ensures eq <==> a == b
  {
    Equals(a, b)
  }

  /** `operator !=`: the negation of `==`. */
  function NotEqualsOperator<T(==), E(==)>(a: Result<T, E>, b: Result<T, E>): (ne: bool)
    ensures ne <==> a != b
  {
    !EqualsOperator(a, b)
  }

  /** `Match` runs only the live branch: what the other function would
      return has no influence on the result. */
  lemma MatchUsesLiveBranchOnly<T, E, U>(r: Result<T, E>, ok1: T -> U, ok2: T -> U, error1: E -> U, error2: E -> U)
    requires r.IsOk() ==> ok1(r.okValue) == ok2(r.okValue)
    requires r.IsError() ==> error1(r.errorValue) == error2(r.errorValue)
    ensures r.Match(ok1, error1) == r.Match(ok2, error2)
  {
  }

  /** Matching with the two constructors rebuilds the result: `Match` loses
      nothing, so every consumer of a Result can be written with it. */
  lemma MatchWithConstructors<T, E>(r: Result<T, E>)
    ensures r.Match(NewOk, NewError) == r
  {
  }

  /** `Value` gives back the payload a result was constructed with. */
  lemma ValueOfConstructed<T, E, O>(v: T, e: E, boxOk: T -> O, boxError: E -> O)
    ensures NewOk<T, E>(v).Value(boxOk, boxError) == boxOk(v)
    ensures NewError<T, E>(e).Value(boxOk, boxError) == boxError(e)
  {
  }
}
