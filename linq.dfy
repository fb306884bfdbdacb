/** The synchronous combinators of src/ResultLinqExtensions.cs. An
    `IEnumerable` is a `seq`; enumerating it lazily is modelled by a ghost
    count of the elements a traversal has pulled. */
module Linq {
  import opened Prelude
  import opened Results

  /** `AsEnumerable`: the ok payload as a sequence of length one, or nothing. */
  function AsEnumerable<T, E>(r: Result<T, E>): (s: seq<T>)
    ensures |s| == (if r.IsOk() then 1 else 0)
    ensures r.IsOk() ==> s[0] == r.okValue
  {
    if r.IsOk() then [r.okValue] else []
  }

  /** `ToArray`: an array holding what `AsEnumerable` yields, newly allocated
      on Ok. On Error the source hands out the shared empty array, so
      freshness is promised only on Ok. */
  method ToArray<T, E>(r: Result<T, E>) returns (a: array<T>)
    ensures a.Length == (if r.IsOk() then 1 else 0)
    ensures a[..] == AsEnumerable(r)
    ensures r.IsOk() ==> fresh(a)
  {
    if r.IsOk() {
      a := new T[1](_ => r.okValue);
    } else {
      a := new T[0][];
    }
  }

  /** `Select`: maps the ok payload and keeps the tag. */
  function Select<T, E, U>(r: Result<T, E>, selector: T -> U): (m: Result<U, E>)
    ensures m.IsOk() <==> r.IsOk()
    ensures m.IsOk() ==> m.okValue == selector(r.okValue)
    ensures m.IsError() ==> m.errorValue == r.errorValue
  {
    r.Match(ok => Ok(selector(ok)), error => Error(error))
  }

  /** Two-selector `Select`: maps whichever payload is live, keeping the tag. */
  function SelectBoth<T, E, U, F>(r: Result<T, E>, okSelector: T -> U, errorSelector: E -> F): (m: Result<U, F>)
    ensures m.IsOk() <==> r.IsOk()
    ensures m.IsOk() ==> m.okValue == okSelector(r.okValue)
    ensures m.IsError() ==> m.errorValue == errorSelector(r.errorValue)
  {
    r.Match(ok => Ok(okSelector(ok)), error => Error(errorSelector(error)))
  }

  /** `SelectError`: maps the error payload; an Ok result is left as it is. */
  function SelectError<T, E, F>(r: Result<T, E>, selector: E -> F): (m: Result<T, F>)
    ensures m.IsOk() <==> r.IsOk()
    ensures m.IsOk() ==> m.okValue == r.okValue
    ensures m.IsError() ==> m.errorValue == selector(r.errorValue)
  {
    r.Match(ok => Ok(ok), error => Error(selector(error)))
  }

  /** `SelectMany` (bind): on Error the same error, `bind` not called;
      on `Ok(v)` exactly `bind(v)`. */
  function SelectMany<T, E, U>(r: Result<T, E>, bind: T -> Result<U, E>): (m: Result<U, E>)
    ensures r.IsError() ==> m == Error(r.errorValue)
    ensures r.IsOk() ==> m == bind(r.okValue)
  {
    if r.IsError() then Error(r.errorValue) else bind(r.okValue)
  }

  /** Projecting `SelectMany`, the shape query syntax uses: Ok only when both
      the receiver and the bound result are Ok, and then it holds the
      projection of both payloads; otherwise the first error met. */
  function SelectManyProject<T, E, U, V>(r: Result<T, E>, bind: T -> Result<U, E>, project: (T, U) -> V): (m: Result<V, E>)
    ensures m.IsOk() <==> r.IsOk() && bind(r.okValue).IsOk()
    ensures m.IsOk() ==> m.okValue == project(r.okValue, bind(r.okValue).okValue)
    ensures r.IsError() ==> m == Error(r.errorValue)
    ensures r.IsOk() && bind(r.okValue).IsError() ==> m == Error(bind(r.okValue).errorValue)
  {
    SelectMany(r, a => Select(bind(a), b => project(a, b)))
  }

  /** `Zip` with a selector: the first operand's error wins, then the
      second's; two Ok operands are combined by `selector`. */
  function Zip<T, E, U, V>(r: Result<T, E>, other: Result<U, E>, selector: (T, U) -> V): (z: Result<V, E>)
    ensures z.IsOk() <==> r.IsOk() && other.IsOk()
    ensures z.IsOk() ==> z.okValue == selector(r.okValue, other.okValue)
    ensures r.IsError() ==> z.errorValue == r.errorValue
    ensures r.IsOk() && other.IsError() ==> z.errorValue == other.errorValue
  {
    if r.IsError() then Error(r.errorValue)
    else if other.IsError() then Error(other.errorValue)
    else Ok(selector(r.okValue, other.okValue))
  }

  /** Tuple `Zip`: `Zip` with pairing. */
  function ZipPair<T, E, U>(r: Result<T, E>, other: Result<U, E>): (z: Result<(T, U), E>)
    ensures z.IsOk() <==> r.IsOk() && other.IsOk()
    ensures z.IsOk() ==> z.okValue == (r.okValue, other.okValue)
    ensures z.IsError() ==> z.errorValue == (if r.IsError() then r.errorValue else other.errorValue)
  {
    Zip(r, other, (a, b) => (a, b))
  }

  /** `Enumerable.Select`, used by the selector overloads below. */
  function MapSeq<X, Y>(xs: seq<X>, f: X -> Y): (ys: seq<Y>)
    ensures |ys| == |xs|
    ensures forall i :: 0 <= i < |xs| ==> ys[i] == f(xs[i])
  {
    seq(|xs|, i requires 0 <= i < |xs| => f(xs[i]))
  }

  /** `GetOkValues`: the ok payloads, in input order. */
  function GetOkValues<T, E>(rs: seq<Result<T, E>>): (vs: seq<T>)
    ensures |vs| <= |rs|
  {
    if rs == [] then []
    else if rs[0].IsOk() then [rs[0].okValue] + GetOkValues(rs[1..])
    else GetOkValues(rs[1..])
  }

  /** `GetErrorValues`: the error payloads, in input order. */
  function GetErrorValues<T, E>(rs: seq<Result<T, E>>): (es: seq<E>)
    ensures |es| <= |rs|
  {
    if rs == [] then []
    else if rs[0].IsError() then [rs[0].errorValue] + GetErrorValues(rs[1..])
    else GetErrorValues(rs[1..])
  }

  /** `ChooseResult`: map through `selector`, keep the Ok outputs. */
  function ChooseResult<X, E, U>(xs: seq<X>, selector: X -> Result<U, E>): (vs: seq<U>)
    ensures |vs| <= |xs|
  {
    GetOkValues(MapSeq(xs, selector))
  }

  /** The filters keep exactly the live payloads of their side: a value is
      kept if and only if it is the payload of an element of that side. */
  lemma {:induction false} FiltersKeepLivePayloads<T, E>(rs: seq<Result<T, E>>)
    ensures forall v :: v in GetOkValues(rs) <==> Ok(v) in rs
    ensures forall e :: e in GetErrorValues(rs) <==> Error(e) in rs
  {
    if rs != [] {
      FiltersKeepLivePayloads(rs[1..]);
      assert rs == [rs[0]] + rs[1..];
    }
  }

  /** `ChooseResult` keeps a value exactly when `selector` yields it as Ok
      for some input element. */
  lemma ChooseResultKeepsOkOutputs<X, E, U>(xs: seq<X>, selector: X -> Result<U, E>)
    ensures forall v :: v in ChooseResult(xs, selector) <==> exists i :: 0 <= i < |xs| && selector(xs[i]) == Ok(v)
  {
    var mapped := MapSeq(xs, selector);
    FiltersKeepLivePayloads(mapped);
    forall v ensures Ok(v) in mapped <==> exists i :: 0 <= i < |xs| && selector(xs[i]) == Ok(v) {
      if Ok(v) in mapped {
        var i :| 0 <= i < |mapped| && mapped[i] == Ok(v);
        assert selector(xs[i]) == Ok(v);
      }
    }
  }

  /** Both filters distribute over concatenation: the payloads of a
      sequence are those of its front followed by those of its back. */
  lemma {:induction false} FiltersAppend<T, E>(a: seq<Result<T, E>>, b: seq<Result<T, E>>)
    ensures GetOkValues(a + b) == GetOkValues(a) + GetOkValues(b)
    ensures GetErrorValues(a + b) == GetErrorValues(a) + GetErrorValues(b)
  {
    if a == [] {
      assert a + b == b;
    } else {
      var ab := a + b;
      assert ab[0] == a[0] && ab[1..] == a[1..] + b;
      FiltersAppend(a[1..], b);
      if a[0].IsOk() {
        assert GetOkValues(ab) == [a[0].okValue] + (GetOkValues(a[1..]) + GetOkValues(b));
        assert GetErrorValues(ab) == GetErrorValues(a[1..]) + GetErrorValues(b);
      } else {
        assert GetOkValues(ab) == GetOkValues(a[1..]) + GetOkValues(b);
        assert GetErrorValues(ab) == [a[0].errorValue] + (GetErrorValues(a[1..]) + GetErrorValues(b));
      }
    }
  }

  /** Every element is exactly one of Ok and Error, so the two filters
      together account for the whole input. */
  lemma {:induction false} FiltersPartition<T, E>(rs: seq<Result<T, E>>)
    ensures |GetOkValues(rs)| + |GetErrorValues(rs)| == |rs|
  {
    if rs != [] {
      FiltersPartition(rs[1..]);
    }
  }

  /** The filter of a single element is what `AsEnumerable` yields. */
  lemma SingletonFilter<T, E>(r: Result<T, E>)
    ensures GetOkValues([r]) == AsEnumerable(r)
    ensures GetErrorValues([r]) == if r.IsError() then [r.errorValue] else []
  {
  }

  /** The fail-fast traversal, as a reference definition: the first error, or
      Ok of all payloads in order. */
  function Traverse<T, E>(rs: seq<Result<T, E>>): (res: Result<seq<T>, E>)
    ensures res.IsOk() ==> |res.okValue| == |rs|
  {
    if rs == [] then Ok([])
    else if rs[0].IsError() then Error(rs[0].errorValue)
    else match Traverse(rs[1..])
      case Ok(vs) => Ok([rs[0].okValue] + vs)
      case Error(e) => Error(e)
  }

  /** The fail-fast and the accumulating views agree: the traversal is Ok
      exactly when there is no error, and then holds every ok payload;
      otherwise it holds the first of all the errors. */
  lemma {:induction false} TraverseAgreesWithFilters<T, E>(rs: seq<Result<T, E>>)
    ensures Traverse(rs).IsOk() <==> GetErrorValues(rs) == []
    ensures Traverse(rs).IsOk() ==> Traverse(rs).okValue == GetOkValues(rs)
    ensures Traverse(rs).IsError() ==> Traverse(rs).errorValue == GetErrorValues(rs)[0]
  {
    if rs != [] {
      TraverseAgreesWithFilters(rs[1..]);
    }
  }

  /** The traversal stops at the first error: nothing after it matters. */
  lemma {:induction false} TraverseStopsAtFirstError<T, E>(rs: seq<Result<T, E>>, i: nat)
    requires i < |rs| && rs[i].IsError()
    requires forall k :: 0 <= k < i ==> rs[k].IsOk()
    ensures Traverse(rs) == Error(rs[i].errorValue)
  {
    if i > 0 {
      TraverseStopsAtFirstError(rs[1..], i - 1);
    }
  }

  /** With no error at all the traversal is Ok of every payload. */
  lemma {:induction false} TraverseAllOk<T, E>(rs: seq<Result<T, E>>)
    requires forall k :: 0 <= k < |rs| ==> rs[k].IsOk()
    ensures Traverse(rs) == Ok(GetOkValues(rs))
  {
    if rs != [] {
      TraverseAllOk(rs[1..]);
    }
  }

  /** Fail-fast `ToSingleResult`: walks the results in order, returns the
      first error as soon as it is met, else Ok of all payloads. `visited`
      counts the elements pulled from the enumeration: none after the first
      error. */
  method ToSingleResult<T, E>(rs: seq<Result<T, E>>) returns (res: Result<seq<T>, E>, ghost visited: nat)
    ensures res == Traverse(rs)
    ensures visited <= |rs|
    ensures res.IsOk() ==> visited == |rs|
    ensures res.IsError() ==>
      && 0 < visited
      && rs[visited - 1] == Error(res.errorValue)
      && forall k :: 0 <= k < visited - 1 ==> rs[k].IsOk()
  {
    var values: seq<T> := [];
    visited := 0;
    var i := 0;
    while i < |rs|
      invariant 0 <= i <= |rs| && visited == i
      invariant forall k :: 0 <= k < i ==> rs[k].IsOk()
      invariant values == GetOkValues(rs[..i])
    {
      var result := rs[i];
      visited := visited + 1;
      if result.IsError() {
        TraverseStopsAtFirstError(rs, i);
        return Error(result.errorValue), visited;
      }
      assert rs[..i + 1] == rs[..i] + [result];
      FiltersAppend(rs[..i], [result]);
      values := values + [result.okValue];
      i := i + 1;
    }
    assert rs[..i] == rs;
    TraverseAllOk(rs);
    res := Ok(values);
  }

  /** `ToSingleResult` with a selector: the lazily mapped sequence traversed
      fail-fast, so `selector` is applied to no element after the first
      error (`invoked` counts its calls). */
  method ToSingleResultBy<X, E, U>(xs: seq<X>, selector: X -> Result<U, E>) returns (res: Result<seq<U>, E>, ghost invoked: nat)
    ensures res == Traverse(MapSeq(xs, selector))
    ensures invoked <= |xs|
    ensures res.IsOk() ==> invoked == |xs|
    ensures res.IsError() ==>
      && 0 < invoked
      && selector(xs[invoked - 1]) == Error(res.errorValue)
      && forall k :: 0 <= k < invoked - 1 ==> selector(xs[k]).IsOk()
  {
    res, invoked := ToSingleResult(MapSeq(xs, selector));
  }

  /** `ToSingleResultWithAllErrors`: walks every element, collecting ok and
      error payloads in order; Error of all errors if there is any, else Ok
      of all payloads. */
  method ToSingleResultWithAllErrors<T, E>(rs: seq<Result<T, E>>) returns (res: Result<seq<T>, seq<E>>, ghost visited: nat)
    ensures visited == |rs|
    ensures res == if GetErrorValues(rs) != [] then Error(GetErrorValues(rs)) else Ok(GetOkValues(rs))
  {
    var values: seq<T> := [];
    var errors: seq<E> := [];
    visited := 0;
    var i := 0;
    while i < |rs|
      invariant 0 <= i <= |rs| && visited == i
      invariant values == GetOkValues(rs[..i])
      invariant errors == GetErrorValues(rs[..i])
    {
      var result := rs[i];
      visited := visited + 1;
      assert rs[..i + 1] == rs[..i] + [result];
      FiltersAppend(rs[..i], [result]);
      if result.IsOk() {
        values := values + [result.okValue];
      } else {
        errors := errors + [result.errorValue];
      }
      i := i + 1;
    }
    assert rs[..i] == rs;
    if errors != [] {
      return Error(errors), visited;
    }
    return Ok(values), visited;
  }

  /** `ToSingleResultWithAllErrors` with a selector: `selector` is applied to
      every element. */
  method ToSingleResultWithAllErrorsBy<X, E, U>(xs: seq<X>, selector: X -> Result<U, E>) returns (res: Result<seq<U>, seq<E>>, ghost invoked: nat)
    ensures invoked == |xs|
    ensures res == if GetErrorValues(MapSeq(xs, selector)) != [] then Error(GetErrorValues(MapSeq(xs, selector)))
                   else Ok(GetOkValues(MapSeq(xs, selector)))
  {
    res, invoked := ToSingleResultWithAllErrors(MapSeq(xs, selector));
  }

  /** Functor identity: selecting the identity changes nothing. */
  lemma SelectIdentity<T, E>(r: Result<T, E>)
    ensures Select(r, (v: T) => v) == r
  {
  }

  /** Functor composition: one select of `g . f` is two selects. */
  lemma SelectComposition<T, E, U, V>(r: Result<T, E>, f: T -> U, g: U -> V)
    ensures Select(r, (v: T) => g(f(v))) == Select(Select(r, f), g)
  {
  }

  /** `SelectError` obeys the same two laws on the error side. */
  lemma SelectErrorLaws<T, E, F, G>(r: Result<T, E>, f: E -> F, g: F -> G)
    ensures SelectError(r, (e: E) => e) == r
    ensures SelectError(r, (e: E) => g(f(e))) == SelectError(SelectError(r, f), g)
  {
  }

  /** Two-selector `Select` is `Select` followed by `SelectError`, and its
      result does not depend on the selector of the dead side. */
  lemma SelectBothSplits<T, E, U, F>(r: Result<T, E>, f: T -> U, g: E -> F, f2: T -> U, g2: E -> F)
    ensures SelectBoth(r, f, g) == SelectError(Select(r, f), g)
    ensures r.IsOk() ==> SelectBoth(r, f, g) == SelectBoth(r, f, g2)
    ensures r.IsError() ==> SelectBoth(r, f, g) == SelectBoth(r, f2, g)
  {
  }

  /** Monad left identity. */
  lemma SelectManyLeftIdentity<T, E, U>(v: T, h: T -> Result<U, E>)
    ensures SelectMany(NewOk<T, E>(v), h) == h(v)
  {
  }

  /** Monad right identity. */
  lemma SelectManyRightIdentity<T, E>(m: Result<T, E>)
    ensures SelectMany(m, (v: T) => NewOk<T, E>(v)) == m
  {
  }

  /** Monad associativity. */
  lemma SelectManyAssociative<T, E, U, V>(m: Result<T, E>, g: T -> Result<U, E>, h: U -> Result<V, E>)
    ensures SelectMany(SelectMany(m, g), h) == SelectMany(m, (x: T) => SelectMany(g(x), h))
  {
  }

  /** `Select` is `SelectMany` with a binder that never fails. */
  lemma SelectIsSelectManyOk<T, E, U>(r: Result<T, E>, f: T -> U)
    ensures Select(r, f) == SelectMany(r, (v: T) => NewOk<U, E>(f(v)))
  {
  }

  /** `Zip` is the sequential bind of the two operands, which is where its
      left-first error precedence comes from. */
  lemma ZipIsSequentialBind<T, E, U, V>(r: Result<T, E>, other: Result<U, E>, selector: (T, U) -> V)
    ensures Zip(r, other, selector) == SelectMany(r, (a: T) => Select(other, (b: U) => selector(a, b)))
  {
  }
}
