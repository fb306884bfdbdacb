# Resulteles in Dafny

A model of Resulteles, a C# library built around one value type,
`Result<TOk, TError>`: a readonly struct whose tag `IsOk` says which of its two
slots, `OkValue` or `ErrorValue`, is live. The model covers the struct itself
and the combinators around it:

- `Results` (`result.dfy`): the struct as the sum datatype `Ok(okValue) | Error(errorValue)`.
  The C# slots are the views `OkSlot()` / `ErrorSlot()`, where `None` is the C# `default`.
  The module also holds the unsafe casts, structural equality, `Match` and `Switch`.
- `Linq` (`linq.dfy`): `Select`, `SelectError`, `SelectMany`, `Zip`, the sequence
  filters and the two traversals. An `IEnumerable` is a `seq`.
  The traversals are loops carrying a ghost count of the elements visited, so the
  fail-fast early exit is stated and proved.
- `Values` (`values.dfy`): the `Try*` extractors, the throwing `GetValueOrThrow` /
  `ThrowIfError`, defaults, nullable views and the second fail-fast traversal `ToResult`.
- `Static` (`static.dfy`): the type-fixing `Result.Ok` / `Result.Error` helpers, `Try` and `TryAsync`.
- `Tasks` and `Async` (`tasks.dfy`, `async.dfy`): the async adaptation layer.
  A task is an opaque value whose await yields a value or an exception.
  Each combinator returns a ghost trace of which callbacks it invoked and which Tasks it awaited.
- `JsonCodec` (`json.dfy`): the `{ "status": ..., "value": ... }` converter over a JSON tree.
  `Write` is a method that appends tokens to a writer object.
- `Prelude` (`prelude.dfy`): `Option` for C# nullables and `default`, and the exceptions
  of interest as `Exn`. A call that may throw returns `Outcome<T> = Returned(value) | Thrown(exn)`.

Callbacks the library receives are parameters: a `Func` is a total function, an
`Action` is a function returning `Outcome<()>`, and an async callback returns a `Task`.
Exception types are constructors of `Exn`: `ResultInvalidCastException` is `InvalidCast`,
`ResultInvalidException` is `InvalidResult`, `JsonException` is `JsonError`,
`InvalidOperationException` is `InvalidOperation`, and a caller's own exception is `User`.

## Model

| member | source | states |
|---|---|---|
| Prelude.Outcome.Map | src/ResultAsyncExtensions.cs:13-18 | an exception passes through a continuation unchanged; a returned value is mapped |
| Results.Result.IsOk | src/Resulteles/Result.cs:23-28 | the tag: set exactly for a result built by the Ok constructor around its ok payload, clear exactly for one built by Error around its error payload |
| Results.Result.IsError | src/Resulteles/Result.cs:35 | `IsError` is exactly the negation of `IsOk` |
| Results.Result.OkSlot | src/Resulteles/Result.cs:20 | the ok slot holds the payload exactly when the result is Ok |
| Results.Result.ErrorSlot | src/Resulteles/Result.cs:21 | the error slot holds the payload exactly when the result is Error |
| Results.Result.Value | src/Resulteles/Result.cs:40 | `Value` is the boxed ok payload on Ok and the boxed error payload on Error |
| Results.Result.Match | src/Resulteles/Result.cs:132-133 | the ok function applied to the ok payload when Ok, the error function applied to the error payload when Error |
| Results.Result.Switch | src/Resulteles/Result.cs:138-144 | exactly one action runs, on the live payload, and its completion or exception is `Switch`'s |
| Results.NewOk | src/Resulteles/Result.cs:45-50 | the Ok constructor sets the tag, stores the payload and leaves the error slot `default` |
| Results.NewError | src/Resulteles/Result.cs:55-60 | the Error constructor sets the tag, stores the payload and leaves the ok slot `default` |
| Results.DeadSlotIsDefault | src/Resulteles/Result.cs:45-60 | in every result the slot that is not live is `default` |
| Results.CastToOk | src/Resulteles/Result.cs:80-84 | the cast to `TOk` succeeds exactly on Ok, with the payload; on Error it throws InvalidCast naming the error payload and both type names |
| Results.CastToError | src/Resulteles/Result.cs:89-93 | the cast to `TError` succeeds exactly on Error, with the payload; on Ok it throws InvalidCast naming the ok payload and both type names |
| Results.CastRoundTrip | src/Resulteles/Result.cs:75-98 | a cast to the side a result was constructed on (directly or by implicit conversion) gives the payload back; a cast to the other side throws InvalidCast |
| Results.Equals | src/Resulteles/Result.cs:113-116 | comparing tags and both slots holds exactly when the tags match and the live payloads are equal, that is, when the results are the same value |
| Results.EqualsOperator | src/Resulteles/Result.cs:103-104 | `==` is `Equals`, so it holds exactly when the two results are the same value |
| Results.NotEqualsOperator | src/Resulteles/Result.cs:109-110 | `!=` holds exactly when the results differ |
| Results.MatchUsesLiveBranchOnly | src/Resulteles/Result.cs:132-133 | `Match` consults only the live branch: changing the other function does not change the result |
| Results.MatchWithConstructors | src/Resulteles/Result.cs:132-133 | matching with the two constructors rebuilds the result |
| Results.ValueOfConstructed | src/Resulteles/Result.cs:40-60 | `Value` of a constructed result is the payload it was constructed with |
| Linq.AsEnumerable | src/ResultLinqExtensions.cs:12-16 | one element, the payload, on Ok; none on Error |
| Linq.ToArray | src/ResultLinqExtensions.cs:21-22 | its contents are what `AsEnumerable` yields: length 1 holding the payload on Ok, newly allocated; length 0 on Error (the shared empty array, so not fresh) |
| Linq.Select | src/ResultLinqExtensions.cs:27-33 | the tag is kept; the selector is applied to an ok payload; an error passes unchanged |
| Linq.SelectBoth | src/ResultLinqExtensions.cs:38-45 | the tag is kept and only the live side's selector is applied |
| Linq.SelectError | src/ResultLinqExtensions.cs:50-56 | the tag is kept; an ok payload passes unchanged; the selector is applied to an error payload |
| Linq.SelectMany | src/ResultLinqExtensions.cs:61-64 | Error gives the same error without binding; `Ok(v)` gives `bind(v)` |
| Linq.SelectManyProject | src/ResultLinqExtensions.cs:69-73 | Ok only when the receiver and the bound result are Ok, holding the projection of both payloads; otherwise the first error in the chain |
| Linq.Zip | src/ResultLinqExtensions.cs:78-90 | Ok of the selector on both payloads when both are Ok; otherwise the first operand's error, else the second's |
| Linq.ZipPair | src/ResultLinqExtensions.cs:95-98 | tuple `Zip`: Ok of the pair when both are Ok, else the first error |
| Linq.GetOkValues | src/ResultLinqExtensions.cs:110-113 | never longer than the input |
| Linq.GetErrorValues | src/ResultLinqExtensions.cs:103-105 | never longer than the input |
| Linq.ChooseResult | src/ResultLinqExtensions.cs:118-121 | never longer than the input |
| Linq.FiltersKeepLivePayloads | src/ResultLinqExtensions.cs:103-113 | a value is among the ok values exactly when `Ok(value)` is an element, and likewise for the error values |
| Linq.ChooseResultKeepsOkOutputs | src/ResultLinqExtensions.cs:118-121 | a value is chosen exactly when the selector yields it as Ok for some input |
| Linq.FiltersAppend | src/ResultLinqExtensions.cs:103-113 | both filters keep input order: they distribute over concatenation |
| Linq.FiltersPartition | src/ResultLinqExtensions.cs:103-113 | the ok values and the error values together are as many as the inputs |
| Linq.SingletonFilter | src/ResultLinqExtensions.cs:103-113 | the filters of one element agree with `AsEnumerable` and with its error side |
| Linq.Traverse | src/ResultLinqExtensions.cs:126-138 | reference definition of the fail-fast traversal; an Ok result has one value per input |
| Linq.TraverseAgreesWithFilters | src/ResultLinqExtensions.cs:126-138 | the fail-fast traversal is Ok exactly when there is no error, then holding every ok value in order; otherwise it holds the first error |
| Linq.TraverseStopsAtFirstError | src/ResultLinqExtensions.cs:126-138 | elements after the first error do not influence the traversal |
| Linq.TraverseAllOk | src/ResultLinqExtensions.cs:126-138 | with no error the traversal is Ok of all payloads in order |
| Linq.ToSingleResult | src/ResultLinqExtensions.cs:126-138 | returns the fail-fast traversal; on Error the last element visited is the first error and none after it is visited; on Ok every element is visited |
| Linq.ToSingleResultBy | src/ResultLinqExtensions.cs:143-146 | the traversal of the mapped inputs, invoking the selector on no input after the first error |
| Linq.ToSingleResultWithAllErrors | src/ResultLinqExtensions.cs:151-168 | visits every element; Error of all error payloads in order when there is any, else Ok of all ok payloads in order |
| Linq.ToSingleResultWithAllErrorsBy | src/ResultLinqExtensions.cs:173-176 | the accumulating traversal of the mapped inputs, invoking the selector on every input |
| Linq.SelectIdentity | src/ResultLinqExtensions.cs:27-33 | functor identity for `Select` |
| Linq.SelectComposition | src/ResultLinqExtensions.cs:27-33 | functor composition for `Select` |
| Linq.SelectErrorLaws | src/ResultLinqExtensions.cs:50-56 | functor identity and composition for `SelectError` |
| Linq.SelectBothSplits | src/ResultLinqExtensions.cs:38-45 | two-selector `Select` is `Select` then `SelectError`, and the selector of the dead side has no influence |
| Linq.SelectManyLeftIdentity | src/ResultLinqExtensions.cs:61-64 | monad left identity |
| Linq.SelectManyRightIdentity | src/ResultLinqExtensions.cs:61-64 | monad right identity |
| Linq.SelectManyAssociative | src/ResultLinqExtensions.cs:61-64 | monad associativity |
| Linq.SelectIsSelectManyOk | src/ResultLinqExtensions.cs:27-33 | `Select` is `SelectMany` with a binder that always answers Ok |
| Linq.ZipIsSequentialBind | src/ResultLinqExtensions.cs:78-90 | `Zip` is binding the first operand, then selecting over the second |
| Values.TryOk | src/ResultValueExtensions.cs:17-23 | returns `IsOk`; the output holds the payload exactly when Ok and is `default` otherwise |
| Values.TryError | src/ResultValueExtensions.cs:31-37 | returns `IsError`; the output holds the payload exactly when Error and is `default` otherwise |
| Values.TryGet | src/ResultValueExtensions.cs:46-55 | returns `IsOk`; exactly one output holds the live payload, the other is `default` |
| Values.Deconstruct | src/ResultValueExtensions.cs:146-189 | deconstruction yields the same parts as `TryGet` |
| Values.DeconstructIsInjective | src/ResultValueExtensions.cs:146-189 | results with the same deconstructed parts are equal |
| Values.GetValueOrThrow | src/ResultValueExtensions.cs:60-69 | the payload on Ok; on Error an exception payload rethrown as it is, any other payload thrown as InvalidResult with its text |
| Values.GetValueOrThrowFormatted | src/ResultValueExtensions.cs:74-82 | the payload on Ok; on Error InvalidResult with the formatted message |
| Values.GetValueOrThrowWith | src/ResultValueExtensions.cs:87-95 | the payload on Ok; on Error the factory's exception |
| Values.ThrowIfError | src/ResultValueExtensions.cs:100-109 | completes exactly on Ok; on Error throws what `GetValueOrThrow()` throws |
| Values.ThrowIfErrorFormatted | src/ResultValueExtensions.cs:114-119 | completes exactly on Ok; on Error throws what the formatting `GetValueOrThrow` throws |
| Values.ThrowIfErrorWith | src/ResultValueExtensions.cs:124-129 | completes exactly on Ok; on Error throws what the factory `GetValueOrThrow` throws |
| Values.FormattedIsFactory | src/ResultValueExtensions.cs:74-95 | the formatting overloads are the factory overloads with an InvalidResult factory |
| Values.DefaultValue | src/ResultValueExtensions.cs:134-135 | the ok payload on Ok, else the fallback |
| Values.DefaultWith | src/ResultValueExtensions.cs:140-141 | the ok payload on Ok, else the thunk applied to the error payload |
| Values.DefaultValueIsConstantThunk | src/ResultValueExtensions.cs:134-141 | a fallback is a thunk ignoring the error; on Ok the thunk has no influence |
| Values.AsNullable | src/ResultValueExtensions.cs:194-197 | the tag is kept and the ok payload is wrapped as present |
| Values.ToNullable | src/ResultValueExtensions.cs:221-224 | present with the payload exactly on Ok, absent on Error |
| Values.ToNullableAgrees | src/ResultValueExtensions.cs:221-224 | the nullable view agrees with `TryOk` and with `AsEnumerable` |
| Values.ToResult | src/ResultValueExtensions.cs:202-215 | agrees with `ToSingleResult`: the fail-fast traversal, visiting nothing after the first error |
| Tasks.FromResult | src/ResultAsyncExtensions.cs:161-164 | a completed task whose await yields the value |
| Static.Ok | src/ResultStatic.cs:13-14 | the struct's own Ok constructor |
| Static.OkWithStringError | src/ResultStatic.cs:19-20 | an Ok result whose error type is `string` |
| Static.Error | src/ResultStatic.cs:25-26 | the struct's own Error constructor |
| Static.ErrorWithSuccess | src/ResultStatic.cs:31-32 | an Error result whose ok type is `Success` |
| Static.Try | src/ResultStatic.cs:37-47 | Ok of the returned value exactly when the function returns; else Error of exactly the thrown exception |
| Static.TryAsync | src/ResultStatic.cs:52-62 | Error of the exception the call throws; else Ok of the awaited value, or Error of the exception that Task faults with |
| Static.TryThenGetValueOrThrow | src/ResultStatic.cs:37-47 | unwrapping what `Try` caught gives back exactly what the function did |
| Static.TryAsyncOfCompleted | src/ResultStatic.cs:52-62 | `TryAsync` of a function returning a completed task is `Try` |
| Async.AwaitOk | src/ResultAsyncExtensions.cs:13-18 | awaiting a pending ok payload gives Ok of its value or its exception |
| Async.AwaitError | src/ResultAsyncExtensions.cs:23-28 | awaiting a pending error payload gives Error of its value or its exception |
| Async.ToTask | src/ResultAsyncExtensions.cs:13-18 | `Ok(t)` becomes Ok of the awaited `t`; `Error(e)` stays `Error(e)` with nothing awaited |
| Async.ToTaskError | src/ResultAsyncExtensions.cs:23-28 | only an Error's task is awaited; an Ok passes with nothing awaited |
| Async.ToTaskBoth | src/ResultAsyncExtensions.cs:33-38 | only the live side's task is awaited |
| Async.Tap | src/ResultAsyncExtensions.cs:43-48 | the action is invoked and awaited only on Ok; the original result is returned unless the action faults |
| Async.MatchAsyncOk | src/ResultAsyncExtensions.cs:53-56 | exactly one branch runs; its (awaited) value is the outcome |
| Async.MatchAsyncError | src/ResultAsyncExtensions.cs:61-65 | exactly one branch runs; its (awaited) value is the outcome |
| Async.SwitchAsync | src/ResultAsyncExtensions.cs:70-79 | exactly one action runs and is awaited |
| Async.SwitchAsyncOk | src/ResultAsyncExtensions.cs:84-91 | exactly one action runs; only the ok action is awaited |
| Async.SwitchAsyncError | src/ResultAsyncExtensions.cs:96-104 | exactly one action runs; only the error action is awaited |
| Async.SelectAsync | src/ResultAsyncExtensions.cs:109-112 | the tag is kept; only an Ok invokes the selector and awaits its task |
| Async.SelectBothAsync | src/ResultAsyncExtensions.cs:117-121 | only the live side's selector is invoked and awaited |
| Async.SelectBothAsyncError | src/ResultAsyncExtensions.cs:126-130 | only the live side's selector is invoked; only an error selector's task is awaited |
| Async.SelectBothAsyncOk | src/ResultAsyncExtensions.cs:135-139 | only the live side's selector is invoked; only an ok selector's task is awaited |
| Async.SelectErrorAsync | src/ResultAsyncExtensions.cs:144-147 | the tag is kept; only an Error invokes the selector and awaits its task |
| Async.SelectManyAsync | src/ResultAsyncExtensions.cs:153-156 | the receiver's error comes out unchanged without binding; else the bound result with its pending ok payload awaited |
| Async.SelectManyAsyncError | src/ResultAsyncExtensions.cs:161-164 | the receiver's error comes out unchanged through a completed task; else the bound result with its pending error payload awaited |
| Async.SelectManyAsyncBoth | src/ResultAsyncExtensions.cs:169-172 | the receiver's error comes out unchanged through a completed task; else the bound result with its live pending payload awaited |
| Async.SelectManyAsyncTask | src/ResultAsyncExtensions.cs:177-180 | Error unchanged without binding; on `Ok(v)` the awaited `bind(v)` |
| JsonCodec.PolicyName | src/Json/ResultJsonTypeConverter.cs:63-68 | the naming policy's conversion of the literal when a policy is set and answers a name; the literal itself when there is no policy or the policy answers null |
| JsonCodec.LastMember | src/Json/ResultJsonTypeConverter.cs:63-68 | a property found is the last member of the object with that name; none found means no member has that name |
| JsonCodec.TryGetProperty | src/Json/ResultJsonTypeConverter.cs:63-68 | a property lookup answers exactly on an object, with the value of the last member of that name (none when no member has it); any other element kind throws a wrong-kind error naming "Object" |
| JsonCodec.GetString | src/Json/ResultJsonTypeConverter.cs:72-76 | a string element gives its text, a null element gives `null`, and any other kind throws a wrong-kind error naming "String" |
| JsonCodec.ResultConverter.Read | src/Json/ResultJsonTypeConverter.cs:57-81 | a non-object fails; a missing status fails; a missing value fails before the status is examined; for any object, status "ok" gives Ok of the ok converter's value or its exception, "error" likewise with the error converter, any other string fails naming it, null fails with an empty name, another kind fails as not a string; success only through "ok" or "error" |
| JsonCodec.ResultConverter.Dispatch | src/Json/ResultJsonTypeConverter.cs:72-80 | "ok" decodes with the ok converter into Ok and "error" with the error converter into Error, a converter's exception propagating; any other string, null, or non-string status fails as the source does |
| JsonCodec.ResultConverter.Encode | src/Json/ResultJsonTypeConverter.cs:84-116 | the element written is an object with exactly two members; `EncodeTokens` shows they are the status ("ok" or "error") and the payload as its converter writes it, and `RoundTrip` shows that `Read` recovers the result from them |
| JsonCodec.ResultConverter.Write | src/Json/ResultJsonTypeConverter.cs:84-116 | appends exactly: start of object, the status name, "ok" or "error", the value name, the live payload's encoding, end of object |
| JsonCodec.ResultConverter.EncodeTokens | src/Json/ResultJsonTypeConverter.cs:84-116 | the tokens `Write` emits are the serialisation of the two-member object |
| JsonCodec.ResultConverter.RoundTrip | src/Json/ResultJsonTypeConverter.cs:57-116 | reading what is written gives the result back, for Ok and Error alike |
| JsonCodec.ResultConverter.UnknownStatusFails | src/Json/ResultJsonTypeConverter.cs:80 | in any object with a value property, any other status string fails with a JsonException naming it, whatever else the object holds |
| JsonCodec.IntConverter | src/Json/ResultJsonTypeConverter.cs:39 | an integer payload converter that reads back what it writes |
| JsonCodec.StringConverter | src/Json/ResultJsonTypeConverter.cs:40 | a string payload converter that reads back what it writes |
| JsonCodec.DefaultEncodingExamples | src/Json/ResultJsonTypeConverter.cs:44-47 | with the default names `Ok(42)` is `{"status":"ok","value":42}`, and status "bogus" is rejected |

## Left out

- `ResultJsonConverterFactory` (src/Json/ResultJsonTypeConverter.cs:8-33) creates converters by reflection; the model takes the two payload converters as the fields of `ResultConverter`.
- The converter's constructor (src/Json/ResultJsonTypeConverter.cs:50-54) asks the options for the payload converters; that lookup is the host's.
- Byte-level reading and writing: the element is parsed by the host (line 61), and the value element is re-serialised for the payload converter (lines 70-71). The model reads a JSON tree and writes a token sequence. Turning tokens back into a tree is the host's parser and is not modelled. The round trip is therefore stated over the tree, and `EncodeTokens` ties that tree to the written tokens.
- JSON numbers are integers; floating point is not modelled.
- The host's message for an element of the wrong kind is rendered by `KindName`; only its kind matters to the model.
- JsonCodec.ResultConverter.RoundTrip: needs the naming policy to keep the names "status" and "value" apart. If they collide, both lookups find the same later member, and the round trip can fail.
- `GetHashCode`, `ToString` and `DebuggerDisplay` (src/Resulteles/Result.cs:122-127) call the payloads' own opaque methods.
- `Equals(object)` (src/Resulteles/Result.cs:119) is a runtime type test in front of `Equals`.
- The implicit conversions (src/Resulteles/Result.cs:75, 98) are the two constructors. The ambiguity when `TOk` and `TError` are the same type is not modelled.
- Generic payloads are not nullable. A `null` payload stored in a live slot cannot be told apart from a dead slot in C#; the model keeps the tag instead.
- Synchronous callbacks (`Func`) are total functions. An exception thrown by a selector, binder or `Match` branch is not modelled. Exceptions are modelled for actions, thunks passed to `Try`, and tasks.
- Values.GetValueOrThrowWith: a factory that returns `null` makes C# throw a `NullReferenceException`; factories in the model always return an exception.
- Values.GetValueOrThrow: the `is Exception` test and the string interpolation of the payload are parameters (`asException`, `render`).
- The four `Deconstruct` overloads (src/ResultValueExtensions.cs:146-189) differ only in generic constraints; they are one function.
- Values.Deconstruct: for a payload type constrained to `struct`, C# declares the out parameter as `Nullable<T>` and wraps the dead slot's `default(T)`, so it comes out present (for example `(int?)0`). The model returns `None` for every dead slot.
- `IEnumerable` laziness beyond the stopping point of a traversal is not modelled; the ghost count of visited elements stands for it.
- Task scheduling, cancellation and synchronisation contexts are not modelled. A task is a value whose await yields its outcome. The trace records only which callbacks were invoked and which tasks were awaited.
- The FluentAssertions adapters (src/Resulteles.FluentAssertions) are a test-assertion layer with no logic of their own.
- src/ResultException.cs defines the two exception classes; they are the `InvalidCast` and `InvalidResult` constructors of `Exn`.
