/** The JSON converter of src/Json/ResultJsonTypeConverter.cs: a Result is the
    object `{ status: "ok" | "error", value: <payload> }`. JSON is a tree;
    the host's writer is a class that accumulates tokens; the payload
    converters the host supplies are pairs of functions. */
module JsonCodec {
  import opened Prelude
  import opened Results

  /** A parsed JSON element (`JsonElement`); numbers are integers. */
  datatype Json =
    | JNull
    | JBool(b: bool)
    | JNumber(n: int)
    | JString(s: string)
    | JArray(items: seq<Json>)
    | JObject(members: seq<Member>)

  /** One property of an object, in document order. */
  datatype Member = Member(name: string, value: Json)

  /** The tokens a `Utf8JsonWriter` emits. */
  datatype Token =
    | StartObject | EndObject | StartArray | EndArray
    | PropertyName(name: string)
    | StringValue(s: string)
    | NumberValue(n: int)
    | BoolValue(b: bool)
    | NullValue

  /** Concatenation of a sequence of token runs. */
  function Flatten(runs: seq<seq<Token>>): seq<Token>
  {
    if runs == [] then [] else runs[0] + Flatten(runs[1..])
  }

  lemma FlattenPair(a: seq<Token>, b: seq<Token>)
    ensures Flatten([a, b]) == a + b
  {
    assert [a, b][1..] == [b];
    assert [b][1..] == [];
    assert Flatten([b]) == b + Flatten([]);
    assert b + [] == b;
  }

  /** The tokens that write the element `j`, in order. */
  function Tokens(j: Json): (ts: seq<Token>)
    ensures 0 < |ts|
  {
    match j
    case JNull => [NullValue]
    case JBool(b) => [BoolValue(b)]
    case JNumber(n) => [NumberValue(n)]
    case JString(s) => [StringValue(s)]
    case JArray(items) =>
      [StartArray] + Flatten(seq(|items|, i requires 0 <= i < |items| => Tokens(items[i]))) + [EndArray]
    case JObject(ms) =>
      [StartObject]
      + Flatten(seq(|ms|, i requires 0 <= i < |ms| => [PropertyName(ms[i].name)] + Tokens(ms[i].value)))
      + [EndObject]
  }

  /** The host's `Utf8JsonWriter`: the tokens written so far. */
  class JsonWriter {
    var tokens: seq<Token>

    constructor ()
      ensures tokens == []
    {
      tokens := [];
    }

    method WriteStartObject()
      modifies this
      ensures tokens == old(tokens) + [StartObject]
    {
      tokens := tokens + [StartObject];
    }

    method WriteEndObject()
      modifies this
      ensures tokens == old(tokens) + [EndObject]
    {
      tokens := tokens + [EndObject];
    }

    method WritePropertyName(name: string)
      modifies this
      ensures tokens == old(tokens) + [PropertyName(name)]
    {
      tokens := tokens + [PropertyName(name)];
    }

    method WriteStringValue(s: string)
      modifies this
      ensures tokens == old(tokens) + [StringValue(s)]
    {
      tokens := tokens + [StringValue(s)];
    }

    /** Writes a whole element, as a payload converter's `Write` does. */
    method WriteElement(j: Json)
      modifies this
      ensures tokens == old(tokens) + Tokens(j)
    {
      tokens := tokens + Tokens(j);
    }
  }

  /** A payload converter obtained from the host (`JsonConverter<T>`): how a
      value is written, and how an element is read back (possibly failing). */
  datatype Converter<!T> = Converter(write: T -> Json, read: Json -> Outcome<T>)

  /** The converter reads back the value `v` it writes. */
  ghost predicate RoundTripsOn<T>(c: Converter<T>, v: T)
  {
    c.read(c.write(v)) == Returned(v)
  }

  /** `JsonNamingPolicy.ConvertName`, which may answer `null` (`None`). */
  datatype NamingPolicy = NamingPolicy(convertName: string -> Option<string>)

  /** The part of `JsonSerializerOptions` the converter reads. */
  datatype Options = Options(propertyNamingPolicy: Option<NamingPolicy>)

  const PropertyStatusName: string := "status"
  const PropertyValueName: string := "value"
  const StatusOk: string := "ok"
  const StatusError: string := "error"

  /** `PropertyNamingPolicy?.ConvertName(literal) ?? literal`. */
  function PolicyName(options: Options, literal: string): (name: string)
    ensures options.propertyNamingPolicy.None? ==> name == literal
    ensures options.propertyNamingPolicy.Some? && options.propertyNamingPolicy.value.convertName(literal).Some? ==>
      name == options.propertyNamingPolicy.value.convertName(literal).value
    ensures options.propertyNamingPolicy.Some? && options.propertyNamingPolicy.value.convertName(literal).None? ==>
      name == literal
  {
    match options.propertyNamingPolicy
    case None => literal
    case Some(policy) =>
      match policy.convertName(literal)
      case Some(converted) => converted
      case None => literal
  }

  /** The name of an element's kind, as the host's diagnostics spell it. */
  function KindName(j: Json): string
  {
    match j
    case JNull => "Null"
    case JBool(b) => if b then "True" else "False"
    case JNumber(_) => "Number"
    case JString(_) => "String"
    case JArray(_) => "Array"
    case JObject(_) => "Object"
  }

  /** The host's complaint when an element is not of the expected kind. */
  function WrongKind(expected: string, j: Json): Exn
  {
    InvalidOperation("The requested operation requires an element of type '" + expected
                     + "', but the target element has type '" + KindName(j) + "'.")
  }

  /** The value of the last member called `name`, if any (a repeated
      property is matched by its last definition). */
  function LastMember(ms: seq<Member>, name: string): (found: Option<Json>)
    ensures found.Some? ==> Member(name, found.value) in ms
    ensures found.Some? ==>
      exists i :: 0 <= i < |ms| && ms[i] == Member(name, found.value) && forall k :: i < k < |ms| ==> ms[k].name != name
    ensures found.None? ==> forall m :: m in ms ==> m.name != name
  {
    if ms == [] then None
    else if ms[|ms| - 1].name == name then Some(ms[|ms| - 1].value)
    else LastMember(ms[..|ms| - 1], name)
  }

  /** `JsonElement.TryGetProperty`: only an object has properties. */
  function TryGetProperty(j: Json, name: string): (o: Outcome<Option<Json>>)
    ensures o.Returned? <==> j.JObject?
    ensures j.JObject? ==> o == Returned(LastMember(j.members, name))
    ensures !j.JObject? ==> o == Thrown(WrongKind("Object", j))
  {
    if j.JObject? then Returned(LastMember(j.members, name)) else Thrown(WrongKind("Object", j))
  }

  /** `JsonElement.GetString`: the text of a string, `null` for a null, and
      a failure for any other kind. */
  function GetString(j: Json): (o: Outcome<Option<string>>)
    ensures o.Returned? <==> j.JString? || j.JNull?
    ensures j.JString? ==> o == Returned(Some(j.s))
    ensures j.JNull? ==> o == Returned(None)
    ensures !j.JString? && !j.JNull? ==> o == Thrown(WrongKind("String", j))
  {
    match j
    case JString(s) => Returned(Some(s))
    case JNull => Returned(None)
    case _ => Thrown(WrongKind("String", j))
  }

  /** `JsonElement.ToString` of a string or null element. */
  function StatusText(status: Option<string>): string
  {
    match status
    case Some(s) => s
    case None => ""
  }

  /** The converter for `Result<TOk, TError>`, holding the two payload converters. */
  datatype ResultConverter<!T, !E> = ResultConverter(okConverter: Converter<T>, errorConverter: Converter<E>)
  {
    /** `Read`: finds the status and the value properties (failing if either
        is missing, the value checked before the status is looked at), then
        decodes the value with the converter the status names; any other
        status fails. */
    function Read(json: Json, options: Options): (o: Outcome<Result<T, E>>)
      ensures !json.JObject? ==> o == Thrown(WrongKind("Object", json))
      ensures json.JObject? && LastMember(json.members, PolicyName(options, PropertyStatusName)).None? ==>
        o == Thrown(JsonError("Invalid status property"))
      ensures json.JObject? && LastMember(json.members, PolicyName(options, PropertyStatusName)).Some?
              && LastMember(json.members, PolicyName(options, PropertyValueName)).None? ==>
        o == Thrown(JsonError("Invalid value property"))
      ensures o.Returned? ==>
        && json.JObject?
        && var status := LastMember(json.members, PolicyName(options, PropertyStatusName));
        && var value := LastMember(json.members, PolicyName(options, PropertyValueName));
        && status.Some? && value.Some?
        && (status.value == JString(StatusOk) ==> okConverter.read(value.value).Returned? && o.value == NewOk(okConverter.read(value.value).value))
        && (status.value == JString(StatusError) ==> errorConverter.read(value.value).Returned? && o.value == NewError(errorConverter.read(value.value).value))
        && (status.value == JString(StatusOk) || status.value == JString(StatusError))
      ensures json.JObject? ==>
        var status := LastMember(json.members, PolicyName(options, PropertyStatusName));
        var value := LastMember(json.members, PolicyName(options, PropertyValueName));
        (status == Some(JString(StatusOk)) && value.Some? ==>
          && (okConverter.read(value.value).Returned? ==> o == Returned(NewOk(okConverter.read(value.value).value)))
          && (okConverter.read(value.value).Thrown? ==> o == Thrown(okConverter.read(value.value).exn)))
      ensures json.JObject? ==>
        var status := LastMember(json.members, PolicyName(options, PropertyStatusName));
        var value := LastMember(json.members, PolicyName(options, PropertyValueName));
        (status == Some(JString(StatusError)) && value.Some? ==>
          && (errorConverter.read(value.value).Returned? ==> o == Returned(NewError(errorConverter.read(value.value).value)))
          && (errorConverter.read(value.value).Thrown? ==> o == Thrown(errorConverter.read(value.value).exn)))
      ensures json.JObject? ==>
        var status := LastMember(json.members, PolicyName(options, PropertyStatusName));
        var value := LastMember(json.members, PolicyName(options, PropertyValueName));
        (status.Some? && status.value.JString? && status.value.s != StatusOk && status.value.s != StatusError && value.Some? ==>
          o == Thrown(JsonError("Invalid status " + status.value.s)))
      ensures json.JObject? ==>
        var status := LastMember(json.members, PolicyName(options, PropertyStatusName));
        var value := LastMember(json.members, PolicyName(options, PropertyValueName));
        (status == Some(JNull) && value.Some? ==> o == Thrown(JsonError("Invalid status ")))
      ensures json.JObject? ==>
        var status := LastMember(json.members, PolicyName(options, PropertyStatusName));
        var value := LastMember(json.members, PolicyName(options, PropertyValueName));
        (status.Some? && !status.value.JString? && !status.value.JNull? && value.Some? ==>
          o == Thrown(WrongKind("String", status.value)))
    {
      match TryGetProperty(json, PolicyName(options, PropertyStatusName))
      case Thrown(x) => Thrown(x)
      case Returned(None) => Thrown(JsonError("Invalid status property"))
      case Returned(Some(status)) =>
        match TryGetProperty(json, PolicyName(options, PropertyValueName))
        case Thrown(x) => Thrown(x)
        case Returned(None) => Thrown(JsonError("Invalid value property"))
        case Returned(Some(value)) => Dispatch(status, value)
    }

    /** The second half of `Read`: the status element must be a string or
        null; "ok" decodes the value with the ok converter into Ok, "error"
        with the error converter into Error, and a converter's failure
        propagates; any other text fails naming it. */
    function Dispatch(status: Json, value: Json): (o: Outcome<Result<T, E>>)
      ensures status == JString(StatusOk) ==>
        && (okConverter.read(value).Returned? ==> o == Returned(NewOk(okConverter.read(value).value)))
        && (okConverter.read(value).Thrown? ==> o == Thrown(okConverter.read(value).exn))
      ensures status == JString(StatusError) ==>
        && (errorConverter.read(value).Returned? ==> o == Returned(NewError(errorConverter.read(value).value)))
        && (errorConverter.read(value).Thrown? ==> o == Thrown(errorConverter.read(value).exn))
      ensures status.JString? && status.s != StatusOk && status.s != StatusError ==>
        o == Thrown(JsonError("Invalid status " + status.s))
      ensures status == JNull ==> o == Thrown(JsonError("Invalid status "))
      ensures !status.JString? && !status.JNull? ==> o == Thrown(WrongKind("String", status))
    {
      assert "Invalid status " + StatusText(None) == "Invalid status ";
      match GetString(status)
      case Thrown(x) => Thrown(x)
      case Returned(text) =>
        if text == Some(StatusOk) then okConverter.read(value).Map((v: T) => Result<T, E>.Ok(v))
        else if text == Some(StatusError) then errorConverter.read(value).Map((e: E) => Result<T, E>.Error(e))
        else Thrown(JsonError("Invalid status " + StatusText(text)))
    }

    /** The element `Write` produces: an object with the status member, then
        the value member. */
    function Encode(value: Result<T, E>, options: Options): (j: Json)
      ensures j.JObject? && |j.members| == 2
    {
      JObject([
        Member(PolicyName(options, PropertyStatusName), JString(if value.IsOk() then StatusOk else StatusError)),
        Member(PolicyName(options, PropertyValueName),
               if value.IsOk() then okConverter.write(value.okValue) else errorConverter.write(value.errorValue))
      ])
    }

    /** `Write`: emits the object token by token: the status property with
        the literal "ok" or "error" (never passed through the naming
        policy), then the value property written by the payload converter
        of the live side. */
    method Write(writer: JsonWriter, value: Result<T, E>, options: Options)
      modifies writer
      ensures writer.tokens == old(writer.tokens)
        + [StartObject,
           PropertyName(PolicyName(options, PropertyStatusName)),
           StringValue(if value.IsOk() then StatusOk else StatusError),
           PropertyName(PolicyName(options, PropertyValueName))]
        + Tokens(if value.IsOk() then okConverter.write(value.okValue) else errorConverter.write(value.errorValue))
        + [EndObject]
    {
      writer.WriteStartObject();
      if value.IsOk() {
        writer.WritePropertyName(PolicyName(options, PropertyStatusName));
        writer.WriteStringValue(StatusOk);
        writer.WritePropertyName(PolicyName(options, PropertyValueName));
        writer.WriteElement(okConverter.write(value.okValue));
      } else {
        writer.WritePropertyName(PolicyName(options, PropertyStatusName));
        writer.WriteStringValue(StatusError);
        writer.WritePropertyName(PolicyName(options, PropertyValueName));
        writer.WriteElement(errorConverter.write(value.errorValue));
      }
      writer.WriteEndObject();
    }

    /** The tokens `Write` emits are exactly those of the element `Encode` builds. */
    lemma EncodeTokens(value: Result<T, E>, options: Options)
      ensures Tokens(Encode(value, options))
        == [StartObject,
            PropertyName(PolicyName(options, PropertyStatusName)),
            StringValue(if value.IsOk() then StatusOk else StatusError),
            PropertyName(PolicyName(options, PropertyValueName))]
           + Tokens(if value.IsOk() then okConverter.write(value.okValue) else errorConverter.write(value.errorValue))
           + [EndObject]
    {
      var j := Encode(value, options);
      var ms := j.members;
      var runs := seq(|ms|, i requires 0 <= i < |ms| => [PropertyName(ms[i].name)] + Tokens(ms[i].value));
      assert runs == [runs[0], runs[1]];
      FlattenPair(runs[0], runs[1]);
    }

    /** Round trip: reading what `Write` produces gives back the result,
        provided the live payload's converter reads back what it writes and the naming policy
        keeps the two property names apart. */
    lemma RoundTrip(value: Result<T, E>, options: Options)
      requires value.IsOk() ==> RoundTripsOn(okConverter, value.okValue)
      requires value.IsError() ==> RoundTripsOn(errorConverter, value.errorValue)
      requires PolicyName(options, PropertyStatusName) != PolicyName(options, PropertyValueName)
      ensures Read(Encode(value, options), options) == Returned(value)
    {
    }

    /** In any object that has a value property, a status other than "ok"
        and "error", given as a string, is rejected with a JsonException
        naming it; whatever else the object holds does not matter. */
    lemma UnknownStatusFails(members: seq<Member>, status: string, options: Options)
      requires status != StatusOk && status != StatusError
      requires LastMember(members, PolicyName(options, PropertyStatusName)) == Some(JString(status))
      requires LastMember(members, PolicyName(options, PropertyValueName)).Some?
      ensures Read(JObject(members), options) == Thrown(JsonError("Invalid status " + status))
    {
    }
  }

  /** The integer converter of the host, used in the examples below. */
  function IntConverter(): (c: Converter<int>)
    ensures forall n :: RoundTripsOn(c, n)
  {
    Converter((n: int) => JNumber(n), (j: Json) => if j.JNumber? then Returned(j.n) else Thrown(JsonError("not a number")))
  }

  /** The string converter of the host, used in the examples below. */
  function StringConverter(): (c: Converter<string>)
    ensures forall s :: RoundTripsOn(c, s)
  {
    Converter((s: string) => JString(s), (j: Json) => if j.JString? then Returned(j.s) else Thrown(JsonError("not a string")))
  }

  /** With the default names, `Ok(42)` is written as `{"status":"ok","value":42}`,
      and `{"status":"bogus","value":1}` is rejected. */
  lemma DefaultEncodingExamples()
    ensures ResultConverter(IntConverter(), StringConverter()).Encode(NewOk(42), Options(None))
      == JObject([Member("status", JString("ok")), Member("value", JNumber(42))])
    ensures ResultConverter(IntConverter(), StringConverter()).Read(
              JObject([Member("status", JString("bogus")), Member("value", JNumber(1))]), Options(None))
      == Thrown(JsonError("Invalid status bogus"))
  {
    var options := Options(None);
    var ms := [Member("status", JString("bogus")), Member("value", JNumber(1))];
    assert PolicyName(options, PropertyStatusName) == "status";
    assert PolicyName(options, PropertyValueName) == "value";
    assert ms[..|ms| - 1] == [ms[0]];
    assert LastMember(ms, "status") == Some(JString("bogus"));
    assert "Invalid status " + "bogus" == "Invalid status bogus";
    ResultConverter(IntConverter(), StringConverter()).UnknownStatusFails(ms, "bogus", options);
  }
}
