/** Shared vocabulary of the model: C# nullables, the exceptions the library
    and its host can raise, and the "returns or throws" outcome of a call. */
module Prelude {

  /** A C# nullable (`T?`): `None` is `null`, and also stands for the
      `default` value that the Result struct stores in its dead slot. */
  datatype Option<T> = None | Some(value: T)

  /** The exceptions that matter to the library.
      - InvalidCast: `ResultInvalidCastException`, raised by the unsafe casts;
      - InvalidResult: `ResultInvalidException`, raised by the throwing unwraps;
      - JsonError: `JsonException`, raised by the JSON codec on malformed input;
      - InvalidOperation: `InvalidOperationException`, raised by the host's JSON
        element API when it is asked for the wrong kind of element;
      - User: any other exception, named by its type and message. */
  datatype Exn =
    | InvalidCast(message: string)
    | InvalidResult(message: string)
    | JsonError(message: string)
    | InvalidOperation(message: string)
    | User(kind: string, message: string)

  /** What a call that may throw did: returned a value or threw an exception. */
  datatype Outcome<T> = Returned(value: T) | Thrown(exn: Exn)
  {
    /** Applies `f` to a returned value; a thrown exception passes through. */
    function Map<U>(f: T -> U): (o: Outcome<U>)
      ensures o.Returned? <==> Returned?
      ensures o.Returned? ==> o.value == f(value)
      ensures o.Thrown? ==> o.exn == exn
    {
      match this
      case Returned(v) => Returned(f(v))
      case Thrown(x) => Thrown(x)
    }
  }
}
