/** The synchronous two-variant result that the asynchronous wrapper lifts.
    Only the capabilities the wrapper consumes are modelled: the two variant
    constructors, `isOk`/`isErr`, `match` and `unwrapOr`. */
module Results {

  /** An optional value, used for the optional callbacks of the wrapper. */
  datatype Option<+T> = None | Some(value: T)

  /** Exactly one of a success payload or a failure payload. */
  datatype Result<T, E> = Ok(value: T) | Err(error: E) {

    predicate IsOk() {
      Ok?
    }

    /** `isOk` and `isErr` are mutually exclusive and exhaustive. */
    predicate IsErr()
      ensures IsErr() <==> !IsOk()
    {
      Err?
    }

    /** Applies exactly one of the two callbacks, chosen by the variant. */
    function Match<A>(onOk: T -> A, onErr: E -> A): A {
      match this
      case Ok(v) => onOk(v)
      case Err(e) => onErr(e)
    }

    /** The success payload, or `default` on a failure. */
    function UnwrapOr(default: T): T {
      match this
      case Ok(v) => v
      case Err(_) => default
    }
  }
}
