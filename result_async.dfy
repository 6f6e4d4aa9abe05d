/** `ResultAsync<T, E>`: a deferred `Result<T, E>` with combinators that
    each build a new wrapper from the predecessor's settled outcome. */
module AsyncResults {
  import opened Results
  import opened Promises

  /** What the wrapped promise settles to: a `Result`, or (only when a
      rejection was never translated) a rejection. */
  type Outcome<T, E> = Settled<Result<T, E>>

  /** The diagnostic that `fromPromise` emits when it is given no
      rejection translator. */
  const FromPromiseWarning: string :=
    "`fromPromise` called without a promise rejection handler"
    + " - "
    + "Ensure that you are catching promise rejections yourself, or pass a second argument to `fromPromise` to convert a caught exception into an `Err` instance"

  /** What an `andThen`/`orElse` callback hands back: a plain `Result`, a
      `ResultAsync`, or a synchronous throw. */
  datatype Continuation<T, E> =
    | Plain(result: Result<T, E>)
    | Async(wrapper: ResultAsync<T, E>)
    | Thrown(cause: Cause)
  {
    /** How `andThen` takes the callback's value: a wrapper's own promise
        is returned from the `then` callback, a plain `Result` becomes the
        fulfilled value, a throw rejects. */
    function Direct(): Outcome<T, E> {
      match this
      case Plain(r) => Fulfilled(r)
      case Async(w) => w.promise
      case Thrown(c) => Rejected(c)
    }

    /** How `orElse` takes the callback's value: it is returned from an
        async function, so a wrapper is adopted as a thenable, through its
        own `then(resolve, reject)`. Adoption through `then` settles
        exactly as taking the wrapper's promise directly does. */
    function Adopted(): (o: Outcome<T, E>)
      ensures o == Direct()
    {
      match this
      case Plain(r) => Fulfilled(r)
      case Async(w) => w.Then(res => Fulfilled(res), Some((c: Cause) => Rejected(c)))
      case Thrown(c) => Rejected(c)
    }
  }

  /** The wrapper around one deferred `Result`. Its only field is written
      by the constructor and never changed; combinators build new values. */
  datatype ResultAsync<T, E> = ResultAsync(promise: Outcome<T, E>) {

    /** Adapts a promise of a plain `T` that may reject. A fulfilled value
        becomes `Ok`. With a translator, a rejection is caught and becomes
        `Err(errorFn(cause))` (a throw from the translator rejects instead);
        without one the rejection is left alone and one warning is appended
        to the log, at call time, whatever `p` settles to. */
    static function FromPromise(p: Settled<T>, errorFn: Option<Cause -> Settled<E>>, log: seq<string>)
      : (r: (ResultAsync<T, E>, seq<string>))
      ensures p.Fulfilled? ==> r.0.promise == Fulfilled(Ok(p.value))
      ensures p.Rejected? && errorFn.Some? && errorFn.value(p.cause).Fulfilled? ==>
                r.0.promise == Fulfilled(Err(errorFn.value(p.cause).value))
      ensures p.Rejected? && errorFn.Some? && errorFn.value(p.cause).Rejected? ==>
                r.0.promise == Rejected(errorFn.value(p.cause).cause)
      ensures p.Rejected? && errorFn.None? ==> r.0.promise == Rejected(p.cause)
      ensures errorFn.Some? ==> r.1 == log
      ensures errorFn.None? ==> r.1 == log + [FromPromiseWarning]
    {
      var newPromise := p.Then(v => Fulfilled(Ok(v)), None);
      if errorFn.Some? then
        // a throw from the translator inside `catch` rejects the new promise
        (ResultAsync(newPromise.Catch(c => errorFn.value(c).Then(e => Fulfilled(Err(e)), None))), log)
      else
        (ResultAsync(newPromise), log + [FromPromiseWarning])
    }

    /** Transforms a success with `f`, awaiting `f`'s result. */
    function Map<A>(f: T -> Settled<A>): (r: ResultAsync<A, E>)
      ensures promise.Rejected? ==> r.promise == Rejected(promise.cause)
      ensures promise.Fulfilled? && promise.value.IsErr() ==>
                r.promise == Fulfilled(Err(promise.value.error))
      ensures promise.Fulfilled? && promise.value.IsOk() && f(promise.value.value).Fulfilled? ==>
                r.promise == Fulfilled(Ok(f(promise.value.value).value))
      ensures promise.Fulfilled? && promise.value.IsOk() && f(promise.value.value).Rejected? ==>
                r.promise == Rejected(f(promise.value.value).cause)
    {
      ResultAsync(promise.Then(
        (res: Result<T, E>) =>
          if res.IsErr() then Fulfilled(Err(res.error))
          else f(res.value).Then(a => Fulfilled(Ok(a)), None),
        None))
    }

    /** Transforms a failure with `f`, awaiting `f`'s result. */
    function MapErr<U>(f: E -> Settled<U>): (r: ResultAsync<T, U>)
      ensures promise.Rejected? ==> r.promise == Rejected(promise.cause)
      ensures promise.Fulfilled? && promise.value.IsOk() ==>
                r.promise == Fulfilled(Ok(promise.value.value))
      ensures promise.Fulfilled? && promise.value.IsErr() && f(promise.value.error).Fulfilled? ==>
                r.promise == Fulfilled(Err(f(promise.value.error).value))
      ensures promise.Fulfilled? && promise.value.IsErr() && f(promise.value.error).Rejected? ==>
                r.promise == Rejected(f(promise.value.error).cause)
    {
      ResultAsync(promise.Then(
        (res: Result<T, E>) =>
          if res.IsOk() then Fulfilled(Ok(res.value))
          else f(res.error).Then(u => Fulfilled(Err(u)), None),
        None))
    }

    /** Sequences a fallible step: on success the outcome is the
        callback's own, flattened. */
    function AndThen<U>(f: T -> Continuation<U, E>): (r: ResultAsync<U, E>)
      ensures promise.Rejected? ==> r.promise == Rejected(promise.cause)
      ensures promise.Fulfilled? && promise.value.IsErr() ==>
                r.promise == Fulfilled(Err(promise.value.error))
      ensures promise.Fulfilled? && promise.value.IsOk() ==>
                match f(promise.value.value)
                case Plain(res) => r.promise == Fulfilled(res)
                case Async(w) => r == w
                case Thrown(c) => r.promise == Rejected(c)
    {
      ResultAsync(promise.Then(
        (res: Result<T, E>) =>
          if res.IsErr() then Fulfilled(Err(res.error))
          else f(res.value).Direct(),
        None))
    }

    /** Recovers from a failure: on `Err` the outcome is the callback's
        own, flattened. */
    function OrElse<A>(f: E -> Continuation<T, A>): (r: ResultAsync<T, A>)
      ensures promise.Rejected? ==> r.promise == Rejected(promise.cause)
      ensures promise.Fulfilled? && promise.value.IsOk() ==>
                r.promise == Fulfilled(Ok(promise.value.value))
      ensures promise.Fulfilled? && promise.value.IsErr() ==>
                match f(promise.value.error)
                case Plain(res) => r.promise == Fulfilled(res)
                case Async(w) => r == w
                case Thrown(c) => r.promise == Rejected(c)
    {
      assert promise.Fulfilled? && promise.value.IsOk() ==> !promise.value.IsErr();
      ResultAsync(promise.Then(
        (res: Result<T, E>) =>
          if res.IsErr() then f(res.error).Adopted()
          else Fulfilled(Ok(res.value)),
        None))
    }

    /** Collapses the two variants into one deferred value through exactly
        one of the callbacks. */
    function Match<A>(onOk: T -> Settled<A>, onErr: E -> Settled<A>): (r: Settled<A>)
      ensures promise.Rejected? ==> r == Rejected(promise.cause)
      ensures promise.Fulfilled? && promise.value.IsOk() ==> r == onOk(promise.value.value)
      ensures promise.Fulfilled? && promise.value.IsErr() ==> r == onErr(promise.value.error)
    {
      promise.Then((res: Result<T, E>) => res.Match(onOk, onErr), None)
    }

    /** The success payload, or `default`; never the failure payload. */
    function UnwrapOr(default: T): (r: Settled<T>)
      ensures promise.Rejected? ==> r == Rejected(promise.cause)
      ensures promise.Fulfilled? && promise.value.IsOk() ==> r == Fulfilled(promise.value.value)
      ensures promise.Fulfilled? && promise.value.IsErr() ==> r == Fulfilled(default)
    {
      promise.Then((res: Result<T, E>) => Fulfilled(res.UnwrapOr(default)), None)
    }

    /** The thenable protocol: the success callback receives the `Result`
        itself, not its payload; the failure callback sees only a
        rejection of the wrapped promise. */
    function Then<A>(onSettled: Result<T, E> -> Settled<A>, onRejected: Option<Cause -> Settled<A>>)
      : (r: Settled<A>)
      ensures promise.Fulfilled? ==> r == onSettled(promise.value)
      ensures promise.Rejected? && onRejected.Some? ==> r == onRejected.value(promise.cause)
      ensures promise.Rejected? && onRejected.None? ==> r == Rejected(promise.cause)
    {
      promise.Then(onSettled, onRejected)
    }
  }

  /** A wrapper already settled to `Ok(value)`; it never rejects. */
  function OkAsync<T, E>(value: T): (r: ResultAsync<T, E>)
    ensures !r.promise.Rejected? && r.promise.value.IsOk() && r.promise.value.value == value
  {
    ResultAsync(Fulfilled(Ok(value)))
  }

  /** A wrapper already settled to `Err(error)`; it never rejects. */
  function ErrAsync<T, E>(error: E): (r: ResultAsync<T, E>)
    ensures !r.promise.Rejected? && r.promise.value.IsErr() && r.promise.value.error == error
  {
    ResultAsync(Fulfilled(Err(error)))
  }
}
