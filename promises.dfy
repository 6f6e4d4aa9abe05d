/** A deferred computation, observed only once it has settled.
    Scheduling and timing are not modelled: a promise is its final outcome,
    and a chain of `then` calls is function composition on outcomes. */
module Promises {
  import opened Results

  /** The reason a promise was rejected (an arbitrary thrown value,
      represented by the message it carries). */
  datatype Cause = Cause(message: string)

  /** The settled outcome of a promise of a `V`. A callback that returns a
      plain value, returns a promise, or throws is also described by a
      `Settled`: a throw is a rejection. */
  datatype Settled<V> = Fulfilled(value: V) | Rejected(cause: Cause) {

    /** `promise.then(onFulfilled, onRejected)` on a settled promise: a
        fulfilled value goes to `onFulfilled`; a rejection goes to
        `onRejected` when one is given and passes through otherwise. */
    function Then<A>(onFulfilled: V -> Settled<A>, onRejected: Option<Cause -> Settled<A>>): Settled<A> {
      match this
      case Fulfilled(v) => onFulfilled(v)
      case Rejected(c) => if onRejected.Some? then onRejected.value(c) else Rejected(c)
    }

    /** `promise.catch(onRejected)`: the fulfilled value passes through. */
    function Catch(onRejected: Cause -> Settled<V>): Settled<V> {
      Then(v => Fulfilled(v), Some(onRejected))
    }
  }
}
