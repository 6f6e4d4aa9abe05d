/** Properties of `ResultAsync` that relate several calls: short-circuiting
    (the skipped callback cannot influence the outcome), pass-through of
    untranslated rejections, flattening, the functor and monad laws, the
    `fromPromise` boundary rule and the consumers. */
module AsyncResultLaws {
  import opened Results
  import opened Promises
  import opened AsyncResults

  // ---------------------------------------------------------------------
  // Construction

  /** `okAsync` and `errAsync` never reject, and their outcomes are told
      apart by every consumer. */
  lemma OkAsyncErrAsyncSettle<T, E>(v: T, e: E, d: T)
    ensures OkAsync<T, E>(v).UnwrapOr(d) == Fulfilled(v)
    ensures ErrAsync<T, E>(e).UnwrapOr(d) == Fulfilled(d)
    ensures !OkAsync<T, E>(v).promise.Rejected? && !ErrAsync<T, E>(e).promise.Rejected?
  {
  }

  /** With a translator that does not throw, the adapted wrapper never
      rejects, whatever the source promise does, and the log is untouched. */
  lemma FromPromiseTranslatedNeverRejects<T, E>(p: Settled<T>, errorFn: Cause -> Settled<E>, log: seq<string>)
    requires forall c :: errorFn(c).Fulfilled?
    ensures ResultAsync<T, E>.FromPromise(p, Some(errorFn), log).0.promise.Fulfilled?
    ensures ResultAsync<T, E>.FromPromise(p, Some(errorFn), log).1 == log
  {
  }

  /** A fulfilled source promise is adopted as `Ok`, exactly as `okAsync`
      would build it, with or without a translator. */
  lemma FromPromiseFulfilledIsOkAsync<T, E>(v: T, errorFn: Option<Cause -> Settled<E>>, log: seq<string>)
    ensures ResultAsync<T, E>.FromPromise(Fulfilled(v), errorFn, log).0 == OkAsync(v)
  {
  }

  /** Without a translator, the warning is logged once, at call time: the
      log does not depend on how the source promise settles, and a
      rejection passes through untranslated. */
  lemma FromPromiseUntranslatedWarnsOnce<T, E>(p: Settled<T>, q: Settled<T>, log: seq<string>)
    ensures ResultAsync<T, E>.FromPromise(p, None, log).1
         == ResultAsync<T, E>.FromPromise(q, None, log).1
    ensures |ResultAsync<T, E>.FromPromise(p, None, log).1| == |log| + 1
    ensures p.Rejected? ==> ResultAsync<T, E>.FromPromise(p, None, log).0.promise.Rejected?
  {
  }

  // ---------------------------------------------------------------------
  // Short-circuiting: the skipped callback is never consulted

  lemma MapSkipsCallbackOnErr<T, E, A>(w: ResultAsync<T, E>, f: T -> Settled<A>, g: T -> Settled<A>)
    requires w.promise.Fulfilled? && w.promise.value.IsErr()
    ensures w.Map(f) == w.Map(g) == ErrAsync(w.promise.value.error)
  {
  }

  lemma MapErrSkipsCallbackOnOk<T, E, U>(w: ResultAsync<T, E>, f: E -> Settled<U>, g: E -> Settled<U>)
    requires w.promise.Fulfilled? && w.promise.value.IsOk()
    ensures w.MapErr(f) == w.MapErr(g) == OkAsync(w.promise.value.value)
  {
  }

  lemma AndThenSkipsCallbackOnErr<T, E, U>(w: ResultAsync<T, E>, f: T -> Continuation<U, E>, g: T -> Continuation<U, E>)
    requires w.promise.Fulfilled? && w.promise.value.IsErr()
    ensures w.AndThen(f) == w.AndThen(g) == ErrAsync(w.promise.value.error)
  {
  }

  lemma OrElseSkipsCallbackOnOk<T, E, A>(w: ResultAsync<T, E>, f: E -> Continuation<T, A>, g: E -> Continuation<T, A>)
    requires w.promise.Fulfilled? && w.promise.value.IsOk()
    ensures w.OrElse(f) == w.OrElse(g) == OkAsync(w.promise.value.value)
  {
  }

  /** No combinator catches an untranslated rejection: it reaches every
      consumer with the same cause, and no callback is consulted. */
  lemma RejectionPassesThrough<T, E, X>(
    w: ResultAsync<T, E>, f: T -> Settled<T>, g: E -> Settled<E>,
    k: T -> Continuation<T, E>, h: E -> Continuation<T, E>, d: T,
    onOk: T -> Settled<X>, onErr: E -> Settled<X>)
    requires w.promise.Rejected?
    ensures w.Map(f) == w.MapErr(g) == w.AndThen(k) == w.OrElse(h) == w
    ensures w.UnwrapOr(d) == Rejected(w.promise.cause)
    ensures w.Match(onOk, onErr) == Rejected(w.promise.cause)
  {
  }

  // ---------------------------------------------------------------------
  // Functor laws for map and mapErr

  lemma MapIdentity<T, E>(w: ResultAsync<T, E>)
    ensures w.Map(v => Fulfilled(v)) == w
  {
  }

  /** Two maps in a row are one map through the composed (awaited)
      callbacks. */
  lemma MapComposition<T, E, A, B>(w: ResultAsync<T, E>, f: T -> Settled<A>, g: A -> Settled<B>)
    ensures w.Map(f).Map(g) == w.Map(v => f(v).Then(g, None))
  {
  }

  lemma MapErrIdentity<T, E>(w: ResultAsync<T, E>)
    ensures w.MapErr(e => Fulfilled(e)) == w
  {
  }

  lemma MapErrComposition<T, E, U, V>(w: ResultAsync<T, E>, f: E -> Settled<U>, g: U -> Settled<V>)
    ensures w.MapErr(f).MapErr(g) == w.MapErr(e => f(e).Then(g, None))
  {
  }

  // ---------------------------------------------------------------------
  // Monad laws and flattening for andThen

  /** `okAsync(v).andThen(f)` settles exactly as `f(v)` does. */
  lemma AndThenLeftIdentity<T, E, U>(v: T, f: T -> Continuation<U, E>)
    ensures OkAsync<T, E>(v).AndThen(f).promise == f(v).Direct()
  {
  }

  /** `r.andThen(okAsync) == r`, and likewise with a plain `Ok`. */
  lemma AndThenRightIdentity<T, E>(w: ResultAsync<T, E>)
    ensures w.AndThen(v => Async(OkAsync(v))) == w
    ensures w.AndThen(v => Plain(Ok(v))) == w
  {
  }

  lemma AndThenAssociative<T, E, U, V>(w: ResultAsync<T, E>, f: T -> Continuation<U, E>, g: U -> Continuation<V, E>)
    ensures w.AndThen(f).AndThen(g) == w.AndThen(v => Async(ResultAsync(f(v).Direct()).AndThen(g)))
  {
  }

  /** Flattening: a callback that hands back a wrapper settled to `Err(x)`
      yields `Err(x)` itself, not a result nested in a result. */
  lemma AndThenFlattens<T, E, U>(v: T, f: T -> Continuation<U, E>, x: E)
    requires f(v) == Async(ErrAsync(x))
    ensures OkAsync<T, E>(v).AndThen(f) == ErrAsync(x)
  {
  }

  /** `map` is `andThen` with a callback that always succeeds into `Ok`. */
  lemma MapIsAndThen<T, E, A>(w: ResultAsync<T, E>, f: T -> Settled<A>)
    ensures w.Map(f) == w.AndThen(v => Async(ResultAsync(f(v).Then(a => Fulfilled(Ok(a)), None))))
  {
  }

  // ---------------------------------------------------------------------
  // The mirror laws for orElse

  lemma OrElseLeftIdentity<T, E, A>(e: E, f: E -> Continuation<T, A>)
    ensures ErrAsync<T, E>(e).OrElse(f).promise == f(e).Direct()
  {
  }

  lemma OrElseRightIdentity<T, E>(w: ResultAsync<T, E>)
    ensures w.OrElse(e => Async(ErrAsync(e))) == w
    ensures w.OrElse(e => Plain(Err(e))) == w
  {
  }

  lemma OrElseAssociative<T, E, A, B>(w: ResultAsync<T, E>, f: E -> Continuation<T, A>, g: A -> Continuation<T, B>)
    ensures w.OrElse(f).OrElse(g) == w.OrElse(e => Async(ResultAsync(f(e).Direct()).OrElse(g)))
  {
  }

  lemma OrElseFlattens<T, E, A>(e: E, f: E -> Continuation<T, A>, v: T)
    requires f(e) == Async(OkAsync(v))
    ensures ErrAsync<T, E>(e).OrElse(f) == OkAsync(v)
  {
  }

  /** `mapErr` is `orElse` with a callback that always fails into `Err`. */
  lemma MapErrIsOrElse<T, E, U>(w: ResultAsync<T, E>, f: E -> Settled<U>)
    ensures w.MapErr(f) == w.OrElse(e => Async(ResultAsync(f(e).Then(u => Fulfilled(Err(u)), None))))
  {
  }

  // ---------------------------------------------------------------------
  // Consumers

  /** Awaiting the wrapper yields the `Result` itself; it rejects only when
      the wrapped promise does. */
  lemma AwaitYieldsResult<T, E>(w: ResultAsync<T, E>)
    ensures w.Then(res => Fulfilled(res), Some((c: Cause) => Rejected(c))) == w.promise
  {
  }

  /** `unwrapOr(d)` is `match` with the identity on success and the
      constant `d` on failure. */
  lemma UnwrapOrIsMatch<T, E>(w: ResultAsync<T, E>, d: T)
    ensures w.UnwrapOr(d) == w.Match(v => Fulfilled(v), (_: E) => Fulfilled(d))
  {
  }

  /** `match` consults only the callback of the variant it settled to. */
  lemma MatchUsesOneCallback<T, E, A>(w: ResultAsync<T, E>, onOk: T -> Settled<A>, onOk': T -> Settled<A>,
                                      onErr: E -> Settled<A>, onErr': E -> Settled<A>)
    ensures w.promise.Fulfilled? && w.promise.value.IsOk() ==> w.Match(onOk, onErr) == w.Match(onOk, onErr')
    ensures w.promise.Fulfilled? && w.promise.value.IsErr() ==> w.Match(onOk, onErr) == w.Match(onOk', onErr)
  {
  }
}
