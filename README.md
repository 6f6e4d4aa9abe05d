# ResultAsync: a deferred, failure-aware result

This project models `ResultAsync<T, E>` from neverthrow's
`src/result-async.ts`. A `ResultAsync` wraps a promise of a synchronous
`Result<T, E>`, which is either `Ok(value)` or `Err(error)`. Its combinators
(`map`, `mapErr`, `andThen`, `orElse`) each build a new wrapper from the
settled outcome of the one before. Its consumers (`match`, `unwrapOr` and
the thenable `then`) collapse it into a plain promise. `fromPromise`
adapts a promise that may reject: with a translator `errorFn`, a rejection
becomes an `Err`. Without one, the rejection is left alone and one
warning is logged at call time. `okAsync` and `errAsync` build wrappers
that are already settled.

How it is modelled:

- `Promises.Settled<V>` is a settled promise: `Fulfilled(value)` or
  `Rejected(cause)`. `Settled.Then` is `promise.then` on a settled promise.
  Every combinator is written, as in the source, as a `Then` on the
  wrapped promise. Scheduling is not modelled, so chain order is
  function composition.
- `Results.Result<T, E>` is the synchronous result with `IsOk`, `IsErr`,
  `Match` and `UnwrapOr`. Its source file (`src/index`) is not part of
  this model; the members are defined in the obvious way.
- `AsyncResults.ResultAsync` is a datatype with one field, `promise`. The
  source writes that field once, in the constructor, and never changes it,
  so the datatype's constructor models the class constructor
  (`src/result-async.ts:7-9`).
- A callback of `map`, `mapErr`, `match` or `then` returns a `Settled`.
  A plain value and an awaited promise that fulfils are both `Fulfilled`;
  a throw and a rejecting promise are both `Rejected`.
- A callback of `andThen` or `orElse` returns a `Continuation`: a plain
  `Result`, a `ResultAsync`, or a throw. `andThen` takes a wrapper's
  promise directly (the `instanceof` check, `Continuation.Direct`).
  `orElse` returns the wrapper from an async function, so the wrapper is
  adopted through its own `then` (`Continuation.Adopted`). The two are
  proved to agree.
- `fromPromise` takes the log and returns the new log along with the
  wrapper. The warning sink appends one string.
- `Chains` models a pipeline `w.map(f).andThen(g)…` of any length as a
  sequence of stages folded left over the starting wrapper.

A `ResultAsync` is meant to hold a promise that never rejects, but the
code does not enforce this. `fromPromise` without a translator leaves a
rejection in the wrapped promise (src/result-async.ts:15-22). So does any
callback that throws or rejects (lines 34, 46, 58 and 69). The model
follows the code: `Rejected` is a real outcome of every wrapper, and the
lemmas show that no combinator catches it.

## Model

| member | source | states |
|---|---|---|
| `AsyncResults.ResultAsync.FromPromise` | src/result-async.ts:11-25 | a fulfilled value becomes `Ok(v)`; with a translator, a rejection with cause `c` becomes `Err(errorFn(c))`, or the translator's own throw, and the log is unchanged; without one, the rejection passes through as `Rejected(c)` and exactly one warning is appended |
| `AsyncResults.ResultAsync.Map` | src/result-async.ts:27-37 | a rejection passes through; `Err(e)` stays `Err(e)` with the same `e`; `Ok(v)` becomes `Ok(a)` when `f(v)` settles to `a`, and rejects with `f(v)`'s cause when it rejects |
| `AsyncResults.ResultAsync.MapErr` | src/result-async.ts:39-49 | the mirror of `Map`: `Ok(v)` stays `Ok(v)`; `Err(e)` becomes `Err(u)` for `f(e)`'s settled `u`, or `f(e)`'s rejection; a rejection passes through |
| `AsyncResults.ResultAsync.AndThen` | src/result-async.ts:51-63 | `Err(e)` stays `Err(e)`; on `Ok(v)` the new wrapper is `f(v)`'s own when `f` returns a wrapper, settles to `f(v)`'s `Result` when it returns a plain one, and rejects when `f` throws; a rejection passes through |
| `AsyncResults.ResultAsync.OrElse` | src/result-async.ts:65-75 | `Ok(v)` stays `Ok(v)`; on `Err(e)` the new wrapper is `f(e)`'s own, or `f(e)`'s plain `Result`, or a rejection if `f` throws; a rejection passes through |
| `AsyncResults.Continuation.Adopted` | src/result-async.ts:67-69 | a wrapper returned from `orElse`'s async callback and adopted through the wrapper's `then` settles exactly as taking its promise directly, as `andThen` does at line 60 |
| `AsyncResults.ResultAsync.Match` | src/result-async.ts:77-79 | `Ok(v)` gives `onOk(v)`, `Err(e)` gives `onErr(e)`, a rejection passes through |
| `AsyncResults.ResultAsync.UnwrapOr` | src/result-async.ts:81-83 | `Ok(v)` gives `v`, `Err` gives the default, a rejection passes through |
| `AsyncResults.ResultAsync.Then` | src/result-async.ts:85-91 | the success callback receives the `Result` itself; the failure callback sees only a rejection of the wrapped promise; with no failure callback the rejection passes through |
| `AsyncResults.OkAsync` | src/result-async.ts:94-95 | `okAsync(v)` settles to `Ok(v)` and never rejects |
| `AsyncResults.ErrAsync` | src/result-async.ts:97-98 | `errAsync(e)` settles to `Err(e)` and never rejects |
| `AsyncResultLaws.OkAsyncErrAsyncSettle` | src/result-async.ts:94-98 | neither `okAsync` nor `errAsync` rejects; `unwrapOr` tells them apart |
| `AsyncResultLaws.FromPromiseTranslatedNeverRejects` | src/result-async.ts:13-14 | with a translator that does not throw, the adapted wrapper never rejects and nothing is logged |
| `AsyncResultLaws.FromPromiseFulfilledIsOkAsync` | src/result-async.ts:12 | a fulfilled source promise gives the same wrapper as `okAsync(v)`, with or without a translator |
| `AsyncResultLaws.FromPromiseUntranslatedWarnsOnce` | src/result-async.ts:15-22 | without a translator the log grows by exactly one entry, the same whatever the source promise settles to (the warning is logged at call time), and a rejection stays a rejection |
| `AsyncResultLaws.MapSkipsCallbackOnErr` | src/result-async.ts:30-32 | on `Err(e)`, `map` gives `errAsync(e)` whatever callback it is given |
| `AsyncResultLaws.MapErrSkipsCallbackOnOk` | src/result-async.ts:42-44 | on `Ok(v)`, `mapErr` gives `okAsync(v)` whatever callback it is given |
| `AsyncResultLaws.AndThenSkipsCallbackOnErr` | src/result-async.ts:54-56 | on `Err(e)`, `andThen` gives `errAsync(e)` whatever callback it is given |
| `AsyncResultLaws.OrElseSkipsCallbackOnOk` | src/result-async.ts:68-72 | on `Ok(v)`, `orElse` gives `okAsync(v)` whatever callback it is given |
| `AsyncResultLaws.RejectionPassesThrough` | src/result-async.ts:29-90 | a rejected wrapper is returned unchanged by `map`, `mapErr`, `andThen` and `orElse`, and `unwrapOr` and `match` reject with the same cause |
| `AsyncResultLaws.MapIdentity` | src/result-async.ts:27-37 | mapping with the identity gives back the same wrapper |
| `AsyncResultLaws.MapComposition` | src/result-async.ts:27-37 | two `map` calls equal one `map` through the composed, awaited callbacks |
| `AsyncResultLaws.MapErrIdentity` | src/result-async.ts:39-49 | `mapErr` with the identity gives back the same wrapper |
| `AsyncResultLaws.MapErrComposition` | src/result-async.ts:39-49 | two `mapErr` calls equal one through the composed callbacks |
| `AsyncResultLaws.AndThenLeftIdentity` | src/result-async.ts:51-63 | `okAsync(v).andThen(f)` settles exactly as `f(v)` |
| `AsyncResultLaws.AndThenRightIdentity` | src/result-async.ts:51-63 | `r.andThen(okAsync)` and `r.andThen(Ok)` both equal `r` |
| `AsyncResultLaws.AndThenAssociative` | src/result-async.ts:51-63 | `r.andThen(f).andThen(g)` equals `r.andThen(v => f(v).andThen(g))` |
| `AsyncResultLaws.AndThenFlattens` | src/result-async.ts:58-60 | a callback returning a wrapper settled to `Err(x)` makes `andThen` give `errAsync(x)` itself, not a nested result |
| `AsyncResultLaws.MapIsAndThen` | src/result-async.ts:27-63 | `map(f)` equals `andThen` with a callback that wraps `f`'s settled value in `Ok` |
| `AsyncResultLaws.OrElseLeftIdentity` | src/result-async.ts:65-75 | `errAsync(e).orElse(f)` settles exactly as `f(e)` |
| `AsyncResultLaws.OrElseRightIdentity` | src/result-async.ts:65-75 | `r.orElse(errAsync)` and `r.orElse(Err)` both equal `r` |
| `AsyncResultLaws.OrElseAssociative` | src/result-async.ts:65-75 | `r.orElse(f).orElse(g)` equals `r.orElse(e => f(e).orElse(g))` |
| `AsyncResultLaws.OrElseFlattens` | src/result-async.ts:68-69 | a recovery callback returning a wrapper settled to `Ok(v)` makes `orElse` give `okAsync(v)` itself |
| `AsyncResultLaws.MapErrIsOrElse` | src/result-async.ts:39-75 | `mapErr(f)` equals `orElse` with a callback that wraps `f`'s settled value in `Err` |
| `AsyncResultLaws.AwaitYieldsResult` | src/result-async.ts:85-91 | awaiting the wrapper through `then(resolve, reject)` yields the wrapped `Result` itself, or the same rejection |
| `AsyncResultLaws.UnwrapOrIsMatch` | src/result-async.ts:77-83 | `unwrapOr(d)` equals `match` with the identity on success and the constant `d` on failure |
| `AsyncResultLaws.MatchUsesOneCallback` | src/result-async.ts:77-79 | `match` consults only the callback of the variant the wrapper settled to |
| `Chains.Run` | src/result-async.ts:27-75 | a chain of combinator calls returns a rejected starting wrapper unchanged, however long the chain |
| `Chains.RunConcat` | src/result-async.ts:27-75 | splitting a pipeline into two halves and running them one after the other does not change its outcome |
| `Chains.ErrSkipsSuccessStages` | src/result-async.ts:30-32 | `Err(e)` comes out of any chain of `map` and `andThen` calls as `Err(e)`, whatever their callbacks |
| `Chains.OkSkipsFailureStages` | src/result-async.ts:42-44 | `Ok(v)` comes out of any chain of `mapErr` and `orElse` calls as `Ok(v)`, whatever their callbacks |
| `Chains.SettledChainStaysSettled` | src/result-async.ts:27-75 | a chain whose callbacks never throw or reject, started from a settled `Result`, ends in a settled `Result` |
| `Scenarios.ChainInOrder` | src/result-async.ts:27-79 | `okAsync(1).map(v => v + 1).andThen(v => v == 2 ? Ok(v * 10) : Err("bad"))` collapses through `match` to 20 |
| `Scenarios.UnwrapOrExamples` | src/result-async.ts:81-83 | `okAsync(5).unwrapOr(0)` gives 5 and `errAsync("x").unwrapOr(0)` gives 0 |
| `Scenarios.MatchExamples` | src/result-async.ts:77-79 | `okAsync(5).match(v => v + 1, _ => -1)` gives 6 and `errAsync("x").match(_ => 0, e => e.length)` gives 1 |
| `Scenarios.FromPromiseExamples` | src/result-async.ts:11-25 | a rejection translated by `c => c.message` gives `Err(c.message)`; a fulfilled 5 without a translator gives `Ok(5)` and logs one warning |
| `Scenarios.FlattenedErr` | src/result-async.ts:58-60 | awaiting `okAsync(1).andThen(_ => errAsync(x))` yields `Err(x)` |

## Left out

- Promise scheduling, microtask order and timing. Only settled outcomes are modelled, and a pending wrapper has no representation.
- The text and internals of `logWarning`. The sink is modelled as appending the warning string to a log.
- The synchronous `Result`, `Ok` and `Err` classes. `src/index` is not part of this model; `Results.Result` gives them their obvious meaning.
- TypeScript generics, the `PromiseLike` protocol beyond `then`, and `instanceof` as a runtime check. The callback's kind of return value is the `Continuation` variant.
- A callback of `map` or `mapErr` whose value is itself a thenable, which `await` would also adopt. The model treats the returned value as the settled outcome.
- `AsyncResults.ResultAsync.Then`: the success callback is required. Leaving it out in the source passes the `Result` through, which is the callback `res => Fulfilled(res)`. The two callbacks return the same type `A`, where the source allows `A | B`.
- `Chains.Run`: a chain's stages keep the success and failure types fixed, so that a chain can be a sequence. Chains that change types are covered one call at a time by the laws.
- The cause of a rejection is any value in the source. Here it is a `Cause` carrying a message.
