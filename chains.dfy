/** A pipeline is a chain of combinator calls on one lineage,
    `w.map(f).andThen(g).orElse(h)…`. Each stage starts from the settled
    outcome of the one before, so the chain is a left fold of the stages
    over the starting wrapper, in chain order. Stages here keep the
    success and failure types fixed, so that a chain can be a sequence. */
module Chains {
  import opened Results
  import opened Promises
  import opened AsyncResults

  datatype Stage<!T, !E> =
    | MapStage(onValue: T -> Settled<T>)
    | MapErrStage(onError: E -> Settled<E>)
    | AndThenStage(next: T -> Continuation<T, E>)
    | OrElseStage(recover: E -> Continuation<T, E>)
  {
    /** Stages that act only on a success (`map`, `andThen`). */
    predicate OnSuccess() {
      MapStage? || AndThenStage?
    }

    /** Stages that act only on a failure (`mapErr`, `orElse`). */
    predicate OnFailure()
      ensures OnFailure() <==> !OnSuccess()
    {
      MapErrStage? || OrElseStage?
    }
  }

  /** One combinator call. */
  function Apply<T, E>(w: ResultAsync<T, E>, s: Stage<T, E>): ResultAsync<T, E> {
    match s
    case MapStage(f) => w.Map(f)
    case MapErrStage(f) => w.MapErr(f)
    case AndThenStage(f) => w.AndThen(f)
    case OrElseStage(f) => w.OrElse(f)
  }

  /** The whole chain, stage after stage. An untranslated rejection of the
      starting wrapper comes out of the chain untouched. */
  function Run<T, E>(w: ResultAsync<T, E>, stages: seq<Stage<T, E>>): (r: ResultAsync<T, E>)
    ensures w.promise.Rejected? ==> r == w
    decreases |stages|
  {
    if stages == [] then w else Run(Apply(w, stages[0]), stages[1..])
  }

  /** Splitting a pipeline into two halves and running them one after the
      other does not change its outcome. */
  lemma {:induction false} RunConcat<T, E>(w: ResultAsync<T, E>, first: seq<Stage<T, E>>, second: seq<Stage<T, E>>)
    ensures Run(w, first + second) == Run(Run(w, first), second)
    decreases |first|
  {
    if first == [] {
      assert first + second == second;
    } else {
      assert (first + second)[0] == first[0];
      assert (first + second)[1..] == first[1..] + second;
      RunConcat(Apply(w, first[0]), first[1..], second);
    }
  }

  /** Short-circuiting over a whole chain: an `Err(e)` skips every `map`
      and `andThen` stage, whatever their callbacks. */
  lemma {:induction false} ErrSkipsSuccessStages<T, E>(e: E, stages: seq<Stage<T, E>>)
    requires forall i :: 0 <= i < |stages| ==> stages[i].OnSuccess()
    ensures Run(ErrAsync(e), stages) == ErrAsync(e)
    decreases |stages|
  {
    if stages != [] {
      ErrSkipsSuccessStages(e, stages[1..]);
    }
  }

  /** The mirror: an `Ok(v)` skips every `mapErr` and `orElse` stage. */
  lemma {:induction false} OkSkipsFailureStages<T, E>(v: T, stages: seq<Stage<T, E>>)
    requires forall i :: 0 <= i < |stages| ==> stages[i].OnFailure()
    ensures Run(OkAsync(v), stages) == OkAsync(v)
    decreases |stages|
  {
    if stages != [] {
      OkSkipsFailureStages(v, stages[1..]);
    }
  }

  /** A chain whose every stage keeps its outcome settled (no callback
      throws or rejects) started from a settled `Result` ends in a settled
      `Result`: nothing but an untranslated rejection makes a chain reject. */
  ghost predicate NeverRejects<T(!new), E(!new)>(s: Stage<T, E>) {
    match s
    case MapStage(f) => forall v :: f(v).Fulfilled?
    case MapErrStage(f) => forall e :: f(e).Fulfilled?
    case AndThenStage(f) => forall v :: !f(v).Thrown? && (f(v).Async? ==> f(v).wrapper.promise.Fulfilled?)
    case OrElseStage(f) => forall e :: !f(e).Thrown? && (f(e).Async? ==> f(e).wrapper.promise.Fulfilled?)
  }

  lemma {:induction false} SettledChainStaysSettled<T(!new), E(!new)>(w: ResultAsync<T, E>, stages: seq<Stage<T, E>>)
    requires w.promise.Fulfilled?
    requires forall i :: 0 <= i < |stages| ==> NeverRejects(stages[i])
    ensures Run(w, stages).promise.Fulfilled?
    decreases |stages|
  {
    if stages != [] {
      assert NeverRejects(stages[0]);
      var next := Apply(w, stages[0]);
      assert next.promise.Fulfilled? by {
        match stages[0]
        case MapStage(f) =>
        case MapErrStage(f) =>
        case AndThenStage(f) =>
          if w.promise.value.IsOk() { assert !f(w.promise.value.value).Thrown?; }
        case OrElseStage(f) =>
          if w.promise.value.IsErr() { assert !f(w.promise.value.error).Thrown?; }
      }
      SettledChainStaysSettled(next, stages[1..]);
    }
  }
}
