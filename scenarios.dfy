/** Concrete pipelines, stated on particular values. */
module Scenarios {
  import opened Results
  import opened Promises
  import opened AsyncResults

  /** `okAsync(1).map(v => v + 1).andThen(v => v == 2 ? Ok(v * 10) : Err("bad"))`
      collapses through `match` to 20. */
  lemma ChainInOrder()
    ensures OkAsync<int, string>(1)
              .Map(v => Fulfilled(v + 1))
              .AndThen(v => if v == 2 then Plain(Ok(v * 10)) else Plain(Err("bad")))
              .Match(v => Fulfilled(v), (_: string) => Fulfilled(-1))
            == Fulfilled(20)
  {
  }

  lemma UnwrapOrExamples()
    ensures OkAsync<int, string>(5).UnwrapOr(0) == Fulfilled(5)
    ensures ErrAsync<int, string>("x").UnwrapOr(0) == Fulfilled(0)
  {
  }

  lemma MatchExamples()
    ensures OkAsync<int, string>(5).Match(v => Fulfilled(v + 1), (_: string) => Fulfilled(-1)) == Fulfilled(6)
    ensures ErrAsync<int, string>("x").Match((_: int) => Fulfilled(0), e => Fulfilled(|e|)) == Fulfilled(1)
  {
  }

  /** A rejection with cause `c`, translated by `c => c.message`, settles
      to `Err(c.message)`; a fulfilled 5 without a translator settles to
      `Ok(5)` and logs exactly one warning. */
  lemma FromPromiseExamples(c: Cause)
    ensures ResultAsync<int, string>.FromPromise(Rejected(c), Some((x: Cause) => Fulfilled(x.message)), []).0
            == ErrAsync(c.message)
    ensures ResultAsync<int, string>.FromPromise(Fulfilled(5), None, []).0 == OkAsync(5)
    ensures ResultAsync<int, string>.FromPromise(Fulfilled(5), None, []).1 == [FromPromiseWarning]
  {
    assert [] + [FromPromiseWarning] == [FromPromiseWarning];
  }

  /** A wrapper handed back from `andThen` that settles to `Err(x)` is
      adopted, not nested. */
  lemma FlattenedErr(x: string)
    ensures OkAsync<int, string>(1).AndThen((_: int) => Async(ErrAsync<int, string>(x)))
              .Then(res => Fulfilled(res), None)
            == Fulfilled(Err(x))
  {
  }
}
