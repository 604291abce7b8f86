/** The concrete scenarios of the EitherAsync suite, each stated with its
    exact expected result. */
module EitherAsyncExamples {
  import opened Js
  import opened Either
  import opened Maybe
  import opened AsyncBody
  import opened EitherAsync
  import EA = EitherAsync

  /** `async ({ liftEither, throwE }) => { const value = await liftEither(Right(5));
      throwE('Test'); return value }` */
  lemma ThrowEExample()
    ensures Run(Of([Lift("value", Right(Num(5))), ThrowE(Str("Test")), Return(Var("value"))])) == Left(Str("Test"))
  {
    var pre := [Lift("value", Right(Num(5)))];
    assert [Lift("value", Right(Num(5))), ThrowE(Str("Test")), Return(Var("value"))]
      == pre + [ThrowE(Str("Test"))] + [Return(Var("value"))];
    ThrowEStopsBody(pre, Str("Test"), [Return(Var("value"))]);
  }

  /** `try { await fromPromise(Promise.reject('shouldnt show')) } catch { throwE('should show') }` */
  lemma TryCatchExample()
    ensures Run(Of([Try([AsyncBody.FromPromise("_", Rejected(Str("shouldnt show")))], [ThrowE(Str("should show"))])]))
      == Left(Str("should show"))
  {
    var b := [Try([AsyncBody.FromPromise("_", Rejected(Str("shouldnt show")))], [ThrowE(Str("should show"))])];
    assert b == b + [];
    HandlerThrowEDecides("_", Str("shouldnt show"), Str("should show"), []);
  }

  /** `() => { throw 'Err' }` runs to `Left('Err')`; `async () => 'A'` runs to `Right('A')`. */
  lemma PromiseCompatibilityExample()
    ensures Run(Of([Throw(Str("Err"))])) == Left(Str("Err"))
    ensures Run(Of([Return(Lit(Str("A")))])) == Right(Str("A"))
  {
  }

  /** `EitherAsync(() => Promise.resolve(5))` */
  function ResolvesFive(): (ea: EitherAsync)
    ensures Run(ea) == Right(Num(5))
  {
    Of([Return(Lit(Num(5)))])
  }

  /** `EitherAsync(() => Promise.reject(x))` */
  function RejectsWith(x: Value): (ea: EitherAsync)
    ensures Run(ea) == Left(x)
  {
    Of([Await("value", Rejected(x)), Return(Var("value"))])
  }

  /** JavaScript `x + 1`, for the numbers the scenarios apply it to. */
  function PlusOne(x: Value): (r: Value)
    ensures x.Num? ==> r.Num? && r.n == x.n + 1
  {
    if x.Num? then Num(x.n + 1) else x
  }

  lemma MapExample()
    ensures Run(EA.Map(ResolvesFive(), _ => Str("val"))) == Right(Str("val"))
  {
  }

  lemma MapLeftExample()
    ensures Run(EA.MapLeft(RejectsWith(Num(0)), PlusOne)) == Left(Num(1))
    ensures Run(EA.MapLeft(Of([Return(Lit(Num(0)))]), PlusOne)) == Right(Num(0))
  {
  }

  lemma ChainExample()
    ensures Run(EA.Chain(ResolvesFive(), _ => Deferred([Return(Lit(Str("val")))]))) == Right(Str("val"))
    ensures Run(EA.Chain(ResolvesFive(), _ => Settled(Resolved(Right(Str("val")))))) == Right(Str("val"))
  {
  }

  lemma ChainLeftExample()
    ensures Run(EA.ChainLeft(ResolvesFive(), _ => Deferred([Return(Lit(Num(7)))]))) == Right(Num(5))
    ensures Run(EA.ChainLeft(RejectsWith(Num(5)), e => Deferred([Return(Lit(PlusOne(e)))]))) == Right(Num(6))
    ensures Run(EA.ChainLeft(ResolvesFive(), _ => Settled(Resolved(Right(Num(7)))))) == Right(Num(5))
    ensures Run(EA.ChainLeft(RejectsWith(Num(5)), e => Settled(Resolved(Right(PlusOne(e)))))) == Right(Num(6))
  {
  }

  lemma ToMaybeAsyncExample()
    ensures RunMaybe(ToMaybeAsync(Of([Lift("value", Left(Str("123"))), Return(Var("value"))]))) == Nothing
    ensures RunMaybe(ToMaybeAsync(Of([Lift("value", Right(Num(5))), Return(Var("value"))]))) == Just(Num(5))
  {
    LiftEitherRuns(Left(Str("123")));
    LiftEitherRuns(Right(Num(5)));
  }

  lemma SwapExample()
    ensures Run(EA.Swap(ResolvesFive())) == Left(Num(5))
    ensures Run(EA.Swap(RejectsWith(Str("fail")))) == Right(Str("fail"))
  {
  }

  /** The four `run` scenarios: `fromPromise` of a resolved `Left`, of a rejection,
      a thrown `Error`, and `fromPromise` of a resolved `Right`. */
  lemma RunExample()
    ensures Run(EA.FromPromise(Resolved(Left(Str("Error"))))) == Left(Str("Error"))
    ensures Run(EA.FromPromise(Rejected(Str("Some error")))) == Left(Str("Some error"))
    ensures Run(Of([Throw(Error("Error", "!"))])) == Left(Error("Error", "!"))
    ensures Run(EA.FromPromise(Resolved(Right(Num(5))))) == Right(Num(5))
  {
  }

  lemma StaticsExample()
    ensures Run(EA.FromPromise(Resolved(Right(Num(5))))) == Right(Num(5))
    ensures Run(EA.FromPromise(Rejected(Num(5)))) == Left(Num(5))
    ensures Run(LiftPromise(Resolved(Num(5)))) == Right(Num(5))
    ensures Run(LiftPromise(Rejected(Num(5)))) == Left(Num(5))
    ensures Run(LiftEither(Right(Num(5)))) == Right(Num(5))
    ensures Run(LiftEither(Left(Num(5)))) == Left(Num(5))
  {
  }
}
