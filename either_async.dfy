/** EitherAsync: a deferred computation that runs to an `Either`, its
    combinators, its static constructors, and its projection to MaybeAsync.
    Promises are abstracted to their settled state, so a callback that returns
    a promise of a value is the callback that returns that value. */
module EitherAsync {
  import opened Js
  import opened Either
  import E = Either
  import opened Maybe
  import opened AsyncBody

  /** A computation described by a body, or built from one by a combinator. */
  datatype EitherAsync =
    | Of(body: Block)
    | Mapped(source: EitherAsync, f: Value -> Value)
    | MappedLeft(source: EitherAsync, g: Value -> Value)
    | Chained(source: EitherAsync, k: Value -> Next)
    | ChainedLeft(source: EitherAsync, h: Value -> Next)
    | Swapped(source: EitherAsync)

  /** What a `chain`/`chainLeft` continuation returns: an EitherAsync described by
      a body, or a promise of an `Either`. */
  datatype Next = Deferred(body: Block) | Settled(promise: Promise<Either<Value, Value>>)

  /** `run`: the `Either` a computation resolves to. */
  function Run(ea: EitherAsync): (r: Either<Value, Value>)
    ensures ea.Of? ==> r == Execute(ea.body)
    ensures (ea.Mapped? || ea.Chained?) && Run(ea.source).Left? ==> r == Run(ea.source)
    ensures (ea.MappedLeft? || ea.ChainedLeft?) && Run(ea.source).Right? ==> r == Run(ea.source)
    ensures ea.Swapped? ==> (r.Left? <==> Run(ea.source).Right?)
  {
    match ea
    case Of(body) => Execute(body)
    case Mapped(src, f) => E.Map(Run(src), f)
    case MappedLeft(src, g) => E.MapLeft(Run(src), g)
    case Chained(src, k) => E.Chain(Run(src), (v: Value) => RunNext(k(v)))
    case ChainedLeft(src, h) => E.ChainLeft(Run(src), (e: Value) => RunNext(h(e)))
    case Swapped(src) => E.Swap(Run(src))
  }

  /** The outcome a continuation's result is adopted with; a rejected promise
      becomes a `Left` of its reason, as `fromPromise` makes it. */
  function RunNext(n: Next): (r: Either<Value, Value>)
    ensures n.Deferred? ==> r == Execute(n.body)
    ensures n.Settled? && n.promise.Resolved? ==> r == n.promise.value
    ensures n.Settled? && n.promise.Rejected? ==> r == Left(n.promise.reason)
  {
    match n
    case Deferred(body) => Execute(body)
    case Settled(Resolved(r)) => r
    case Settled(Rejected(reason)) => Left(reason)
  }

  /** `map(f)`: a `Right(v)` becomes `Right(f(v))`, a `Left` is unchanged. */
  function Map(ea: EitherAsync, f: Value -> Value): (r: EitherAsync)
    ensures Run(ea).Right? ==> Run(r) == Right(f(Run(ea).right))
    ensures Run(ea).Left? ==> Run(r) == Run(ea)
  {
    Mapped(ea, f)
  }

  /** `mapLeft(g)`: a `Left(e)` becomes `Left(g(e))`, a `Right` is unchanged. */
  function MapLeft(ea: EitherAsync, g: Value -> Value): (r: EitherAsync)
    ensures Run(ea).Left? ==> Run(r) == Left(g(Run(ea).left))
    ensures Run(ea).Right? ==> Run(r) == Run(ea)
  {
    MappedLeft(ea, g)
  }

  /** `chain(k)`: a `Right(v)` adopts the outcome of `k(v)`, a `Left` is unchanged. */
  function Chain(ea: EitherAsync, k: Value -> Next): (r: EitherAsync)
    ensures Run(ea).Right? ==> Run(r) == RunNext(k(Run(ea).right))
    ensures Run(ea).Left? ==> Run(r) == Run(ea)
  {
    Chained(ea, k)
  }

  /** `chainLeft(h)`: a `Left(e)` is recovered into the outcome of `h(e)`, a
      `Right` is unchanged. */
  function ChainLeft(ea: EitherAsync, h: Value -> Next): (r: EitherAsync)
    ensures Run(ea).Left? ==> Run(r) == RunNext(h(Run(ea).left))
    ensures Run(ea).Right? ==> Run(r) == Run(ea)
  {
    ChainedLeft(ea, h)
  }

  /** `swap()`: a `Right(v)` becomes `Left(v)` and a `Left(e)` becomes `Right(e)`. */
  function Swap(ea: EitherAsync): (r: EitherAsync)
    ensures Run(ea).Right? ==> Run(r) == Left(Run(ea).right)
    ensures Run(ea).Left? ==> Run(r) == Right(Run(ea).left)
  {
    Swapped(ea)
  }

  /** The MaybeAsync an EitherAsync projects to. */
  datatype MaybeAsync = FromEitherAsync(source: EitherAsync)

  /** `run` of a MaybeAsync: the failure payload is discarded. */
  function RunMaybe(ma: MaybeAsync): (m: Maybe<Value>)
    ensures m.Nothing? <==> Run(ma.source).Left?
    ensures Run(ma.source).Right? ==> m == Just(Run(ma.source).right)
  {
    ToMaybe(Run(ma.source))
  }

  /** `toMaybeAsync()`: a `Left` becomes `Nothing` and a `Right(v)` becomes `Just(v)`. */
  function ToMaybeAsync(ea: EitherAsync): (ma: MaybeAsync)
    ensures RunMaybe(ma) == Nothing <==> Run(ea).Left?
    ensures Run(ea).Right? ==> RunMaybe(ma) == Just(Run(ea).right)
  {
    FromEitherAsync(ea)
  }

  /** Static `liftEither(r)`: `({ liftEither }) => liftEither(r)`, which runs to `r`. */
  function LiftEither(r: Either<Value, Value>): (ea: EitherAsync)
    ensures Run(ea) == r
  {
    LiftEitherRuns(r);
    Of([Lift("value", r), Return(Var("value"))])
  }

  /** Static `fromPromise(() => p)`: `({ fromPromise }) => fromPromise(p)`; a resolved
      `Either` is the result, a rejection becomes `Left` of its reason. */
  function FromPromise(p: Promise<Either<Value, Value>>): (ea: EitherAsync)
    ensures p.Resolved? ==> Run(ea) == p.value
    ensures p.Rejected? ==> Run(ea) == Left(p.reason)
  {
    FromPromiseRuns(p);
    Of([AsyncBody.FromPromise("value", p), Return(Var("value"))])
  }

  /** Static `liftPromise(() => p)`: `() => p`; a resolved value becomes `Right`,
      a rejection becomes `Left` of its reason. */
  function LiftPromise(p: Promise<Value>): (ea: EitherAsync)
    ensures p.Resolved? ==> Run(ea) == Right(p.value)
    ensures p.Rejected? ==> Run(ea) == Left(p.reason)
  {
    LiftPromiseRuns(p);
    Of([Await("value", p), Return(Var("value"))])
  }

  lemma LiftEitherRuns(r: Either<Value, Value>)
    ensures Execute([Lift("value", r), Return(Var("value"))]) == r
  {
    var b := [Lift("value", r), Return(Var("value"))];
    assert b == [b[0]] + [b[1]];
    ExecAppend([b[0]], [b[1]], map[]);
  }

  lemma FromPromiseRuns(p: Promise<Either<Value, Value>>)
    ensures var r := Execute([AsyncBody.FromPromise("value", p), Return(Var("value"))]);
      && (p.Resolved? ==> r == p.value)
      && (p.Rejected? ==> r == Left(p.reason))
  {
    var b := [AsyncBody.FromPromise("value", p), Return(Var("value"))];
    assert b == [b[0]] + [b[1]];
    ExecAppend([b[0]], [b[1]], map[]);
  }

  lemma LiftPromiseRuns(p: Promise<Value>)
    ensures var r := Execute([Await("value", p), Return(Var("value"))]);
      && (p.Resolved? ==> r == Right(p.value))
      && (p.Rejected? ==> r == Left(p.reason))
  {
    var b := [Await("value", p), Return(Var("value"))];
    assert b == [b[0]] + [b[1]];
    ExecAppend([b[0]], [b[1]], map[]);
  }

  /** `swap` undoes itself. */
  lemma SwapSwap(ea: EitherAsync)
    ensures Run(Swap(Swap(ea))) == Run(ea)
  {
    SwapInvolutive(Run(ea));
  }

  /** `mapLeft(g)` runs like `swap().map(g).swap()`. */
  lemma MapLeftThroughSwap(ea: EitherAsync, g: Value -> Value)
    ensures Run(MapLeft(ea, g)) == Run(Swap(Map(Swap(ea), g)))
  {
    MapLeftIsSwappedMap(Run(ea), g);
  }

  /** `toMaybeAsync()` keeps exactly the `Right` payload: `Just(v)` if and only if
      the run gave `Right(v)`. */
  lemma ToMaybeAsyncJustIff(ea: EitherAsync, v: Value)
    ensures RunMaybe(ToMaybeAsync(ea)) == Just(v) <==> Run(ea) == Right(v)
  {
  }
}
