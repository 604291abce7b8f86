/** The synchronous sum type `Either`: `Left` carries a failure, `Right` a success.
    EitherAsync's combinators are case analyses on the `Either` a run produces;
    those case analyses are defined once here. */
module Either {
  import opened Maybe

  datatype Either<+L, +R> = Left(left: L) | Right(right: R)

  /** `map`: transforms a `Right` payload, passes a `Left` through. */
  function Map<L, R, R2>(x: Either<L, R>, f: R -> R2): (r: Either<L, R2>)
    ensures r.Left? <==> x.Left?
    ensures x.Left? ==> r.left == x.left
    ensures x.Right? ==> r.right == f(x.right)
  {
    match x
    case Left(e) => Left(e)
    case Right(v) => Right(f(v))
  }

  /** `mapLeft`: transforms a `Left` payload, passes a `Right` through. */
  function MapLeft<L, R, L2>(x: Either<L, R>, f: L -> L2): (r: Either<L2, R>)
    ensures r.Left? <==> x.Left?
    ensures x.Left? ==> r.left == f(x.left)
    ensures x.Right? ==> r.right == x.right
  {
    match x
    case Left(e) => Left(f(e))
    case Right(v) => Right(v)
  }

  /** `chain`: a `Right` adopts the continuation's outcome, a `Left` passes through. */
  function Chain<L, R, R2>(x: Either<L, R>, k: R -> Either<L, R2>): (r: Either<L, R2>)
    ensures x.Left? ==> r == Left(x.left)
    ensures x.Right? ==> r == k(x.right)
  {
    match x
    case Left(e) => Left(e)
    case Right(v) => k(v)
  }

  /** `chainLeft`: a `Left` is recovered into the continuation's outcome, a `Right` passes through. */
  function ChainLeft<L, R, L2>(x: Either<L, R>, k: L -> Either<L2, R>): (r: Either<L2, R>)
    ensures x.Left? ==> r == k(x.left)
    ensures x.Right? ==> r == Right(x.right)
  {
    match x
    case Left(e) => k(e)
    case Right(v) => Right(v)
  }

  /** `swap`: exchanges the roles of the two sides. */
  function Swap<L, R>(x: Either<L, R>): (r: Either<R, L>)
    ensures r.Left? <==> x.Right?
    ensures x.Right? ==> r.left == x.right
    ensures x.Left? ==> r.right == x.left
  {
    match x
    case Left(e) => Right(e)
    case Right(v) => Left(v)
  }

  /** The projection used by `toMaybeAsync`: a `Left` is lost, a `Right` becomes `Just`. */
  function ToMaybe<L, R>(x: Either<L, R>): (m: Maybe<R>)
    ensures m.Nothing? <==> x.Left?
    ensures x.Right? ==> m == Just(x.right)
  {
    match x
    case Left(_) => Nothing
    case Right(v) => Just(v)
  }

  lemma SwapInvolutive<L, R>(x: Either<L, R>)
    ensures Swap(Swap(x)) == x
  {
  }

  /** `mapLeft` is `map` seen through `swap`. */
  lemma MapLeftIsSwappedMap<L, R, L2>(x: Either<L, R>, f: L -> L2)
    ensures MapLeft(x, f) == Swap(Map(Swap(x), f))
  {
  }

  /** `chainLeft` is `chain` seen through `swap`, with the continuation swapped too. */
  lemma ChainLeftIsSwappedChain<L, R, L2>(x: Either<L, R>, k: L -> Either<L2, R>)
    ensures ChainLeft(x, k) == Swap(Chain(Swap(x), (e: L) => Swap(k(e))))
  {
    if x.Left? {
      SwapInvolutive(k(x.left));
    }
  }
}
