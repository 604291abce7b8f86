# EitherAsync and NonEmptyList, modelled in Dafny

This project models two parts of a TypeScript library of algebraic data types.
The behaviour modelled is the behaviour its two suites, `src/EitherAsync.test.ts`
and `src/adts/NonEmptyList.test.ts`, pin down.

**EitherAsync** is a deferred computation. When it is run, its body produces an
`Either`: `Left(error)` or `Right(value)`. The body gets three helpers:

- `liftEither` and `fromPromise` go on with the payload of a `Right`. A `Left`, or a
  rejected promise, short-circuits the body.
- `throwE` always short-circuits.

A body can also fail on its own, by throwing or by awaiting a rejected promise.
The short-circuit is an internal signal that unwinds the body like an exception,
so a user `try`/`catch` around a helper call catches it. The driver turns whatever
escapes the body into a `Left`. A value `return`ed by the body becomes `Right`.
Falling off the end of the body gives `Right(undefined)`. The combinators `map`,
`mapLeft`, `chain`, `chainLeft`, `swap` and `toMaybeAsync`, and the statics
`liftEither`, `fromPromise` and `liftPromise`, are case analyses on the `Either` of a run.

**NonEmptyList** is an ordinary sequence known to have at least one element. The
functions on it are `isNonEmpty`, `fromArray` (returns a `Maybe`), `fromTuple`,
`head`, `last` and `unsafeCoerce` (throws on an empty input).

Layout:

- `either.dfy`, `maybe.dfy`, `tuple.dfy`: the `Either`, `Maybe` and `Tuple` types.
  `Either`'s case analyses are defined once and reused by every combinator.
- `js.dfy`: the JavaScript values the bodies handle, and promises by how they settle.
- `async_body.dfy`: the body as a statement language. Its statements are `Lift`,
  `FromPromise`, `Await`, `ThrowE`, `Throw`, `Try` and `Return`. `ExecBlock` is the
  interpreter: it runs statements in order, with an explicit
  `Normal | Returned | Aborted(signal)` outcome. `Execute` is the `run` driver.
- `either_async.dfy`: the EitherAsync value, its `Run`, the combinators and the statics.
- `either_async_examples.dfy`: each scenario of the EitherAsync suite, with its exact result.
- `non_empty_list.dfy`: NonEmptyList as a subset type of `seq<T>`, plus its scenarios.

Modelling decisions:

- A variable of a body is a `const` binding. Bindings made inside a `try` block or
  its handler go out of scope when the `try` ends.
- `return x` with `x` unbound throws a `ReferenceError`.
- A rejection passed to `fromPromise` is a helper short-circuit with the rejection
  as payload. Modelling it as an ordinary exception would give the same run:
  `Left(rejection)`, caught by a user `try`.
- `chain` and `chainLeft` continuations may return an EitherAsync or a promise of an
  `Either`. A rejected promise becomes `Left` of its reason, as `fromPromise` would make it.

## Model

| member | source | states |
|---|---|---|
| `Either.Map` | src/EitherAsync.test.ts:53-75 | a `Right(v)` becomes `Right(f(v))`; a `Left` keeps its side and payload |
| `Either.MapLeft` | src/EitherAsync.test.ts:77-88 | a `Left(e)` becomes `Left(f(e))`; a `Right` keeps its side and payload |
| `Either.Chain` | src/EitherAsync.test.ts:90-112 | a `Right(v)` adopts `k(v)`; a `Left` passes through unchanged |
| `Either.ChainLeft` | src/EitherAsync.test.ts:114-136 | a `Left(e)` is recovered into `k(e)`; a `Right` passes through unchanged |
| `Either.Swap` | src/EitherAsync.test.ts:148-154 | the sides are exchanged and the payload is kept |
| `Either.ToMaybe` | src/EitherAsync.test.ts:138-146 | `Nothing` exactly for a `Left`; `Just(v)` for `Right(v)` |
| `Either.SwapInvolutive` | src/EitherAsync.test.ts:148-154 | swapping twice gives back the original `Either` |
| `Either.MapLeftIsSwappedMap` | src/EitherAsync.test.ts:77-88 | `mapLeft(f)` equals `swap`, then `map(f)`, then `swap` |
| `Either.ChainLeftIsSwappedChain` | src/EitherAsync.test.ts:114-136 | `chainLeft(k)` equals `chain` through `swap`, with each continuation result swapped too |
| `AsyncBody.Eval` | src/EitherAsync.test.ts:18-23 | a literal evaluates to itself; a bound name to its value; an unbound name throws a `ReferenceError` |
| `AsyncBody.Step` | src/EitherAsync.test.ts:18-38 | only `liftEither`/`fromPromise` of a success and an `await` of a resolved promise complete normally, and they add their name to the bindings; the helpers abort with the internal signal, user throws and rejections with an exception |
| `AsyncBody.Scoped` | src/EitherAsync.test.ts:29-35 | leaving a `try` block or handler that completed normally restores the outer bindings; any other outcome passes through unchanged |
| `AsyncBody.ExecBlock` | src/EitherAsync.test.ts:18-38 | the empty block completes normally in the same bindings; normal completion never removes a binding (run order and early exit are pinned by `ExecAppend`, `AbortSkipsRest` and `AbortRaisedByBlock`) |
| `AsyncBody.Execute` | src/EitherAsync.test.ts:156-187 | the run is `Left` exactly when the body aborted, with the signal's payload; a returned `v` gives `Right(v)`; finishing the body gives `Right(undefined)` |
| `AsyncBody.ExecAppend` | src/EitherAsync.test.ts:18-26 | `a + b` runs `b`, in the bindings `a` left, exactly when `a` completed normally; otherwise its outcome is `a`'s |
| `AsyncBody.AbortSkipsRest` | src/EitherAsync.test.ts:18-26 | after an abort or a return, no later statement is reached |
| `AsyncBody.ThrowEStopsBody` | src/EitherAsync.test.ts:18-26 | `throwE(e)` after statements that completed normally runs to `Left(e)`, whatever follows |
| `AsyncBody.LiftRightContinues` | src/EitherAsync.test.ts:19-20 | `liftEither(Right(v))` binds `v` and the body continues |
| `AsyncBody.TryCatchesAnyAbort` | src/EitherAsync.test.ts:28-38 | a user `try` whose block aborts, by helper signal or by exception, has its handler's outcome |
| `AsyncBody.TrySkipsHandlerOnNormal` | src/EitherAsync.test.ts:28-38 | a user `try` whose block completes normally does not run its handler |
| `AsyncBody.HandlerThrowEDecides` | src/EitherAsync.test.ts:28-38 | the handler's `throwE(e)` after a rejected `fromPromise` in the `try` runs to `Left(e)`, not the rejection |
| `AsyncBody.ThrowingBody` | src/EitherAsync.test.ts:40-51 | a body that throws `e` runs to `Left(e)` |
| `AsyncBody.ReturningBody` | src/EitherAsync.test.ts:40-51 | a body that returns `v` runs to `Right(v)` |
| `AsyncBody.AbortRaisedByBlock` | src/EitherAsync.test.ts:156-187 | every failure payload is a value the body itself raises (helper `Left`, rejection, thrown value or `ReferenceError`) |
| `AsyncBody.NoRaisableNoLeft` | src/EitherAsync.test.ts:181-187 | a body that raises nothing runs to a `Right` |
| `EitherAsync.Run` | src/EitherAsync.test.ts:53-154 | a body-built computation runs through the driver; a `Left` passes unchanged through `map` and `chain`, a `Right` through `mapLeft` and `chainLeft`; `swap` exchanges the side |
| `EitherAsync.RunMaybe` | src/EitherAsync.test.ts:138-146 | `run` of a MaybeAsync is `Nothing` exactly when the source runs to a `Left`, and `Just(v)` when it runs to `Right(v)` |
| `EitherAsync.RunNext` | src/EitherAsync.test.ts:102-112 | a continuation's EitherAsync is run; a resolved promise's `Either` is adopted as is; a rejection becomes `Left` of its reason |
| `EitherAsync.Map` | src/EitherAsync.test.ts:53-75 | a run to `Right(v)` becomes `Right(f(v))`; a `Left` run is unchanged |
| `EitherAsync.MapLeft` | src/EitherAsync.test.ts:77-88 | a run to `Left(e)` becomes `Left(g(e))`; a `Right` run is unchanged |
| `EitherAsync.Chain` | src/EitherAsync.test.ts:90-112 | a run to `Right(v)` adopts the outcome of `k(v)`, an EitherAsync or a promise of an `Either`; a `Left` run is unchanged |
| `EitherAsync.ChainLeft` | src/EitherAsync.test.ts:114-136 | a run to `Left(e)` is recovered into the outcome of `h(e)`; a `Right` run is unchanged |
| `EitherAsync.Swap` | src/EitherAsync.test.ts:148-154 | `Right(v)` becomes `Left(v)`; `Left(e)` becomes `Right(e)` |
| `EitherAsync.ToMaybeAsync` | src/EitherAsync.test.ts:138-146 | `Nothing` exactly when the run is a `Left`; `Just(v)` when it is `Right(v)` |
| `EitherAsync.LiftEither` | src/EitherAsync.test.ts:208-211 | runs to the lifted `Either` |
| `EitherAsync.FromPromise` | src/EitherAsync.test.ts:190-197 | a resolved `Either` is the result; a rejection gives `Left(reason)` |
| `EitherAsync.LiftPromise` | src/EitherAsync.test.ts:199-206 | a resolved value `v` gives `Right(v)`; a rejection gives `Left(reason)` |
| `EitherAsync.LiftEitherRuns` | src/EitherAsync.test.ts:138-146 | the body `liftEither(r)` runs to `r` |
| `EitherAsync.FromPromiseRuns` | src/EitherAsync.test.ts:157-187 | the body `fromPromise(p)` runs to `p`'s `Either`, or to `Left` of its rejection |
| `EitherAsync.LiftPromiseRuns` | src/EitherAsync.test.ts:199-206 | the body `await p` runs to `Right` of `p`'s value, or to `Left` of its rejection |
| `EitherAsync.SwapSwap` | src/EitherAsync.test.ts:148-154 | `swap().swap()` runs like the original |
| `EitherAsync.MapLeftThroughSwap` | src/EitherAsync.test.ts:77-88 | `mapLeft(g)` runs like `swap().map(g).swap()` |
| `EitherAsync.ToMaybeAsyncJustIff` | src/EitherAsync.test.ts:138-146 | the projection is `Just(v)` if and only if the run is `Right(v)` |
| `EitherAsyncExamples.ThrowEExample` | src/EitherAsync.test.ts:18-26 | `liftEither(Right(5)); throwE('Test'); return value` runs to `Left('Test')` |
| `EitherAsyncExamples.TryCatchExample` | src/EitherAsync.test.ts:28-38 | the `try`/`catch` scenario runs to `Left('should show')` |
| `EitherAsyncExamples.PromiseCompatibilityExample` | src/EitherAsync.test.ts:40-51 | `throw 'Err'` gives `Left('Err')`; `return 'A'` gives `Right('A')` |
| `EitherAsyncExamples.ResolvesFive` | src/EitherAsync.test.ts:53-55 | `EitherAsync(() => Promise.resolve(5))` runs to `Right(5)` |
| `EitherAsyncExamples.RejectsWith` | src/EitherAsync.test.ts:77-80 | `EitherAsync(() => Promise.reject(x))` runs to `Left(x)` |
| `EitherAsyncExamples.PlusOne` | src/EitherAsync.test.ts:77-135 | JavaScript `x + 1` on a number gives that number plus one |
| `EitherAsyncExamples.MapExample` | src/EitherAsync.test.ts:53-75 | `map(_ => 'val')` on `Right(5)` gives `Right('val')` |
| `EitherAsyncExamples.MapLeftExample` | src/EitherAsync.test.ts:77-88 | `mapLeft(x => x + 1)` gives `Left(1)` from `Left(0)`; `Right(0)` stays `Right(0)` |
| `EitherAsyncExamples.ChainExample` | src/EitherAsync.test.ts:90-112 | chaining into an EitherAsync or a promise of `Right('val')` gives `Right('val')` |
| `EitherAsyncExamples.ChainLeftExample` | src/EitherAsync.test.ts:114-136 | `Right(5)` stays `Right(5)`; `Left(5)` recovers to `Right(6)`, through an EitherAsync or a promise |
| `EitherAsyncExamples.ToMaybeAsyncExample` | src/EitherAsync.test.ts:138-146 | `liftEither(Left('123'))` gives `Nothing`; `liftEither(Right(5))` gives `Just(5)` |
| `EitherAsyncExamples.SwapExample` | src/EitherAsync.test.ts:148-154 | `Right(5)` becomes `Left(5)`; `Left('fail')` becomes `Right('fail')` |
| `EitherAsyncExamples.RunExample` | src/EitherAsync.test.ts:156-187 | the four `run` scenarios give `Left('Error')`, `Left('Some error')`, `Left(Error('!'))` and `Right(5)` |
| `EitherAsyncExamples.StaticsExample` | src/EitherAsync.test.ts:190-211 | static `fromPromise`, `liftPromise` and `liftEither` give `Right(5)` or `Left(5)` as their input says |
| `NonEmptyList.Of` | src/adts/NonEmptyList.test.ts:6-8 | the constructor gives back the very sequence it is given |
| `NonEmptyList.IsNonEmpty` | src/adts/NonEmptyList.test.ts:10-13 | holds exactly when the length is at least 1 |
| `NonEmptyList.FromArray` | src/adts/NonEmptyList.test.ts:15-18 | `Nothing` exactly for the empty sequence; otherwise `Just` of the sequence itself |
| `NonEmptyList.FromTuple` | src/adts/NonEmptyList.test.ts:20-24 | a two-element list with the first component as head and the second as last |
| `NonEmptyList.Head` | src/adts/NonEmptyList.test.ts:26-28 | the list is the result followed by the rest |
| `NonEmptyList.Last` | src/adts/NonEmptyList.test.ts:30-32 | the list is the rest followed by the result |
| `NonEmptyList.UnsafeCoerce` | src/adts/NonEmptyList.test.ts:34-37 | throws exactly on the empty sequence; otherwise returns the sequence unchanged |
| `NonEmptyList.FromArrayOfNonEmpty` | src/adts/NonEmptyList.test.ts:15-18 | `fromArray` of a non-empty list is `Just` of that list |
| `NonEmptyList.FromArrayAgreesWithUnsafeCoerce` | src/adts/NonEmptyList.test.ts:15-37 | `fromArray` and `unsafeCoerce` accept the same sequences and give the same list |
| `NonEmptyList.HeadLastOfSingleton` | src/adts/NonEmptyList.test.ts:26-32 | in a one-element list, `head` and `last` are both that element |
| `NonEmptyList.Examples` | src/adts/NonEmptyList.test.ts:6-37 | the exact values of the suite's scenarios, `fromTuple(Tuple(1, 'test'))` included |

## Left out

- Promises, microtask scheduling and awaiting an EitherAsync directly as a thenable: a promise is modelled by how it settles, and `run` is a function.
- A sync and an async callback to `map` are the same function once promises are abstracted. A `map` or `mapLeft` callback that fails is not modelled, whether it throws synchronously or (when async) rejects: the callbacks are total functions `Value -> Value`.
- `EitherAsync.Chain`, `EitherAsync.ChainLeft`: a continuation's EitherAsync is one built directly from a body (`Next.Deferred`), not one built by another combinator. Dafny cannot prove termination through a function-valued field of a datatype. The suite's continuations are all of this form.
- The `'fantasy-land/map'` and `'fantasy-land/chain'` aliases: they are other names for `map` and `chain`.
- The type-only scenarios with no expected value (src/EitherAsync.test.ts:6-16, src/adts/NonEmptyList.test.ts:39-42): TypeScript literal types and the inherited `Array.prototype` methods.
- Identity of JavaScript `Error` objects: the model compares an `Error` by its name and message.
- JavaScript numbers are integers here (no floating point). `x + 1` is modelled only for the numbers it is applied to.
- Re-running a computation (side effects repeat, no caching) and `chain` associativity: no expected value pins them down.
- Assignment to `let` variables, loops and conditionals inside a body: the suite's bodies are straight-line code with `const` bindings, a `try`/`catch` and `return`.
- A `catch` clause that binds the caught value: the suite's handler binds nothing.
- `NonEmptyList.FromTuple`: both components have one element type; the source gives a list of the union of the two types. The scenario uses two kinds of JavaScript value.
- The implementations of `Either`, `Maybe`, `Tuple` and `NonEmptyList`, and the internal short-circuit sentinel, are not part of this model. Only the observable results are modelled.
