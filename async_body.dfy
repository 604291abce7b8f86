/** The body of an EitherAsync as a small statement language, and the driver
    that runs a body to an `Either`.

    A body is a sequence of statements run in order. The helpers `liftEither`,
    `fromPromise` and `throwE` short-circuit the body by raising an internal
    signal; user code fails by throwing or by awaiting a rejected promise. Both
    kinds of abort unwind the body like an exception, so a user `try` block
    catches either, and the driver turns whatever escapes into a `Left`. */
module AsyncBody {
  import opened Js
  import opened Either

  /** The operand of a `return`. */
  datatype Expr = Lit(v: Value) | Var(name: string)

  datatype Stmt =
      /** `const dest = await liftEither(either)` */
    | Lift(dest: string, either: Either<Value, Value>)
      /** `const dest = await fromPromise(promise)` */
    | FromPromise(dest: string, promise: Promise<Either<Value, Value>>)
      /** `const dest = await promise`, with no helper involved */
    | Await(dest: string, awaited: Promise<Value>)
      /** `throwE(error)` */
    | ThrowE(error: Value)
      /** `throw thrown`, a synchronous throw of user code */
    | Throw(thrown: Value)
      /** `try { block } catch { handler }` */
    | Try(block: seq<Stmt>, handler: seq<Stmt>)
      /** `return result` */
    | Return(result: Expr)

  type Block = seq<Stmt>

  /** The `const` bindings in scope. */
  type Env = map<string, Value>

  /** What unwinds a body: the helpers' internal signal, or an ordinary exception. */
  datatype Signal = ShortCircuit(payload: Value) | Exception(payload: Value)

  /** The control outcome of running statements. */
  datatype Outcome = Normal(env: Env) | Returned(value: Value) | Aborted(signal: Signal)

  /** Evaluates a `return` operand: `Left` is the exception reading it throws. */
  function Eval(e: Expr, env: Env): (r: Either<Value, Value>)
    ensures e.Lit? ==> r == Right(e.v)
    ensures e.Var? && e.name in env ==> r == Right(env[e.name])
    ensures e.Var? && e.name !in env ==> r == Left(ReferenceError(e.name))
  {
    match e
    case Lit(v) => Right(v)
    case Var(x) => if x in env then Right(env[x]) else Left(ReferenceError(x))
  }

  /** A statement other than `try`. Only the three binding forms complete
      normally, and they add their name to the bindings; the helpers abort with
      the internal signal, user code with an exception. */
  function Step(s: Stmt, env: Env): (r: Outcome)
    requires !s.Try?
    ensures r.Normal? <==> (s.Lift? && s.either.Right?) || (s.FromPromise? && s.promise.Resolved? && s.promise.value.Right?) || (s.Await? && s.awaited.Resolved?)
    ensures r.Normal? ==> r.env.Keys == env.Keys + {s.dest}
    ensures r.Aborted? ==> (r.signal.ShortCircuit? <==> s.Lift? || s.FromPromise? || s.ThrowE?)
    ensures r.Returned? ==> s.Return?
  {
    match s
    case Lift(x, Right(v)) => Normal(env[x := v])
    case Lift(_, Left(e)) => Aborted(ShortCircuit(e))
    case FromPromise(x, Resolved(Right(v))) => Normal(env[x := v])
    case FromPromise(_, Resolved(Left(e))) => Aborted(ShortCircuit(e))
    case FromPromise(_, Rejected(reason)) => Aborted(ShortCircuit(reason))
    case Await(x, Resolved(v)) => Normal(env[x := v])
    case Await(_, Rejected(reason)) => Aborted(Exception(reason))
    case ThrowE(e) => Aborted(ShortCircuit(e))
    case Throw(e) => Aborted(Exception(e))
    case Return(r) =>
      match Eval(r, env)
      case Left(thrown) => Aborted(Exception(thrown))
      case Right(v) => Returned(v)
  }

  /** Leaving a block: its bindings go out of scope. */
  function Scoped(o: Outcome, outer: Env): (r: Outcome)
    ensures r.Normal? <==> o.Normal?
    ensures r.Normal? ==> r.env == outer
    ensures !o.Normal? ==> r == o
  {
    if o.Normal? then Normal(outer) else o
  }

  /** Runs the statements of `b` in order until the first one that does not
      complete normally. A `try` runs its handler when its block aborts, whichever
      kind of signal aborted it. */
  function ExecBlock(b: Block, env: Env): (r: Outcome)
    ensures b == [] ==> r == Normal(env)
    ensures r.Normal? ==> env.Keys <= r.env.Keys
    decreases b
  {
    if b == [] then Normal(env)
    else
      var first :=
        match b[0]
        case Try(block, handler) =>
          var o := ExecBlock(block, env);
          if o.Aborted? then Scoped(ExecBlock(handler, env), env) else Scoped(o, env)
        case _ => Step(b[0], env);
      if first.Normal? then ExecBlock(b[1..], first.env) else first
  }

  /** The driver (`run`): the signal or exception that escapes the body becomes a
      `Left`; a body that returns `v` gives `Right(v)`, and one that falls off its
      end gives `Right(undefined)`. */
  function Execute(body: Block): (r: Either<Value, Value>)
    ensures r.Left? <==> ExecBlock(body, map[]).Aborted?
    ensures r.Left? ==> r.left == ExecBlock(body, map[]).signal.payload
    ensures ExecBlock(body, map[]).Returned? ==> r == Right(ExecBlock(body, map[]).value)
    ensures ExecBlock(body, map[]).Normal? ==> r == Right(Undefined)
  {
    match ExecBlock(body, map[])
    case Normal(_) => Right(Undefined)
    case Returned(v) => Right(v)
    case Aborted(ShortCircuit(e)) => Left(e)
    case Aborted(Exception(e)) => Left(e)
  }

  /** Sequencing: running `a + b` runs `a`, and runs `b` in the bindings `a` left
      exactly when `a` completed normally. */
  lemma {:induction false} ExecAppend(a: Block, b: Block, env: Env)
    ensures ExecBlock(a + b, env) ==
      (if ExecBlock(a, env).Normal? then ExecBlock(b, ExecBlock(a, env).env) else ExecBlock(a, env))
    decreases a
  {
    if a == [] {
      assert a + b == b;
    } else {
      assert (a + b)[0] == a[0];
      assert (a + b)[1..] == a[1..] + b;
      var first :=
        match a[0]
        case Try(block, handler) =>
          var o := ExecBlock(block, env);
          if o.Aborted? then Scoped(ExecBlock(handler, env), env) else Scoped(o, env)
        case _ => Step(a[0], env);
      if first.Normal? {
        ExecAppend(a[1..], b, first.env);
      }
    }
  }

  /** Nothing after an abort runs: once `a` aborts or returns, no continuation `rest` is reached. */
  lemma AbortSkipsRest(a: Block, rest: Block, env: Env)
    requires !ExecBlock(a, env).Normal?
    ensures ExecBlock(a + rest, env) == ExecBlock(a, env)
  {
    ExecAppend(a, rest, env);
  }

  /** `throwE(e)` after statements that completed normally decides the run:
      `Left(e)`, whatever follows it. */
  lemma ThrowEStopsBody(pre: Block, e: Value, rest: Block)
    requires ExecBlock(pre, map[]).Normal?
    ensures Execute(pre + [ThrowE(e)] + rest) == Left(e)
  {
    ExecAppend(pre, [ThrowE(e)], map[]);
    AbortSkipsRest(pre + [ThrowE(e)], rest, map[]);
  }

  /** A successful `liftEither(Right(v))` binds `v` and lets the body go on. */
  lemma LiftRightContinues(x: string, v: Value, rest: Block, env: Env)
    ensures ExecBlock([Lift(x, Right(v))] + rest, env) == ExecBlock(rest, env[x := v])
  {
    ExecAppend([Lift(x, Right(v))], rest, env);
  }

  /** A helper short-circuit inside a user `try` is caught by its handler,
      exactly like an exception: the outcome is the handler's, and the kind of
      signal that aborted the block plays no part in it. */
  lemma TryCatchesAnyAbort(block: Block, handler: Block, rest: Block, env: Env)
    requires ExecBlock(block, env).Aborted?
    ensures ExecBlock([Try(block, handler)] + rest, env) ==
      (if ExecBlock(handler, env).Normal? then ExecBlock(rest, env) else ExecBlock(handler, env))
  {
    ExecAppend([Try(block, handler)], rest, env);
  }

  /** A `try` whose block completes normally never runs its handler. */
  lemma TrySkipsHandlerOnNormal(block: Block, handler: Block, rest: Block, env: Env)
    requires ExecBlock(block, env).Normal?
    ensures ExecBlock([Try(block, handler)] + rest, env) == ExecBlock(rest, env)
  {
    ExecAppend([Try(block, handler)], rest, env);
  }

  /** `try { await fromPromise(rejected r) } catch { throwE(e) }`: the handler's
      `throwE` decides the run, not the rejection. */
  lemma HandlerThrowEDecides(x: string, r: Value, e: Value, rest: Block)
    ensures Execute([Try([FromPromise(x, Rejected(r))], [ThrowE(e)])] + rest) == Left(e)
  {
    TryCatchesAnyAbort([FromPromise(x, Rejected(r))], [ThrowE(e)], rest, map[]);
  }

  /** A body that throws first runs to `Left` of the thrown value. */
  lemma ThrowingBody(e: Value, rest: Block)
    ensures Execute([Throw(e)] + rest) == Left(e)
  {
    AbortSkipsRest([Throw(e)], rest, map[]);
  }

  /** A body that returns first runs to `Right` of the returned value. */
  lemma ReturningBody(v: Value, rest: Block)
    ensures Execute([Return(Lit(v))] + rest) == Right(v)
  {
    AbortSkipsRest([Return(Lit(v))], rest, map[]);
  }

  /** The values a block can raise: helper failures, thrown values, rejections,
      and the exception of a `return` reading an unbound name. */
  function Raisable(b: Block): set<Value>
    decreases b
  {
    if b == [] then {}
    else
      var here :=
        match b[0]
        case Lift(_, Left(e)) => {e}
        case FromPromise(_, Resolved(Left(e))) => {e}
        case FromPromise(_, Rejected(reason)) => {reason}
        case Await(_, Rejected(reason)) => {reason}
        case ThrowE(e) => {e}
        case Throw(e) => {e}
        case Return(Var(x)) => {ReferenceError(x)}
        case Try(block, handler) => Raisable(block) + Raisable(handler)
        case _ => {};
      here + Raisable(b[1..])
  }

  /** Every failure surfaces with a value the body itself raised: nothing else
      can reach the failure channel. */
  lemma {:induction false} AbortRaisedByBlock(b: Block, env: Env)
    requires ExecBlock(b, env).Aborted?
    ensures ExecBlock(b, env).signal.payload in Raisable(b)
    decreases b
  {
    var s := b[0];
    var first :=
      match s
      case Try(block, handler) =>
        var o := ExecBlock(block, env);
        if o.Aborted? then Scoped(ExecBlock(handler, env), env) else Scoped(o, env)
      case _ => Step(s, env);
    if first.Normal? {
      AbortRaisedByBlock(b[1..], first.env);
    } else if s.Try? {
      // the block aborted, so the outcome is the handler's
      AbortRaisedByBlock(s.handler, env);
    }
  }

  /** A body that raises nothing runs to a `Right`. */
  lemma NoRaisableNoLeft(body: Block)
    requires Raisable(body) == {}
    ensures Execute(body).Right?
  {
    if ExecBlock(body, map[]).Aborted? {
      AbortRaisedByBlock(body, map[]);
    }
  }
}
