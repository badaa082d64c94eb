/** Coroutines twice over: as ordinary direct-style programs with an evaluator, and as the frames and continuations that
    `Task` makes of them. Module Tasks proves that the two agree. */
module Coroutines {
  import opened Wrappers

  /** The locals of a coroutine. */
  type Env = map<string, int>

  /** What an awaited operation delivers, and what a coroutine ends with. */
  datatype Outcome = Value(v: int) | Error(e: Exn)

  /** A handler for `std::exception` lets everything else pass; `catch (...)` takes all. */
  predicate Catches(all: bool, e: Exn) { all || e.Std? }

  /** A coroutine body. Computations on the locals are arbitrary functions. */
  datatype Stmt =
    | Do(f: Env -> Env)
    | Emit(out: Env -> int)                                        // an observable effect
    | Return(val: Env -> int)
    | Throw(exn: Env -> Exn)
    | AwaitIo(bind: (Env, int) -> Env)                             // x = co_await loop.readable(fd), pool.submit(...)
    | AwaitTask(body: Stmt, bind: (Env, int) -> Env)               // x = co_await callee(locals)
    | Spawn(body: Stmt)                                            // loop.spawn(callee(locals))
    | Seq(a: Stmt, b: Stmt)
    | If(cond: Env -> bool, a: Stmt, b: Stmt)
    | Try(a: Stmt, all: bool, caught: (Env, Exn) -> Env, handler: Stmt)

  datatype Effect = Out(v: int) | Spawned(body: Stmt, env: Env)

  /** How a statement ends: control goes on, the coroutine returns, an exception is on its way, or the inputs delivered
      so far do not suffice. `ins` are the inputs left over. */
  datatype Ctl =
    | Normal(env: Env, ins: seq<Outcome>)
    | Returned(v: int, ins: seq<Outcome>)
    | Threw(e: Exn, env: Env, ins: seq<Outcome>)
    | Blocked

  datatype Res = Res(log: seq<Effect>, ctl: Ctl)

  /** How a whole coroutine ends: with an outcome and the inputs left over, or not yet. */
  datatype Fin = Fin(log: seq<Effect>, end: Option<(Outcome, seq<Outcome>)>)

  /** `return_value`, `return_void` and `unhandled_exception`. Running off the end delivers 0. */
  ghost function Finish(r: Res): Fin {
    match r.ctl
    case Normal(_, ins) => Fin(r.log, Some((Value(0), ins)))
    case Returned(v, ins) => Fin(r.log, Some((Value(v), ins)))
    case Threw(e, _, ins) => Fin(r.log, Some((Error(e), ins)))
    case Blocked => Fin(r.log, None)
  }

  /** `await_resume`: the value is bound or the exception rethrown in the caller. */
  ghost function Deliver(out: Outcome, env: Env, bind: (Env, int) -> Env, ins: seq<Outcome>): Ctl {
    match out
    case Value(v) => Normal(bind(env, v), ins)
    case Error(e) => Threw(e, env, ins)
  }

  ghost function AfterCall(fin: Fin, env: Env, bind: (Env, int) -> Env): Res {
    Res(fin.log, if fin.end.None? then Blocked else Deliver(fin.end.value.0, env, bind, fin.end.value.1))
  }

  /** The direct-style meaning: an awaited coroutine is a call, an awaited operation reads the next input. */
  ghost function Eval(s: Stmt, env: Env, ins: seq<Outcome>): Res {
    match s
    case Do(f) => Res([], Normal(f(env), ins))
    case Emit(out) => Res([Out(out(env))], Normal(env, ins))
    case Return(val) => Res([], Returned(val(env), ins))
    case Throw(exn) => Res([], Threw(exn(env), env, ins))
    case AwaitIo(bind) => Res([], if ins == [] then Blocked else Deliver(ins[0], env, bind, ins[1..]))
    case AwaitTask(body, bind) => AfterCall(Finish(Eval(body, env, ins)), env, bind)
    case Spawn(body) => Res([Spawned(body, env)], Normal(env, ins))
    case Seq(a, b) =>
      var r := Eval(a, env, ins);
      if r.ctl.Normal? then Prefix(r.log, Eval(b, r.ctl.env, r.ctl.ins)) else r
    case If(cond, a, b) => if cond(env) then Eval(a, env, ins) else Eval(b, env, ins)
    case Try(a, all, caught, handler) =>
      var r := Eval(a, env, ins);
      if r.ctl.Threw? && Catches(all, r.ctl.e) then Prefix(r.log, Eval(handler, caught(r.ctl.env, r.ctl.e), r.ctl.ins)) else r
  }

  ghost function Prefix(log: seq<Effect>, r: Res): Res { Res(log + r.log, r.ctl) }

  ghost function PrefixFin(log: seq<Effect>, f: Fin): Fin { Fin(log + f.log, f.end) }

  /** The meaning of a whole coroutine on the inputs delivered to it. */
  ghost function Meaning(s: Stmt, env: Env, ins: seq<Outcome>): Fin { Finish(Eval(s, env, ins)) }

  // ------------------------------------------------------- laws of the meaning

  /** A handler takes exactly what it names, with the locals at the throw; anything else goes on past it. */
  lemma HandlerTakesExactly(exn: Env -> Exn, all: bool, caught: (Env, Exn) -> Env, h: Stmt, env: Env, ins: seq<Outcome>)
    ensures var e := exn(env);
            Eval(Try(Throw(exn), all, caught, h), env, ins)
            == if e.Foreign? && !all then Eval(Throw(exn), env, ins) else Eval(h, caught(env, e), ins)
  {
  }

  /** Only exceptions reach a handler. */
  lemma HandlerOnlyForThrows(a: Stmt, all: bool, caught: (Env, Exn) -> Env, h: Stmt, env: Env, ins: seq<Outcome>)
    requires !Eval(a, env, ins).ctl.Threw?
    ensures Eval(Try(a, all, caught, h), env, ins) == Eval(a, env, ins)
  {
  }

  /** Sequencing is associative, and nothing runs behind a return or a throw. */
  lemma SeqLaws(a: Stmt, b: Stmt, c: Stmt, env: Env, ins: seq<Outcome>)
    ensures Eval(Seq(Seq(a, b), c), env, ins) == Eval(Seq(a, Seq(b, c)), env, ins)
    ensures a.Return? || a.Throw? ==> Eval(Seq(a, b), env, ins) == Eval(a, env, ins)
  {
  }

  /** Statements take effect in their order. */
  lemma OrderLaws(out: Env -> int, out': Env -> int, f: Env -> Env, g: Env -> Env, env: Env, ins: seq<Outcome>)
    ensures Eval(Seq(Emit(out), Emit(out')), env, ins) == Res([Out(out(env)), Out(out'(env))], Normal(env, ins))
    ensures Eval(Seq(Do(f), Do(g)), env, ins) == Res([], Normal(g(f(env)), ins))
  {
  }

  /** A condition chooses its branch by the locals, and a spawned task gets a copy of them and all of its body. */
  lemma ChoiceLaws(cond: Env -> bool, f: Env -> Env, a: Stmt, b: Stmt, env: Env, ins: seq<Outcome>)
    ensures Eval(Seq(Do(f), If(cond, a, b)), env, ins) == Eval(Seq(Do(f), if cond(f(env)) then a else b), env, ins)
    ensures Eval(Seq(Do(f), Spawn(a)), env, ins) == Res([Spawned(a, f(env))], Normal(f(env), ins))
  {
  }

  /** A call gives the caller the callee's value, or throws its exception in the caller; running off the end gives 0. The
      callee works on a copy of the locals. */
  lemma CallLaws(val: Env -> int, exn: Env -> Exn, f: Env -> Env, bind: (Env, int) -> Env, env: Env, ins: seq<Outcome>)
    ensures Eval(AwaitTask(Return(val), bind), env, ins) == Res([], Normal(bind(env, val(env)), ins))
    ensures Eval(AwaitTask(Throw(exn), bind), env, ins) == Res([], Threw(exn(env), env, ins))
    ensures Eval(AwaitTask(Do(f), bind), env, ins) == Res([], Normal(bind(env, 0), ins))
    ensures Eval(AwaitTask(Seq(Do(f), Return(val)), bind), env, ins) == Res([], Normal(bind(env, val(f(env))), ins))
  {
    assert Eval(Seq(Do(f), Return(val)), env, ins) == Prefix([], Eval(Return(val), f(env), ins));
  }

  /** An awaited operation takes the next input and no other. */
  lemma AwaitLaws(bind: (Env, int) -> Env, env: Env, out: Outcome, ins: seq<Outcome>)
    ensures Eval(AwaitIo(bind), env, []) == Res([], Blocked)
    ensures Eval(AwaitIo(bind), env, [out] + ins).log == []
    ensures Eval(AwaitIo(bind), env, [out] + ins).ctl
            == if out.Value? then Normal(bind(env, out.v), ins) else Threw(out.e, env, ins)
  {
  }

  /** A further input changes nothing about what has happened: a coroutine that has ended leaves it over, and one that waits
      goes on from its effects so far. */
  ghost predicate Continues(r: Res, r': Res, more: seq<Outcome>) {
    match r.ctl
    case Normal(env, ins) => r' == Res(r.log, Normal(env, ins + more))
    case Returned(v, ins) => r' == Res(r.log, Returned(v, ins + more))
    case Threw(e, env, ins) => r' == Res(r.log, Threw(e, env, ins + more))
    case Blocked => r.log <= r'.log
  }

  lemma PrefixContinues(log: seq<Effect>, r: Res, r': Res, more: seq<Outcome>)
    requires Continues(r, r', more)
    ensures Continues(Prefix(log, r), Prefix(log, r'), more)
  {
  }

  lemma {:induction false} MoreInputs(s: Stmt, env: Env, ins: seq<Outcome>, more: seq<Outcome>)
    ensures Continues(Eval(s, env, ins), Eval(s, env, ins + more), more)
    decreases s, 2
  {
    match s
    case AwaitIo(bind) =>
      if ins != [] {
        assert (ins + more)[0] == ins[0] && (ins + more)[1..] == ins[1..] + more;
      }
    case AwaitTask(body, bind) => MoreInputs(body, env, ins, more);
    case Seq(a, b) =>
      MoreInputs(a, env, ins, more);
      ThenMore(Eval(a, env, ins), b, more);
    case If(cond, a, b) =>
      MoreInputs(a, env, ins, more);
      MoreInputs(b, env, ins, more);
    case Try(a, all, caught, h) =>
      var q := Eval(a, env, ins);
      MoreInputs(a, env, ins, more);
      if q.ctl.Threw? && Catches(all, q.ctl.e) {
        ThenMore(Res(q.log, Normal(caught(q.ctl.env, q.ctl.e), q.ctl.ins)), h, more);
      }
    case _ =>
  }

  lemma ThenMore(q: Res, b: Stmt, more: seq<Outcome>)
    ensures q.ctl.Normal? ==>
              Continues(Prefix(q.log, Eval(b, q.ctl.env, q.ctl.ins)), Prefix(q.log, Eval(b, q.ctl.env, q.ctl.ins + more)), more)
    decreases b, 3
  {
    if q.ctl.Normal? {
      MoreInputs(b, q.ctl.env, q.ctl.ins, more);
      PrefixContinues(q.log, Eval(b, q.ctl.env, q.ctl.ins), Eval(b, q.ctl.env, q.ctl.ins + more), more);
    }
  }
}
