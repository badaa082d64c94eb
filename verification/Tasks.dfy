/** The machine behind `Task`: a heap of coroutine frames linked by `promise.continuation`. */
module Tasks {
  import opened Wrappers
  import opened Coroutines

  /** What is left to do in a frame after its current statement. */
  datatype K = Stop | Then(s: Stmt, k: K) | Catch(all: bool, bind: (Env, Exn) -> Env, handler: Stmt, k: K)

  /** Where a frame is: about to run a statement or what follows it, throwing, at its final suspend point with the
      promise filled in, suspended on an operation or on a callee, done, or destroyed. */
  datatype Point =
    | At(s: Stmt)
    | Next
    | Raise(e: Exn)
    | Ending(out: Outcome)
    | OnIo(bind: (Env, int) -> Env)
    | OnTask(callee: nat, bind: (Env, int) -> Env)
    | Final(out: Outcome)
    | Gone
  {
    predicate Runnable() { At? || Next? || Raise? || Ending? }

    predicate Live() { !Gone? }
  }

  datatype Frame = Frame(pt: Point, env: Env, k: K, cont: Option<nat>, root: nat)

  /** A task owned by the loop, with its history: the program, the inputs it was fed, its effects, the frame of its call
      chain that is not waiting for a callee, how it ended, and which effect of which task spawned it, if one did. */
  datatype Root = Root(frame: nat, prog: Stmt, env: Env, fed: seq<Outcome>, log: seq<Effect>, leaf: nat,
                       end: Option<Outcome>, spawner: Option<(nat, nat)>)

  /** `waiters` are the frames whose handles are in the hands of the loop, the pool or a posted callback; `stack` are the
      frames running now, each but the last inside a call of `spawn`. */
  datatype State = State(frames: seq<Frame>, roots: seq<Root>, waiters: set<nat>, stack: seq<nat>)

  function Top(s: State): nat
    requires s.stack != []
  {
    s.stack[|s.stack| - 1]
  }

  function Pop(s: State): seq<nat>
    requires s.stack != []
  {
    s.stack[..|s.stack| - 1]
  }

  // ---------------------------------------------------------------- the steps

  /** A step that stays inside one frame, with the effects it has. */
  function Local(f: Frame): Option<(Frame, seq<Effect>)> {
    match f.pt
    case At(s) => (
      match s
      case Do(g) => Some((f.(env := g(f.env), pt := Next), []))
      case Emit(out) => Some((f.(pt := Next), [Out(out(f.env))]))
      case Return(val) => Some((f.(pt := Ending(Value(val(f.env)))), []))
      case Throw(exn) => Some((f.(pt := Raise(exn(f.env))), []))
      case Seq(a, b) => Some((f.(pt := At(a), k := Then(b, f.k)), []))
      case If(cond, a, b) => Some((f.(pt := At(if cond(f.env) then a else b)), []))
      case Try(a, all, bind, handler) => Some((f.(pt := At(a), k := Catch(all, bind, handler, f.k)), []))
      case _ => None)
    case Next => (
      match f.k
      case Stop => Some((f.(pt := Ending(Value(0))), []))
      case Then(s, k) => Some((f.(pt := At(s), k := k), []))
      case Catch(_, _, _, k) => Some((f.(k := k), [])))
    case Raise(e) => (
      match f.k
      case Stop => Some((f.(pt := Ending(Error(e))), []))
      case Then(_, k) => Some((f.(k := k), []))
      case Catch(all, bind, handler, k) =>
        if Catches(all, e) then Some((f.(pt := At(handler), env := bind(f.env, e), k := k), []))
        else Some((f.(k := k), [])))
    case _ => None
  }

  /** `Awaiter::await_resume` in the frame that was waiting. */
  function Resumed(f: Frame, out: Outcome, bind: (Env, int) -> Env): Frame {
    match out
    case Value(v) => f.(pt := Next, env := bind(f.env, v))
    case Error(e) => f.(pt := Raise(e))
  }

  function NewFrame(body: Stmt, env: Env, cont: Option<nat>, root: nat): Frame {
    Frame(At(body), env, Stop, cont, root)
  }

  function StepLocal(s: State, f: nat): State
    requires f < |s.frames| && s.frames[f].root < |s.roots| && Local(s.frames[f]).Some?
  {
    var r, (fr, eff) := s.frames[f].root, Local(s.frames[f]).value;
    s.(frames := s.frames[f := fr], roots := s.roots[r := s.roots[r].(log := s.roots[r].log + eff)])
  }

  /** `co_await` of an operation: the handle leaves the machine and `resume` returns. */
  function StepIo(s: State, f: nat): State
    requires s.stack != [] && f < |s.frames| && s.frames[f].pt.At? && s.frames[f].pt.s.AwaitIo?
  {
    s.(frames := s.frames[f := s.frames[f].(pt := OnIo(s.frames[f].pt.s.bind))], waiters := s.waiters + {f},
       stack := Pop(s))
  }

  /** `co_await` of a task: link the continuation, resume the callee. */
  function StepCall(s: State, f: nat): State
    requires s.stack != [] && f < |s.frames| && s.frames[f].root < |s.roots|
    requires s.frames[f].pt.At? && s.frames[f].pt.s.AwaitTask?
  {
    var fr, c := s.frames[f], |s.frames|;
    s.(frames := s.frames[f := fr.(pt := OnTask(c, fr.pt.s.bind))] + [NewFrame(fr.pt.s.body, fr.env, Some(f), fr.root)],
       roots := s.roots[fr.root := s.roots[fr.root].(leaf := c)],
       stack := Pop(s) + [c])
  }

  /** `spawn`: the new task runs at once, nested in the caller. */
  function StepSpawn(s: State, f: nat): State
    requires f < |s.frames| && s.frames[f].root < |s.roots|
    requires s.frames[f].pt.At? && s.frames[f].pt.s.Spawn?
  {
    var fr, c := s.frames[f], |s.frames|;
    var body := fr.pt.s.body;
    var roots := s.roots[fr.root := s.roots[fr.root].(log := s.roots[fr.root].log + [Spawned(body, fr.env)])];
    s.(frames := s.frames[f := fr.(pt := Next)] + [NewFrame(body, fr.env, None, |s.roots|)],
       roots := roots + [Root(c, body, fr.env, [], [], c, None, Some((fr.root, |s.roots[fr.root].log|)))],
       stack := s.stack + [c])
  }

  /** `final_suspend`: a root stays there for the loop to collect; otherwise the continuation is resumed, takes the
      outcome, and destroys the callee. */
  function StepEnd(s: State, f: nat): State
    requires s.stack != [] && f < |s.frames| && s.frames[f].root < |s.roots| && s.frames[f].pt.Ending?
  {
    var fr := s.frames[f];
    match fr.cont
    case None =>
      s.(frames := s.frames[f := fr.(pt := Final(fr.pt.out))],
         roots := s.roots[fr.root := s.roots[fr.root].(end := Some(fr.pt.out))], stack := Pop(s))
    case Some(p) =>
      if p < |s.frames| && s.frames[p].pt.OnTask? then
        s.(frames := s.frames[f := fr.(pt := Gone)][p := Resumed(s.frames[p], fr.pt.out, s.frames[p].pt.bind)],
           roots := s.roots[fr.root := s.roots[fr.root].(leaf := p)], stack := Pop(s) + [p])
      else s.(stack := Pop(s))
  }

  /** One step of the running frame. */
  function Step(s: State): State
    requires s.stack != [] && Top(s) < |s.frames| && s.frames[Top(s)].root < |s.roots|
  {
    var f := Top(s);
    var pt := s.frames[f].pt;
    if Local(s.frames[f]).Some? then StepLocal(s, f)
    else if pt.At? && pt.s.AwaitIo? then StepIo(s, f)
    else if pt.At? && pt.s.AwaitTask? then StepCall(s, f)
    else if pt.At? && pt.s.Spawn? then StepSpawn(s, f)
    else if pt.Ending? then StepEnd(s, f)
    else s.(stack := Pop(s))
  }

  /** The loop starts a new task, as a posted callback or an accept loop does. */
  function Start(s: State, prog: Stmt, env: Env): State {
    var c := |s.frames|;
    s.(frames := s.frames + [NewFrame(prog, env, None, |s.roots|)],
       roots := s.roots + [Root(c, prog, env, [], [], c, None, None)], stack := s.stack + [c])
  }

  /** The loop resumes a waiter whose operation has completed. */
  function Complete(s: State, w: nat, out: Outcome): State
    requires w < |s.frames| && s.frames[w].root < |s.roots| && s.frames[w].pt.OnIo?
  {
    var fr := s.frames[w];
    s.(frames := s.frames[w := Resumed(fr, out, fr.pt.bind)], waiters := s.waiters - {w},
       roots := s.roots[fr.root := s.roots[fr.root].(fed := s.roots[fr.root].fed + [out])], stack := s.stack + [w])
  }

  /** `remove` forgets a waiter: it stays suspended for good. */
  function Drop(s: State, w: nat): State { s.(waiters := s.waiters - {w}) }

  /** A frame of a task that has ended with an exception other than `std::exception`. */
  predicate EndedForeign(f: Frame) { f.pt.Final? && f.pt.out.Error? && f.pt.out.e.Foreign? }

  /** `compact_finished_tasks` rethrows the exceptions of the done tasks one by one and catches only `std::exception`;
      any other leaves the function before anything is erased. */
  predicate Clogged(s: State) { exists f :: 0 <= f < |s.frames| && EndedForeign(s.frames[f]) }

  /** `compact_finished_tasks` destroys the frames of the roots that are done, unless it is left by an exception. */
  function Compact(s: State): State {
    if Clogged(s) then s
    else s.(frames := seq(|s.frames|, i requires 0 <= i < |s.frames| =>
      if s.frames[i].pt.Final? then s.frames[i].(pt := Gone) else s.frames[i]))
  }

  // --------------------------------------------------- the shape of the heap

  ghost predicate FrameOk(s: State, f: nat)
    requires f < |s.frames|
  {
    var fr := s.frames[f];
    && fr.root < |s.roots|
    && (fr.cont.None? <==> s.roots[fr.root].frame == f)
    && (fr.cont.Some? ==>
          var p := fr.cont.value;
          && p < f && s.frames[p].root == fr.root
          && (fr.pt.Live() ==> s.frames[p].pt.OnTask? && s.frames[p].pt.callee == f))
    && (fr.pt.OnTask? ==>
          var c := fr.pt.callee;
          && c < |s.frames| && s.frames[c].cont == Some(f) && s.frames[c].pt.Live())
    && (fr.pt.Live() && !fr.pt.OnTask? ==> s.roots[fr.root].leaf == f)
    && (fr.pt.Final? ==> fr.cont.None? && s.roots[fr.root].end == Some(fr.pt.out))
    && (fr.pt.Runnable() <==> f in s.stack)
  }

  ghost predicate RootOk(s: State, r: nat)
    requires r < |s.roots|
  {
    var ro := s.roots[r];
    && ro.frame < |s.frames| && ro.leaf < |s.frames|
    && s.frames[ro.frame].root == r && s.frames[ro.leaf].root == r
    && !s.frames[ro.leaf].pt.OnTask?
    && (ro.end.None? ==> s.frames[ro.leaf].pt.Live() && !s.frames[ro.leaf].pt.Final?)
    && (ro.end.Some? ==> ro.leaf == ro.frame && (s.frames[ro.leaf].pt.Final? || s.frames[ro.leaf].pt.Gone?))
  }

  ghost predicate Shape(s: State) {
    && (forall f :: 0 <= f < |s.frames| ==> FrameOk(s, f))
    && (forall r :: 0 <= r < |s.roots| ==> RootOk(s, r))
    && (forall i, j :: 0 <= i < j < |s.stack| ==> s.stack[i] != s.stack[j])
    && (forall f :: f in s.stack ==> f < |s.frames|)
    && (forall w :: w in s.waiters ==> w < |s.frames| && s.frames[w].pt.OnIo?)
  }

  // ------------------------------------------------------ steps keep the shape

  lemma LocalFrame(f: Frame)
    requires Local(f).Some?
    ensures var fr := Local(f).value.0;
            fr.root == f.root && fr.cont == f.cont && f.pt.Runnable() && fr.pt.Runnable()
  {
  }

  lemma LocalShape(s: State, f: nat)
    requires Shape(s) && f in s.stack && f < |s.frames| && s.frames[f].root < |s.roots| && Local(s.frames[f]).Some?
    ensures Shape(StepLocal(s, f))
  {
    LocalFrame(s.frames[f]);
    hide Local;
    var s' := StepLocal(s, f);
    assert FrameOk(s, f);
    forall g | 0 <= g < |s'.frames| ensures FrameOk(s', g) { assert FrameOk(s, g); }
    forall r | 0 <= r < |s'.roots| ensures RootOk(s', r) { assert RootOk(s, r); }
  }

  lemma PopFacts(s: State)
    requires Shape(s) && s.stack != []
    ensures forall g :: g in Pop(s) <==> g in s.stack && g != Top(s)
    ensures Top(s) in s.stack
  {
  }

  lemma StackBound(s: State)
    requires Shape(s)
    ensures forall i :: 0 <= i < |s.stack| ==> s.stack[i] < |s.frames|
  {
    assert forall i :: 0 <= i < |s.stack| ==> s.stack[i] in s.stack;
  }

  lemma IoShape(s: State, f: nat)
    requires Shape(s) && s.stack != [] && f == Top(s) && f < |s.frames| && s.frames[f].pt.At? && s.frames[f].pt.s.AwaitIo?
    ensures Shape(StepIo(s, f))
  {
    var s' := StepIo(s, f);
    PopFacts(s);
    assert FrameOk(s, f);
    forall g | 0 <= g < |s'.frames| ensures FrameOk(s', g) { assert FrameOk(s, g); }
    forall r | 0 <= r < |s'.roots| ensures RootOk(s', r) { assert RootOk(s, r); }
  }

  lemma CallFrames(s: State, f: nat, g: nat)
    requires Shape(s) && s.stack != [] && f == Top(s) && f < |s.frames| && s.frames[f].root < |s.roots|
    requires s.frames[f].pt.At? && s.frames[f].pt.s.AwaitTask? && g < |s.frames| + 1
    ensures FrameOk(StepCall(s, f), g)
  {
    PopFacts(s);
    StackBound(s);
    assert FrameOk(s, f) && RootOk(s, s.frames[f].root);
    if g < |s.frames| {
      assert FrameOk(s, g);
    }
    hide Shape;
  }

  lemma CallRoots(s: State, f: nat, r: nat)
    requires Shape(s) && s.stack != [] && f == Top(s) && f < |s.frames| && s.frames[f].root < |s.roots|
    requires s.frames[f].pt.At? && s.frames[f].pt.s.AwaitTask? && r < |s.roots|
    ensures RootOk(StepCall(s, f), r)
  {
    assert FrameOk(s, f) && RootOk(s, s.frames[f].root) && RootOk(s, r);
    hide Shape;
  }

  lemma CallShape(s: State, f: nat)
    requires Shape(s) && s.stack != [] && f == Top(s) && f < |s.frames| && s.frames[f].root < |s.roots|
    requires s.frames[f].pt.At? && s.frames[f].pt.s.AwaitTask?
    ensures Shape(StepCall(s, f))
  {
    var s' := StepCall(s, f);
    PopFacts(s);
    StackBound(s);
    hide FrameOk, RootOk;
    forall g | 0 <= g < |s'.frames| ensures FrameOk(s', g) { CallFrames(s, f, g); }
    forall r | 0 <= r < |s'.roots| ensures RootOk(s', r) { CallRoots(s, f, r); }
  }

  lemma SpawnShape(s: State, f: nat)
    requires Shape(s) && s.stack != [] && f == Top(s) && f < |s.frames| && s.frames[f].root < |s.roots|
    requires s.frames[f].pt.At? && s.frames[f].pt.s.Spawn?
    ensures Shape(StepSpawn(s, f))
  {
    var s', c := StepSpawn(s, f), |s.frames|;
    StackBound(s);
    assert FrameOk(s, f) && f in s.stack;
    forall g | 0 <= g < |s'.frames| ensures FrameOk(s', g) { if g < c { assert FrameOk(s, g); } }
    forall r | 0 <= r < |s'.roots| ensures RootOk(s', r) { if r < |s.roots| { assert RootOk(s, r); } }
  }

  lemma RootEndShape(s: State, f: nat)
    requires Shape(s) && s.stack != [] && f == Top(s) && f < |s.frames| && s.frames[f].root < |s.roots|
    requires s.frames[f].pt.Ending? && s.frames[f].cont.None?
    ensures Shape(StepEnd(s, f))
  {
    var s' := StepEnd(s, f);
    PopFacts(s);
    assert FrameOk(s, f) && RootOk(s, s.frames[f].root);
    forall g | 0 <= g < |s'.frames| ensures FrameOk(s', g) { assert FrameOk(s, g); }
    forall r | 0 <= r < |s'.roots| ensures RootOk(s', r) { assert RootOk(s, r); }
  }

  lemma CalleeEndFrame(s: State, f: nat, p: nat, g: nat)
    requires Shape(s) && s.stack != [] && f == Top(s) && f < |s.frames| && s.frames[f].root < |s.roots|
    requires s.frames[f].pt.Ending? && s.frames[f].cont == Some(p) && g < |s.frames|
    ensures FrameOk(StepEnd(s, f), g)
  {
    PopFacts(s);
    assert FrameOk(s, f) && FrameOk(s, p) && FrameOk(s, g);
    hide Shape;
  }

  lemma CalleeEndFrames(s: State, f: nat, p: nat)
    requires Shape(s) && s.stack != [] && f == Top(s) && f < |s.frames| && s.frames[f].root < |s.roots|
    requires s.frames[f].pt.Ending? && s.frames[f].cont == Some(p)
    ensures p < f && s.frames[p].pt.OnTask? && s.frames[p].pt.callee == f && p !in s.stack
    ensures forall g :: 0 <= g < |s.frames| ==> FrameOk(StepEnd(s, f), g)
  {
    PopFacts(s);
    assert FrameOk(s, f) && FrameOk(s, p);
    hide FrameOk;
    forall g | 0 <= g < |s.frames| ensures FrameOk(StepEnd(s, f), g) { CalleeEndFrame(s, f, p, g); }
  }

  lemma CalleeEndShape(s: State, f: nat, p: nat)
    requires Shape(s) && s.stack != [] && f == Top(s) && f < |s.frames| && s.frames[f].root < |s.roots|
    requires s.frames[f].pt.Ending? && s.frames[f].cont == Some(p)
    ensures Shape(StepEnd(s, f))
  {
    var s' := StepEnd(s, f);
    PopFacts(s);
    CalleeEndFrames(s, f, p);
    assert FrameOk(s, f) && FrameOk(s, p) && RootOk(s, s.frames[f].root);
    hide FrameOk;
    forall r | 0 <= r < |s'.roots| ensures RootOk(s', r) { assert RootOk(s, r); }
  }

  lemma StartShape(s: State, prog: Stmt, env: Env)
    requires Shape(s)
    ensures Shape(Start(s, prog, env))
  {
    var s', c := Start(s, prog, env), |s.frames|;
    StackBound(s);
    forall g | 0 <= g < |s'.frames| ensures FrameOk(s', g) { if g < c { assert FrameOk(s, g); } }
    forall r | 0 <= r < |s'.roots| ensures RootOk(s', r) { if r < |s.roots| { assert RootOk(s, r); } }
  }

  lemma CompleteShape(s: State, w: nat, out: Outcome)
    requires Shape(s) && w in s.waiters && s.frames[w].root < |s.roots|
    ensures Shape(Complete(s, w, out))
  {
    var s' := Complete(s, w, out);
    assert FrameOk(s, w);
    forall g | 0 <= g < |s'.frames| ensures FrameOk(s', g) { assert FrameOk(s, g); }
    forall r | 0 <= r < |s'.roots| ensures RootOk(s', r) { assert RootOk(s, r); }
  }

  lemma CompactShape(s: State)
    requires Shape(s)
    ensures Shape(Compact(s))
  {
    var s' := Compact(s);
    if !Clogged(s) {
      forall g | 0 <= g < |s'.frames|
        ensures FrameOk(s', g)
      {
        assert FrameOk(s, g);
        assert s.frames[g].pt.OnTask? ==> FrameOk(s, s.frames[g].pt.callee);
      }
      forall r | 0 <= r < |s'.roots| ensures RootOk(s', r) { assert RootOk(s, r); }
    }
  }
}
