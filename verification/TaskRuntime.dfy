/** `Task` as the C++ runs it: `resume` is a recursive call from `await_suspend`, `final_suspend` and `spawn`. The object
    below nests exactly like that, and is proved to reach the same states as the flat machine of module Tasks. */
module TaskRuntime {
  import opened Wrappers
  import opened Coroutines
  import opened Tasks
  import opened TaskMeaning

  // --------------------------------------------- every resumption terminates

  ghost function Size(s: Stmt): nat {
    match s
    case Seq(a, b) => 1 + Size(a) + Size(b)
    case If(_, a, b) => 1 + Size(a) + Size(b)
    case Try(a, _, _, h) => 2 + Size(a) + Size(h)
    case AwaitTask(body, _) => 3 + Size(body)
    case Spawn(body) => 3 + Size(body)
    case _ => 2
  }

  ghost function KSize(k: K): nat {
    match k
    case Stop => 0
    case Then(s, k') => Size(s) + KSize(k')
    case Catch(_, _, h, k') => 1 + Size(h) + KSize(k')
  }

  ghost function FrameWork(f: Frame): nat {
    match f.pt
    case At(s) => 1 + Size(s) + KSize(f.k)
    case Ending(_) => 1
    case Final(_) => 0
    case Gone => 0
    case _ => 2 + KSize(f.k)
  }

  ghost function Work(frames: seq<Frame>): nat {
    if frames == [] then 0 else Work(frames[..|frames| - 1]) + FrameWork(frames[|frames| - 1])
  }

  lemma {:induction false} WorkUpdate(frames: seq<Frame>, i: nat, f: Frame)
    requires i < |frames|
    ensures Work(frames[i := f]) == Work(frames) - FrameWork(frames[i]) + FrameWork(f)
  {
    var n := |frames| - 1;
    if i == n {
      assert frames[i := f][..n] == frames[..n];
    } else {
      assert frames[i := f][..n] == frames[..n][i := f];
      WorkUpdate(frames[..n], i, f);
    }
  }

  lemma LocalWork(f: Frame)
    requires Local(f).Some?
    ensures FrameWork(Local(f).value.0) < FrameWork(f)
  {
  }

  lemma CallWork(s: State)
    requires TopFactsHold(s) && Local(s.frames[Top(s)]).None?
    requires s.frames[Top(s)].pt.At? && !s.frames[Top(s)].pt.s.AwaitIo?
    ensures Work(Step(s).frames) < Work(s.frames)
  {
    var f, s' := Top(s), Step(s);
    var callee, there := s'.frames[|s.frames|], s.frames[f := s'.frames[f]];
    WorkUpdate(s.frames, f, s'.frames[f]);
    assert s'.frames == there + [callee];
  }

  lemma CalleeEndWork(s: State, p: nat)
    requires TopFactsHold(s) && p < Top(s)
    requires s.frames[Top(s)].pt.Ending? && s.frames[Top(s)].cont == Some(p) && s.frames[p].pt.OnTask?
    ensures Work(Step(s).frames) < Work(s.frames)
  {
    var f, s' := Top(s), Step(s);
    WorkUpdate(s.frames, f, s'.frames[f]);
    WorkUpdate(s.frames[f := s'.frames[f]], p, s'.frames[p]);
  }

  /** Every step of the running coroutine uses up code. */
  lemma StepWork(s: State)
    requires Shape(s) && s.stack != []
    ensures TopFactsHold(s) && Shape(Step(s)) && Work(Step(s).frames) < Work(s.frames)
  {
    TopFacts(s);
    StepShape(s);
    hide Shape, FrameOk, RootOk;
    var f, fr := Top(s), s.frames[Top(s)];
    if Local(fr).Some? {
      LocalWork(fr);
      WorkUpdate(s.frames, f, Local(fr).value.0);
    } else if fr.pt.At? && !fr.pt.s.AwaitIo? {
      CallWork(s);
    } else if fr.pt.Ending? && fr.cont.Some? {
      CalleeEndFrames(s, f, fr.cont.value);
      CalleeEndWork(s, fr.cont.value);
    } else {
      WorkUpdate(s.frames, f, Step(s).frames[f]);
    }
  }

  /** The flat machine: step until at most n coroutines are on the stack. */
  ghost function RunDown(s: State, n: nat): (s': State)
    requires Shape(s)
    ensures Shape(s')
    decreases Work(s.frames)
  {
    if |s.stack| <= n then s
    else
      StepWork(s);
      RunDown(Step(s), n)
  }

  lemma {:induction false} RunDownGood(s: State, n: nat)
    requires Good(s)
    ensures Good(RunDown(s, n))
    decreases Work(s.frames)
  {
    if |s.stack| > n {
      StepWork(s);
      StepKeepsGood(s);
      RunDownGood(Step(s), n);
    }
  }

  lemma {:induction false} RunDownInTwo(s: State, m: nat, n: nat)
    requires Shape(s) && n <= m
    ensures RunDown(RunDown(s, m), n) == RunDown(s, n)
    decreases Work(s.frames)
  {
    if |s.stack| > m {
      StepWork(s);
      RunDownInTwo(Step(s), m, n);
    }
  }

  /** The coroutines below the n-th are not touched. */
  lemma {:induction false} RunDownStack(s: State, n: nat)
    requires Shape(s) && n <= |s.stack|
    ensures RunDown(s, n).stack == s.stack[..n]
    decreases Work(s.frames)
  {
    if |s.stack| > n {
      StepWork(s);
      assert Step(s).stack[..n] == s.stack[..n];
      RunDownStack(Step(s), n);
    } else {
      assert s.stack[..n] == s.stack;
    }
  }

  /** What coroutines do leaves the program, the locals at the start, the inputs and the origin of every task alone. */
  lemma {:induction false} RunDownRoots(s: State, n: nat, r: nat)
    requires Shape(s) && r < |s.roots|
    ensures var s' := RunDown(s, n);
            r < |s'.roots| && SameOrigin(s.roots[r], s'.roots[r]) && s'.roots[r].fed == s.roots[r].fed
    decreases Work(s.frames)
  {
    if |s.stack| > n {
      StepWork(s);
      StepRoots(s);
      hide Step, Shape, Work;
      RunDownRoots(Step(s), n, r);
    }
  }

  ghost predicate RootsKept(roots: seq<Root>, roots': seq<Root>) {
    && |roots| <= |roots'|
    && forall q :: 0 <= q < |roots| ==> SameOrigin(roots[q], roots'[q]) && roots'[q].fed == roots[q].fed
  }

  lemma RunDownKeeps(s: State, n: nat)
    requires Shape(s)
    ensures RootsKept(s.roots, RunDown(s, n).roots)
  {
    forall q | 0 <= q < |s.roots|
      ensures var s' := RunDown(s, n);
              q < |s'.roots| && SameOrigin(s.roots[q], s'.roots[q]) && s'.roots[q].fed == s.roots[q].fed
    {
      RunDownRoots(s, n, q);
    }
    hide Shape;
    if s.roots != [] {
      assert SameOrigin(s.roots[|s.roots| - 1], RunDown(s, n).roots[|s.roots| - 1]);
    }
  }

  lemma DownAlready(s: State, n: nat)
    requires Good(s) && |s.stack| <= n
    ensures RunDown(s, n) == s
  {
  }

  lemma FinalFacts(s: State)
    requires Shape(s) && s.stack != []
    ensures TopFactsHold(s)
    ensures s.frames[Top(s)].pt.Ending? && s.frames[Top(s)].cont.Some? ==>
              var p := s.frames[Top(s)].cont.value; p < |s.frames| && s.frames[p].pt.OnTask?
  {
    TopFacts(s);
    assert FrameOk(s, Top(s));
  }

  /** Running what was just resumed down to the caller, and then the caller, is running both down. */
  lemma NestedReturns(s: State, m: nat, n: nat)
    requires Good(s) && n <= m <= |s.stack|
    ensures RunDown(RunDown(s, m), n) == RunDown(s, n)
    ensures Good(RunDown(s, m)) && RunDown(s, m).stack == s.stack[..m]
    ensures Work(RunDown(s, m).frames) <= Work(s.frames)
  {
    RunDownInTwo(s, m, n);
    RunDownStack(s, m);
    RunDownGood(s, m);
    RunDownWork(s, m);
  }

  lemma {:induction false} RunDownWork(s: State, n: nat)
    requires Shape(s)
    ensures Work(RunDown(s, n).frames) <= Work(s.frames)
    decreases Work(s.frames)
  {
    if |s.stack| > n {
      StepWork(s);
      RunDownWork(Step(s), n);
    }
  }

  class Runtime {
    var frames: seq<Frame>
    var roots: seq<Root>
    var waiters: set<nat>
    // The activations of `resume` on the native stack that still have coroutine code to run.
    ghost var stack: seq<nat>

    ghost function Abs(): State
      reads this
    {
      State(frames, roots, waiters, stack)
    }

    constructor ()
      ensures Abs() == EMPTY && Good(Abs())
    {
      frames, roots, waiters, stack := [], [], {}, [];
    }

    method RunLocal(f: nat)
      requires f < |frames| && frames[f].root < |roots| && Local(frames[f]).Some?
      modifies this`frames, this`roots
      ensures Abs() == StepLocal(old(Abs()), f)
    {
      var (fr, eff) := Local(frames[f]).value;
      roots := roots[fr.root := roots[fr.root].(log := roots[fr.root].log + eff)];
      frames := frames[f := fr];
    }

    method SuspendOnIo(f: nat)
      requires stack != [] && f < |frames| && frames[f].pt.At? && frames[f].pt.s.AwaitIo?
      modifies this
      ensures Abs() == StepIo(old(Abs()), f)
    {
      frames := frames[f := frames[f].(pt := OnIo(frames[f].pt.s.bind))];
      waiters := waiters + {f};
      stack := stack[..|stack| - 1];
    }

    /** The call creates the callee's frame; `Awaiter::await_suspend` links it to its caller. */
    method AwaitSuspend(f: nat) returns (c: nat)
      requires stack != [] && f < |frames| && frames[f].root < |roots| && frames[f].pt.At? && frames[f].pt.s.AwaitTask?
      modifies this`frames, this`roots, this`stack
      ensures Abs() == StepCall(old(Abs()), f) && c == |old(frames)|
    {
      c := |frames|;
      var fr := frames[f];
      var callee := NewFrame(fr.pt.s.body, fr.env, None, fr.root);
      frames := frames[f := fr.(pt := OnTask(c, fr.pt.s.bind))];
      callee := callee.(cont := Some(f));
      frames := frames + [callee];
      roots := roots[fr.root := roots[fr.root].(leaf := c)];
      stack := stack[..|stack| - 1] + [c];
    }

    /** `spawn`: the loop stores the task, then resumes it. */
    method Spawn(f: nat) returns (c: nat)
      requires f < |frames| && frames[f].root < |roots| && frames[f].pt.At? && frames[f].pt.s.Spawn?
      modifies this`frames, this`roots, this`stack
      ensures Abs() == StepSpawn(old(Abs()), f) && c == |old(frames)|
    {
      c := |frames|;
      var fr := frames[f];
      var body := fr.pt.s.body;
      frames := frames[f := fr.(pt := Next)] + [NewFrame(body, fr.env, None, |roots|)];
      var spawner := Some((fr.root, |roots[fr.root].log|));
      roots := roots[fr.root := roots[fr.root].(log := roots[fr.root].log + [Spawned(body, fr.env)])]
        + [Root(c, body, fr.env, [], [], c, None, spawner)];
      stack := stack + [c];
    }

    /** `FinalAwaiter::await_suspend` up to the resumption of the continuation, if there is one. */
    method FinalSuspend(f: nat) returns (next: Option<nat>)
      requires stack != [] && f < |frames| && frames[f].root < |roots| && frames[f].pt.Ending?
      requires frames[f].cont.Some? ==> frames[f].cont.value < |frames| && frames[frames[f].cont.value].pt.OnTask?
      modifies this`frames, this`roots, this`stack
      ensures Abs() == StepEnd(old(Abs()), f) && next == old(frames)[f].cont
    {
      var fr := frames[f];
      next := fr.cont;
      stack := stack[..|stack| - 1];
      if next.None? {
        frames := frames[f := fr.(pt := Final(fr.pt.out))];
        roots := roots[fr.root := roots[fr.root].(end := Some(fr.pt.out))];
      } else {
        var p := next.value;
        var caller := frames[p];
        frames := frames[f := fr.(pt := Gone)][p := Resumed(caller, fr.pt.out, caller.pt.bind)];
        roots := roots[fr.root := roots[fr.root].(leaf := p)];
        stack := stack + [p];
      }
    }

    /** The body of frame f up to the next thing that concerns others: `next` is the frame it resumes there and then,
        `on` tells whether f has code left to run once that call has returned. */
    method Advance(f: nat) returns (next: Option<nat>, on: bool)
      requires Shape(Abs()) && stack != [] && Top(Abs()) == f
      modifies this
      ensures TopFactsHold(old(Abs())) && Abs() == Step(old(Abs()))
      ensures next.Some? ==> stack != [] && Top(Abs()) == next.value
      ensures |stack| == |old(stack)| + (if on then 0 else -1) + (if next.Some? then 1 else 0)
      ensures on ==> stack[..|old(stack)|] == old(stack)
    {
      FinalFacts(Abs());
      TopFacts(Abs());
      hide Shape;
      next, on := None, false;
      if Local(frames[f]).Some? {
        RunLocal(f);
        on := true;
      } else if frames[f].pt.At? && frames[f].pt.s.Spawn? {
        var c := Spawn(f);
        next, on := Some(c), true;
      } else if frames[f].pt.At? && frames[f].pt.s.AwaitTask? {
        var c := AwaitSuspend(f);
        next := Some(c);
      } else if frames[f].pt.At? {
        SuspendOnIo(f);
      } else {
        next := FinalSuspend(f);
      }
    }

    /** `handle.resume()`: run frame f until it suspends. What is resumed from inside an `await_suspend` or
        `final_suspend` runs to its own suspension first, and nothing is left to do afterwards; only a `spawn` returns
        into coroutine code. */
    method Resume(f: nat)
      requires Good(Abs()) && stack != [] && Top(Abs()) == f
      modifies this
      ensures Good(Abs())
      ensures Abs() == RunDown(old(Abs()), |old(stack)| - 1)
      decreases Work(frames)
    {
      ghost var s0, n := Abs(), |stack| - 1;
      RunDownGood(s0, n);
      while true
        invariant Good(Abs()) && stack == s0.stack && Work(frames) <= Work(s0.frames)
        invariant RunDown(Abs(), n) == RunDown(s0, n)
        decreases Work(frames)
      {
        ghost var s := Abs();
        StepWork(s);
        StepKeepsGood(s);
        assert RunDown(s, n) == RunDown(Step(s), n);
        hide Good, RunDown, Work, Step, Shape;
        var next, on := Advance(f);
        NestedReturns(Abs(), if next.Some? then |stack| - 1 else |stack|, n);
        DownAlready(Abs(), |stack|);
        if next.Some? {
          Resume(next.value);
        }
        if !on {
          DownAlready(Abs(), n);
          return;
        }
      }
    }

    /** `EventLoop::spawn` called by the loop itself: the task that was handed over runs up to its first suspension. */
    method StartTask(prog: Stmt, env: Env)
      requires Good(Abs()) && stack == []
      modifies this
      ensures Good(Abs()) && stack == []
      ensures Shape(Start(old(Abs()), prog, env)) && Abs() == RunDown(Start(old(Abs()), prog, env), 0)
      ensures forall r :: 0 <= r < |roots| ==> Settled(Abs(), r)
      ensures |old(roots)| < |roots| && roots[|old(roots)|].spawner == None
      ensures var ro := roots[|old(roots)|];
              && ro.prog == prog && ro.env == env && ro.fed == []
              && Meaning(prog, env, []) == Fin(ro.log, if ro.end.Some? then Some((ro.end.value, [])) else None)
      ensures forall q :: 0 <= q < |old(roots)| ==> SameOrigin(old(roots)[q], roots[q]) && roots[q].fed == old(roots)[q].fed
    {
      var c := |frames|;
      StartKeepsGood(Abs(), prog, env);
      frames := frames + [NewFrame(prog, env, None, |roots|)];
      roots := roots + [Root(c, prog, env, [], [], c, None, None)];
      stack := [c];
      assert Abs() == Start(old(Abs()), prog, env) by { assert old(stack) + [c] == [c]; }
      RunDownStack(Abs(), 0);
      ghost var s := Abs();
      assert Shape(s);
      RunDownKeeps(s, 0);
      hide RunDown, Good, Shape;
      Resume(c);
      forall r | 0 <= r < |roots| ensures Settled(Abs(), r) { GoodSettles(Abs(), r); }
      assert RootsKept(s.roots, roots) && Settled(Abs(), |old(roots)|);
    }

    /** The loop resumes a waiter: `dispatch` after readiness, or a posted continuation after an offload. */
    method CompleteIo(w: nat, out: Outcome)
      requires Good(Abs()) && stack == [] && w in waiters
      modifies this
      ensures old(w < |frames| && frames[w].root < |roots| && frames[w].pt.OnIo?)
      ensures Good(Abs()) && stack == []
      ensures Shape(Complete(old(Abs()), w, out)) && Abs() == RunDown(Complete(old(Abs()), w, out), 0)
      ensures forall r :: 0 <= r < |roots| ==> Settled(Abs(), r)
      ensures |old(roots)| <= |roots|
      ensures forall q :: 0 <= q < |old(roots)| ==>
                && SameOrigin(old(roots)[q], roots[q])
                && roots[q].fed == if q == old(frames)[w].root then old(roots)[q].fed + [out] else old(roots)[q].fed
    {
      CompleteKeepsGood(Abs(), w, out);
      var fr := frames[w];
      waiters := waiters - {w};
      frames := frames[w := Resumed(fr, out, fr.pt.bind)];
      roots := roots[fr.root := roots[fr.root].(fed := roots[fr.root].fed + [out])];
      stack := [w];
      assert Abs() == Complete(old(Abs()), w, out) by { assert old(stack) + [w] == [w]; }
      RunDownStack(Abs(), 0);
      ghost var s := Abs();
      assert Shape(s);
      RunDownKeeps(s, 0);
      hide RunDown, Good, Shape;
      Resume(w);
      forall r | 0 <= r < |roots| ensures Settled(Abs(), r) { GoodSettles(Abs(), r); }
      assert RootsKept(s.roots, roots);
    }

    /** `compact_finished_tasks`: rethrow what the done tasks have ended with, then destroy them. Only `std::exception` is
        caught; anything else leaves the method before the first task is destroyed. */
    method CompactFinished() returns (thrown: Option<Exn>)
      requires Good(Abs()) && stack == []
      modifies this`frames
      ensures Good(Abs()) && Abs() == Compact(old(Abs()))
      ensures thrown.Some? <==> Clogged(old(Abs()))
      ensures thrown.Some? ==> thrown.value.Foreign?
    {
      ghost var s := Abs();
      CompactKeepsGood(s);
      thrown := Report();
      if thrown.None? {
        Erase();
      }
    }

    method Report() returns (thrown: Option<Exn>)
      requires Good(Abs())
      ensures thrown.Some? <==> Clogged(Abs())
      ensures thrown.Some? ==> thrown.value.Foreign?
    {
      for r := 0 to |roots|
        invariant forall f :: 0 <= f < |frames| && frames[f].root < r ==> !EndedForeign(frames[f])
      {
        assert RootOk(Abs(), r);
        var pt := frames[roots[r].frame].pt;
        if pt.Final? && pt.out.Error? {
          if pt.out.e.Foreign? {
            assert EndedForeign(frames[roots[r].frame]);
            return Some(pt.out.e);
          }
        }
        forall f | 0 <= f < |frames| && frames[f].root == r && frames[f].pt.Final?
          ensures f == roots[r].frame
        {
          assert FrameOk(Abs(), f);
        }
      }
      forall f | 0 <= f < |frames| ensures frames[f].root < |roots| { assert FrameOk(Abs(), f); }
      return None;
    }

    method Erase()
      requires Good(Abs()) && !Clogged(Abs())
      modifies this`frames
      ensures Abs() == Compact(old(Abs()))
    {
      ghost var s := Abs();
      for r := 0 to |roots|
        invariant |frames| == |s.frames|
        invariant forall f :: 0 <= f < |frames| ==>
                    frames[f] == if s.frames[f].pt.Final? && s.frames[f].root < r then s.frames[f].(pt := Gone) else s.frames[f]
      {
        assert RootOk(s, r);
        forall f | 0 <= f < |frames| && s.frames[f].pt.Final? && s.frames[f].root == r
          ensures f == roots[r].frame
        {
          assert FrameOk(s, f);
        }
        if frames[roots[r].frame].pt.Final? {
          frames := frames[roots[r].frame := frames[roots[r].frame].(pt := Gone)];
        }
      }
      forall f | 0 <= f < |frames| ensures s.frames[f].root < |roots| { assert FrameOk(s, f); }
      assert frames == Compact(s).frames;
    }
  }
}
