/** The frame machine computes what the direct-style evaluator computes, for every schedule of completions. */
module TaskMeaning {
  import opened Wrappers
  import opened Coroutines
  import opened Tasks

  // ------------------------------------- the meaning of frames and of chains

  /** What a frame's remaining statements make of a result. */
  ghost function Plug(k: K, r: Res): Res
    decreases k
  {
    match k
    case Stop => r
    case Then(s, k') => Plug(k', if r.ctl.Normal? then Prefix(r.log, Eval(s, r.ctl.env, r.ctl.ins)) else r)
    case Catch(all, bind, h, k') =>
      Plug(k', if r.ctl.Threw? && Catches(all, r.ctl.e) then Prefix(r.log, Eval(h, bind(r.ctl.env, r.ctl.e), r.ctl.ins)) else r)
  }

  ghost function Ended(out: Outcome, ins: seq<Outcome>): Fin { Fin([], Some((out, ins))) }

  /** How a frame that is not waiting for a callee will end, given the inputs still to come. */
  ghost function FrameFin(f: Frame, ins: seq<Outcome>): Fin {
    match f.pt
    case At(s) => Finish(Plug(f.k, Eval(s, f.env, ins)))
    case Next => Finish(Plug(f.k, Res([], Normal(f.env, ins))))
    case Raise(e) => Finish(Plug(f.k, Res([], Threw(e, f.env, ins))))
    case OnIo(bind) => Finish(Plug(f.k, Eval(AwaitIo(bind), f.env, ins)))
    case Ending(out) => Ended(out, ins)
    case Final(out) => Ended(out, ins)
    case _ => Fin([], None)
  }

  /** How the root of frame f's call chain will end, given how f ends: each caller takes the outcome in turn. */
  ghost function ChainFin(frames: seq<Frame>, f: nat, fin: Fin): Fin
    requires f < |frames|
  {
    if frames[f].cont.None? then fin
    else
      var p := frames[f].cont.value;
      if p < f && frames[p].pt.OnTask? then
        ChainFin(frames, p, Finish(Plug(frames[p].k, AfterCall(fin, frames[p].env, frames[p].pt.bind))))
      else fin
  }

  ghost function RootFin(s: State, r: nat, ins: seq<Outcome>): Fin
    requires r < |s.roots| && s.roots[r].leaf < |s.frames|
  {
    if s.roots[r].end.Some? then Ended(s.roots[r].end.value, ins)
    else ChainFin(s.frames, s.roots[r].leaf, FrameFin(s.frames[s.roots[r].leaf], ins))
  }

  /** Root r is on course: its program, on the inputs fed so far and any future, has the effects so far and then
      whatever its frames will make of that future. */
  ghost predicate OnCourse(s: State, r: nat, ins: seq<Outcome>)
    requires r < |s.roots| && s.roots[r].leaf < |s.frames|
  {
    var ro := s.roots[r];
    Meaning(ro.prog, ro.env, ro.fed + ins) == PrefixFin(ro.log, RootFin(s, r, ins))
  }

  ghost predicate Faithful(s: State)
    requires Shape(s)
  {
    forall r, ins :: 0 <= r < |s.roots| ==> RootOk(s, r) && OnCourse(s, r, ins)
  }

  // ------------------------------------------------------------ their algebra

  lemma PrefixLaws(a: seq<Effect>, b: seq<Effect>, r: Res, f: Fin)
    ensures Prefix(a, Prefix(b, r)) == Prefix(a + b, r)
    ensures PrefixFin(a, PrefixFin(b, f)) == PrefixFin(a + b, f)
    ensures Finish(Prefix(a, r)) == PrefixFin(a, Finish(r))
    ensures Prefix([], r) == r && PrefixFin([], f) == f
  {
  }

  lemma {:induction false} PlugPrefix(k: K, log: seq<Effect>, r: Res)
    ensures Plug(k, Prefix(log, r)) == Prefix(log, Plug(k, r))
    decreases k
  {
    match k
    case Stop =>
    case Then(s, k') =>
      if r.ctl.Normal? {
        var e := Eval(s, r.ctl.env, r.ctl.ins);
        PrefixLaws(log, r.log, e, Finish(e));
        PlugPrefix(k', log, Prefix(r.log, e));
      } else {
        PlugPrefix(k', log, r);
      }
    case Catch(all, bind, h, k') =>
      if r.ctl.Threw? && Catches(all, r.ctl.e) {
        var e := Eval(h, bind(r.ctl.env, r.ctl.e), r.ctl.ins);
        PrefixLaws(log, r.log, e, Finish(e));
        PlugPrefix(k', log, Prefix(r.log, e));
      } else {
        PlugPrefix(k', log, r);
      }
  }

  /** Neither a return nor a block is stopped by what remains of the frame. */
  lemma {:induction false} PlugReturned(k: K, r: Res)
    requires r.ctl.Returned? || r.ctl.Blocked?
    ensures Plug(k, r) == r
    decreases k
  {
    if !k.Stop? {
      PlugReturned(k.k, r);
    }
  }

  lemma {:induction false} ChainPrefix(frames: seq<Frame>, f: nat, log: seq<Effect>, fin: Fin)
    requires f < |frames|
    ensures ChainFin(frames, f, PrefixFin(log, fin)) == PrefixFin(log, ChainFin(frames, f, fin))
  {
    if frames[f].cont.Some? && frames[f].cont.value < f && frames[frames[f].cont.value].pt.OnTask? {
      var p := frames[f].cont.value;
      var a := AfterCall(fin, frames[p].env, frames[p].pt.bind);
      assert AfterCall(PrefixFin(log, fin), frames[p].env, frames[p].pt.bind) == Prefix(log, a);
      PlugPrefix(frames[p].k, log, a);
      PrefixLaws(log, [], Plug(frames[p].k, a), fin);
      ChainPrefix(frames, p, log, Finish(Plug(frames[p].k, a)));
    }
  }

  /** A chain depends only on the frames of its own root that it waits on. */
  lemma {:induction false} ChainFrame(s: State, frames: seq<Frame>, f: nat, fin: Fin)
    requires Shape(s) && f < |s.frames| <= |frames| && frames[f].cont == s.frames[f].cont
    requires forall i :: 0 <= i < f && s.frames[i].root == s.frames[f].root && s.frames[i].pt.OnTask? ==> frames[i] == s.frames[i]
    requires forall i :: 0 <= i < f && s.frames[i].root == s.frames[f].root && !s.frames[i].pt.OnTask? ==> !frames[i].pt.OnTask?
    ensures ChainFin(frames, f, fin) == ChainFin(s.frames, f, fin)
    decreases f
  {
    assert FrameOk(s, f);
    if s.frames[f].cont.Some? && s.frames[s.frames[f].cont.value].pt.OnTask? {
      var p := s.frames[f].cont.value;
      ChainFrame(s, frames, p, Finish(Plug(frames[p].k, AfterCall(fin, frames[p].env, frames[p].pt.bind))));
    }
  }

  /** A step inside a frame keeps the frame's meaning. */
  lemma LocalKeeps(f: Frame, ins: seq<Outcome>)
    requires Local(f).Some?
    ensures var (f', eff) := Local(f).value; FrameFin(f, ins) == PrefixFin(eff, FrameFin(f', ins))
  {
    var (f', eff) := Local(f).value;
    PrefixLaws([], [], Res([], Normal(f.env, ins)), FrameFin(f', ins));
    match f.pt {
      case At(s) =>
        if s.Emit? {
          assert eff + [] == eff;
          PlugPrefix(f.k, eff, Res([], Normal(f.env, ins)));
          PrefixLaws(eff, [], Plug(f.k, Res([], Normal(f.env, ins))), FrameFin(f', ins));
        } else if s.Return? {
          PlugReturned(f.k, Eval(s, f.env, ins));
        }
      case Next =>
        if f.k.Then? {
          PrefixLaws([], [], Eval(f.k.s, f.env, ins), FrameFin(f', ins));
        }
      case Raise(e) =>
        if f.k.Catch? {
          PrefixLaws([], [], Eval(f.k.handler, f.k.bind(f.env, e), ins), FrameFin(f', ins));
        }
      case _ =>
    }
  }

  // ---------------------------------------------------- steps stay on course

  /** A step of another root changes nothing for root r. */
  lemma OtherRoot(s: State, s': State, r: nat, ins: seq<Outcome>)
    requires Shape(s) && Shape(s') && r < |s.roots| <= |s'.roots| && |s.frames| <= |s'.frames| && s'.roots[r] == s.roots[r]
    requires RootOk(s, r) && RootOk(s', r) && OnCourse(s, r, ins)
    requires forall i :: 0 <= i < |s.frames| && s.frames[i].root == r ==> s'.frames[i] == s.frames[i]
    ensures OnCourse(s', r, ins)
  {
    var f := s.roots[r].leaf;
    ChainFrame(s, s'.frames, f, FrameFin(s.frames[f], ins));
  }

  lemma LocalOnCourse(s: State, f: nat, ins: seq<Outcome>)
    requires Shape(s) && f in s.stack && f < |s.frames| && s.frames[f].root < |s.roots| && Local(s.frames[f]).Some?
    requires var r := s.frames[f].root; RootOk(s, r) && OnCourse(s, r, ins)
    requires Shape(StepLocal(s, f)) && RootOk(StepLocal(s, f), s.frames[f].root)
    ensures OnCourse(StepLocal(s, f), s.frames[f].root, ins)
  {
    var s', r := StepLocal(s, f), s.frames[f].root;
    var (fr, eff) := Local(s.frames[f]).value;
    assert FrameOk(s, f) && s.roots[r].leaf == f;
    LocalKeeps(s.frames[f], ins);
    ChainPrefix(s.frames, f, eff, FrameFin(fr, ins));
    ChainFrame(s, s'.frames, f, FrameFin(fr, ins));
    PrefixLaws(s.roots[r].log, eff, Res([], Blocked), ChainFin(s.frames, f, FrameFin(fr, ins)));
  }

  lemma IoOnCourse(s: State, f: nat, ins: seq<Outcome>)
    requires Shape(s) && s.stack != [] && f == Top(s) && f < |s.frames| && s.frames[f].root < |s.roots|
    requires s.frames[f].pt.At? && s.frames[f].pt.s.AwaitIo?
    requires var r := s.frames[f].root; RootOk(s, r) && OnCourse(s, r, ins)
    requires Shape(StepIo(s, f)) && RootOk(StepIo(s, f), s.frames[f].root)
    ensures OnCourse(StepIo(s, f), s.frames[f].root, ins)
  {
    PopFacts(s);
    assert FrameOk(s, f) && s.roots[s.frames[f].root].leaf == f;
    ChainFrame(s, StepIo(s, f).frames, f, FrameFin(s.frames[f], ins));
  }

  lemma CallOnCourse(s: State, f: nat, ins: seq<Outcome>)
    requires Shape(s) && s.stack != [] && f == Top(s) && f < |s.frames| && s.frames[f].root < |s.roots|
    requires s.frames[f].pt.At? && s.frames[f].pt.s.AwaitTask?
    requires var r := s.frames[f].root; RootOk(s, r) && OnCourse(s, r, ins)
    requires Shape(StepCall(s, f)) && RootOk(StepCall(s, f), s.frames[f].root)
    ensures OnCourse(StepCall(s, f), s.frames[f].root, ins)
  {
    var s', fr, c := StepCall(s, f), s.frames[f], |s.frames|;
    PopFacts(s);
    assert FrameOk(s, f) && s.roots[fr.root].leaf == f;
    var callee := Meaning(fr.pt.s.body, fr.env, ins);
    assert s'.frames[c] == NewFrame(fr.pt.s.body, fr.env, Some(f), fr.root);
    assert FrameFin(s'.frames[c], ins) == callee;
    assert s'.frames[f] == fr.(pt := OnTask(c, fr.pt.s.bind));
    var fin := Finish(Plug(fr.k, AfterCall(callee, fr.env, fr.pt.s.bind)));
    assert ChainFin(s'.frames, c, callee) == ChainFin(s'.frames, f, fin);
    ChainFrame(s, s'.frames, f, fin);
  }

  lemma CalleeEndOnCourse(s: State, f: nat, p: nat, ins: seq<Outcome>)
    requires Shape(s) && s.stack != [] && f == Top(s) && f < |s.frames| && s.frames[f].root < |s.roots|
    requires s.frames[f].pt.Ending? && s.frames[f].cont == Some(p)
    requires var r := s.frames[f].root; RootOk(s, r) && OnCourse(s, r, ins)
    requires Shape(StepEnd(s, f)) && RootOk(StepEnd(s, f), s.frames[f].root)
    ensures OnCourse(StepEnd(s, f), s.frames[f].root, ins)
  {
    var s', out := StepEnd(s, f), s.frames[f].pt.out;
    PopFacts(s);
    CalleeEndFrames(s, f, p);
    assert FrameOk(s, f) && s.roots[s.frames[f].root].leaf == f;
    var fin := FrameFin(s'.frames[p], ins);
    assert fin == Finish(Plug(s.frames[p].k, AfterCall(Ended(out, ins), s.frames[p].env, s.frames[p].pt.bind)));
    assert ChainFin(s.frames, f, Ended(out, ins)) == ChainFin(s.frames, p, fin);
    assert FrameOk(s, p);
    ChainFrame(s, s'.frames, p, fin);
  }

  lemma RootEndOnCourse(s: State, f: nat, ins: seq<Outcome>)
    requires Shape(s) && s.stack != [] && f == Top(s) && f < |s.frames| && s.frames[f].root < |s.roots|
    requires s.frames[f].pt.Ending? && s.frames[f].cont.None?
    requires var r := s.frames[f].root; RootOk(s, r) && OnCourse(s, r, ins)
    requires Shape(StepEnd(s, f)) && RootOk(StepEnd(s, f), s.frames[f].root)
    ensures OnCourse(StepEnd(s, f), s.frames[f].root, ins)
  {
    PopFacts(s);
    assert FrameOk(s, f) && s.roots[s.frames[f].root].leaf == f;
  }

  lemma CompleteOnCourse(s: State, w: nat, out: Outcome, ins: seq<Outcome>)
    requires Shape(s) && w in s.waiters && s.frames[w].root < |s.roots|
    requires var r := s.frames[w].root; RootOk(s, r) && OnCourse(s, r, [out] + ins)
    requires Shape(Complete(s, w, out)) && RootOk(Complete(s, w, out), s.frames[w].root)
    ensures OnCourse(Complete(s, w, out), s.frames[w].root, ins)
  {
    var s', fr := Complete(s, w, out), s.frames[w];
    var r := fr.root;
    assert FrameOk(s, w) && s.roots[r].leaf == w;
    assert s.roots[r].fed + ([out] + ins) == s'.roots[r].fed + ins;
    assert ([out] + ins)[0] == out && ([out] + ins)[1..] == ins;
    assert FrameFin(fr, [out] + ins) == FrameFin(s'.frames[w], ins);
    ChainFrame(s, s'.frames, w, FrameFin(fr, [out] + ins));
  }

  lemma SpawnOnCourse(s: State, f: nat, ins: seq<Outcome>)
    requires Shape(s) && f in s.stack && f < |s.frames| && s.frames[f].root < |s.roots|
    requires s.frames[f].pt.At? && s.frames[f].pt.s.Spawn?
    requires var r := s.frames[f].root; RootOk(s, r) && OnCourse(s, r, ins)
    requires Shape(StepSpawn(s, f)) && RootOk(StepSpawn(s, f), s.frames[f].root)
    ensures OnCourse(StepSpawn(s, f), s.frames[f].root, ins)
  {
    var s', fr := StepSpawn(s, f), s.frames[f];
    var r, eff := fr.root, [Spawned(fr.pt.s.body, fr.env)];
    assert FrameOk(s, f) && s.roots[r].leaf == f;
    var after := FrameFin(s'.frames[f], ins);
    assert eff + [] == eff;
    PlugPrefix(fr.k, eff, Res([], Normal(fr.env, ins)));
    PrefixLaws(eff, [], Plug(fr.k, Res([], Normal(fr.env, ins))), after);
    assert FrameFin(fr, ins) == PrefixFin(eff, after);
    ChainPrefix(s.frames, f, eff, after);
    ChainFrame(s, s'.frames, f, after);
    PrefixLaws(s.roots[r].log, eff, Res([], Blocked), ChainFin(s.frames, f, after));
  }

  lemma NewRootOnCourse(s: State, r: nat, ins: seq<Outcome>)
    requires Shape(s) && r < |s.roots| && RootOk(s, r)
    requires var ro := s.roots[r];
             && ro.fed == [] && ro.log == [] && ro.end.None?
             && s.frames[ro.leaf] == NewFrame(ro.prog, ro.env, None, r)
    ensures OnCourse(s, r, ins)
  {
    assert s.roots[r].fed + ins == ins;
    PrefixLaws([], [], Res([], Blocked), RootFin(s, r, ins));
  }

  // ------------------------------------------------------------- every step

  ghost predicate Good(s: State) { Shape(s) && Faithful(s) }

  /** What a step of frame f leaves alone: every other root and its frames. */
  ghost predicate OnlyRoot(s: State, s': State, r: nat) {
    && |s.roots| <= |s'.roots| && |s.frames| <= |s'.frames|
    && (forall q :: 0 <= q < |s.roots| && q != r ==> s'.roots[q] == s.roots[q])
    && (forall i :: 0 <= i < |s.frames| && s.frames[i].root != r ==> s'.frames[i] == s.frames[i])
  }

  lemma OthersStay(s: State, s': State, r: nat)
    requires Good(s) && Shape(s') && OnlyRoot(s, s', r)
    ensures forall q, ins :: 0 <= q < |s.roots| && q != r ==> RootOk(s', q) && OnCourse(s', q, ins)
  {
    forall q, ins | 0 <= q < |s.roots| && q != r
      ensures RootOk(s', q) && OnCourse(s', q, ins)
    {
      assert RootOk(s, q) && RootOk(s', q) && OnCourse(s, q, ins);
      hide Shape, Faithful, OnCourse, RootOk;
      OtherRoot(s, s', q, ins);
    }
  }

  /** The running frame is where it should be. */
  lemma TopFacts(s: State)
    requires Shape(s) && s.stack != []
    ensures Top(s) in s.stack && Top(s) < |s.frames| && s.frames[Top(s)].root < |s.roots|
    ensures s.frames[Top(s)].pt.Runnable() && RootOk(s, s.frames[Top(s)].root)
  {
    assert Top(s) in s.stack && FrameOk(s, Top(s));
  }

  lemma StepShape(s: State)
    requires Shape(s) && s.stack != []
    ensures TopFactsHold(s) && Shape(Step(s)) && OnlyRoot(s, Step(s), s.frames[Top(s)].root)
  {
    TopFacts(s);
    var f := Top(s);
    var pt := s.frames[f].pt;
    if Local(s.frames[f]).Some? {
      LocalShape(s, f);
    } else if pt.At? && pt.s.AwaitIo? {
      IoShape(s, f);
    } else if pt.At? && pt.s.AwaitTask? {
      CallShape(s, f);
    } else if pt.At? && pt.s.Spawn? {
      SpawnShape(s, f);
    } else if s.frames[f].cont.None? {
      RootEndShape(s, f);
    } else {
      assert FrameOk(s, f);
      CalleeEndShape(s, f, s.frames[f].cont.value);
    }
  }

  predicate TopFactsHold(s: State) {
    s.stack != [] && Top(s) < |s.frames| && s.frames[Top(s)].root < |s.roots|
  }

  lemma TopOnCourse(s: State, ins: seq<Outcome>)
    requires Good(s) && s.stack != [] && TopFactsHold(s)
    requires Shape(Step(s)) && s.frames[Top(s)].root < |Step(s).roots| && RootOk(Step(s), s.frames[Top(s)].root)
    ensures OnCourse(Step(s), s.frames[Top(s)].root, ins)
  {
    var f := Top(s);
    var fr := s.frames[f];
    TopFacts(s);
    assert OnCourse(s, fr.root, ins);
    hide Shape, Faithful, OnCourse, RootOk;
    if Local(fr).Some? {
      LocalOnCourse(s, f, ins);
    } else if fr.pt.At? && fr.pt.s.AwaitIo? {
      IoOnCourse(s, f, ins);
    } else if fr.pt.At? && fr.pt.s.AwaitTask? {
      CallOnCourse(s, f, ins);
    } else if fr.pt.At? && fr.pt.s.Spawn? {
      SpawnOnCourse(s, f, ins);
    } else if fr.cont.None? {
      RootEndOnCourse(s, f, ins);
    } else {
      CalleeEndOnCourse(s, f, fr.cont.value, ins);
    }
  }

  /** One step of the running coroutine keeps the heap well-formed and every root on course. */
  lemma StepKeepsGood(s: State)
    requires Good(s) && s.stack != []
    ensures TopFactsHold(s) && Good(Step(s))
  {
    StepShape(s);
    var s', r := Step(s), s.frames[Top(s)].root;
    OthersStay(s, s', r);
    forall q, ins | 0 <= q < |s'.roots|
      ensures RootOk(s', q) && OnCourse(s', q, ins)
    {
      assert RootOk(s', q);
      if q == r {
        TopOnCourse(s, ins);
      } else if q >= |s.roots| {
        assert FrameOk(s, Top(s));
        NewRootOnCourse(s', q, ins);
      }
    }
  }

  lemma StartKeepsGood(s: State, prog: Stmt, env: Env)
    requires Good(s)
    ensures Good(Start(s, prog, env))
  {
    var s' := Start(s, prog, env);
    StartShape(s, prog, env);
    OthersStay(s, s', |s.roots|);
    forall q, ins | 0 <= q < |s'.roots|
      ensures RootOk(s', q) && OnCourse(s', q, ins)
    {
      assert RootOk(s', q);
      if q == |s.roots| {
        NewRootOnCourse(s', q, ins);
      }
    }
  }

  lemma CompleteKeepsGood(s: State, w: nat, out: Outcome)
    requires Good(s) && w in s.waiters
    ensures s.frames[w].root < |s.roots| && Good(Complete(s, w, out))
  {
    assert FrameOk(s, w);
    var s', r := Complete(s, w, out), s.frames[w].root;
    CompleteShape(s, w, out);
    OthersStay(s, s', r);
    forall q, ins | 0 <= q < |s'.roots|
      ensures RootOk(s', q) && OnCourse(s', q, ins)
    {
      assert RootOk(s', q);
      if q == r {
        assert RootOk(s, r) && OnCourse(s, r, [out] + ins);
        hide Shape, Faithful, OnCourse, RootOk;
        CompleteOnCourse(s, w, out, ins);
      }
    }
  }

  lemma CompactKeepsGood(s: State)
    requires Good(s)
    ensures Good(Compact(s))
  {
    var s' := Compact(s);
    if Clogged(s) {
      return;
    }
    CompactShape(s);
    forall q, ins | 0 <= q < |s'.roots|
      ensures RootOk(s', q) && OnCourse(s', q, ins)
    {
      assert RootOk(s', q) && RootOk(s, q) && OnCourse(s, q, ins);
      if s.roots[q].end.None? {
        var f := s.roots[q].leaf;
        assert FrameOk(s, f);
        ChainFrame(s, s'.frames, f, FrameFin(s.frames[f], ins));
      }
    }
  }

  // ------------------------------------------------------------- whole runs

  /** What can happen to a runtime: the running coroutine takes a step; when none runs, the loop starts a task, resumes a
      waiter with the outcome of its operation, or collects what is done; and a waiter may be forgotten at any time. */
  datatype Action = Run | StartTask(prog: Stmt, env: Env) | CompleteIo(w: nat, out: Outcome) | Collect | Forget(w: nat)

  predicate Enabled(s: State, a: Action) {
    match a
    case Run => TopFactsHold(s)
    case StartTask(_, _) => s.stack == []
    case CompleteIo(w, _) =>
      s.stack == [] && w in s.waiters && w < |s.frames| && s.frames[w].root < |s.roots| && s.frames[w].pt.OnIo?
    case Collect => s.stack == []
    case Forget(w) => w in s.waiters
  }

  function Next(s: State, a: Action): State
    requires Enabled(s, a)
  {
    match a
    case Run => Step(s)
    case StartTask(prog, env) => Start(s, prog, env)
    case CompleteIo(w, out) => Complete(s, w, out)
    case Collect => Compact(s)
    case Forget(w) => Drop(s, w)
  }

  const EMPTY := State([], [], {}, [])

  ghost predicate IsRun(run: seq<State>, acts: seq<Action>) {
    && |run| == |acts| + 1 && run[0] == EMPTY
    && forall i :: 0 <= i < |acts| ==> Enabled(run[i], acts[i]) && run[i + 1] == Next(run[i], acts[i])
  }

  lemma StepOfRun(run: seq<State>, acts: seq<Action>, n: nat)
    requires IsRun(run, acts) && n < |acts|
    ensures |run| == |acts| + 1 && Enabled(run[n], acts[n]) && run[n + 1] == Next(run[n], acts[n])
  {
  }

  lemma NextKeepsGood(s: State, a: Action)
    requires Good(s) && Enabled(s, a)
    ensures Good(Next(s, a))
  {
    match a
    case Run => StepKeepsGood(s);
    case StartTask(prog, env) => StartKeepsGood(s, prog, env);
    case CompleteIo(w, out) => CompleteKeepsGood(s, w, out);
    case Collect => CompactKeepsGood(s);
    case Forget(w) => ForgetKeepsGood(s, w);
  }

  lemma ForgetKeepsGood(s: State, w: nat)
    requires Good(s)
    ensures Good(Drop(s, w))
  {
    var s' := Drop(s, w);
    forall f | 0 <= f < |s'.frames| ensures FrameOk(s', f) { assert FrameOk(s, f); }
    forall r | 0 <= r < |s'.roots| ensures RootOk(s', r) { assert RootOk(s, r); }
    forall q, ins | 0 <= q < |s'.roots|
      ensures RootOk(s', q) && OnCourse(s', q, ins)
    {
      assert RootOk(s', q) && OnCourse(s, q, ins);
    }
  }

  lemma {:induction false} RunKeepsGood(run: seq<State>, acts: seq<Action>, n: nat)
    requires IsRun(run, acts) && n <= |acts|
    ensures Good(run[n])
  {
    if n > 0 {
      RunKeepsGood(run, acts, n - 1);
      NextKeepsGood(run[n - 1], acts[n - 1]);
    }
  }

  /** A task that is done has had exactly the effects and has exactly the value or exception of its direct-style program
      on the inputs delivered to it, and has used them all; a task that is neither done nor running has had exactly the
      effects that its program has before it needs another input. */
  ghost predicate Settled(s: State, r: nat)
    requires r < |s.roots|
  {
    var ro := s.roots[r];
    && (ro.end.Some? ==> Meaning(ro.prog, ro.env, ro.fed) == Fin(ro.log, Some((ro.end.value, []))))
    && (ro.end.None? && s.stack == [] ==> Meaning(ro.prog, ro.env, ro.fed) == Fin(ro.log, None))
  }

  lemma GoodSettles(s: State, r: nat)
    requires Good(s) && r < |s.roots|
    ensures Settled(s, r)
  {
    var ro := s.roots[r];
    assert RootOk(s, r) && OnCourse(s, r, []);
    assert ro.fed + [] == ro.fed && ro.log + [] == ro.log;
    if ro.end.None? && s.stack == [] {
      assert FrameOk(s, ro.leaf);
      BlockedChain(s, ro.leaf);
    }
  }

  /** The theorem: after any run, with any interleaving of tasks, completions, exceptions and removals, every task is
      where its direct-style program would be. */
  lemma TasksComputeTheirMeaning(run: seq<State>, acts: seq<Action>, n: nat, r: nat)
    requires IsRun(run, acts) && n <= |acts| && r < |run[n].roots|
    ensures Settled(run[n], r)
  {
    RunKeepsGood(run, acts, n);
    GoodSettles(run[n], r);
  }

  /** A suspended leaf with nothing delivered blocks its whole chain, without effects. */
  lemma BlockedChain(s: State, f: nat)
    requires Shape(s) && f < |s.frames| && s.frames[f].pt.OnIo?
    ensures ChainFin(s.frames, f, FrameFin(s.frames[f], [])) == Fin([], None)
  {
    PlugReturned(s.frames[f].k, Res([], Blocked));
    BlockedCallers(s, f);
  }

  lemma {:induction false} BlockedCallers(s: State, f: nat)
    requires Shape(s) && f < |s.frames|
    ensures ChainFin(s.frames, f, Fin([], None)) == Fin([], None)
  {
    if s.frames[f].cont.Some? && s.frames[f].cont.value < f && s.frames[s.frames[f].cont.value].pt.OnTask? {
      PlugReturned(s.frames[s.frames[f].cont.value].k, Res([], Blocked));
      BlockedCallers(s, s.frames[f].cont.value);
    }
  }

  /** From frame f every continuation names a live frame that waits for exactly the one below it, up to a root that is
      not done. */
  ghost predicate ChainIntact(s: State, f: nat) {
    && f < |s.frames| && s.frames[f].pt.Live() && s.frames[f].root < |s.roots|
    && match s.frames[f].cont
       case None => s.roots[s.frames[f].root].frame == f && s.roots[s.frames[f].root].end.None?
       case Some(p) =>
         && p < f && s.frames[p].pt.OnTask? && s.frames[p].pt.callee == f && s.frames[p].root == s.frames[f].root
         && ChainIntact(s, p)
  }

  lemma {:induction false} LiveChain(s: State, f: nat)
    requires Shape(s) && f < |s.frames| && s.frames[f].pt.Live() && !s.frames[f].pt.Final?
    ensures ChainIntact(s, f)
  {
    assert FrameOk(s, f);
    if s.frames[f].cont.Some? {
      LiveChain(s, s.frames[f].cont.value);
    } else {
      assert RootOk(s, s.frames[f].root);
    }
  }

  /** No dangling handle, over whole runs: every handle held by the loop, the pool or a posted callback names an
      allocated frame that is suspended on its operation and not done, with an intact chain of callers up to its root. */
  lemma HandlesAreAlive(run: seq<State>, acts: seq<Action>, n: nat, w: nat)
    requires IsRun(run, acts) && n <= |acts| && w in run[n].waiters
    ensures w < |run[n].frames| && run[n].frames[w].pt.OnIo? && w !in run[n].stack && ChainIntact(run[n], w)
  {
    RunKeepsGood(run, acts, n);
    assert FrameOk(run[n], w);
    LiveChain(run[n], w);
  }

  /** Collecting destroys only done roots, and no handle, continuation or call is left pointing at one. */
  lemma CollectOnlyDone(run: seq<State>, acts: seq<Action>, n: nat, f: nat)
    requires IsRun(run, acts) && n <= |acts| && f < |run[n].frames| && Compact(run[n]).frames[f] != run[n].frames[f]
    ensures var s := run[n];
            && s.frames[f].root < |s.roots| && s.roots[s.frames[f].root].frame == f && s.roots[s.frames[f].root].end.Some?
            && f !in s.waiters && f !in s.stack
            && forall g :: 0 <= g < |s.frames| && s.frames[g].pt.Live() ==>
                 s.frames[g].cont != Some(f) && (s.frames[g].pt.OnTask? ==> s.frames[g].pt.callee != f)
  {
    RunKeepsGood(run, acts, n);
    var s := run[n];
    assert FrameOk(s, f);
    forall g | 0 <= g < |s.frames| && s.frames[g].pt.Live()
      ensures s.frames[g].cont != Some(f) && (s.frames[g].pt.OnTask? ==> s.frames[g].pt.callee != f)
    {
      assert FrameOk(s, g);
    }
  }

  /** Every task that another one has spawned comes from an effect of that one, with its program and its locals. */
  ghost predicate TasksFromSpawns(s: State) {
    forall q :: 0 <= q < |s.roots| && s.roots[q].spawner.Some? ==>
      var (r, k) := s.roots[q].spawner.value;
      && r < |s.roots| && k < |s.roots[r].log|
      && s.roots[r].log[k] == Spawned(s.roots[q].prog, s.roots[q].env)
  }

  /** Effect k of task r has a task. */
  ghost predicate HasTask(s: State, r: nat, k: nat) {
    exists q :: 0 <= q < |s.roots| && s.roots[q].spawner == Some((r, k))
  }

  ghost predicate SpawnsHaveTasks(s: State) {
    forall r, k :: 0 <= r < |s.roots| && 0 <= k < |s.roots[r].log| && s.roots[r].log[k].Spawned? ==> HasTask(s, r, k)
  }

  ghost predicate SpawnersDiffer(s: State) {
    forall p, q :: 0 <= p < q < |s.roots| && s.roots[p].spawner.Some? ==> s.roots[p].spawner != s.roots[q].spawner
  }

  /** Spawn effects and spawned tasks match one to one, with the program and the locals of the effect. */
  ghost predicate SpawnsMatch(s: State) { TasksFromSpawns(s) && SpawnsHaveTasks(s) && SpawnersDiffer(s) }

  /** What a step other than a spawn does to the roots: effects of other kinds, and perhaps a task started by the loop. */
  ghost predicate NoSpawn(s: State, s': State) {
    && SpawnersKept(s, s')
    && (forall q :: 0 <= q < |s.roots| ==>
          forall k :: |s.roots[q].log| <= k < |s'.roots[q].log| ==> !s'.roots[q].log[k].Spawned?)
    && (forall q :: |s.roots| <= q < |s'.roots| ==> s'.roots[q].spawner == None && s'.roots[q].log == [])
  }

  ghost predicate Extends(log: seq<Effect>, log': seq<Effect>) {
    |log| <= |log'| && forall k :: 0 <= k < |log| ==> log'[k] == log[k]
  }

  ghost predicate SpawnersKept(s: State, s': State) {
    && |s.roots| <= |s'.roots|
    && (forall q :: 0 <= q < |s.roots| ==>
          && s'.roots[q].prog == s.roots[q].prog && s'.roots[q].env == s.roots[q].env
          && s'.roots[q].spawner == s.roots[q].spawner && Extends(s.roots[q].log, s'.roots[q].log))
  }

  lemma NoSpawnKeeps(s: State, s': State)
    requires SpawnsMatch(s) && NoSpawn(s, s')
    ensures SpawnsMatch(s')
  {
    forall q | 0 <= q < |s'.roots| && s'.roots[q].spawner.Some?
      ensures var (r, k) := s'.roots[q].spawner.value;
              && r < |s'.roots| && k < |s'.roots[r].log|
              && s'.roots[r].log[k] == Spawned(s'.roots[q].prog, s'.roots[q].env)
    {
      var (r, k) := s.roots[q].spawner.value;
      assert s.roots[r].log[k] == Spawned(s.roots[q].prog, s.roots[q].env) && s'.roots[r].log[k] == s.roots[r].log[k];
    }
    forall r, k | 0 <= r < |s'.roots| && 0 <= k < |s'.roots[r].log| && s'.roots[r].log[k].Spawned?
      ensures HasTask(s', r, k)
    {
      assert s.roots[r].log[k] == s'.roots[r].log[k];
    }
    hide HasTask;
  }

  lemma SpawnRoots(s: State, f: nat)
    requires f < |s.frames| && s.frames[f].root < |s.roots| && s.frames[f].pt.At? && s.frames[f].pt.s.Spawn?
    ensures var (s', n, x) := (StepSpawn(s, f), |s.roots|, s.frames[f].root);
            && |s'.roots| == n + 1 && SpawnersKept(s, s')
            && s'.roots[x].log == s.roots[x].log + [Spawned(s.frames[f].pt.s.body, s.frames[f].env)]
            && (forall q :: 0 <= q < n && q != x ==> s'.roots[q].log == s.roots[q].log)
            && s'.roots[n].prog == s.frames[f].pt.s.body && s'.roots[n].env == s.frames[f].env
            && s'.roots[n].log == [] && s'.roots[n].spawner == Some((x, |s.roots[x].log|))
  {
  }

  lemma StillDiffer(s: State, s': State)
    requires SpawnersDiffer(s) && SpawnersKept(s, s') && |s'.roots| == |s.roots| + 1
    requires forall q :: 0 <= q < |s.roots| && s.roots[q].spawner.Some? ==> s.roots[q].spawner != s'.roots[|s.roots|].spawner
    ensures SpawnersDiffer(s')
  {
    hide Extends;
  }

  lemma SpawnersBelow(s: State, x: nat)
    requires TasksFromSpawns(s) && x < |s.roots|
    ensures forall q :: 0 <= q < |s.roots| && s.roots[q].spawner.Some? ==> s.roots[q].spawner != Some((x, |s.roots[x].log|))
  {
  }

  lemma SpawnedHave(s: State, s': State, x: nat, m: nat)
    requires SpawnsHaveTasks(s) && SpawnersKept(s, s') && |s'.roots| == |s.roots| + 1
    requires x < |s.roots| && m == |s.roots[x].log| && |s'.roots[x].log| == m + 1
    requires forall q :: 0 <= q < |s.roots| && q != x ==> s'.roots[q].log == s.roots[q].log
    requires s'.roots[|s.roots|].log == [] && s'.roots[|s.roots|].spawner == Some((x, m))
    ensures SpawnsHaveTasks(s')
  {
    forall r, k | 0 <= r < |s'.roots| && 0 <= k < |s'.roots[r].log| && s'.roots[r].log[k].Spawned?
      ensures HasTask(s', r, k)
    {
      if (r, k) == (x, m) {
        assert s'.roots[|s.roots|].spawner == Some((r, k));
      } else {
        assert s.roots[r].log[k] == s'.roots[r].log[k];
      }
    }
  }

  lemma SpawnedFrom(s: State, s': State, x: nat, m: nat)
    requires TasksFromSpawns(s) && SpawnersKept(s, s') && |s'.roots| == |s.roots| + 1
    requires x < |s.roots| && m == |s.roots[x].log| && |s'.roots[x].log| == m + 1
    requires var q := |s.roots|;
             s'.roots[q].spawner == Some((x, m)) && s'.roots[x].log[m] == Spawned(s'.roots[q].prog, s'.roots[q].env)
    ensures TasksFromSpawns(s')
  {
    forall q | 0 <= q < |s'.roots| && s'.roots[q].spawner.Some?
      ensures var (r, k) := s'.roots[q].spawner.value;
              && r < |s'.roots| && k < |s'.roots[r].log|
              && s'.roots[r].log[k] == Spawned(s'.roots[q].prog, s'.roots[q].env)
    {
      if q < |s.roots| {
        var (r, k) := s.roots[q].spawner.value;
        assert s.roots[r].log[k] == Spawned(s.roots[q].prog, s.roots[q].env) && s'.roots[r].log[k] == s.roots[r].log[k];
      }
    }
  }

  lemma StepSpawnsNothing(s: State)
    requires TopFactsHold(s) && !(s.frames[Top(s)].pt.At? && s.frames[Top(s)].pt.s.Spawn?)
    ensures NoSpawn(s, Step(s))
  {
    var f := Top(s);
    if Local(s.frames[f]).Some? {
      hide Local;
    }
  }

  lemma LoopSpawnsNothing(s: State, a: Action)
    requires Enabled(s, a) && !a.Run?
    ensures NoSpawn(s, Next(s, a))
  {
  }

  lemma SpawnStep(s: State)
    requires TopFactsHold(s) && s.frames[Top(s)].pt.At? && s.frames[Top(s)].pt.s.Spawn?
    ensures Step(s) == StepSpawn(s, Top(s))
  {
  }

  /** Every spawn that shows in the effects of a task has become a task of its own, with that program and those locals,
      and every task that was not started by the loop comes from exactly one such effect. */
  lemma {:induction false} SpawnsAreTasks(run: seq<State>, acts: seq<Action>, n: nat)
    requires IsRun(run, acts) && n <= |acts|
    ensures SpawnsMatch(run[n])
  {
    if n > 0 {
      SpawnsAreTasks(run, acts, n - 1);
      var s, a := run[n - 1], acts[n - 1];
      assert Enabled(s, a) && run[n] == Next(s, a);
      hide IsRun, NoSpawn, Step, StepSpawn, TasksFromSpawns, SpawnsHaveTasks, SpawnersDiffer, HasTask;
      if a.Run? && s.frames[Top(s)].pt.At? && s.frames[Top(s)].pt.s.Spawn? {
        var x := s.frames[Top(s)].root;
        SpawnStep(s);
        SpawnRoots(s, Top(s));
        SpawnedHave(s, run[n], x, |s.roots[x].log|);
        SpawnedFrom(s, run[n], x, |s.roots[x].log|);
        SpawnersBelow(s, x);
        StillDiffer(s, run[n]);
      } else {
        if a.Run? {
          StepSpawnsNothing(s);
        } else {
          LoopSpawnsNothing(s, a);
        }
        hide Next;
        NoSpawnKeeps(s, Next(s, a));
      }
    }
  }

  // ------------------------------- what was asked for is what the roots record

  /** The tasks that the loop has been told to start, in order. */
  ghost function Starts(acts: seq<Action>): seq<(Stmt, Env)> {
    if acts == [] then []
    else
      var (front, a) := (acts[..|acts| - 1], acts[|acts| - 1]);
      Starts(front) + if a.StartTask? then [(a.prog, a.env)] else []
  }

  /** The roots that no other task has spawned, in order. */
  ghost function LoopTasks(roots: seq<Root>): seq<(Stmt, Env)> {
    if roots == [] then []
    else
      var (front, r) := (roots[..|roots| - 1], roots[|roots| - 1]);
      LoopTasks(front) + if r.spawner.None? then [(r.prog, r.env)] else []
  }

  /** What a root was created with stays. */
  ghost predicate SameOrigin(r: Root, r': Root) { r'.prog == r.prog && r'.env == r.env && r'.spawner == r.spawner }

  lemma {:induction false} LoopTasksSame(roots: seq<Root>, roots': seq<Root>)
    requires |roots| == |roots'| && forall q :: 0 <= q < |roots| ==> SameOrigin(roots[q], roots'[q])
    ensures LoopTasks(roots') == LoopTasks(roots)
  {
    if roots != [] {
      var n := |roots| - 1;
      assert SameOrigin(roots[n], roots'[n]);
      LoopTasksSame(roots[..n], roots'[..n]);
    }
  }

  /** What a step of the running coroutine does to the roots: their origins and their inputs stay, and one may be added that
      has a spawner. */
  lemma StepRoots(s: State)
    requires TopFactsHold(s)
    ensures var (n, roots') := (|s.roots|, Step(s).roots);
            && n <= |roots'| <= n + 1
            && (forall q :: 0 <= q < n ==> SameOrigin(s.roots[q], roots'[q]) && roots'[q].fed == s.roots[q].fed)
            && (|roots'| == n + 1 ==> roots'[n].spawner.Some? && roots'[n].fed == [])
  {
  }

  lemma AddedTask(roots: seq<Root>, roots': seq<Root>)
    requires |roots'| == |roots| + 1 && forall q :: 0 <= q < |roots| ==> SameOrigin(roots[q], roots'[q])
    ensures var r := roots'[|roots|];
            LoopTasks(roots') == LoopTasks(roots) + if r.spawner.None? then [(r.prog, r.env)] else []
  {
    LoopTasksSame(roots, roots'[..|roots|]);
  }

  /** The tasks that nobody spawned are exactly those that the loop was told to start, in that order, each with the program
      and the locals it was given. */
  lemma {:induction false} StartsAreTasks(run: seq<State>, acts: seq<Action>, n: nat)
    requires IsRun(run, acts) && n <= |acts|
    ensures LoopTasks(run[n].roots) == Starts(acts[..n])
  {
    if n > 0 {
      StartsAreTasks(run, acts, n - 1);
      var s, a := run[n - 1], acts[n - 1];
      assert Enabled(s, a) && run[n] == Next(s, a);
      assert acts[..n][..n - 1] == acts[..n - 1] && acts[..n][n - 1] == a;
      hide IsRun, Step, LoopTasks;
      if a.Run? {
        StepRoots(s);
      }
      if |run[n].roots| == |s.roots| {
        LoopTasksSame(s.roots, run[n].roots);
      } else {
        AddedTask(s.roots, run[n].roots);
      }
    }
  }

  /** The outcomes delivered to the coroutines of task r, in order. */
  ghost function Delivered(run: seq<State>, acts: seq<Action>, n: nat, r: nat): seq<Outcome>
    requires n <= |acts| < |run|
  {
    if n == 0 then []
    else
      var (s, a) := (run[n - 1], acts[n - 1]);
      Delivered(run, acts, n - 1, r)
      + if a.CompleteIo? && a.w < |s.frames| && s.frames[a.w].root == r then [a.out] else []
  }

  ghost function FedTo(s: State, r: nat): seq<Outcome> { if r < |s.roots| then s.roots[r].fed else [] }

  lemma NextFeeds(s: State, a: Action, r: nat)
    requires Enabled(s, a)
    ensures FedTo(Next(s, a), r) == FedTo(s, r) + if a.CompleteIo? && s.frames[a.w].root == r then [a.out] else []
  {
    if a.Run? {
      StepRoots(s);
      hide Step;
    }
  }

  /** The inputs on record are exactly the outcomes that the loop has delivered to the task. */
  lemma {:induction false} InputsAreDelivered(run: seq<State>, acts: seq<Action>, n: nat, r: nat)
    requires IsRun(run, acts) && n <= |acts|
    ensures Delivered(run, acts, n, r) == if r < |run[n].roots| then run[n].roots[r].fed else []
  {
    if n > 0 {
      InputsAreDelivered(run, acts, n - 1, r);
      assert Enabled(run[n - 1], acts[n - 1]) && run[n] == Next(run[n - 1], acts[n - 1]);
      hide IsRun, Next;
      NextFeeds(run[n - 1], acts[n - 1], r);
    }
  }

  /** Frame f is suspended on an operation and nobody has its handle. */
  predicate Forgotten(s: State, f: nat) { f < |s.frames| && s.frames[f].pt.OnIo? && f !in s.waiters }

  lemma NextForgets(s: State, a: Action, f: nat)
    requires Good(s) && Enabled(s, a)
    ensures Forgotten(Next(s, a), f) <==> Forgotten(s, f) || a == Forget(f)
  {
    if a.Run? {
      TopFacts(s);
      assert FrameOk(s, Top(s));
      hide Good, FrameOk, RootOk, Local;
    }
  }

  /** The handle of a suspended coroutine is with the loop, the pool or a posted callback until it is resumed: it is lost
      if and only if `remove` has forgotten it. */
  lemma {:induction false} ForgottenExactly(run: seq<State>, acts: seq<Action>, n: nat, f: nat)
    requires IsRun(run, acts) && n <= |acts|
    ensures Forgotten(run[n], f) <==> exists i :: 0 <= i < n && acts[i] == Forget(f)
  {
    if n > 0 {
      hide IsRun, Good, Next, Enabled, Forgotten;
      ForgottenExactly(run, acts, n - 1, f);
      RunKeepsGood(run, acts, n - 1);
      StepOfRun(run, acts, n - 1);
      NextForgets(run[n - 1], acts[n - 1], f);
    }
  }

  // -------------------------------------- exceptions that the collector lets pass

  /** Task r has ended with an exception that is not a `std::exception`. */
  predicate RootEndedForeign(s: State, r: nat)
    requires r < |s.roots|
  {
    s.roots[r].end.Some? && s.roots[r].end.value.Error? && s.roots[r].end.value.e.Foreign?
  }

  /** The frame of such a task is never destroyed. */
  ghost predicate ForeignStay(s: State) {
    forall r :: 0 <= r < |s.roots| && RootEndedForeign(s, r) ==>
      s.roots[r].frame < |s.frames| && s.frames[s.roots[r].frame].pt == Final(s.roots[r].end.value)
  }

  lemma CompactKeepsForeign(s: State)
    requires Shape(s) && ForeignStay(s)
    ensures ForeignStay(Compact(s))
  {
    forall r | 0 <= r < |s.roots| && RootEndedForeign(s, r)
      ensures Compact(s) == s
    {
      assert EndedForeign(s.frames[s.roots[r].frame]);
    }
  }

  lemma StepKeepsForeign(s: State)
    requires Shape(s) && ForeignStay(s) && TopFactsHold(s)
    ensures ForeignStay(Step(s))
  {
    var f, s' := Top(s), Step(s);
    TopFacts(s);
    assert FrameOk(s, f);
    forall r | 0 <= r < |s'.roots| && RootEndedForeign(s', r)
      ensures s'.roots[r].frame < |s'.frames| && s'.frames[s'.roots[r].frame].pt == Final(s'.roots[r].end.value)
    {
      if r < |s.roots| && RootEndedForeign(s, r) {
        assert RootOk(s, r) && s.roots[r].frame != f;
        assert s.frames[f].pt.Ending? && s.frames[f].cont.Some? ==> s.frames[s.frames[f].cont.value].pt.OnTask?;
      }
    }
  }

  lemma {:induction false} RunKeepsForeign(run: seq<State>, acts: seq<Action>, n: nat)
    requires IsRun(run, acts) && n <= |acts|
    ensures ForeignStay(run[n])
  {
    if n > 0 {
      RunKeepsForeign(run, acts, n - 1);
      RunKeepsGood(run, acts, n - 1);
      var s, a := run[n - 1], acts[n - 1];
      assert Shape(s);
      match a
      case Run => StepKeepsForeign(s);
      case Collect => CompactKeepsForeign(s);
      case CompleteIo(w, out) => assert FrameOk(s, w);
      case _ =>
    }
  }

  /** When compaction works: it destroys all done tasks if no task has ever ended with an exception that is not a
      `std::exception`, and nothing at all from the first such task on. */
  lemma CollectsExactly(run: seq<State>, acts: seq<Action>, n: nat)
    requires IsRun(run, acts) && n <= |acts|
    ensures Clogged(run[n]) <==> exists r :: 0 <= r < |run[n].roots| && RootEndedForeign(run[n], r)
    ensures Clogged(run[n]) ==> Compact(run[n]) == run[n]
    ensures !Clogged(run[n]) ==> forall f :: 0 <= f < |run[n].frames| ==> !Compact(run[n]).frames[f].pt.Final?
  {
    RunKeepsGood(run, acts, n);
    RunKeepsForeign(run, acts, n);
    var s := run[n];
    if Clogged(s) {
      var f :| 0 <= f < |s.frames| && EndedForeign(s.frames[f]);
      assert FrameOk(s, f);
      assert RootEndedForeign(s, s.frames[f].root);
    }
    if r :| 0 <= r < |s.roots| && RootEndedForeign(s, r) {
      assert EndedForeign(s.frames[s.roots[r].frame]);
    }
  }

  /** One such task is enough: once it is done, no later compaction of the loop destroys anything. */
  lemma {:induction false} OneForeignEndsCollection(run: seq<State>, acts: seq<Action>, m: nat, n: nat)
    requires IsRun(run, acts) && m <= n <= |acts| && Clogged(run[m])
    ensures Clogged(run[n]) && Compact(run[n]) == run[n]
    decreases n
  {
    hide Clogged, Compact, RootEndedForeign;
    if m < n {
      OneForeignEndsCollection(run, acts, m, n - 1);
      CloggedStays(run, acts, n - 1);
      hide IsRun;
    }
    CollectsExactly(run, acts, n);
  }

  lemma CloggedStays(run: seq<State>, acts: seq<Action>, n: nat)
    requires IsRun(run, acts) && n < |acts| && Clogged(run[n])
    ensures Clogged(run[n + 1])
  {
    hide Clogged, Compact;
    var (s, s') := (run[n], run[n + 1]);
    CollectsExactly(run, acts, n);
    CollectsExactly(run, acts, n + 1);
    var r :| 0 <= r < |s.roots| && RootEndedForeign(s, r);
    EndsStay(run, acts, n, r);
    assert RootEndedForeign(s', r);
  }

  lemma EndsStay(run: seq<State>, acts: seq<Action>, n: nat, r: nat)
    requires IsRun(run, acts) && n < |acts| && r < |run[n].roots| && run[n].roots[r].end.Some?
    ensures r < |run[n + 1].roots| && run[n + 1].roots[r].end == run[n].roots[r].end
  {
    RunKeepsGood(run, acts, n);
    var s := run[n];
    assert RootOk(s, r);
    if acts[n].Run? {
      TopFacts(s);
      assert FrameOk(s, Top(s));
    }
  }
}
