/** The reactor and the tasks together: which coroutine frame the handle behind each token of the reactor belongs to. The
    tokens of module Reactor become frames of module Tasks, so that what is in `states_`, in the locals of `dispatch` or
    with the pool can be said to be a live, suspended coroutine. */
module Handles {
  import opened Wrappers
  import opened Epoll
  import R = Reactor
  import T = Tasks
  import C = Coroutines
  import TM = TaskMeaning

  /** `held` maps each token to the frame that registered it; `away` are the frames whose handles are with the pool or in a
      posted callback. */
  datatype State = State(r: R.State, t: T.State, held: map<nat, nat>, away: set<nat>)

  datatype Action =
    | Run                                  // the running coroutine takes a step that is not an awaited operation
    | AwaitFd(fd: int, d: Dir, et: bool)   // it awaits readiness, and the registration succeeds
    | Offload                              // it awaits the pool
    | ResumeTaken(out: C.Outcome)          // `dispatch` resumes the next handle it has taken
    | Deliver(w: nat, out: C.Outcome)      // a posted callback resumes a coroutine
    | RemoveFd(fd: int)                    // `remove`, from the loop or from the running coroutine
    | Loop(a: R.Action)                    // waits, dispatches, and what the kernel does
    | StartTask(prog: C.Stmt, env: C.Env)
    | Collect

  predicate AtAwait(t: T.State) {
    TM.TopFactsHold(t) && t.frames[T.Top(t)].pt.At? && t.frames[T.Top(t)].pt.s.AwaitIo?
  }

  predicate CanComplete(t: T.State, w: nat) {
    t.stack == [] && w in t.waiters && w < |t.frames| && t.frames[w].root < |t.roots| && t.frames[w].pt.OnIo?
  }

  predicate Enabled(s: State, a: Action) {
    match a
    case Run => TM.TopFactsHold(s.t) && !AtAwait(s.t)
    case AwaitFd(fd, _, _) => AtAwait(s.t) && fd >= 0 && fd != s.r.wake && fd in s.r.k.ready
    case Offload => AtAwait(s.t)
    case ResumeTaken(_) => s.r.taken != [] && s.r.taken[0] in s.held && CanComplete(s.t, s.held[s.r.taken[0]])
    case Deliver(w, _) => w in s.away && CanComplete(s.t, w)
    case RemoveFd(fd) => fd != s.r.wake
    case Loop(b) =>
      && R.Enabled(s.r, b) && !b.AwaitFd? && !b.RemoveFd? && !b.ResumeTaken?
      && (b.WaitEvents? || b.TakeEvent? ==> s.t.stack == [])
    case StartTask(_, _) => s.t.stack == []
    case Collect => s.t.stack == []
  }

  /** The frame behind a slot. */
  function FrameAt(s: State, fd: int, d: Dir): set<nat> {
    var o := s.r.Slot(fd, d);
    if o.Some? && o.value in s.held then {s.held[o.value]} else {}
  }

  /** Handles that the loop forgets: their coroutines stay suspended for good. */
  function Forget(t: T.State, ws: set<nat>): T.State { t.(waiters := t.waiters - ws) }

  function Step(s: State, a: Action): State
    requires Enabled(s, a)
  {
    match a
    case Run => s.(t := T.Step(s.t))
    case AwaitFd(fd, d, et) =>
      s.(r := R.Await(s.r, fd, d, et), t := Forget(T.Step(s.t), FrameAt(s, fd, d)),
         held := s.held[s.r.led.issued := T.Top(s.t)])
    case Offload => s.(t := T.Step(s.t), away := s.away + {T.Top(s.t)})
    case ResumeTaken(out) => s.(r := R.Resume(s.r), t := T.Complete(s.t, s.held[s.r.taken[0]], out))
    case Deliver(w, out) => s.(t := T.Complete(s.t, w, out), away := s.away - {w})
    case RemoveFd(fd) =>
      s.(r := R.Remove(s.r, fd), t := if fd < 0 then s.t else Forget(s.t, FrameAt(s, fd, Read) + FrameAt(s, fd, Write)))
    case Loop(b) => s.(r := R.Step(s.r, b))
    case StartTask(prog, env) => s.(t := T.Start(s.t, prog, env))
    case Collect => s.(t := T.Compact(s.t))
  }

  function Init(wake: int): State { State(R.Init(wake), TM.EMPTY, map[], {}) }

  ghost predicate IsRun(run: seq<State>, acts: seq<Action>, wake: int) {
    && wake >= 0 && |run| == |acts| + 1 && run[0] == Init(wake)
    && forall i :: 0 <= i < |acts| ==> Enabled(run[i], acts[i]) && run[i + 1] == Step(run[i], acts[i])
  }

  lemma AtFirst(run: seq<State>, acts: seq<Action>, wake: int)
    requires IsRun(run, acts, wake)
    ensures |run| == |acts| + 1 && run[0] == Init(wake)
  {
  }

  lemma StepOfRun(run: seq<State>, acts: seq<Action>, wake: int, n: nat)
    requires IsRun(run, acts, wake) && n < |acts|
    ensures |run| == |acts| + 1 && Enabled(run[n], acts[n]) && run[n + 1] == Step(run[n], acts[n])
  {
  }

  // ------------------------------------------------------------ live tokens

  /** A token whose handle the reactor still has. */
  ghost predicate Live(r: R.State, x: nat) { x in r.taken || R.InSlot(r, x) }

  lemma AwaitLive(r: R.State, fd: int, d: Dir, et: bool)
    requires R.Inv(r) && fd >= 0 && fd != r.wake && fd in r.k.ready
    ensures var r' := R.Await(r, fd, d, et);
            forall x: nat :: Live(r', x) <==> x == r.led.issued || (Live(r, x) && r.Slot(fd, d) != Some(x))
  {
    R.AwaitSlots(r, fd, d, et);
    var r' := R.Await(r, fd, d, et);
    forall x: nat
      ensures Live(r', x) <==> x == r.led.issued || (Live(r, x) && r.Slot(fd, d) != Some(x))
    {
      if x == r.led.issued {
        assert r'.Slot(fd, d) == Some(x);
      } else {
        if y, e :| r.Slot(y, e) == Some(x) {
          assert R.Occupied(r, y, e);
          assert r.Slot(fd, d) != Some(x) ==> r'.Slot(y, e) == Some(x);
        }
        if y, e :| r'.Slot(y, e) == Some(x) {
          assert R.Occupied(r, y, e) && r.Slot(y, e) == Some(x);
        }
        assert x in r.taken ==> r.Slot(fd, d) != Some(x) by {
          if r.Slot(fd, d) == Some(x) {
            assert R.Occupied(r, fd, d);
          }
        }
      }
    }
  }

  lemma RemoveLive(r: R.State, fd: int)
    requires R.Inv(r) && fd != r.wake && fd >= 0
    ensures var r' := R.Remove(r, fd);
            forall x: nat :: Live(r', x) <==> Live(r, x) && r.Slot(fd, Read) != Some(x) && r.Slot(fd, Write) != Some(x)
  {
    R.RemoveSlots(r, fd);
    var r' := R.Remove(r, fd);
    forall x: nat
      ensures Live(r', x) <==> Live(r, x) && r.Slot(fd, Read) != Some(x) && r.Slot(fd, Write) != Some(x)
    {
      if y, e :| r.Slot(y, e) == Some(x) {
        assert R.Occupied(r, y, e);
        assert y != fd ==> r'.Slot(y, e) == Some(x);
        assert y == fd ==> e == Read || e == Write;
      }
      if y, e :| r'.Slot(y, e) == Some(x) {
        assert y != fd && r.Slot(y, e) == Some(x) && R.Occupied(r, y, e);
      }
      assert R.Occupied(r, fd, Read) ==> r.Slot(fd, Read).value !in r.taken;
      assert R.Occupied(r, fd, Write) ==> r.Slot(fd, Write).value !in r.taken;
    }
  }

  lemma TakeLive(r: R.State)
    requires R.Inv(r) && r.batch != [] && r.taken == []
    ensures forall x: nat :: Live(R.Take(r), x) <==> Live(r, x)
  {
    R.TakeSlots(r);
    var r' := R.Take(r);
    forall x: nat
      ensures Live(r', x) <==> Live(r, x)
    {
      if y, e :| r.Slot(y, e) == Some(x) {
        assert r'.Slot(y, e) == Some(x) || x in r'.taken;
      }
      if y, e :| r'.Slot(y, e) == Some(x) {
        assert r.Slot(y, e) == Some(x);
      }
      if x in r'.taken {
        var b := r.batch[0];
        assert r.Slot(b.fd, Read) == Some(x) || r.Slot(b.fd, Write) == Some(x);
      }
    }
  }

  lemma SameSlotsLive(r: R.State, r': R.State)
    requires r'.states == r.states && r'.taken == r.taken
    ensures forall x: nat :: Live(r', x) <==> Live(r, x)
  {
    assert forall fd, d :: r'.Slot(fd, d) == r.Slot(fd, d);
    forall x: nat
      ensures R.InSlot(r', x) <==> R.InSlot(r, x)
    {
      if fd, d :| r.Slot(fd, d) == Some(x) {
        assert r'.Slot(fd, d) == Some(x);
      }
      if fd, d :| r'.Slot(fd, d) == Some(x) {
        assert r.Slot(fd, d) == Some(x);
      }
    }
  }

  lemma ResumeLive(r: R.State)
    requires R.Inv(r) && r.taken != []
    ensures Live(r, r.taken[0])
    ensures forall x: nat :: Live(R.Resume(r), x) <==> Live(r, x) && x != r.taken[0]
  {
    var r', t0 := R.Resume(r), r.taken[0];
    assert t0 in r.taken;
    SameSlotsLive(r, r.(states := r'.states));
    forall x: nat
      ensures Live(r', x) <==> Live(r, x) && x != t0
    {
      assert x in r'.taken <==> x in r.taken && x != t0;
      if fd, d :| r.Slot(fd, d) == Some(x) {
        assert R.Occupied(r, fd, d) && r'.Slot(fd, d) == Some(x);
      }
      if fd, d :| r'.Slot(fd, d) == Some(x) {
        assert r.Slot(fd, d) == Some(x) && R.Occupied(r, fd, d);
      }
    }
  }

  lemma LoopLive(r: R.State, b: R.Action)
    requires R.Inv(r) && R.Enabled(r, b) && !b.AwaitFd? && !b.RemoveFd? && !b.ResumeTaken?
    ensures forall x: nat :: Live(R.Step(r, b), x) <==> Live(r, x)
  {
    if b == R.TakeEvent {
      TakeLive(r);
    } else {
      SameSlotsLive(r, R.Step(r, b));
    }
  }

  // ------------------------------------------------------------ the invariant

  /** Every live token names a frame that waits, different tokens name different frames, and a frame that waits is named by
      one of them or is away. */
  ghost predicate Matched(r: R.State, waiters: set<nat>, held: map<nat, nat>, away: set<nat>) {
    && (forall x: nat :: Live(r, x) ==> x in held && held[x] in waiters && held[x] !in away && x < r.led.issued)
    && (forall x: nat, y: nat :: Live(r, x) && Live(r, y) && held[x] == held[y] ==> x == y)
    && (forall w :: w in waiters ==> w in away || exists x: nat :: Live(r, x) && held[x] == w)
    && away <= waiters
  }

  ghost predicate Inv(s: State) {
    R.Inv(s.r) && TM.Good(s.t) && Matched(s.r, s.t.waiters, s.held, s.away)
  }

  /** A new token for a frame that has just begun to wait; the one it may overwrite loses its frame. */
  lemma MatchedAwait(r: R.State, r': R.State, waiters: set<nat>, held: map<nat, nat>, away: set<nat>, f: nat,
                     prev: Option<nat>)
    requires Matched(r, waiters, held, away) && f !in waiters && r'.led.issued == r.led.issued + 1
    requires prev.Some? ==> Live(r, prev.value)
    requires forall x: nat :: Live(r', x) <==> x == r.led.issued || (Live(r, x) && prev != Some(x))
    ensures Matched(r', waiters + {f} - (if prev.Some? then {held[prev.value]} else {}), held[r.led.issued := f], away)
  {
    var n, ws := r.led.issued, waiters + {f} - (if prev.Some? then {held[prev.value]} else {});
    forall w | w in ws
      ensures w in away || exists x: nat :: Live(r', x) && held[n := f][x] == w
    {
      if w == f {
        assert Live(r', n);
      } else if w !in away {
        var x: nat :| Live(r, x) && held[x] == w;
        assert Live(r', x) && held[n := f][x] == w;
      }
    }
    hide Live;
  }

  /** Some tokens die, and exactly their frames stop waiting. */
  lemma MatchedLess(r: R.State, r': R.State, waiters: set<nat>, held: map<nat, nat>, away: set<nat>, gone: set<nat>)
    requires Matched(r, waiters, held, away) && r'.led.issued == r.led.issued
    requires forall x :: x in gone ==> Live(r, x)
    requires forall x: nat :: Live(r', x) <==> Live(r, x) && x !in gone
    ensures forall x :: x in gone ==> x in held
    ensures Matched(r', waiters - (set x | x in gone && x in held :: held[x]), held, away)
  {
    hide Live;
    var ws := waiters - (set x | x in gone && x in held :: held[x]);
    forall w | w in ws
      ensures w in away || exists x: nat :: Live(r', x) && held[x] == w
    {
      if w !in away {
        var x: nat :| Live(r, x) && held[x] == w;
        assert Live(r', x);
      }
    }
    forall x: nat | Live(r', x)
      ensures held[x] in ws
    {
      assert forall y :: y in gone ==> held[y] != held[x];
    }
  }

  lemma MatchedSame(r: R.State, r': R.State, waiters: set<nat>, held: map<nat, nat>, away: set<nat>)
    requires Matched(r, waiters, held, away) && r'.led.issued == r.led.issued
    requires forall x: nat :: Live(r', x) <==> Live(r, x)
    ensures Matched(r', waiters, held, away)
  {
    hide Live;
    forall w | w in waiters
      ensures w in away || exists x: nat :: Live(r', x) && held[x] == w
    {
      if w !in away {
        var x: nat :| Live(r, x) && held[x] == w;
        assert Live(r', x);
      }
    }
  }

  lemma MatchedAway(r: R.State, waiters: set<nat>, held: map<nat, nat>, away: set<nat>, w: nat)
    requires Matched(r, waiters, held, away)
    ensures w !in waiters ==> Matched(r, waiters + {w}, held, away + {w})
    ensures w in away ==> Matched(r, waiters - {w}, held, away - {w})
  {
    hide Live;
    if w in away {
      forall v | v in waiters - {w}
        ensures v in away - {w} || exists x: nat :: Live(r, x) && held[x] == v
      {
      }
    }
  }

  // ------------------------------------------------------------- what tasks do

  lemma ForgetGood(t: T.State, ws: set<nat>)
    requires TM.Good(t)
    ensures TM.Good(Forget(t, ws))
  {
    var t' := Forget(t, ws);
    forall f | 0 <= f < |t'.frames| ensures T.FrameOk(t', f) { assert T.FrameOk(t, f); }
    forall r | 0 <= r < |t'.roots| ensures T.RootOk(t', r) { assert T.RootOk(t, r); }
    forall q, ins | 0 <= q < |t'.roots|
      ensures T.RootOk(t', q) && TM.OnCourse(t', q, ins)
    {
      assert T.RootOk(t', q) && TM.OnCourse(t, q, ins);
    }
  }

  lemma AwaitWaiters(t: T.State)
    requires TM.Good(t) && AtAwait(t)
    ensures T.Step(t).waiters == t.waiters + {T.Top(t)} && T.Top(t) !in t.waiters
  {
  }

  lemma RunWaiters(t: T.State)
    requires TM.TopFactsHold(t) && !AtAwait(t)
    ensures T.Step(t).waiters == t.waiters
  {
  }

  lemma CompleteWaiters(t: T.State, w: nat, out: C.Outcome)
    requires CanComplete(t, w)
    ensures T.Complete(t, w, out).waiters == t.waiters - {w}
  {
  }

  // ------------------------------------------------------------- every step

  lemma TaskStepKeepsInv(s: State, a: Action)
    requires Inv(s) && Enabled(s, a) && (a.Run? || a.Offload? || a.StartTask? || a.Collect? || a.Deliver?)
    ensures Inv(Step(s, a))
  {
    assert a.Run? || a.Offload? ==> TM.TopFactsHold(s.t);
    assert a.Deliver? ==> T.FrameOk(s.t, a.w) && CanComplete(s.t, a.w);
    hide R.Inv, TM.Good, T.Step, T.Complete, T.Start, T.Compact, Matched, AtAwait;
    match a
    case Run => TM.StepKeepsGood(s.t); RunWaiters(s.t);
    case Offload =>
      TM.StepKeepsGood(s.t);
      AwaitWaiters(s.t);
      MatchedAway(s.r, s.t.waiters, s.held, s.away, T.Top(s.t));
    case StartTask(prog, env) => TM.StartKeepsGood(s.t, prog, env); LoopWaiters(s.t, prog, env);
    case Collect => TM.CompactKeepsGood(s.t); LoopWaiters(s.t, C.Do(e => e), map[]);
    case Deliver(w, out) =>
      TM.CompleteKeepsGood(s.t, w, out);
      CompleteWaiters(s.t, w, out);
      MatchedAway(s.r, s.t.waiters, s.held, s.away, w);
  }

  lemma LoopWaiters(t: T.State, prog: C.Stmt, env: C.Env)
    ensures T.Start(t, prog, env).waiters == t.waiters && T.Compact(t).waiters == t.waiters
  {
  }

  lemma AwaitKeepsInv(s: State, fd: int, d: Dir, et: bool)
    requires Inv(s) && Enabled(s, AwaitFd(fd, d, et))
    ensures Inv(Step(s, AwaitFd(fd, d, et)))
  {
    var r', prev := R.Await(s.r, fd, d, et), s.r.Slot(fd, d);
    R.StepKeepsInv(s.r, R.AwaitFd(fd, d, et));
    R.AwaitSlots(s.r, fd, d, et);
    AwaitLive(s.r, fd, d, et);
    SlotIsLive(s.r, fd, d);
    TM.StepKeepsGood(s.t);
    AwaitWaiters(s.t);
    ForgetGood(T.Step(s.t), FrameAt(s, fd, d));
    assert R.Step(s.r, R.AwaitFd(fd, d, et)) == r';
    assert prev.Some? ==> prev.value in s.held;
    hide R.Inv, TM.Good, T.Step, R.Await, R.Step, Live, AtAwait;
    MatchedAwait(s.r, r', s.t.waiters, s.held, s.away, T.Top(s.t), prev);
  }

  lemma SlotIsLive(r: R.State, fd: int, d: Dir)
    ensures r.Slot(fd, d).Some? ==> Live(r, r.Slot(fd, d).value)
  {
  }

  /** The tokens and the frames in the two slots of a descriptor. */
  lemma Gone(s: State, fd: int)
    requires forall d :: s.r.Slot(fd, d).Some? ==> s.r.Slot(fd, d).value in s.held
    ensures var gone := R.OptSet(s.r.Slot(fd, Read)) + R.OptSet(s.r.Slot(fd, Write));
            && (forall x: nat :: x in gone <==> s.r.Slot(fd, Read) == Some(x) || s.r.Slot(fd, Write) == Some(x))
            && FrameAt(s, fd, Read) + FrameAt(s, fd, Write) == set x | x in gone && x in s.held :: s.held[x]
  {
  }

  lemma RemoveKeepsInv(s: State, fd: int)
    requires Inv(s) && Enabled(s, RemoveFd(fd)) && fd >= 0
    ensures Inv(Step(s, RemoveFd(fd)))
  {
    hide R.Inv, TM.Good, R.Remove, R.Step, Live, FrameAt, R.OptSet;
    var r' := R.Remove(s.r, fd);
    var gone := R.OptSet(s.r.Slot(fd, Read)) + R.OptSet(s.r.Slot(fd, Write));
    R.StepKeepsInv(s.r, R.RemoveFd(fd));
    RemoveIs(s.r, fd);
    RemoveLive(s.r, fd);
    SlotIsLive(s.r, fd, Read);
    SlotIsLive(s.r, fd, Write);
    Gone(s, fd);
    ForgetGood(s.t, FrameAt(s, fd, Read) + FrameAt(s, fd, Write));
    MatchedLess(s.r, r', s.t.waiters, s.held, s.away, gone);
  }

  lemma RemoveIs(r: R.State, fd: int)
    requires fd != r.wake
    ensures R.Step(r, R.RemoveFd(fd)) == R.Remove(r, fd) && R.Remove(r, fd).led.issued == r.led.issued
  {
  }

  lemma ResumeIs(r: R.State)
    requires r.taken != []
    ensures R.Step(r, R.ResumeTaken) == R.Resume(r) && R.Resume(r).led.issued == r.led.issued
  {
  }

  lemma ResumeKeepsInv(s: State, out: C.Outcome)
    requires Inv(s) && Enabled(s, ResumeTaken(out))
    ensures Inv(Step(s, ResumeTaken(out)))
  {
    hide R.Inv, TM.Good, R.Resume, R.Step, Live, T.Complete;
    var r', x := R.Resume(s.r), s.r.taken[0];
    R.StepKeepsInv(s.r, R.ResumeTaken);
    ResumeIs(s.r);
    ResumeLive(s.r);
    TM.CompleteKeepsGood(s.t, s.held[x], out);
    CompleteWaiters(s.t, s.held[x], out);
    MatchedLess(s.r, r', s.t.waiters, s.held, s.away, {x});
    assert {s.held[x]} == set y | y in {x} && y in s.held :: s.held[y];
  }

  lemma LoopKeepsInv(s: State, b: R.Action)
    requires Inv(s) && Enabled(s, Loop(b))
    ensures Inv(Step(s, Loop(b)))
  {
    R.StepKeepsInv(s.r, b);
    LoopLive(s.r, b);
    IssuedSame(s.r, b);
    hide R.Inv, TM.Good, R.Step, Live, R.Enabled;
    MatchedSame(s.r, R.Step(s.r, b), s.t.waiters, s.held, s.away);
  }

  lemma IssuedSame(r: R.State, b: R.Action)
    requires R.Enabled(r, b) && !b.AwaitFd?
    ensures R.Step(r, b).led.issued == r.led.issued
  {
  }

  lemma StepKeepsInv(s: State, a: Action)
    requires Inv(s) && Enabled(s, a)
    ensures Inv(Step(s, a))
  {
    match a
    case AwaitFd(fd, d, et) => AwaitKeepsInv(s, fd, d, et);
    case RemoveFd(fd) => if fd >= 0 { RemoveKeepsInv(s, fd); }
    case ResumeTaken(out) => ResumeKeepsInv(s, out);
    case Loop(b) => LoopKeepsInv(s, b);
    case _ => TaskStepKeepsInv(s, a);
  }

  lemma InitInv(wake: int)
    requires wake >= 0
    ensures Inv(Init(wake))
  {
    var s := Init(wake);
    assert R.Inv(s.r);
    assert forall fd, d :: s.r.Slot(fd, d) == None;
    assert forall x: nat :: !Live(s.r, x);
  }

  lemma {:induction false} RunKeepsInv(run: seq<State>, acts: seq<Action>, wake: int, n: nat)
    requires IsRun(run, acts, wake) && n <= |acts|
    ensures Inv(run[n])
  {
    if n > 0 {
      RunKeepsInv(run, acts, wake, n - 1);
      assert Enabled(run[n - 1], acts[n - 1]) && run[n] == Step(run[n - 1], acts[n - 1]);
      hide Inv, Step, Enabled, IsRun;
      StepKeepsInv(run[n - 1], acts[n - 1]);
    } else {
      InitInv(wake);
    }
  }

  /** No dangling handle, for the table and the dispatcher themselves: in every reachable state every handle in `states_`,
      and every handle that a dispatch has taken out and not resumed yet, names an allocated frame that is suspended, not
      done and not running, with an intact chain of callers up to a root that is not done. */
  lemma SlotsNameLiveFrames(run: seq<State>, acts: seq<Action>, wake: int, n: nat, x: nat)
    requires IsRun(run, acts, wake) && n <= |acts| && Live(run[n].r, x)
    ensures var (s, t) := (run[n], run[n].t);
            && x in s.held && s.held[x] < |t.frames| && t.frames[s.held[x]].pt.OnIo? && s.held[x] !in t.stack
            && TM.ChainIntact(t, s.held[x])
  {
    RunKeepsInv(run, acts, wake, n);
    var s := run[n];
    assert s.held[x] in s.t.waiters && T.FrameOk(s.t, s.held[x]);
    hide R.Inv, Live, Matched;
    TM.LiveChain(s.t, s.held[x]);
  }

  /** And so a dispatch can always go on: the handle it resumes next is one that can be resumed. */
  lemma TakenCanBeResumed(run: seq<State>, acts: seq<Action>, wake: int, n: nat, out: C.Outcome)
    requires IsRun(run, acts, wake) && n <= |acts| && run[n].r.taken != [] && run[n].t.stack == []
    ensures Enabled(run[n], ResumeTaken(out))
  {
    RunKeepsInv(run, acts, wake, n);
    var x := run[n].r.taken[0];
    assert x in run[n].r.taken && Live(run[n].r, x);
    SlotsNameLiveFrames(run, acts, wake, n, x);
    assert T.FrameOk(run[n].t, run[n].held[x]);
  }

  ghost predicate Names(s: State, x: nat, w: nat) { Live(s.r, x) && x in s.held && s.held[x] == w }

  /** No coroutine is in two places: a frame that waits is behind exactly one token of the reactor, or away and behind
      none. */
  lemma OneHandleEach(run: seq<State>, acts: seq<Action>, wake: int, n: nat, w: nat)
    requires IsRun(run, acts, wake) && n <= |acts| && w in run[n].t.waiters
    ensures var s := run[n];
            && (w !in s.away <==> exists x: nat :: Names(s, x, w))
            && (forall x: nat, y: nat :: Names(s, x, w) && Names(s, y, w) ==> x == y)
  {
    RunKeepsInv(run, acts, wake, n);
    hide Live, R.Inv, TM.Good;
    if w !in run[n].away {
      var x: nat :| Live(run[n].r, x) && run[n].held[x] == w;
      assert Names(run[n], x, w);
    }
  }

  // ------------------------------------------- the two halves, each on its own

  /** What the frame behind a slot is forgotten by. */
  function Forgets(s: State, fd: int, d: Dir): seq<TM.Action> {
    var o := s.r.Slot(fd, d);
    if o.Some? && o.value in s.held then [TM.Forget(s.held[o.value])] else []
  }

  /** What a step is to the tasks, and what it is to the reactor. */
  function TaskSteps(s: State, a: Action): seq<TM.Action>
    requires Enabled(s, a)
  {
    match a
    case Run => [TM.Run]
    case AwaitFd(fd, d, _) => [TM.Run] + Forgets(s, fd, d)
    case Offload => [TM.Run]
    case ResumeTaken(out) => [TM.CompleteIo(s.held[s.r.taken[0]], out)]
    case Deliver(w, out) => [TM.CompleteIo(w, out)]
    case RemoveFd(fd) => if fd < 0 then [] else Forgets(s, fd, Read) + Forgets(s, fd, Write)
    case Loop(_) => []
    case StartTask(prog, env) => [TM.StartTask(prog, env)]
    case Collect => [TM.Collect]
  }

  function ReactorSteps(a: Action): seq<R.Action> {
    match a
    case AwaitFd(fd, d, et) => [R.AwaitFd(fd, d, et)]
    case ResumeTaken(_) => [R.ResumeTaken]
    case RemoveFd(fd) => [R.RemoveFd(fd)]
    case Loop(b) => [b]
    case _ => []
  }

  ghost function AllTaskSteps(run: seq<State>, acts: seq<Action>, wake: int, n: nat): seq<TM.Action>
    requires IsRun(run, acts, wake) && n <= |acts|
  {
    if n == 0 then [] else AllTaskSteps(run, acts, wake, n - 1) + TaskSteps(run[n - 1], acts[n - 1])
  }

  ghost function AllReactorSteps(acts: seq<Action>, n: nat): seq<R.Action>
    requires n <= |acts|
  {
    if n == 0 then [] else AllReactorSteps(acts, n - 1) + ReactorSteps(acts[n - 1])
  }

  /** The tasks get from t to t' by these steps. */
  ghost predicate Leads(t: T.State, acts: seq<TM.Action>, t': T.State)
    decreases |acts|
  {
    if acts == [] then t == t' else TM.Enabled(t, acts[0]) && Leads(TM.Next(t, acts[0]), acts[1..], t')
  }

  lemma {:induction false} LeadsTwice(a: T.State, p: seq<TM.Action>, b: T.State, q: seq<TM.Action>, c: T.State)
    requires Leads(a, p, b) && Leads(b, q, c)
    ensures Leads(a, p + q, c)
    decreases |p|
  {
    hide TM.Enabled, TM.Next;
    if p == [] {
      assert p + q == q;
    } else {
      LeadsTwice(TM.Next(a, p[0]), p[1..], b, q, c);
      assert (p + q)[1..] == p[1..] + q;
    }
  }

  lemma LeadsOnce(t: T.State, a: TM.Action)
    requires TM.Enabled(t, a)
    ensures Leads(t, [a], TM.Next(t, a))
  {
    hide TM.Enabled, TM.Next;
    assert [a][1..] == [];
  }

  /** Such steps from the start are a run. */
  lemma {:induction false} LeadsIsRun(run: seq<T.State>, acts: seq<TM.Action>, more: seq<TM.Action>, t: T.State)
    requires TM.IsRun(run, acts) && Leads(run[|acts|], more, t)
    ensures exists run' :: TM.IsRun(run', acts + more) && run'[|acts + more|] == t
    decreases |more|
  {
    hide TM.Enabled, TM.Next;
    if more == [] {
      assert acts + more == acts;
      assert TM.IsRun(run, acts + more) && run[|acts + more|] == t;
    } else {
      var next := TM.Next(run[|acts|], more[0]);
      var (run1, acts1) := (run + [next], acts + [more[0]]);
      assert TM.IsRun(run1, acts1) && run1[|acts1|] == next;
      LeadsIsRun(run1, acts1, more[1..], t);
      assert acts1 + more[1..] == acts + more;
    }
  }

  lemma ForgetsLeads(s: State, t: T.State, fd: int, d: Dir)
    requires FrameAt(s, fd, d) <= t.waiters
    ensures Leads(t, Forgets(s, fd, d), Forget(t, FrameAt(s, fd, d)))
  {
    var o := s.r.Slot(fd, d);
    if o.Some? && o.value in s.held {
      LeadsOnce(t, TM.Forget(s.held[o.value]));
    } else {
      assert Forget(t, {}) == t;
    }
  }

  /** The frames in the two slots of a descriptor wait, and are not the same. */
  lemma SlotFrames(s: State, fd: int)
    requires Inv(s)
    ensures forall d :: FrameAt(s, fd, d) <= s.t.waiters
    ensures FrameAt(s, fd, Read) !! FrameAt(s, fd, Write)
  {
    forall d
      ensures FrameAt(s, fd, d) <= s.t.waiters
      ensures s.r.Slot(fd, d).Some? ==> R.Occupied(s.r, fd, d) && Live(s.r, s.r.Slot(fd, d).value)
    {
      SlotIsLive(s.r, fd, d);
    }
    assert R.Linear(s.r);
    hide R.Inv, TM.Good, Live;
  }

  lemma RemoveLeads(s: State, fd: int)
    requires Inv(s)
    ensures Leads(s.t, Forgets(s, fd, Read) + Forgets(s, fd, Write), Forget(s.t, FrameAt(s, fd, Read) + FrameAt(s, fd, Write)))
  {
    SlotFrames(s, fd);
    hide Inv, Leads;
    var t := Forget(s.t, FrameAt(s, fd, Read));
    ForgetsLeads(s, s.t, fd, Read);
    ForgetsLeads(s, t, fd, Write);
    LeadsTwice(s.t, Forgets(s, fd, Read), t, Forgets(s, fd, Write), Forget(t, FrameAt(s, fd, Write)));
    assert Forget(t, FrameAt(s, fd, Write)) == Forget(s.t, FrameAt(s, fd, Read) + FrameAt(s, fd, Write));
  }

  lemma AwaitLeads(s: State, fd: int, d: Dir, et: bool)
    requires Inv(s) && Enabled(s, AwaitFd(fd, d, et))
    ensures Leads(s.t, [TM.Run] + Forgets(s, fd, d), Forget(T.Step(s.t), FrameAt(s, fd, d)))
  {
    SlotFrames(s, fd);
    AwaitWaiters(s.t);
    var t := T.Step(s.t);
    assert TM.Enabled(s.t, TM.Run) && TM.Next(s.t, TM.Run) == t;
    hide Inv, Leads, T.Step, TM.Next, AtAwait;
    LeadsOnce(s.t, TM.Run);
    ForgetsLeads(s, t, fd, d);
    LeadsTwice(s.t, [TM.Run], t, Forgets(s, fd, d), Forget(t, FrameAt(s, fd, d)));
  }

  lemma StepLeads(s: State, a: Action)
    requires Inv(s) && Enabled(s, a)
    ensures Leads(s.t, TaskSteps(s, a), Step(s, a).t)
  {
    hide Inv, Leads, FrameAt, Forgets;
    match a
    case AwaitFd(fd, d, et) => AwaitLeads(s, fd, d, et);
    case RemoveFd(fd) => if fd >= 0 { RemoveLeads(s, fd); } else { LeadsNowhere(s.t); }
    case Loop(_) => LeadsNowhere(s.t);
    case _ => LeadsOnce(s.t, TaskSteps(s, a)[0]);
  }

  lemma LeadsNowhere(t: T.State)
    ensures Leads(t, [], t)
  {
  }

  lemma {:induction false} RunLeads(run: seq<State>, acts: seq<Action>, wake: int, n: nat)
    requires IsRun(run, acts, wake) && n <= |acts|
    ensures Leads(TM.EMPTY, AllTaskSteps(run, acts, wake, n), run[n].t)
  {
    hide Inv, Step, Enabled, TaskSteps, IsRun;
    if n == 0 {
      AtFirst(run, acts, wake);
    } else {
      RunLeads(run, acts, wake, n - 1);
      RunKeepsInv(run, acts, wake, n - 1);
      StepOfRun(run, acts, wake, n - 1);
      StepLeads(run[n - 1], acts[n - 1]);
      hide Leads;
      LeadsTwice(TM.EMPTY, AllTaskSteps(run, acts, wake, n - 1), run[n - 1].t, TaskSteps(run[n - 1], acts[n - 1]), run[n].t);
    }
  }

  /** Whatever the loop does, the tasks see a run of their own, made of the steps that concern them: what TaskMeaning says of
      its runs, it says of the tasks on this loop. */
  lemma TasksRunOnTheLoop(run: seq<State>, acts: seq<Action>, wake: int, n: nat)
    requires IsRun(run, acts, wake) && n <= |acts|
    ensures var all := AllTaskSteps(run, acts, wake, n); exists trun :: TM.IsRun(trun, all) && trun[|all|] == run[n].t
  {
    RunLeads(run, acts, wake, n);
    var none: seq<TM.Action> := [];
    assert TM.IsRun([TM.EMPTY], none);
    var all := AllTaskSteps(run, acts, wake, n);
    LeadsIsRun([TM.EMPTY], none, all, run[n].t);
    assert none + all == all;
  }

  /** The tasks that the loop was told to start, in order. */
  ghost function StartedBy(acts: seq<Action>, n: nat): seq<(C.Stmt, C.Env)>
    requires n <= |acts|
  {
    if n == 0 then []
    else StartedBy(acts, n - 1) + if acts[n - 1].StartTask? then [(acts[n - 1].prog, acts[n - 1].env)] else []
  }

  lemma {:induction false} StartsOfBoth(p: seq<TM.Action>, q: seq<TM.Action>)
    ensures TM.Starts(p + q) == TM.Starts(p) + TM.Starts(q)
    decreases |q|
  {
    if q == [] {
      assert p + q == p;
    } else {
      var front := q[..|q| - 1];
      StartsOfBoth(p, front);
      assert (p + q)[..|p + q| - 1] == p + front;
    }
  }

  lemma StartsOfStep(s: State, a: Action)
    requires Enabled(s, a)
    ensures TM.Starts(TaskSteps(s, a)) == if a.StartTask? then [(a.prog, a.env)] else []
  {
    match a
    case AwaitFd(fd, d, _) => StartsOfBoth([TM.Run], Forgets(s, fd, d));
    case RemoveFd(fd) => StartsOfBoth(Forgets(s, fd, Read), Forgets(s, fd, Write));
    case _ =>
  }

  lemma {:induction false} StartsOfRun(run: seq<State>, acts: seq<Action>, wake: int, n: nat)
    requires IsRun(run, acts, wake) && n <= |acts|
    ensures TM.Starts(AllTaskSteps(run, acts, wake, n)) == StartedBy(acts, n)
  {
    hide IsRun, Step, Enabled, TaskSteps, TM.Starts;
    if n == 0 {
      NoStarts();
    } else {
      StartsOfRun(run, acts, wake, n - 1);
      StepOfRun(run, acts, wake, n - 1);
      StartsOfBoth(AllTaskSteps(run, acts, wake, n - 1), TaskSteps(run[n - 1], acts[n - 1]));
      StartsOfStep(run[n - 1], acts[n - 1]);
    }
  }

  lemma NoStarts()
    ensures TM.Starts([]) == []
  {
  }

  /** In particular its roots are exactly the tasks it was told to start and those that they have spawned. */
  lemma TasksOnTheLoop(run: seq<State>, acts: seq<Action>, wake: int, n: nat)
    requires IsRun(run, acts, wake) && n <= |acts|
    ensures TM.LoopTasks(run[n].t.roots) == StartedBy(acts, n)
  {
    TasksRunOnTheLoop(run, acts, wake, n);
    StartsOfRun(run, acts, wake, n);
    var all := AllTaskSteps(run, acts, wake, n);
    var trun :| TM.IsRun(trun, all) && trun[|all|] == run[n].t;
    hide IsRun, TM.IsRun, TM.Starts, TM.LoopTasks;
    TM.StartsAreTasks(trun, all, |all|);
    assert all[..|all|] == all;
  }

  lemma StepReacts(s: State, a: Action)
    requires Enabled(s, a)
    ensures if ReactorSteps(a) == [] then Step(s, a).r == s.r
            else R.Enabled(s.r, ReactorSteps(a)[0]) && Step(s, a).r == R.Step(s.r, ReactorSteps(a)[0])
  {
  }

  /** And the reactor sees one of its own. */
  lemma {:induction false} ReactorRunsUnderTasks(run: seq<State>, acts: seq<Action>, wake: int, n: nat)
    requires IsRun(run, acts, wake) && n <= |acts|
    ensures var all := AllReactorSteps(acts, n);
            exists rrun :: R.IsRun(rrun, all) && rrun[0] == R.Init(wake) && rrun[|all|] == run[n].r
  {
    hide Step, Enabled, R.Step, R.Enabled, IsRun;
    if n == 0 {
      AtFirst(run, acts, wake);
      var none: seq<R.Action> := [];
      assert R.IsRun([R.Init(wake)], none) && AllReactorSteps(acts, 0) == none;
    } else {
      ReactorRunsUnderTasks(run, acts, wake, n - 1);
      StepOfRun(run, acts, wake, n - 1);
      StepReacts(run[n - 1], acts[n - 1]);
      var all, more := AllReactorSteps(acts, n - 1), ReactorSteps(acts[n - 1]);
      var rrun :| R.IsRun(rrun, all) && rrun[0] == R.Init(wake) && rrun[|all|] == run[n - 1].r;
      if more == [] {
        assert all + more == all;
      } else {
        assert more == [more[0]];
        assert R.IsRun(rrun + [run[n].r], all + more);
      }
    }
  }
}
