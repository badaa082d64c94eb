/** `EventLoop` as the object it is: a table of slots, a queue of posted callbacks, the spawned tasks and a stop flag,
    updated in place by methods that call back into coroutines. Coroutines and callbacks register, remove, post, stop,
    spawn and end tasks while they run. Each method is proved against a function on values, built on the transition system
    of module Reactor. */
module EventLoops {
  import opened Wrappers
  import opened Epoll
  import opened Reactor

  // The readiness that one write to the eventfd raises.
  const WAKEUP := Bits(true, false, false)

  /** One thing that a coroutine or a callback does while it runs, or that the kernel or another thread does meanwhile:
      an action on the reactor, a `post`, a `stop`, the start of a task by `spawn` (what the task does at once follows),
      the end of a task with or without an exception. */
  datatype Effect =
    | Act(a: Action)
    | PostBack(c: Callback)
    | StopLoop
    | Begin
    | End(id: nat, exn: Option<Exn>)

  /** A posted callback: what it does, and what it ends by throwing, if anything. */
  datatype Callback = Callback(id: nat, does: seq<Effect>, throws: Option<Exn>)

  /** An element of `tasks_`: tasks are numbered in the order of their spawns. */
  datatype TaskRec = TaskRec(id: nat, done: bool, exn: Option<Exn>)
  {
    // Its exception passes the handler of `compact_finished_tasks`.
    predicate Foreign() { done && exn.Some? && exn.value.Foreign? }
  }

  /** What the coroutine behind each token does from its resumption to its next suspension. */
  type Behaviour = nat -> seq<Effect>

  /** A loop: the reactor, the queue, the callbacks started so far, the flag, the tasks, how many were ever spawned, and how
      many waits have returned. */
  datatype Life = Life(s: State, pending: seq<Callback>, ran: seq<Callback>, stopped: bool, tasks: seq<TaskRec>, born: nat,
                       waits: nat)

  /** Where a function of the loop ends: by returning, or by throwing. */
  datatype Result = Result(l: Life, thrown: Option<Exn>)

  // ------------------------------------------------------ what the code does

  /** The actions open to code outside the loop's own bookkeeping. */
  predicate Outside(s: State, a: Action) {
    match a
    case WaitEvents => false
    case TakeEvent => false
    case ResumeTaken => false
    case ConsumeFd(fd, _) => fd != s.wake
    case _ => Enabled(s, a)
  }

  /** The action on the reactor that an effect comes with. */
  function ActionOf(e: Effect, wake: int): Option<Action> {
    match e
    case Act(a) => Some(a)
    case PostBack(_) => Some(SignalFd(wake, WAKEUP))
    case StopLoop => Some(SignalFd(wake, WAKEUP))
    case _ => None
  }

  function Moved(s: State, a: Option<Action>): State {
    if a.Some? && Outside(s, a.value) then Step(s, a.value) else s
  }

  function MarkDone(tasks: seq<TaskRec>, id: nat, exn: Option<Exn>): seq<TaskRec> {
    seq(|tasks|, i requires 0 <= i < |tasks| =>
      if tasks[i].id == id && !tasks[i].done then TaskRec(id, true, exn) else tasks[i])
  }

  function Apply(l: Life, e: Effect): Life {
    var l' := l.(s := Moved(l.s, ActionOf(e, l.s.wake)));
    match e
    case Act(_) => l'
    case PostBack(c) => l'.(pending := l.pending + [c])
    case StopLoop => l'.(stopped := true)
    case Begin => l'.(tasks := l.tasks + [TaskRec(l.born, false, None)], born := l.born + 1)
    case End(id, exn) => l'.(tasks := MarkDone(l.tasks, id, exn))
  }

  function Perform(l: Life, effs: seq<Effect>): (l': Life)
    ensures l'.s.taken == l.s.taken && l'.s.batch == l.s.batch && l'.s.wake == l.s.wake
    ensures l'.ran == l.ran && (l.stopped ==> l'.stopped)
    decreases |effs|
  {
    if effs == [] then l else Perform(Apply(l, effs[0]), effs[1..])
  }

  /** Resume the taken handles one after the other. */
  function ResumeAll(l: Life, beh: Behaviour): (l': Life)
    ensures l'.s.taken == [] && l'.s.batch == l.s.batch && l'.s.wake == l.s.wake
    ensures l'.ran == l.ran && (l.stopped ==> l'.stopped)
    decreases |l.s.taken|
  {
    if l.s.taken == [] then l else ResumeAll(Perform(l.(s := Resume(l.s)), beh(l.s.taken[0])), beh)
  }

  /** `dispatch` of a client event. */
  function DispatchOne(l: Life, beh: Behaviour): Life
    requires l.s.batch != []
  {
    ResumeAll(l.(s := Take(l.s)), beh)
  }

  /** The loop over the swapped-out queue: a throw leaves it, and what is behind is lost. */
  function RunAll(l: Life, q: seq<Callback>): (r: Result)
    ensures r.l.s.taken == l.s.taken && r.l.s.batch == l.s.batch && r.l.s.wake == l.s.wake && (l.stopped ==> r.l.stopped)
    decreases |q|
  {
    if q == [] then Result(l, None)
    else
      var l' := Perform(l.(ran := l.ran + [q[0]]), q[0].does);
      if q[0].throws.Some? then Result(l', q[0].throws) else RunAll(l', q[1..])
  }

  /** `drain_pending_tasks`. */
  function Drained(l: Life): Result { RunAll(l.(pending := []), l.pending) }

  /** The exception that leaves `compact_finished_tasks`: that of the first done task whose is not a `std::exception`. */
  function FirstForeign(tasks: seq<TaskRec>): (x: Option<Exn>)
    ensures x.Some? ==> x.value.Foreign?
    ensures x.Some? <==> exists t :: t in tasks && t.Foreign()
  {
    if tasks == [] then None else if tasks[0].Foreign() then tasks[0].exn else FirstForeign(tasks[1..])
  }

  function Alive(tasks: seq<TaskRec>): seq<TaskRec> {
    if tasks == [] then [] else (if tasks[0].done then [] else [tasks[0]]) + Alive(tasks[1..])
  }

  /** `compact_finished_tasks`. */
  function Compacted(l: Life): Result {
    var x := FirstForeign(l.tasks);
    if x.Some? then Result(l, x) else Result(l.(tasks := Alive(l.tasks)), None)
  }

  /** The two together, as at the head of `run` and in `dispatch`. */
  function Collected(l: Life): (r: Result)
    ensures r.l.s.taken == l.s.taken && r.l.s.batch == l.s.batch && r.l.s.wake == l.s.wake && (l.stopped ==> r.l.stopped)
  {
    var d := Drained(l);
    if d.thrown.Some? then d else Compacted(d.l)
  }

  /** `dispatch` of the next event. What it throws is caught by `run`, whatever it is. */
  function Dispatched(l: Life, beh: Behaviour): (l': Life)
    requires l.s.batch != []
    ensures l'.s.batch == l.s.batch[1..] && l'.s.wake == l.s.wake && (l.stopped ==> l'.stopped)
  {
    if l.s.batch[0].fd == l.s.wake then Collected(l.(s := Step(Take(l.s), ConsumeFd(l.s.wake, WAKEUP)))).l
    else DispatchOne(l, beh)
  }

  function DispatchAll(l: Life, beh: Behaviour): (l': Life)
    ensures l'.s.batch == [] && (l.s.taken == [] ==> l'.s.taken == []) && (l.stopped ==> l'.stopped)
    decreases |l.s.batch|
  {
    if l.s.batch == [] then l else DispatchAll(Dispatched(l, beh), beh)
  }

  function Waited(l: Life): Life
    requires l.s.batch == [] && l.s.taken == []
  {
    l.(s := Step(l.s, WaitEvents), waits := l.waits + 1)
  }

  /** One turn of `run` after its head: wait, and dispatch the whole batch. */
  function Turn(l: Life, beh: Behaviour): (l': Life)
    requires l.s.batch == [] && l.s.taken == []
    ensures l'.s.batch == [] && l'.s.taken == [] && (l.stopped ==> l'.stopped)
  {
    DispatchAll(Waited(l), beh)
  }

  /** How one `epoll_wait` goes: what other threads and the kernel do before it returns, and whether a signal ends it. */
  datatype Blocking = Blocking(meanwhile: seq<Effect>, interrupted: bool)

  /** The head of `run`: only `std::exception` is caught. */
  function Head(l: Life): (r: Result)
    ensures r.l.s.taken == l.s.taken && r.l.s.batch == l.s.batch && r.l.s.wake == l.s.wake
  {
    var c := Collected(l);
    if c.thrown.Some? && c.thrown.value.Foreign? then c else Result(c.l, None)
  }

  /** One pass of `run`. */
  function Pass(l: Life, b: Blocking, beh: Behaviour): (r: Result)
    requires l.s.batch == [] && l.s.taken == []
    ensures r.l.s.batch == [] && r.l.s.taken == []
  {
    var h := Head(l);
    if h.thrown.Some? then h
    else
      var w := Perform(h.l, b.meanwhile);
      if b.interrupted then Result(w.(waits := w.waits + 1), None) else Result(Turn(w, beh), None)
  }

  /** `run`, for as many passes as env lists. */
  function Passes(l: Life, env: seq<Blocking>, beh: Behaviour): (r: Result)
    requires l.s.batch == [] && l.s.taken == []
    ensures r.l.s.batch == [] && r.l.s.taken == []
    decreases |env|
  {
    if env == [] || l.stopped then Result(l, None)
    else
      var p := Pass(l, env[0], beh);
      if p.thrown.Some? then p else Passes(p.l, env[1..], beh)
  }

  // -------------------------------------------------------- the wakeup event

  /** The eventfd stays registered level-triggered, and stays queued while it is readable. */
  ghost predicate WakeQueued(s: State) {
    && s.wake in s.k.interest && s.k.interest[s.wake] == Interest(true, false, false)
    && s.wake in s.k.ready
    && (s.k.ready[s.wake].rd ==> s.wake in s.k.rdl)
  }

  lemma StepKeepsWake(s: State, a: Action)
    requires Inv(s) && WakeQueued(s) && Outside(s, a)
    ensures WakeQueued(Step(s, a))
    ensures s.k.ready[s.wake].rd ==> Step(s, a).k.ready[s.wake].rd
  {
    match a
    case AwaitFd(fd, d, et) => AwaitSlots(s, fd, d, et);
    case RemoveFd(fd) => WithoutFacts(s.k.rdl, fd);
    case CloseFd(fd) => WithoutFacts(s.k.rdl, fd);
    case _ =>
  }

  lemma TakeKeepsWake(s: State)
    requires Inv(s) && WakeQueued(s) && s.batch != []
    ensures WakeQueued(Take(s)) && Take(s).k.ready == s.k.ready
  {
    WithoutFacts(s.k.rdl, s.batch[0].fd);
    var e := s.batch[0];
    if e.fd != s.wake && e.fd in s.states {
      var st := LeftBy(s.states[e.fd], e.bits);
      hide Ctl, Inv;
    }
  }

  lemma WaitKeepsWake(s: State)
    requires Inv(s) && WakeQueued(s)
    ensures var (k', events) := Wait(s.k); k'.ready == s.k.ready && WakeQueued(s.(k := k', batch := events))
  {
    ScanKeeps(s.k, s.k.rdl, MAX_EVENTS);
    var r := Scan(s.k, s.k.rdl, MAX_EVENTS);
    if s.k.ready[s.wake].rd && Pos(s.k.rdl, s.wake) < r.taken {
      assert s.k.rdl[..r.taken][Pos(s.k.rdl, s.wake)] == s.wake;
    } else if s.k.ready[s.wake].rd {
      assert s.k.rdl[r.taken..][Pos(s.k.rdl, s.wake) - r.taken] == s.wake;
    }
  }

  // ------------------------------------------------- what holds between steps

  /** The reactor's invariant holds, and with something pending the eventfd is readable: such a loop cannot block. */
  ghost predicate Sound(l: Life) {
    Inv(l.s) && WakeQueued(l.s) && (l.pending != [] ==> l.s.k.ready[l.s.wake].rd)
  }

  /** A stop that has not been noticed yet keeps the eventfd readable. */
  ghost predicate StopSeen(l: Life)
    requires WakeQueued(l.s)
  {
    l.stopped ==> l.s.k.ready[l.s.wake].rd
  }

  lemma ApplySound(l: Life, e: Effect)
    requires Inv(l.s) && WakeQueued(l.s)
    ensures Inv(Apply(l, e).s) && WakeQueued(Apply(l, e).s)
    ensures l.s.k.ready[l.s.wake].rd ==> Apply(l, e).s.k.ready[l.s.wake].rd
    ensures Sound(l) ==> Sound(Apply(l, e))
    ensures StopSeen(l) ==> StopSeen(Apply(l, e))
  {
    var a := ActionOf(e, l.s.wake);
    if a.Some? && Outside(l.s, a.value) {
      StepKeepsInv(l.s, a.value);
      StepKeepsWake(l.s, a.value);
      hide Inv;
    }
  }

  lemma {:induction false} PerformSound(l: Life, effs: seq<Effect>)
    requires Inv(l.s) && WakeQueued(l.s)
    ensures Inv(Perform(l, effs).s) && WakeQueued(Perform(l, effs).s)
    ensures l.s.k.ready[l.s.wake].rd ==> Perform(l, effs).s.k.ready[l.s.wake].rd
    ensures Sound(l) ==> Sound(Perform(l, effs))
    ensures StopSeen(l) ==> StopSeen(Perform(l, effs))
    decreases |effs|
  {
    if effs != [] {
      ApplySound(l, effs[0]);
      hide Inv, Apply, Sound, WakeQueued, StopSeen;
      PerformSound(Apply(l, effs[0]), effs[1..]);
    }
  }

  lemma {:induction false} ResumeAllSound(l: Life, beh: Behaviour)
    requires Sound(l)
    ensures Sound(ResumeAll(l, beh))
    decreases |l.s.taken|
  {
    if l.s.taken != [] {
      var l1 := l.(s := Resume(l.s));
      StepKeepsInv(l.s, ResumeTaken);
      assert Sound(l1);
      hide Inv, Sound;
      PerformSound(l1, beh(l.s.taken[0]));
      ResumeAllSound(Perform(l1, beh(l.s.taken[0])), beh);
    }
  }

  lemma {:induction false} RunAllSound(l: Life, q: seq<Callback>)
    requires Sound(l)
    ensures Sound(RunAll(l, q).l)
    ensures StopSeen(l) ==> StopSeen(RunAll(l, q).l)
    decreases |q|
  {
    if q != [] {
      var l1 := l.(ran := l.ran + [q[0]]);
      PerformSound(l1, q[0].does);
      if q[0].throws.None? {
        hide Inv, Perform;
        RunAllSound(Perform(l1, q[0].does), q[1..]);
      }
    }
  }

  lemma CollectedSound(l: Life)
    requires Inv(l.s) && WakeQueued(l.s)
    ensures Sound(Collected(l).l)
    ensures StopSeen(l) ==> StopSeen(Collected(l).l)
  {
    assert Sound(l.(pending := []));
    hide Inv;
    RunAllSound(l.(pending := []), l.pending);
    hide RunAll;
  }

  /** A loop that has been stopped, or has something to run, does not sleep through it: when it comes to the wait the
      eventfd is readable and queued, whatever its own callbacks, the other threads and the kernel have done. */
  lemma HeadLeavesAwake(l: Life, b: Blocking)
    requires Sound(l) && !l.stopped
    ensures Sound(Head(l).l)
    ensures var w := Perform(Head(l).l, b.meanwhile);
            && Sound(w)
            && (w.pending != [] || w.stopped ==> w.s.k.ready[w.s.wake].rd && w.s.wake in w.s.k.rdl)
  {
    CollectedSound(l);
    PerformSound(Head(l).l, b.meanwhile);
    hide Collected, Inv, Perform;
  }

  // ------------------------------------------------------- nobody is lost

  /** Waiter t is on its way: its event is still to be dispatched, or its handle is taken, or it has met its fate. */
  ghost predicate OnItsWay(s: State, fd: int, d: Dir, t: nat) {
    Past(s.led, t) || t in s.taken || (s.Slot(fd, d) == Some(t) && InBatch(s, fd, d))
  }

  lemma TakeKeepsOnItsWay(s: State, fd: int, d: Dir, t: nat)
    requires Inv(s) && s.batch != [] && s.taken == [] && OnItsWay(s, fd, d, t)
    ensures OnItsWay(Take(s), fd, d, t)
  {
    if !Past(s.led, t) {
      TakeSlots(s);
      assert Past(Take(s).led, t) <==> Past(s.led, t);
      var c :| c in s.batch && c.fd == fd && c.bits.Carries(d);
      hide Inv, Take;
      assert if c == s.batch[0] then t in Take(s).taken else c in Take(s).batch;
    }
  }

  /** Between two waits a waiter with an undispatched event keeps it, or is taken, or has met its fate. */
  lemma StepKeepsOnItsWay(s: State, a: Action, fd: int, d: Dir, t: nat)
    requires Inv(s) && Enabled(s, a) && a != WaitEvents && OnItsWay(s, fd, d, t)
    ensures OnItsWay(Step(s, a), fd, d, t)
  {
    var s' := Step(s, a);
    if a == TakeEvent {
      TakeKeepsOnItsWay(s, fd, d, t);
    } else if t in s.taken {
      assert a == ResumeTaken && t != s.taken[0] ==> t in s.taken[1..];
    } else if !Past(s.led, t) {
      var c :| c in s.batch && c.fd == fd && c.bits.Carries(d);
      if a.AwaitFd? {
        AwaitSlots(s, a.fd, a.d, a.et);
      } else if a.RemoveFd? {
        RemoveSlots(s, a.fd);
      }
      assert c in s'.batch;
    }
  }

  /** A due waiter among the first MAX_EVENTS of the ready list is in the next batch. */
  lemma WaitDelivers(s: State, fd: int, d: Dir, t: nat)
    requires Inv(s) && s.batch == [] && s.taken == [] && Due(s, fd, d, t) && Pos(s.k.rdl, fd) < MAX_EVENTS
    ensures OnItsWay(Step(s, WaitEvents), fd, d, t)
  {
    var s' := Step(s, WaitEvents);
    assert Occupied(s, fd, d);
    WaitAdvances(s.k, fd);
    assert Event(fd, Poll(s.k.interest[fd], s.k.ready[fd])) in s'.batch;
    assert InBatch(s', fd, d);
  }

  /** Nobody who was on its way in s has been lost by the time of s'. */
  ghost predicate Forwards(s: State, s': State) {
    forall fd, d, t :: OnItsWay(s, fd, d, t) ==> OnItsWay(s', fd, d, t)
  }

  lemma StepForwards(s: State, a: Action)
    requires Inv(s) && Enabled(s, a) && a != WaitEvents
    ensures Forwards(s, Step(s, a))
  {
    forall fd, d, t | OnItsWay(s, fd, d, t)
      ensures OnItsWay(Step(s, a), fd, d, t)
    {
      StepKeepsOnItsWay(s, a, fd, d, t);
    }
  }

  lemma {:induction false} PerformForwards(l: Life, effs: seq<Effect>)
    requires Inv(l.s) && WakeQueued(l.s)
    ensures Forwards(l.s, Perform(l, effs).s)
    decreases |effs|
  {
    if effs != [] {
      var a, l1 := ActionOf(effs[0], l.s.wake), Apply(l, effs[0]);
      assert Forwards(l.s, l1.s) by {
        if a.Some? && Outside(l.s, a.value) {
          StepForwards(l.s, a.value);
        }
      }
      ApplySound(l, effs[0]);
      hide Inv, Apply, OnItsWay, WakeQueued;
      PerformForwards(l1, effs[1..]);
    }
  }

  lemma {:induction false} ResumeAllForwards(l: Life, beh: Behaviour)
    requires Sound(l)
    ensures Forwards(l.s, ResumeAll(l, beh).s)
    decreases |l.s.taken|
  {
    if l.s.taken != [] {
      var l1 := l.(s := Resume(l.s));
      StepKeepsInv(l.s, ResumeTaken);
      StepForwards(l.s, ResumeTaken);
      assert Sound(l1);
      hide Inv, OnItsWay;
      PerformForwards(l1, beh(l.s.taken[0]));
      PerformSound(l1, beh(l.s.taken[0]));
      hide Sound, WakeQueued;
      ResumeAllForwards(Perform(l1, beh(l.s.taken[0])), beh);
    }
  }

  lemma {:induction false} RunAllForwards(l: Life, q: seq<Callback>)
    requires Sound(l)
    ensures Forwards(l.s, RunAll(l, q).l.s)
    decreases |q|
  {
    if q != [] {
      var l1 := l.(ran := l.ran + [q[0]]);
      PerformForwards(l1, q[0].does);
      PerformSound(l1, q[0].does);
      if q[0].throws.None? {
        hide Inv, Perform, OnItsWay;
        RunAllForwards(Perform(l1, q[0].does), q[1..]);
      }
    }
  }

  lemma CollectedForwards(l: Life)
    requires Inv(l.s) && WakeQueued(l.s)
    ensures Forwards(l.s, Collected(l).l.s)
  {
    assert Sound(l.(pending := []));
    hide Inv, OnItsWay;
    RunAllForwards(l.(pending := []), l.pending);
    hide RunAll;
  }

  /** A whole dispatch keeps the invariant and loses nobody. */
  lemma DispatchedSound(l: Life, beh: Behaviour)
    requires Sound(l) && l.s.batch != [] && l.s.taken == []
    ensures Sound(Dispatched(l, beh)) && Forwards(l.s, Dispatched(l, beh).s) && Dispatched(l, beh).s.taken == []
  {
    var l1 := l.(s := Take(l.s));
    StepKeepsInv(l.s, TakeEvent);
    TakeKeepsWake(l.s);
    StepForwards(l.s, TakeEvent);
    hide OnItsWay, Take;
    if l.s.batch[0].fd == l.s.wake {
      assert Take(l.s).taken == [] && Take(l.s).wake == l.s.wake by { WakeupTake(l.s); }
      var a := ConsumeFd(l.s.wake, WAKEUP);
      StepKeepsInv(l1.s, a);
      StepForwards(l1.s, a);
      assert WakeQueued(Step(l1.s, a)) && Step(l1.s, a).taken == [];
      hide Inv, Step, Collected;
      CollectedSound(l1.(s := Step(l1.s, a)));
      CollectedForwards(l1.(s := Step(l1.s, a)));
    } else {
      hide Inv;
      assert Sound(l1) by { TakeKeepsPlaces(l.s); }
      ResumeAllSound(l1, beh);
      ResumeAllForwards(l1, beh);
    }
  }

  lemma WakeupTake(s: State)
    requires s.batch != [] && s.batch[0].fd == s.wake
    ensures Take(s) == s.(batch := s.batch[1..])
  {
  }

  lemma TakeKeepsPlaces(s: State)
    requires s.batch != []
    ensures Take(s).wake == s.wake
  {
  }

  lemma {:induction false} DispatchAllSound(l: Life, beh: Behaviour)
    requires Sound(l) && l.s.taken == []
    ensures Sound(DispatchAll(l, beh)) && Forwards(l.s, DispatchAll(l, beh).s)
    decreases |l.s.batch|
  {
    if l.s.batch != [] {
      DispatchedSound(l, beh);
      hide Sound, Dispatched, OnItsWay;
      DispatchAllSound(Dispatched(l, beh), beh);
    }
  }

  /** One turn keeps the invariant, and every waiter that was ready and among the first 128 of the ready list has been
      resumed by its end, or forgotten by an explicit removal or overwrite. */
  lemma TurnServes(l: Life, beh: Behaviour)
    requires Sound(l) && l.s.batch == [] && l.s.taken == []
    ensures Sound(Turn(l, beh))
    ensures forall fd, d, t :: Due(l.s, fd, d, t) && Pos(l.s.k.rdl, fd) < MAX_EVENTS ==> Past(Turn(l, beh).s.led, t)
  {
    var l1 := Waited(l);
    StepKeepsInv(l.s, WaitEvents);
    WaitKeepsWake(l.s);
    assert Sound(l1);
    DispatchAllSound(l1, beh);
    hide Sound, DispatchAll;
    forall fd, d, t | Due(l.s, fd, d, t) && Pos(l.s.k.rdl, fd) < MAX_EVENTS
      ensures Past(Turn(l, beh).s.led, t)
    {
      WaitDelivers(l.s, fd, d, t);
      assert OnItsWay(l1.s, fd, d, t);
      assert OnItsWay(Turn(l, beh).s, fd, d, t);
    }
  }

  // ---------------------------------------------- registering from the inside

  /** None of these effects concerns slot (fd, d). */
  ghost predicate Untouched(effs: seq<Effect>, fd: int, d: Dir) {
    forall e :: e in effs && e.Act? ==> e.a != RemoveFd(fd) && !(e.a.AwaitFd? && e.a.fd == fd && e.a.d == d)
  }

  lemma {:induction false} PerformKeepsSlot(l: Life, effs: seq<Effect>, fd: int, d: Dir)
    requires Inv(l.s) && WakeQueued(l.s) && Occupied(l.s, fd, d) && Untouched(effs, fd, d)
    ensures Perform(l, effs).s.Slot(fd, d) == l.s.Slot(fd, d)
    decreases |effs|
  {
    if effs != [] {
      var a, l1 := ActionOf(effs[0], l.s.wake), Apply(l, effs[0]);
      assert effs[0] in effs && Untouched(effs[1..], fd, d);
      if a.Some? && Outside(l.s, a.value) {
        SlotLostExactly(l.s, a.value, fd, d);
      }
      assert l1.s.Slot(fd, d) == l.s.Slot(fd, d);
      ApplySound(l, effs[0]);
      hide Inv, Apply, WakeQueued, Untouched;
      PerformKeepsSlot(l1, effs[1..], fd, d);
    }
  }

  lemma {:induction false} ResumeAllKeepsSlot(l: Life, beh: Behaviour, fd: int, d: Dir)
    requires Sound(l) && Occupied(l.s, fd, d)
    requires forall t :: t in l.s.taken ==> Untouched(beh(t), fd, d)
    ensures ResumeAll(l, beh).s.Slot(fd, d) == l.s.Slot(fd, d)
    decreases |l.s.taken|
  {
    if l.s.taken != [] {
      var t, l1 := l.s.taken[0], l.(s := Resume(l.s));
      StepKeepsInv(l.s, ResumeTaken);
      assert l1.s.Slot(fd, d) == l.s.Slot(fd, d) && Sound(l1) && t in l.s.taken;
      hide Inv, Untouched;
      PerformKeepsSlot(l1, beh(t), fd, d);
      PerformSound(l1, beh(t));
      hide Sound, WakeQueued;
      assert forall x :: x in l1.s.taken ==> x in l.s.taken;
      ResumeAllKeepsSlot(Perform(l1, beh(t)), beh, fd, d);
    }
  }

  lemma {:induction false} PerformSplit(l: Life, a: seq<Effect>, b: seq<Effect>)
    ensures Perform(l, a + b) == Perform(Perform(l, a), b)
    decreases |a|
  {
    if a == [] {
      assert a + b == b;
    } else {
      assert (a + b)[1..] == a[1..] + b;
      PerformSplit(Apply(l, a[0]), a[1..], b);
    }
  }

  lemma PerformSingle(l: Life, e: Effect)
    ensures Perform(l, [e]) == Apply(l, e)
  {
    assert [e][1..] == [] && Perform(Apply(l, e), []) == Apply(l, e);
  }

  lemma AwaitTakesSlot(l: Life, fd: int, d: Dir, et: bool)
    requires Inv(l.s) && WakeQueued(l.s) && fd in l.s.k.ready && fd >= 0 && fd != l.s.wake
    ensures Apply(l, Act(AwaitFd(fd, d, et))).s.Slot(fd, d) == Some(l.s.led.issued)
  {
    AwaitSlots(l.s, fd, d, et);
  }

  /** A coroutine that registers from inside its own resumption is not clobbered by the dispatch that resumed it: whatever
      it and the others do before, its token is in the slot at the end of the dispatch, unless one of them afterwards
      removes the descriptor or awaits the same direction. */
  lemma ReentrantAwaitSurvives(l: Life, beh: Behaviour, before: seq<Effect>, fd: int, d: Dir, et: bool, after: seq<Effect>)
    requires Sound(l) && l.s.taken != [] && beh(l.s.taken[0]) == before + [Act(AwaitFd(fd, d, et))] + after
    requires Untouched(after, fd, d) && forall t :: t in l.s.taken[1..] ==> Untouched(beh(t), fd, d)
    requires var m := Perform(l.(s := Resume(l.s)), before); fd in m.s.k.ready && fd >= 0 && fd != m.s.wake
    ensures var m := Perform(l.(s := Resume(l.s)), before);
            ResumeAll(l, beh).s.Slot(fd, d) == Some(m.s.led.issued)
  {
    var l1, e := l.(s := Resume(l.s)), Act(AwaitFd(fd, d, et));
    var m := Perform(l1, before);
    StepKeepsInv(l.s, ResumeTaken);
    assert Sound(l1);
    PerformSound(l1, before);
    AwaitTakesSlot(m, fd, d, et);
    ApplySound(m, e);
    hide Inv, Apply, Sound, WakeQueued, Untouched;
    PerformSplit(l1, before + [e], after);
    PerformSplit(l1, before, [e]);
    PerformSingle(m, e);
    PerformKeepsSlot(Apply(m, e), after, fd, d);
    PerformSound(Apply(m, e), after);
    ResumeAllKeepsSlot(Perform(Apply(m, e), after), beh, fd, d);
  }

  // ----------------------------------------------------------- the callbacks

  /** How many callbacks at the front of a batch are run: up to and including the first that throws. */
  function RunCount(q: seq<Callback>): (n: nat)
    ensures n <= |q|
  {
    if q == [] then 0 else if q[0].throws.Some? then 1 else 1 + RunCount(q[1..])
  }

  /** What the first throwing callback throws. */
  function FirstThrow(q: seq<Callback>): (x: Option<Exn>)
    ensures x.Some? <==> exists c :: c in q && c.throws.Some?
  {
    if q == [] then None else if q[0].throws.Some? then q[0].throws else FirstThrow(q[1..])
  }

  function PostsOf(effs: seq<Effect>): seq<Callback> {
    if effs == [] then [] else (if effs[0].PostBack? then [effs[0].c] else []) + PostsOf(effs[1..])
  }

  function AllPosts(q: seq<Callback>): seq<Callback> {
    if q == [] then [] else PostsOf(q[0].does) + AllPosts(q[1..])
  }

  lemma {:induction false} PerformPosts(l: Life, effs: seq<Effect>)
    ensures Perform(l, effs).pending == l.pending + PostsOf(effs)
    decreases |effs|
  {
    hide Apply;
    if effs != [] {
      ApplyPosts(l, effs[0]);
      assert PostsOf(effs) == (if effs[0].PostBack? then [effs[0].c] else []) + PostsOf(effs[1..]);
      PerformPosts(Apply(l, effs[0]), effs[1..]);
    }
  }

  lemma ApplyPosts(l: Life, e: Effect)
    ensures Apply(l, e).pending == l.pending + if e.PostBack? then [e.c] else []
  {
  }

  /** Up to the first one that throws, and that one too. */
  lemma {:induction false} RunCountMeans(q: seq<Callback>)
    ensures RunCount(q) < |q| ==> RunCount(q) > 0 && q[RunCount(q) - 1].throws.Some?
    ensures forall c :: c in q[..RunCount(q)] && c.throws.Some? ==> c == q[RunCount(q) - 1]
  {
    if q != [] && q[0].throws.None? {
      RunCountMeans(q[1..]);
      assert q[..RunCount(q)] == [q[0]] + q[1..][..RunCount(q[1..])];
    }
  }

  lemma AllPostsCons(c: Callback, q: seq<Callback>)
    ensures AllPosts([c] + q) == PostsOf(c.does) + AllPosts(q)
  {
    assert ([c] + q)[1..] == q;
  }

  lemma NoPosts()
    ensures AllPosts([]) == []
  {
  }

  /** A batch of callbacks is run from its front up to the first throw, in order and once each; what they post is appended
      in order. */
  lemma {:induction false} RunAllRuns(l: Life, q: seq<Callback>)
    ensures var (r, done) := (RunAll(l, q), q[..RunCount(q)]);
            r.l.ran == l.ran + done && r.l.pending == l.pending + AllPosts(done) && r.thrown == FirstThrow(q)
    decreases |q|
  {
    hide Perform, PostsOf, AllPosts;
    NoPosts();
    if q != [] {
      var l1 := Perform(l.(ran := l.ran + [q[0]]), q[0].does);
      PerformPosts(l.(ran := l.ran + [q[0]]), q[0].does);
      if q[0].throws.Some? {
        assert q[..1] == [q[0]] + [];
        AllPostsCons(q[0], []);
      } else {
        RunAllRuns(l1, q[1..]);
        var done := q[1..][..RunCount(q[1..])];
        assert q[..RunCount(q)] == [q[0]] + done;
        AllPostsCons(q[0], done);
      }
    }
  }

  /** `drain_pending_tasks` is over after the swapped callbacks even if they post again. */
  lemma DrainRuns(l: Life)
    ensures var (r, done) := (Drained(l), l.pending[..RunCount(l.pending)]);
            r.l.ran == l.ran + done && r.l.pending == AllPosts(done) && r.thrown == FirstThrow(l.pending)
  {
    RunAllRuns(l.(pending := []), l.pending);
  }

  lemma CollectedRuns(l: Life)
    ensures var (r, done) := (Collected(l), l.pending[..RunCount(l.pending)]);
            r.l.ran == l.ran + done && r.l.pending == AllPosts(done)
  {
    DrainRuns(l);
    hide Drained;
  }

  lemma {:induction false} ResumeAllPosts(l: Life, beh: Behaviour)
    ensures l.pending <= ResumeAll(l, beh).pending
    decreases |l.s.taken|
  {
    if l.s.taken != [] {
      PerformPosts(l.(s := Resume(l.s)), beh(l.s.taken[0]));
      hide Perform;
      ResumeAllPosts(Perform(l.(s := Resume(l.s)), beh(l.s.taken[0])), beh);
    }
  }

  /** What dispatching n events of a batch leaves. */
  function DispatchSome(l: Life, beh: Behaviour, n: nat): (l': Life)
    requires n <= |l.s.batch|
    ensures l'.s.batch == l.s.batch[n..] && l'.s.wake == l.s.wake
    decreases n
  {
    if n == 0 then l else DispatchSome(Dispatched(l, beh), beh, n - 1)
  }

  lemma {:induction false} DispatchRest(l: Life, beh: Behaviour, n: nat)
    requires n <= |l.s.batch|
    ensures DispatchAll(l, beh) == DispatchAll(DispatchSome(l, beh, n), beh)
    decreases n
  {
    hide Dispatched;
    if n > 0 {
      DispatchRest(Dispatched(l, beh), beh, n - 1);
    }
  }

  /** Client events run no callback, but their coroutines may post. */
  lemma {:induction false} ClientsOnlyPost(l: Life, beh: Behaviour, n: nat)
    requires n <= |l.s.batch| && forall i :: 0 <= i < n ==> l.s.batch[i].fd != l.s.wake
    ensures var m := DispatchSome(l, beh, n); m.ran == l.ran && l.pending <= m.pending
    decreases n
  {
    if n > 0 {
      var l1 := Dispatched(l, beh);
      assert l.s.batch[0].fd != l.s.wake;
      ResumeAllPosts(l.(s := Take(l.s)), beh);
      assert forall i :: 0 <= i < n - 1 ==> l1.s.batch[i] == l.s.batch[i + 1];
      hide Dispatched, ResumeAll;
      ClientsOnlyPost(l1, beh, n - 1);
    }
  }

  /** A batch with distinct descriptors drains the queue exactly once if the wakeup event is in it, at place w, and never
      otherwise. The drain runs what was pending before the batch and what the coroutines of the events in front have
      posted since; what is posted later stays pending. */
  lemma DispatchAllRuns(l: Life, beh: Behaviour, w: nat)
    requires w <= |l.s.batch| && forall i :: 0 <= i < |l.s.batch| ==> (l.s.batch[i].fd == l.s.wake <==> i == w)
    ensures var (m, l') := (DispatchSome(l, beh, w), DispatchAll(l, beh));
            var done := m.pending[..RunCount(m.pending)];
            && m.ran == l.ran && l.pending <= m.pending
            && (if w < |l.s.batch| then l'.ran == l.ran + done && AllPosts(done) <= l'.pending
                else l'.ran == l.ran && l.pending <= l'.pending)
  {
    ClientsOnlyPost(l, beh, w);
    DispatchRest(l, beh, w);
    var m := DispatchSome(l, beh, w);
    if w < |l.s.batch| {
      assert m.s.batch[0] == l.s.batch[w];
      var c := Dispatched(m, beh);
      WakeupRuns(m, beh);
      var n := |c.s.batch|;
      assert forall i :: 0 <= i < n ==> c.s.batch[i] == l.s.batch[w + 1 + i];
      ClientsOnlyPost(c, beh, n);
      DispatchRest(c, beh, n);
      hide Dispatched;
    }
  }

  lemma WakeupRuns(l: Life, beh: Behaviour)
    requires l.s.batch != [] && l.s.batch[0].fd == l.s.wake
    ensures var (l', done) := (Dispatched(l, beh), l.pending[..RunCount(l.pending)]);
            l'.ran == l.ran + done && l'.pending == AllPosts(done)
  {
    CollectedRuns(l.(s := Step(Take(l.s), ConsumeFd(l.s.wake, WAKEUP))));
    hide Collected, Take;
  }

  lemma {:induction false} CountOfPrefix(p: seq<Callback>, q: seq<Callback>)
    requires p <= q
    ensures p[..RunCount(p)] <= q[..RunCount(q)]
    decreases |p|
  {
    if p != [] && p[0].throws.None? {
      CountOfPrefix(p[1..], q[1..]);
    }
  }

  /** The wait reports the wakeup descriptor once. */
  lemma WakeReported(s: State) returns (w: nat)
    requires Inv(s) && WakeQueued(s) && s.k.ready[s.wake].rd && s.batch == [] && s.taken == []
    requires Pos(s.k.rdl, s.wake) < MAX_EVENTS
    ensures var s' := Step(s, WaitEvents);
            && w < |s'.batch| && (forall i :: 0 <= i < |s'.batch| ==> (s'.batch[i].fd == s'.wake <==> i == w))
            && s'.wake == s.wake && s'.taken == s.taken
  {
    var s' := Step(s, WaitEvents);
    StepKeepsInv(s, WaitEvents);
    WaitAdvances(s.k, s.wake);
    var e := Event(s.wake, Poll(s.k.interest[s.wake], s.k.ready[s.wake]));
    w :| 0 <= w < |s'.batch| && s'.batch[w] == e;
    assert BatchOk(s');
  }

  /** A turn runs what was pending before it, if the eventfd is among the first 128 of the ready list. */
  lemma TurnRuns(l: Life, beh: Behaviour)
    requires Sound(l) && l.s.k.ready[l.s.wake].rd && l.s.batch == [] && l.s.taken == []
    requires Pos(l.s.k.rdl, l.s.wake) < MAX_EVENTS
    ensures l.ran + l.pending[..RunCount(l.pending)] <= Turn(l, beh).ran
  {
    hide Inv, WakeQueued, DispatchAll, DispatchSome, Step, AllPosts;
    var l1 := Waited(l);
    var w := WakeReported(l.s);
    DispatchAllRuns(l1, beh, w);
    CountOfPrefix(l.pending, DispatchSome(l1, beh, w).pending);
  }

  // ------------------------------------------------------- how the run ends

  /** Once a pass has left the stop flag set, the run is over: its batch has been dispatched to the end, and there is no
      further wait and no further callback, whatever would have come. */
  lemma {:induction false} StopEndsRun(l: Life, env: seq<Blocking>, beh: Behaviour, i: nat)
    requires l.s.batch == [] && l.s.taken == [] && i <= |env|
    requires Passes(l, env[..i], beh).l.stopped || Passes(l, env[..i], beh).thrown.Some?
    ensures Passes(l, env, beh) == Passes(l, env[..i], beh)
    decreases i
  {
    hide Pass;
    if i == 0 {
      assert env[..i] == [];
    } else if !l.stopped {
      assert env[..i][0] == env[0] && env[..i][1..] == env[1..][..i - 1];
      var p := Pass(l, env[0], beh);
      if p.thrown.None? {
        StopEndsRun(p.l, env[1..], beh, i - 1);
      }
    }
  }

  /** And only then: a run that has used fewer passes than it was given has been stopped or has thrown. */
  lemma {:induction false} RunGoesOn(l: Life, env: seq<Blocking>, beh: Behaviour, i: nat)
    requires l.s.batch == [] && l.s.taken == [] && i < |env|
    requires !Passes(l, env[..i], beh).l.stopped && Passes(l, env[..i], beh).thrown.None?
    ensures Passes(l, env[..i + 1], beh) == Pass(Passes(l, env[..i], beh).l, env[i], beh)
    decreases i
  {
    if i == 0 {
      assert env[..0] == [] && env[..1] == [env[0]] && env[..1][1..] == [];
      assert !l.stopped;
      var p := Pass(l, env[0], beh);
      assert p.thrown.None? ==> Passes(p.l, [], beh) == Result(p.l, None);
    } else {
      assert env[..i][0] == env[0] && env[..i][1..] == env[1..][..i - 1];
      assert env[..i + 1][0] == env[0] && env[..i + 1][1..] == env[1..][..i];
      if !l.stopped {
        var p := Pass(l, env[0], beh);
        if p.thrown.None? {
          RunGoesOn(p.l, env[1..], beh, i - 1);
        }
      }
    }
  }

  /** A `stop` from inside a coroutine that the batch resumes, or from a callback, sets the flag for the rest of the pass. */
  lemma {:induction false} StopInside(l: Life, effs: seq<Effect>)
    requires StopLoop in effs
    ensures Perform(l, effs).stopped
    decreases |effs|
  {
    if effs[0] != StopLoop {
      StopInside(Apply(l, effs[0]), effs[1..]);
    }
  }

  lemma {:induction false} ResumeAllStops(l: Life, beh: Behaviour, t: nat)
    requires t in l.s.taken && StopLoop in beh(t)
    ensures ResumeAll(l, beh).stopped
    decreases |l.s.taken|
  {
    var l1 := l.(s := Resume(l.s));
    if t == l.s.taken[0] {
      StopInside(l1, beh(t));
    } else {
      assert t in l.s.taken[1..];
      ResumeAllStops(Perform(l1, beh(l.s.taken[0])), beh, t);
    }
  }

  /** An accept loop that fails calls `stop` from the coroutine that `dispatch` resumes: the run ends after this pass. */
  lemma StopInDispatchEndsRun(l: Life, env: seq<Blocking>, beh: Behaviour, i: nat, k: nat, t: nat)
    requires l.s.batch == [] && l.s.taken == [] && i < |env| && !env[i].interrupted
    requires !Passes(l, env[..i], beh).l.stopped && Passes(l, env[..i], beh).thrown.None?
    requires var h := Head(Passes(l, env[..i], beh).l);
             && h.thrown.None?
             && var w := Perform(h.l, env[i].meanwhile);
                var b := Waited(w);
                && k < |b.s.batch|
                && var m := DispatchSome(b, beh, k);
                   m.s.batch[0].fd != m.s.wake && t in Take(m.s).taken && StopLoop in beh(t)
    ensures var p := Pass(Passes(l, env[..i], beh).l, env[i], beh);
            p.l.stopped && p.l.s.batch == [] && Passes(l, env, beh) == p
  {
    var h := Head(Passes(l, env[..i], beh).l);
    var w := Perform(h.l, env[i].meanwhile);
    var b := Waited(w);
    var m := DispatchSome(b, beh, k);
    ResumeAllStops(m.(s := Take(m.s)), beh, t);
    DispatchRest(b, beh, k);
    assert Dispatched(m, beh).stopped;
    RunGoesOn(l, env, beh, i);
    StopEndsRun(l, env, beh, i + 1);
  }

  /** When `run` itself throws: exactly if the drain at its head is left by an exception other than `std::exception`, or
      is not left by any and a task is done with such an exception. */
  lemma PassThrowsExactly(l: Life, b: Blocking, beh: Behaviour)
    requires l.s.batch == [] && l.s.taken == []
    ensures var x := FirstThrow(l.pending);
            Pass(l, b, beh).thrown.Some? <==>
              || (x.Some? && x.value.Foreign?)
              || (x.None? && exists t :: t in Drained(l).l.tasks && t.Foreign())
    ensures Pass(l, b, beh).thrown.Some? ==> Pass(l, b, beh) == Collected(l)
  {
    DrainRuns(l);
    hide Drained;
  }

  // --------------------------------------------------- what compaction leaves

  /** q' is what is left of q without its done tasks, in the old order: `at` are the places of those that stay. */
  ghost predicate KeptAt(q: seq<TaskRec>, q': seq<TaskRec>, at: seq<nat>) {
    && |at| == |q'|
    && (forall i, j :: 0 <= i < j < |at| ==> at[i] < at[j])
    && (forall i :: 0 <= i < |at| ==> at[i] < |q| && q'[i] == q[at[i]])
    && (forall p :: 0 <= p < |q| ==> (p in at <==> !q[p].done))
  }

  /** A compaction that is not left by an exception erases the done tasks, each once, and nothing else. */
  ghost predicate OnlyDoneErased(q: seq<TaskRec>, q': seq<TaskRec>) {
    && (exists at :: KeptAt(q, q', at))
    && (forall t :: multiset(q')[t] == if t.done then 0 else multiset(q)[t])
  }

  lemma KeptNothing()
    ensures KeptAt([], [], []) && OnlyDoneErased([], [])
  {
  }

  lemma KeptMore(q: seq<TaskRec>, q': seq<TaskRec>, at: seq<nat>, t: TaskRec)
    requires KeptAt(q, q', at)
    ensures t.done ==> KeptAt(q + [t], q', at)
    ensures !t.done ==> KeptAt(q + [t], q' + [t], at + [|q|])
  {
    assert forall p :: p in at + [|q|] <==> p in at || p == |q|;
    assert forall p :: p in at ==> p < |q|;
  }

  lemma CountMore(q: seq<TaskRec>, q': seq<TaskRec>, t: TaskRec)
    requires forall x :: multiset(q')[x] == if x.done then 0 else multiset(q)[x]
    ensures forall x :: multiset(if t.done then q' else q' + [t])[x] == if x.done then 0 else multiset(q + [t])[x]
  {
  }

  lemma ErasedMore(q: seq<TaskRec>, q': seq<TaskRec>, t: TaskRec)
    requires OnlyDoneErased(q, q')
    ensures OnlyDoneErased(q + [t], if t.done then q' else q' + [t])
  {
    var at :| KeptAt(q, q', at);
    KeptMore(q, q', at, t);
    CountMore(q, q', t);
    hide KeptAt;
  }

  /** x is the exception of the first of these tasks that is done with one that passes the handler. */
  ghost predicate ThrownFirst(q: seq<TaskRec>, x: Option<Exn>) {
    exists p :: 0 <= p < |q| && q[p].Foreign() && q[p].exn == x && forall i :: 0 <= i < p ==> !q[i].Foreign()
  }

  lemma {:induction false} FirstIsFirst(q: seq<TaskRec>)
    requires FirstForeign(q).Some?
    ensures ThrownFirst(q, FirstForeign(q))
    decreases |q|
  {
    if q[0].Foreign() {
      assert q[0].exn == FirstForeign(q);
    } else {
      FirstIsFirst(q[1..]);
      var p :| 0 <= p < |q[1..]| && q[1..][p].Foreign() && q[1..][p].exn == FirstForeign(q)
               && forall i :: 0 <= i < p ==> !q[1..][i].Foreign();
      assert forall i :: 0 < i < p + 1 ==> q[i] == q[1..][i - 1];
      assert q[p + 1].Foreign();
    }
  }

  /** `compact_finished_tasks` as the loop sees it: it throws exactly if a task is done with an exception that passes its
      handler, that of the first such task, and then keeps every task; otherwise it erases exactly the done ones. */
  lemma CompactedExactly(l: Life)
    ensures var r := Compacted(l);
            && (r.thrown.Some? <==> exists t :: t in l.tasks && t.Foreign())
            && (r.thrown.Some? ==> ThrownFirst(l.tasks, r.thrown))
            && (if r.thrown.Some? then r.l == l else OnlyDoneErased(l.tasks, r.l.tasks) && r.l == l.(tasks := r.l.tasks))
  {
    AliveMeans(l.tasks);
    if Compacted(l).thrown.Some? {
      FirstIsFirst(l.tasks);
    }
    hide ThrownFirst, OnlyDoneErased;
  }

  lemma {:induction false} AliveMeans(q: seq<TaskRec>)
    ensures OnlyDoneErased(q, Alive(q))
    decreases |q|
  {
    if q == [] {
      KeptNothing();
    } else {
      hide OnlyDoneErased, Alive;
      var front, last := q[..|q| - 1], q[|q| - 1];
      assert q == front + [last];
      AliveMeans(front);
      AliveMore(front, last);
    }
  }

  lemma AliveMore(q: seq<TaskRec>, t: TaskRec)
    requires OnlyDoneErased(q, Alive(q))
    ensures OnlyDoneErased(q + [t], Alive(q + [t]))
  {
    hide OnlyDoneErased, Alive;
    AliveLast(q, t);
    ErasedMore(q, Alive(q), t);
  }

  lemma AliveLast(q: seq<TaskRec>, t: TaskRec)
    ensures Alive(q + [t]) == if t.done then Alive(q) else Alive(q) + [t]
  {
    hide Alive;
    AliveSplit(q, [t]);
    AliveOne(t);
  }

  lemma AliveOne(t: TaskRec)
    ensures Alive([t]) == if t.done then [] else [t]
  {
  }

  lemma {:induction false} AliveSplit(a: seq<TaskRec>, b: seq<TaskRec>)
    ensures Alive(a + b) == Alive(a) + Alive(b)
  {
    if a == [] {
      assert a + b == b;
    } else {
      assert (a + b)[1..] == a[1..] + b;
      AliveSplit(a[1..], b);
    }
  }

  // ------------------------------------- a task that compaction cannot get past

  ghost predicate Clogged(l: Life) { exists t :: t in l.tasks && t.Foreign() }

  /** Every task of l is still there in l', in its order. */
  ghost predicate Keeps(l: Life, l': Life) {
    && |l.tasks| <= |l'.tasks|
    && forall i :: 0 <= i < |l.tasks| ==> l'.tasks[i].id == l.tasks[i].id && (l.tasks[i].done ==> l'.tasks[i] == l.tasks[i])
  }

  lemma KeepsClogged(l: Life, l': Life)
    requires Clogged(l) && Keeps(l, l')
    ensures Clogged(l')
  {
    var t :| t in l.tasks && t.Foreign();
    var i :| 0 <= i < |l.tasks| && l.tasks[i] == t;
    assert l'.tasks[i] == t;
  }

  lemma KeepsTwice(a: Life, b: Life, c: Life)
    requires Keeps(a, b) && Keeps(b, c)
    ensures Keeps(a, c)
  {
  }

  lemma {:induction false} PerformKeeps(l: Life, effs: seq<Effect>)
    ensures Keeps(l, Perform(l, effs))
    decreases |effs|
  {
    if effs != [] {
      assert Keeps(l, Apply(l, effs[0]));
      hide Apply;
      PerformKeeps(Apply(l, effs[0]), effs[1..]);
    }
  }

  lemma {:induction false} RunAllKeeps(l: Life, q: seq<Callback>)
    ensures Keeps(l, RunAll(l, q).l)
    decreases |q|
  {
    if q != [] {
      var l1 := l.(ran := l.ran + [q[0]]);
      PerformKeeps(l1, q[0].does);
      if q[0].throws.None? {
        hide Perform;
        RunAllKeeps(Perform(l1, q[0].does), q[1..]);
      }
    }
  }

  lemma {:induction false} ResumeAllKeeps(l: Life, beh: Behaviour)
    ensures Keeps(l, ResumeAll(l, beh))
    decreases |l.s.taken|
  {
    if l.s.taken != [] {
      var l1 := l.(s := Resume(l.s));
      PerformKeeps(l1, beh(l.s.taken[0]));
      hide Perform;
      ResumeAllKeeps(Perform(l1, beh(l.s.taken[0])), beh);
    }
  }

  lemma CollectedKeeps(l: Life)
    requires Clogged(l)
    ensures Keeps(l, Collected(l).l) && Clogged(Collected(l).l) && Collected(l).thrown.Some?
  {
    RunAllKeeps(l.(pending := []), l.pending);
    KeepsClogged(l, Drained(l).l);
    hide RunAll;
  }

  lemma {:induction false} DispatchAllKeeps(l: Life, beh: Behaviour)
    requires Clogged(l)
    ensures Keeps(l, DispatchAll(l, beh)) && Clogged(DispatchAll(l, beh))
    decreases |l.s.batch|
  {
    if l.s.batch != [] {
      var l1 := Dispatched(l, beh);
      if l.s.batch[0].fd == l.s.wake {
        CollectedKeeps(l.(s := Step(Take(l.s), ConsumeFd(l.s.wake, WAKEUP))));
      } else {
        ResumeAllKeeps(l.(s := Take(l.s)), beh);
        KeepsClogged(l, l1);
      }
      assert Keeps(l, l1) && Clogged(l1);
      hide Dispatched, Clogged;
      DispatchAllKeeps(l1, beh);
    }
  }

  lemma SameTasksKeep(l: Life, l': Life)
    requires l'.tasks == l.tasks
    ensures Keeps(l, l') && (Clogged(l) ==> Clogged(l'))
  {
  }

  /** At the head of `run` such a task ends the loop, unless a callback threw before it was reached. */
  lemma HeadClogged(l: Life)
    requires Clogged(l)
    ensures Head(l).l == Collected(l).l && (FirstThrow(l.pending).None? ==> Head(l).thrown.Some?)
  {
    CollectedKeeps(l);
    DrainRuns(l);
    RunAllKeeps(l.(pending := []), l.pending);
    KeepsClogged(l, Drained(l).l);
    hide Drained, RunAll;
  }

  /** From the moment a task is done with an exception that is not a `std::exception`, no compaction erases any task, and
      `run` throws at the first head whose drain does not throw before it. */
  lemma ForeignTaskClogs(l: Life, b: Blocking, beh: Behaviour)
    requires l.s.batch == [] && l.s.taken == [] && Clogged(l)
    ensures Keeps(l, Pass(l, b, beh).l) && Clogged(Pass(l, b, beh).l)
    ensures FirstThrow(l.pending).None? ==> Pass(l, b, beh).thrown.Some?
  {
    hide Keeps, Clogged, Perform, Collected, Drained, DispatchAll;
    CollectedKeeps(l);
    HeadClogged(l);
    var h := Head(l);
    if h.thrown.None? {
      var w := Perform(h.l, b.meanwhile);
      PerformKeeps(h.l, b.meanwhile);
      KeepsClogged(h.l, w);
      KeepsTwice(l, h.l, w);
      if b.interrupted {
        SameTasksKeep(w, Pass(l, b, beh).l);
        KeepsTwice(l, w, Pass(l, b, beh).l);
      } else {
        var v := Waited(w);
        SameTasksKeep(w, v);
        DispatchAllKeeps(v, beh);
        KeepsTwice(w, v, Turn(w, beh));
        KeepsTwice(l, w, Turn(w, beh));
      }
    }
  }

  // -------------------------------------------------------------- the object

  lemma SetOf(a: Option<nat>, b: Option<nat>)
    ensures OptSet(a) + OptSet(b) == set t | t in OptSeq(a) + OptSeq(b)
  {
  }

  lemma SetTwice(m: map<int, FdState>, fd: int, a: FdState, b: FdState)
    ensures m[fd := a] - {fd} == m - {fd} && m[fd := a][fd := b] == m[fd := b]
  {
  }

  lemma WaitsDoNotMatter(l: Life, n: nat)
    ensures Sound(l.(waits := n)) <==> Sound(l)
  {
  }

  class EventLoop {
    var kernel: Kernel
    const wakeupFd: int
    var states: map<int, FdState>
    var pending: seq<Callback>
    var stopped: bool
    var tasks: seq<TaskRec>

    // Bookkeeping that the original does not have: the fate of every token (which also names the next one), the number
    // of spawns, the events of the current batch still to be dispatched, the handles `dispatch` holds in its locals, the
    // callbacks that have been started, in order, and how many waits have returned.
    var led: Ledger
    var born: nat
    ghost var batch: seq<Event>
    ghost var taken: seq<nat>
    ghost var ran: seq<Callback>
    ghost var waits: nat

    ghost function Abs(): State
      reads this
    {
      State(kernel, states, wakeupFd, batch, taken, led)
    }

    ghost function Now(): Life
      reads this
    {
      Life(Abs(), pending, ran, stopped, tasks, born, waits)
    }

    ghost predicate Valid()
      reads this
    {
      Sound(Now())
    }

    constructor (fd: int)
      requires fd >= 0
      ensures Valid() && Now() == Life(Init(fd), [], [], false, [], 0, 0)
    {
      wakeupFd := fd;
      kernel := Init(fd).k;
      states, pending, stopped, tasks := map[], [], false, [];
      batch, taken, led, ran, born, waits := [], [], Init(fd).led, [], 0, 0;
    }

    method EpollCtl(op: CtlOp, fd: int, i: Interest) returns (ok: bool)
      modifies this`kernel
      ensures ok == Ctl(old(kernel), op, fd, i).Some?
      ensures kernel == if ok then Ctl(old(kernel), op, fd, i).value else old(kernel)
    {
      var k := Ctl(kernel, op, fd, i);
      ok := k.Some?;
      if ok {
        kernel := k.value;
      }
    }

    method AddInterest(fd: int, d: Dir, et: bool) returns (ok: bool)
      modifies this`kernel, this`states, this`led
      ensures Abs() == Await(old(Abs()), fd, d, et)
      ensures ok <==> led.issued == old(led).issued + 1
    {
      hide Ctl;
      if fd < 0 {
        return false;
      }
      var inserted := fd !in states;
      if inserted {
        states := states[fd := FdState(None, None, false)];
      }
      var before := states[fd];
      var token := led.issued;
      ghost var waiting := before.Put(d, Some(token));
      SetTwice(old(states), fd, before, waiting);
      SetTwice(old(states), fd, waiting, waiting.(et := et));
      states := states[fd := states[fd].Put(d, Some(token))];
      ok := EpollCtl(if inserted then Add else Mod, fd, Interest(true, true, et));
      if !ok {
        states := states - {fd};
        led := led.(dropped := led.dropped + Tokens(before));
        return;
      }
      states := states[fd := states[fd].(et := et)];
      led := led.(issued := led.issued + 1, overwritten := led.overwritten + OptSet(before.Get(d)));
    }

    method Remove(fd: int)
      modifies this`kernel, this`states, this`led
      ensures Abs() == Reactor.Remove(old(Abs()), fd)
    {
      if fd < 0 {
        return;
      }
      var _ := EpollCtl(Del, fd, Interest(false, false, false));
      led := led.(dropped := led.dropped + (if fd in states then Tokens(states[fd]) else {}), removals := led.removals + 1);
      states := states - {fd};
    }

    /** `update_or_remove_impl`. A failing DEL is ignored, and so is a MOD on a descriptor that is closed or not registered;
        `refused` makes the kernel refuse a MOD for another reason, which is thrown. */
    method UpdateOrRemove(fd: int, refused: bool) returns (thrown: bool)
      requires fd in states
      modifies this`kernel, this`states
      ensures thrown == (refused && !old(states)[fd].Empty())
      ensures Abs() == if thrown then old(Abs()) else Reactor.UpdateOrRemove(old(Abs()), fd, old(states)[fd])
    {
      var i := Active(states[fd]);
      if !i.rd && !i.wr {
        var _ := EpollCtl(Del, fd, Interest(false, false, false));
        states := states - {fd};
        return false;
      }
      if refused {
        return true;
      }
      var _ := EpollCtl(Mod, fd, i);
      assert states == states[fd := states[fd]];
      thrown := false;
    }

    predicate MayPerform(a: Action)
      reads this
      ensures MayPerform(a) == Outside(Abs(), a)
    {
      match a
      case WaitEvents => false
      case TakeEvent => false
      case ResumeTaken => false
      case ConsumeFd(fd, _) => fd != wakeupFd
      case OpenFd(fd) => fd >= 0 && fd !in kernel.ready
      case CloseFd(fd) => fd != wakeupFd && fd !in states
      case AwaitFd(fd, _, _) => fd != wakeupFd
      case RemoveFd(fd) => fd != wakeupFd
      case SignalFd(_, _) => true
    }

    /** One action of a coroutine, or of the kernel while a coroutine runs. */
    method PerformAction(a: Action)
      modifies this`kernel, this`states, this`led
      ensures Abs() == Moved(old(Abs()), Some(a))
    {
      if !MayPerform(a) {
        return;
      }
      match a
      case AwaitFd(fd, d, et) => var _ := AddInterest(fd, d, et);
      case RemoveFd(fd) => Remove(fd);
      case OpenFd(fd) => kernel := Open(kernel, fd);
      case CloseFd(fd) => kernel := Close(kernel, fd);
      case SignalFd(fd, b) => kernel := Signal(kernel, fd, b);
      case ConsumeFd(fd, b) => kernel := Consume(kernel, fd, b);
    }

    method Wakeup()
      modifies this`kernel
      ensures Abs() == Moved(old(Abs()), Some(SignalFd(wakeupFd, WAKEUP)))
    {
      kernel := Signal(kernel, wakeupFd, WAKEUP);
    }

    method Post(c: Callback)
      modifies this`kernel, this`pending
      ensures Now() == Apply(old(Now()), PostBack(c))
      ensures old(Valid()) ==> Valid()
    {
      if Valid() {
        ApplySound(Now(), PostBack(c));
      }
      pending := pending + [c];
      Wakeup();
    }

    method Stop()
      modifies this`kernel, this`stopped
      ensures Now() == Apply(old(Now()), StopLoop)
      ensures old(Valid()) ==> Valid()
    {
      if Valid() {
        ApplySound(Now(), StopLoop);
      }
      stopped := true;
      Wakeup();
    }

    /** `spawn`, up to the first resumption of the task. */
    method Spawn()
      modifies this`tasks, this`born
      ensures Now() == Apply(old(Now()), Begin)
    {
      tasks := tasks + [TaskRec(born, false, None)];
      born := born + 1;
    }

    method PerformOne(e: Effect)
      modifies this
      ensures Now() == Apply(old(Now()), e)
    {
      match e
      case Act(a) => PerformAction(a);
      case PostBack(c) => Post(c);
      case StopLoop => Stop();
      case Begin => Spawn();
      case End(id, exn) => tasks := MarkDone(tasks, id, exn);
    }

    method PerformAll(effs: seq<Effect>)
      modifies this
      ensures Now() == Perform(old(Now()), effs)
    {
      for i := 0 to |effs|
        invariant Now() == Perform(old(Now()), effs[..i])
      {
        assert effs[..i + 1] == effs[..i] + [effs[i]];
        PerformSplit(old(Now()), effs[..i], [effs[i]]);
        PerformSingle(Now(), effs[i]);
        hide Apply, Perform;
        PerformOne(effs[i]);
      }
      assert effs[..|effs|] == effs;
    }

    /** `handle.resume()`: the coroutine runs until it suspends again, calling back into the loop. */
    method ResumeHandle(h: nat, beh: Behaviour)
      requires taken != [] && taken[0] == h
      modifies this
      ensures Now() == Perform(old(Now()).(s := Resume(old(Abs()))), beh(h)) && taken == old(taken)[1..]
    {
      taken := taken[1..];
      led := led.(resumed := led.resumed + {h});
      PerformAll(beh(h));
    }

    /** The slots that an event carries are emptied into local variables. */
    method MoveOut(e: Event) returns (rd: Option<nat>, wr: Option<nat>)
      requires e.fd in states
      modifies this`states
      ensures states == old(states)[e.fd := LeftBy(old(states)[e.fd], e.bits)]
      ensures OptSeq(rd) + OptSeq(wr) == TakenBy(old(states)[e.fd], e.bits)
    {
      rd, wr := None, None;
      if e.bits.rd || e.bits.er {
        rd := states[e.fd].rd;
        states := states[e.fd := states[e.fd].(rd := None)];
      }
      if e.bits.wr || e.bits.er {
        wr := states[e.fd].wr;
        states := states[e.fd := states[e.fd].(wr := None)];
      }
    }

    /** The first half of `dispatch` for a client event: move the handles out and update the table. If the update throws,
        the handles are lost with the local variables. */
    method TakeHandles(e: Event, refused: bool) returns (rd: Option<nat>, wr: Option<nat>, thrown: bool)
      requires batch != [] && batch[0] == e && taken == [] && e.fd != wakeupFd
      modifies this`kernel, this`states, this`led, this`batch, this`taken
      ensures thrown == (refused && Narrows(old(Abs())))
      ensures Abs() == if thrown then TakeFault(old(Abs())) else Take(old(Abs()))
      ensures !thrown ==> taken == OptSeq(rd) + OptSeq(wr)
    {
      hide Ctl, Inv, Reactor.UpdateOrRemove;
      rd, wr, thrown := None, None, false;
      batch := batch[1..];
      if e.fd !in states {
        led := led.(idle := led.idle + 1);
        return;
      }
      rd, wr := MoveOut(e);
      ghost var st, s1 := LeftBy(old(states)[e.fd], e.bits), old(Abs()).(batch := batch);
      UpdateFacts(s1, e.fd, st);
      hide LeftBy, TakenBy;
      thrown := UpdateOrRemove(e.fd, refused);
      if thrown {
        led := led.(dropped := led.dropped + (OptSet(rd) + OptSet(wr)));
        SetOf(rd, wr);
        return;
      }
      taken := OptSeq(rd) + OptSeq(wr);
      if rd.None? && wr.None? {
        led := led.(idle := led.idle + 1);
      }
    }

    /** `dispatch` of a client event: the reader is resumed before the writer. */
    method DispatchClient(e: Event, beh: Behaviour)
      requires batch != [] && batch[0] == e && taken == [] && e.fd != wakeupFd
      modifies this
      ensures Now() == DispatchOne(old(Now()), beh)
    {
      var rd, wr, _ := TakeHandles(e, false);
      ghost var l1 := Now();
      assert l1 == old(Now()).(s := Take(old(Abs())));
      hide Take, Resume, Perform;
      if rd.Some? {
        ResumeHandle(rd.value, beh);
      }
      ghost var l2 := Now();
      assert ResumeAll(l1, beh) == ResumeAll(l2, beh);
      if wr.Some? {
        ResumeHandle(wr.value, beh);
      }
      assert ResumeAll(l2, beh) == ResumeAll(Now(), beh) == Now();
    }

    /** `drain_pending_tasks`: swap the queue out, then run what was in it; a throw abandons the rest. */
    method DrainPending() returns (thrown: Option<Exn>)
      modifies this
      ensures Result(Now(), thrown) == Drained(old(Now()))
    {
      var localTasks := pending;
      pending := [];
      thrown := None;
      ghost var l0 := Now();
      var i := 0;
      while i < |localTasks| && thrown.None?
        invariant i <= |localTasks|
        invariant RunAll(l0, localTasks) == if thrown.Some? then Result(Now(), thrown) else RunAll(Now(), localTasks[i..])
      {
        assert localTasks[i..][0] == localTasks[i] && localTasks[i..][1..] == localTasks[i + 1..];
        hide Perform;
        ran := ran + [localTasks[i]];
        PerformAll(localTasks[i].does);
        thrown := localTasks[i].throws;
        i := i + 1;
      }
    }

    /** `compact_finished_tasks`: report what the done tasks have ended with, then erase them. */
    method CompactFinished() returns (thrown: Option<Exn>)
      modifies this`tasks
      ensures Result(Now(), thrown) == Compacted(old(Now()))
      ensures thrown.Some? <==> exists t :: t in old(tasks) && t.Foreign()
      ensures thrown.Some? ==> ThrownFirst(old(tasks), thrown)
      ensures if thrown.Some? then tasks == old(tasks) else OnlyDoneErased(old(tasks), tasks)
    {
      AliveMeans(tasks);
      hide OnlyDoneErased, ThrownFirst, FirstForeign, Alive;
      thrown := Report();
      if thrown.None? {
        EraseDone();
      } else {
        FirstIsFirst(tasks);
      }
    }

    method Report() returns (thrown: Option<Exn>)
      ensures thrown == FirstForeign(tasks)
    {
      for i := 0 to |tasks|
        invariant FirstForeign(tasks) == FirstForeign(tasks[i..])
      {
        if tasks[i].done && tasks[i].exn.Some? && tasks[i].exn.value.Foreign? {
          return tasks[i].exn;
        }
      }
      thrown := None;
    }

    method EraseDone()
      modifies this`tasks
      ensures tasks == Alive(old(tasks))
    {
      var kept: seq<TaskRec> := [];
      for i := 0 to |tasks|
        invariant tasks == old(tasks) && Alive(tasks) == kept + Alive(tasks[i..])
      {
        assert tasks[i..][1..] == tasks[i + 1..];
        if !tasks[i].done {
          kept := kept + [tasks[i]];
        }
      }
      tasks := kept;
    }

    method Collect() returns (thrown: Option<Exn>)
      modifies this
      ensures Result(Now(), thrown) == Collected(old(Now()))
    {
      thrown := DrainPending();
      if thrown.None? {
        thrown := CompactFinished();
      }
    }

    method DrainWakeup()
      modifies this`kernel
      ensures Abs() == Step(old(Abs()), ConsumeFd(wakeupFd, WAKEUP))
      ensures wakeupFd in kernel.ready ==> !kernel.ready[wakeupFd].rd
    {
      kernel := Consume(kernel, wakeupFd, WAKEUP);
    }

    /** `dispatch`; on the wakeup event the eventfd is emptied before the queue is swapped. */
    method Dispatch(e: Event, beh: Behaviour) returns (thrown: Option<Exn>)
      requires batch != [] && batch[0] == e && taken == []
      modifies this
      ensures Now() == Dispatched(old(Now()), beh)
      ensures var drained := old(Now()).(s := Step(Take(old(Abs())), ConsumeFd(wakeupFd, WAKEUP)));
              thrown == if e.fd == wakeupFd then Collected(drained).thrown else None
    {
      if e.fd == wakeupFd {
        batch := batch[1..];
        DrainWakeup();
        hide Collected;
        thrown := Collect();
        return;
      }
      DispatchClient(e, beh);
      thrown := None;
    }

    /** One turn of the loop in `run`: wait once, then dispatch the whole batch, whatever is thrown. */
    method RunTurn(beh: Behaviour)
      requires Valid() && batch == [] && taken == []
      modifies this
      ensures Valid() && batch == [] && taken == []
      ensures Now() == Turn(old(Now()), beh)
      ensures forall fd, d, t :: old(Due(Abs(), fd, d, t)) && Pos(old(kernel).rdl, fd) < MAX_EVENTS ==> Past(led, t)
      ensures old(kernel).ready[wakeupFd].rd && Pos(old(kernel).rdl, wakeupFd) < MAX_EVENTS ==>
                old(ran) + old(pending)[..RunCount(old(pending))] <= ran
    {
      assert wakeupFd in kernel.ready;
      hide Sound, DispatchAll, Due, WakeQueued;
      ghost var l := Now();
      TurnServes(l, beh);
      if kernel.ready[wakeupFd].rd && Pos(kernel.rdl, wakeupFd) < MAX_EVENTS {
        TurnRuns(l, beh);
      }
      var (k, events) := Wait(kernel);
      kernel := k;
      batch := events;
      waits := waits + 1;
      assert Now() == Waited(l);
      hide Waited, Wait, Step;
      DispatchBatch(events, beh);
    }

    method DispatchBatch(events: seq<Event>, beh: Behaviour)
      requires batch == events && taken == []
      modifies this
      ensures Now() == DispatchAll(old(Now()), beh)
    {
      for i := 0 to |events|
        invariant batch == events[i..] && taken == []
        invariant DispatchAll(Now(), beh) == DispatchAll(old(Now()), beh)
      {
        assert Dispatched(Now(), beh).s.taken == [] by { DispatchEnds(Now(), beh); }
        hide Dispatched, Collected;
        var _ := Dispatch(events[i], beh);
      }
    }

    /** One pass of `run`. */
    method RunPass(b: Blocking, beh: Behaviour) returns (thrown: Option<Exn>)
      requires Valid() && batch == [] && taken == [] && !stopped
      modifies this
      ensures Valid() && batch == [] && taken == []
      ensures Result(Now(), thrown) == Pass(old(Now()), b, beh)
    {
      hide Collected, Sound, Perform, Turn;
      HeadLeavesAwake(Now(), b);
      thrown := Collect();
      if thrown.Some? {
        if thrown.value.Foreign? {
          return;
        }
      }
      thrown := None;
      assert Now() == Head(old(Now())).l;
      PerformAll(b.meanwhile);
      if b.interrupted {
        WaitsDoNotMatter(Now(), waits + 1);
        waits := waits + 1;
        return;
      }
      RunTurn(beh);
    }

    /** `run`, for as many passes as env lists. */
    method Run(env: seq<Blocking>, beh: Behaviour) returns (thrown: Option<Exn>)
      requires Valid() && batch == [] && taken == []
      modifies this
      ensures Valid() && batch == [] && taken == []
      ensures Result(Now(), thrown) == Passes(old(Now()), env, beh)
    {
      var i := 0;
      thrown := None;
      hide Valid, Pass;
      while i < |env| && !stopped
        invariant 0 <= i <= |env| && Valid() && batch == [] && taken == [] && thrown.None?
        invariant Passes(Now(), env[i..], beh) == Passes(old(Now()), env, beh)
      {
        assert env[i..][0] == env[i] && env[i..][1..] == env[i + 1..];
        thrown := RunPass(env[i], beh);
        if thrown.Some? {
          return;
        }
        i := i + 1;
      }
    }
  }

  lemma DispatchEnds(l: Life, beh: Behaviour)
    requires l.s.batch != [] && l.s.taken == []
    ensures Dispatched(l, beh).s.taken == []
  {
  }
}
