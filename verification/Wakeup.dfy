/** The handoff between the thread that runs an `EventLoop` and any number of threads that call `post` and `stop`,
    interleaved at every access to shared state: the pending queue behind its mutex, the stop flag, the eventfd. */
module Wakeup {
  import opened Wrappers

  /** Where a caller of `post` is: about to lock, holding the lock before the push, before the write, before unlocking. */
  datatype PosterPc<C> = Locking(c: C) | Pushing(c: C) | Writing | Unlocking

  /** Where a caller of `stop` is: before setting the flag, before writing the eventfd. */
  datatype StopperPc = Setting | Waking

  /** Where the loop thread is. `top` tells the drain at the head of `run` from the one inside `dispatch`. */
  datatype LoopPc =
    | Checking            // while (!stopped_)
    | Swapping(top: bool) // lock, swap, unlock
    | Running(top: bool)  // calling the callbacks of the local batch
    | Compacting(top: bool)
    | Waiting             // in epoll_wait
    | Reading             // draining the eventfd
    | Dispatching         // client events of the batch
    | Exited

  datatype Fate = Ran | Threw | Dropped

  /** What became of one callback, and in which drain. */
  datatype Entry<C> = Entry(c: C, fate: Fate, drain: nat)

  // The value at which a non-blocking write to an eventfd fails with EAGAIN.
  const EVENTFD_MAX: nat := 0xffff_ffff_ffff_fffe

  /** `posted`, `consumed` and `drains` are history: every push, what the loop has done with it, the swaps so far. */
  datatype State<C> = State(
    pc: LoopPc, pending: seq<C>, batch: seq<C>, stopped: bool, efd: nat, holder: Option<nat>,
    posters: map<nat, PosterPc<C>>, stoppers: map<nat, StopperPc>,
    posted: seq<C>, consumed: seq<Entry<C>>, drains: nat)

  function Init<C>(): State<C> {
    State(Checking, [], [], false, 0, None, map[], map[], [], [], 0)
  }

  datatype Action<C> =
    | CallPost(t: nat, c: C) | Lock(t: nat) | Push(t: nat) | Write(t: nat) | Unlock(t: nat)
    | CallStop(t: nat) | SetFlag(t: nat) | Wake(t: nat)
    | Check | Swap | RunOne | ThrowOne(foreign: bool) | EndBatch | Compact(foreign: bool)
    | WakeEvent | ClientEvents | Interrupted | ReadOnce | EndDispatch

  predicate Enabled<C>(s: State<C>, a: Action<C>) {
    match a
    case CallPost(t, _) => t !in s.posters
    case Lock(t) => t in s.posters && s.posters[t].Locking? && s.holder.None?
    case Push(t) => t in s.posters && s.posters[t].Pushing?
    case Write(t) => t in s.posters && s.posters[t].Writing?
    case Unlock(t) => t in s.posters && s.posters[t].Unlocking?
    case CallStop(t) => t !in s.stoppers
    case SetFlag(t) => t in s.stoppers && s.stoppers[t].Setting?
    case Wake(t) => t in s.stoppers && s.stoppers[t].Waking?
    case Check => s.pc == Checking
    case Swap => s.pc.Swapping? && s.holder.None?
    case RunOne => s.pc.Running? && s.batch != []
    case ThrowOne(_) => s.pc.Running? && s.batch != []
    case EndBatch => s.pc.Running? && s.batch == []
    case Compact(_) => s.pc.Compacting?
    // epoll_wait returns with the wakeup event, with client events only, or with EINTR; the wakeup event may
    // also come after client events of the same batch.
    case WakeEvent => (s.pc == Waiting && s.efd > 0) || s.pc == Dispatching
    case ClientEvents => s.pc == Waiting
    case Interrupted => s.pc == Waiting
    case ReadOnce => s.pc == Reading
    case EndDispatch => s.pc == Dispatching
  }

  function WriteEfd(n: nat): nat { if n < EVENTFD_MAX then n + 1 else n }

  function AfterDrain(top: bool): LoopPc { if top then Waiting else Dispatching }

  /** What a drain throws is caught, except that at the head of `run` only `std::exception` is: anything else ends the
      loop. */
  function AfterThrow(top: bool, foreign: bool): LoopPc { if top && foreign then Exited else AfterDrain(top) }

  function Marked<C>(q: seq<C>, f: Fate, drain: nat): seq<Entry<C>> {
    seq(|q|, i requires 0 <= i < |q| => Entry(q[i], f, drain))
  }

  function Step<C>(s: State<C>, a: Action<C>): State<C>
    requires Enabled(s, a)
  {
    match a
    case CallPost(t, c) => s.(posters := s.posters[t := Locking(c)])
    case Lock(t) => s.(holder := Some(t), posters := s.posters[t := Pushing(s.posters[t].c)])
    case Push(t) =>
      s.(pending := s.pending + [s.posters[t].c], posted := s.posted + [s.posters[t].c],
         posters := s.posters[t := Writing])
    case Write(t) => s.(efd := WriteEfd(s.efd), posters := s.posters[t := Unlocking])
    case Unlock(t) => s.(holder := None, posters := s.posters - {t})
    case CallStop(t) => s.(stoppers := s.stoppers[t := Setting])
    case SetFlag(t) => s.(stopped := true, stoppers := s.stoppers[t := Waking])
    case Wake(t) => s.(efd := WriteEfd(s.efd), stoppers := s.stoppers - {t})
    case Check => s.(pc := if s.stopped then Exited else Swapping(true))
    case Swap => s.(pc := Running(s.pc.top), batch := s.pending, pending := [], drains := s.drains + 1)
    case RunOne => s.(batch := s.batch[1..], consumed := s.consumed + [Entry(s.batch[0], Ran, s.drains)])
    case ThrowOne(foreign) =>
      s.(pc := AfterThrow(s.pc.top, foreign), batch := [],
         consumed := s.consumed + [Entry(s.batch[0], Threw, s.drains)] + Marked(s.batch[1..], Dropped, s.drains))
    case EndBatch => s.(pc := Compacting(s.pc.top))
    case Compact(foreign) => s.(pc := AfterThrow(s.pc.top, foreign))
    case WakeEvent => s.(pc := Reading)
    case ClientEvents => s.(pc := Dispatching)
    case Interrupted => s.(pc := Checking)
    case ReadOnce => if s.efd > 0 then s.(efd := 0) else s.(pc := Swapping(false))
    case EndDispatch => s.(pc := Checking)
  }

  // ---------------------------------------------------------- the invariants

  /** A poster has pushed and not yet written. */
  predicate PostInFlight<C>(s: State<C>) {
    s.holder.Some? && s.holder.value in s.posters && s.posters[s.holder.value].Writing?
  }

  /** A stopper has set the flag and not yet written. */
  ghost predicate StopInFlight<C>(s: State<C>) {
    exists t :: t in s.stoppers && s.stoppers[t] == Waking
  }

  function Callbacks<C>(log: seq<Entry<C>>): seq<C> { seq(|log|, i requires 0 <= i < |log| => log[i].c) }

  /** The mutex excludes: its holder is the one poster past `lock`. */
  ghost predicate Exclusive<C>(s: State<C>) {
    && (forall t :: t in s.posters && !s.posters[t].Locking? ==> s.holder == Some(t))
    && (s.holder.Some? ==> s.holder.value in s.posters && !s.posters[s.holder.value].Locking?)
  }

  /** Past the swap, whatever is pending has a wakeup that the loop has not consumed, or is about to get one;
      past the check of the flag, so has a stop. */
  ghost predicate Woken<C>(s: State<C>) {
    && ((s.pc.Running? || s.pc.Compacting? || s.pc.Waiting? || s.pc.Dispatching?) && s.pending != [] ==>
          s.efd > 0 || PostInFlight(s))
    && ((s.pc.Waiting? || ((s.pc.Swapping? || s.pc.Running? || s.pc.Compacting?) && s.pc.top)) && s.stopped ==>
          s.efd > 0 || StopInFlight(s))
  }

  ghost predicate Conserved<C>(s: State<C>) {
    && s.posted == Callbacks(s.consumed) + s.batch + s.pending
    && (s.batch != [] ==> s.pc.Running?)
  }

  /** In each drain a throw drops exactly what comes behind it. */
  ghost predicate FatesOk<C>(s: State<C>) {
    && (forall i :: 0 <= i < |s.consumed| ==>
          (s.consumed[i].fate == Dropped <==>
           exists j :: 0 <= j < i && s.consumed[j].fate == Threw && s.consumed[j].drain == s.consumed[i].drain))
    && (forall e :: e in s.consumed ==> e.drain <= s.drains)
    && (s.batch != [] ==> forall e :: e in s.consumed && e.drain == s.drains ==> e.fate == Ran)
  }

  ghost predicate Inv<C>(s: State<C>) {
    Exclusive(s) && Woken(s) && Conserved(s) && FatesOk(s)
  }

  predicate ByCaller<C>(a: Action<C>) {
    a.CallPost? || a.Lock? || a.Push? || a.Write? || a.Unlock? || a.CallStop? || a.SetFlag? || a.Wake?
  }

  lemma CallerKeepsWoken<C>(s: State<C>, a: Action<C>)
    requires Exclusive(s) && Woken(s) && Enabled(s, a) && ByCaller(a)
    ensures Exclusive(Step(s, a)) && Woken(Step(s, a))
  {
    var s' := Step(s, a);
    if a.SetFlag? {
      assert a.t in s'.stoppers && s'.stoppers[a.t] == Waking;
    } else if StopInFlight(s) && !a.Wake? {
      var t :| t in s.stoppers && s.stoppers[t] == Waking;
      assert t in s'.stoppers && s'.stoppers[t] == Waking;
    }
  }

  lemma StepConserves<C>(s: State<C>, a: Action<C>)
    requires Conserved(s) && Enabled(s, a)
    ensures Conserved(Step(s, a))
  {
  }

  lemma RunKeepsFates<C>(s: State<C>, a: Action<C>)
    requires FatesOk(s) && Enabled(s, a) && a.RunOne?
    ensures FatesOk(Step(s, a))
  {
    var s', n := Step(s, a), |s.consumed|;
    assert forall j :: 0 <= j < n ==> s.consumed[j] in s.consumed && s'.consumed[j] == s.consumed[j];
    assert s'.consumed[n] == Entry(s.batch[0], Ran, s.drains);
  }

  lemma ThrowKeepsFates<C>(s: State<C>, a: Action<C>)
    requires FatesOk(s) && Enabled(s, a) && a.ThrowOne?
    ensures FatesOk(Step(s, a))
  {
    var s', n := Step(s, a), |s.consumed|;
    assert forall j :: 0 <= j < n ==> s'.consumed[j] == s.consumed[j];
    assert s'.consumed[n] == Entry(s.batch[0], Threw, s.drains);
    assert forall j :: n < j < |s'.consumed| ==> s'.consumed[j].fate == Dropped && s'.consumed[j].drain == s.drains;
    assert s'.drains == s.drains && s'.batch == [];
    hide Step, Enabled;
  }

  lemma StepKeepsFates<C>(s: State<C>, a: Action<C>)
    requires Conserved(s) && FatesOk(s) && Enabled(s, a)
    ensures FatesOk(Step(s, a))
  {
    if a.RunOne? {
      RunKeepsFates(s, a);
    } else if a.ThrowOne? {
      ThrowKeepsFates(s, a);
    }
  }

  lemma StepKeepsInv<C>(s: State<C>, a: Action<C>)
    requires Inv(s) && Enabled(s, a)
    ensures Inv(Step(s, a))
  {
    StepConserves(s, a);
    StepKeepsFates(s, a);
    if ByCaller(a) {
      CallerKeepsWoken(s, a);
    }
  }

  /** Where the poster of an action of `post` is after it; `None` when the call has returned. */
  function PosterAfter<C>(s: State<C>, a: Action<C>): Option<PosterPc<C>>
    requires Enabled(s, a) && (a.CallPost? || a.Lock? || a.Push? || a.Write? || a.Unlock?)
  {
    match a
    case CallPost(t, c) => Some(Locking(c))
    case Lock(t) => Some(Pushing(s.posters[t].c))
    case Push(t) => Some(Writing)
    case Write(t) => Some(Unlocking)
    case Unlock(t) => None
  }

  /** What a step can change that posters can see: one poster moves on, and only a push adds to what was posted. */
  lemma PosterFrame<C>(s: State<C>, a: Action<C>)
    requires Enabled(s, a)
    ensures var s' := Step(s, a);
            && (a.CallPost? || a.Lock? || a.Push? || a.Write? || a.Unlock? ==>
                  s'.posters == match PosterAfter(s, a) case None => s.posters - {a.t} case Some(pc) => s.posters[a.t := pc])
            && (!(a.CallPost? || a.Lock? || a.Push? || a.Write? || a.Unlock?) ==> s'.posters == s.posters)
            && s'.posted == if a.Push? then s.posted + [s.posters[a.t].c] else s.posted
  {
  }

  // ------------------------------------------------------------- whole runs

  ghost predicate IsRun<C>(run: seq<State<C>>, acts: seq<Action<C>>) {
    && |run| == |acts| + 1 && run[0] == Init()
    && forall i :: 0 <= i < |acts| ==> Enabled(run[i], acts[i]) && run[i + 1] == Step(run[i], acts[i])
  }

  lemma RunLength<C>(run: seq<State<C>>, acts: seq<Action<C>>)
    requires IsRun(run, acts)
    ensures |run| == |acts| + 1
  {
  }

  lemma StepOfRun<C>(run: seq<State<C>>, acts: seq<Action<C>>, n: nat)
    requires IsRun(run, acts) && n < |acts|
    ensures Enabled(run[n], acts[n]) && run[n + 1] == Step(run[n], acts[n])
  {
  }

  lemma {:induction false} RunKeepsInv<C>(run: seq<State<C>>, acts: seq<Action<C>>, n: nat)
    requires IsRun(run, acts) && n <= |acts|
    ensures Inv(run[n])
  {
    if n > 0 {
      RunKeepsInv(run, acts, n - 1);
      StepKeepsInv(run[n - 1], acts[n - 1]);
    }
  }

  /** No lost wakeup, for any number of posters and stoppers: a loop blocked in `epoll_wait` with an empty eventfd has
      nothing to do, unless some caller is still between its change of state and its write. */
  lemma NoLostWakeup<C>(run: seq<State<C>>, acts: seq<Action<C>>, n: nat)
    requires IsRun(run, acts) && n <= |acts|
    requires run[n].pc == Waiting && run[n].efd == 0
    ensures run[n].pending == [] || PostInFlight(run[n])
    ensures !run[n].stopped || StopInFlight(run[n])
    ensures run[n].posters == map[] && run[n].stoppers == map[] ==>
              && run[n].pending == [] && !run[n].stopped
              && Callbacks(run[n].consumed) == run[n].posted
  {
    RunKeepsInv(run, acts, n);
  }

  /** What the loop has consumed, then its local batch, then the queue: that is all that was posted, in post order. */
  lemma PostsAreConserved<C>(run: seq<State<C>>, acts: seq<Action<C>>, n: nat)
    requires IsRun(run, acts) && n <= |acts|
    ensures run[n].posted == Callbacks(run[n].consumed) + run[n].batch + run[n].pending
  {
    RunKeepsInv(run, acts, n);
  }

  /** A callback is dropped exactly if an earlier one of the same drain threw. */
  lemma DroppedExactlyBehindThrow<C>(run: seq<State<C>>, acts: seq<Action<C>>, n: nat, i: nat)
    requires IsRun(run, acts) && n <= |acts| && i < |run[n].consumed|
    ensures var log := run[n].consumed;
            log[i].fate == Dropped <==> exists j :: 0 <= j < i && log[j].fate == Threw && log[j].drain == log[i].drain
  {
    RunKeepsInv(run, acts, n);
  }

  // --------------------------------------------------- what a wakeup leads to

  /** On the way from a wakeup, or from the check of the flag, to the swap of the queue. */
  predicate ToSwap(pc: LoopPc) { pc.Reading? || pc.Swapping? }

  lemma StepServes<C>(s: State<C>, a: Action<C>)
    requires Conserved(s) && Enabled(s, a)
    ensures var s' := Step(s, a);
            && s.posted <= s'.posted && |s.consumed| + |s.batch| <= |s'.consumed| + |s'.batch|
            && (a.Swap? ==> |s'.consumed| + |s'.batch| == |s.posted|)
            && (ToSwap(s.pc) && !a.Swap? ==> ToSwap(s'.pc))
            && (a.WakeEvent? || (a.Check? && !s.stopped) ==> ToSwap(s'.pc))
  {
  }

  lemma {:induction false} ServedLater<C>(run: seq<State<C>>, acts: seq<Action<C>>, i: nat, n: nat)
    requires IsRun(run, acts) && i < n <= |acts| && (acts[i].WakeEvent? || (acts[i].Check? && !run[i].stopped))
    ensures run[i].posted <= run[n].posted
    ensures if exists m :: i < m < n && acts[m].Swap? then |run[i].posted| <= |run[n].consumed| + |run[n].batch|
            else ToSwap(run[n].pc)
    decreases n
  {
    hide IsRun, Step, Enabled, Conserved, ToSwap;
    RunLength(run, acts);
    RunKeepsInv(run, acts, n - 1);
    StepOfRun(run, acts, n - 1);
    StepServes(run[n - 1], acts[n - 1]);
    if i < n - 1 {
      ServedLater(run, acts, i, n - 1);
    }
  }

  /** A wakeup event, and a check that lets the loop go on, lead to a swap before anything else, and with the swap everything
      posted until then is in the loop's hands, in its order: it has been consumed or is in the local batch. */
  lemma WakeupsAreServed<C>(run: seq<State<C>>, acts: seq<Action<C>>, i: nat, n: nat)
    requires IsRun(run, acts) && i < n <= |acts| && (acts[i].WakeEvent? || (acts[i].Check? && !run[i].stopped))
    ensures if exists m :: i < m < n && acts[m].Swap? then run[i].posted <= Callbacks(run[n].consumed) + run[n].batch
            else ToSwap(run[n].pc)
    ensures run[n].batch != [] ==> run[n].pc.Running?
  {
    ServedLater(run, acts, i, n);
    RunKeepsInv(run, acts, n);
    hide IsRun;
    var got := Callbacks(run[n].consumed) + run[n].batch;
    assert run[n].posted == got + run[n].pending && |got| == |run[n].consumed| + |run[n].batch|;
  }

  /** A wakeup event uses up the eventfd: the loop can only be woken by it again after another write. */
  lemma {:induction false} WakeupsAreUsedUp<C>(run: seq<State<C>>, acts: seq<Action<C>>, i: nat, n: nat)
    requires IsRun(run, acts) && i < n <= |acts| && acts[i].WakeEvent?
    ensures run[n].pc == Reading || run[n].efd == 0 || exists m :: i < m < n && (acts[m].Write? || acts[m].Wake?)
    decreases n
  {
    hide IsRun;
    RunLength(run, acts);
    StepOfRun(run, acts, n - 1);
    if i < n - 1 {
      WakeupsAreUsedUp(run, acts, i, n - 1);
    }
  }

  /** A drain that runs through is followed by the compaction, before the loop waits or dispatches anything. */
  lemma {:induction false} DrainsCompact<C>(run: seq<State<C>>, acts: seq<Action<C>>, i: nat, n: nat)
    requires IsRun(run, acts) && i < n <= |acts| && acts[i].EndBatch?
    requires forall m :: i < m < n ==> !acts[m].Compact?
    ensures run[n].pc.Compacting? && run[n].batch == []
    decreases n
  {
    RunLength(run, acts);
    StepOfRun(run, acts, n - 1);
    RunKeepsInv(run, acts, i);
    hide IsRun;
    if i < n - 1 {
      DrainsCompact(run, acts, i, n - 1);
    }
  }

  /** Unless it waits or has ended, the loop can take its next step, or waits for a mutex whose holder can. */
  lemma NeverStuck<C>(s: State<C>)
    requires Inv(s) && s.pc != Waiting && s.pc != Exited
    ensures (exists a :: Enabled(s, a) && !ByCaller(a))
            || (s.pc.Swapping? && s.holder.Some? && exists a :: Enabled(s, a) && ByCaller(a) && a.t == s.holder.value)
  {
    var a: Action<C> := match s.pc
      case Checking => Check
      case Swapping(_) => Swap
      case Running(_) => if s.batch == [] then EndBatch else RunOne
      case Compacting(_) => Compact(false)
      case Reading => ReadOnce
      case _ => EndDispatch;
    if s.pc.Swapping? && s.holder.Some? {
      var t := s.holder.value;
      var b: Action<C> := if s.posters[t].Pushing? then Push(t) else if s.posters[t].Writing? then Write(t) else Unlock(t);
      assert Enabled(s, b) && ByCaller(b) && b.t == t;
    } else {
      assert Enabled(s, a) && !ByCaller(a);
    }
  }

  // ----------------------------------------- what was called is what is recorded

  /** The callback of the latest call of `post` by thread t. */
  ghost function LastPost<C>(acts: seq<Action<C>>, t: nat): Option<C> {
    if acts == [] then None
    else
      var (front, a) := (acts[..|acts| - 1], acts[|acts| - 1]);
      if a.CallPost? && a.t == t then Some(a.c) else LastPost(front, t)
  }

  /** What the calls of `post` have pushed, in the order in which they held the mutex. */
  ghost function Pushes<C>(acts: seq<Action<C>>): seq<C> {
    if acts == [] then []
    else
      var (front, a) := (acts[..|acts| - 1], acts[|acts| - 1]);
      Pushes(front) + if a.Push? && LastPost(front, a.t).Some? then [LastPost(front, a.t).value] else []
  }

  /** A caller that has not pushed yet holds the callback it was called with. */
  ghost predicate HoldTheirs<C>(s: State<C>, acts: seq<Action<C>>) {
    forall t :: t in s.posters && (s.posters[t].Locking? || s.posters[t].Pushing?) ==> LastPost(acts, t) == Some(s.posters[t].c)
  }

  lemma StepHoldsTheirs<C>(s: State<C>, acts: seq<Action<C>>, a: Action<C>)
    requires Enabled(s, a) && HoldTheirs(s, acts)
    ensures HoldTheirs(Step(s, a), acts + [a])
    ensures s.posted == Pushes(acts) ==> Step(s, a).posted == Pushes(acts + [a])
    ensures Step(s, a).stopped <==> s.stopped || a.SetFlag?
  {
    PosterFrame(s, a);
    assert (acts + [a])[..|acts|] == acts;
    hide Step;
  }

  /** What is posted are the callbacks that `post` was called with, each at its push; and the flag is set if and only if a
      `stop` has set it. */
  lemma {:induction false} PostsAreCalls<C>(run: seq<State<C>>, acts: seq<Action<C>>, n: nat)
    requires IsRun(run, acts) && n <= |acts|
    ensures run[n].posted == Pushes(acts[..n]) && HoldTheirs(run[n], acts[..n])
    ensures run[n].stopped <==> exists i :: 0 <= i < n && acts[i].SetFlag?
  {
    hide IsRun, Step, HoldTheirs, Enabled, Pushes;
    RunLength(run, acts);
    if n == 0 {
      AtFirst(run, acts);
    } else {
      PostsAreCalls(run, acts, n - 1);
      StepOfRun(run, acts, n - 1);
      assert acts[..n] == acts[..n - 1] + [acts[n - 1]];
      StepHoldsTheirs(run[n - 1], acts[..n - 1], acts[n - 1]);
    }
  }

  lemma AtFirst<C>(run: seq<State<C>>, acts: seq<Action<C>>)
    requires IsRun(run, acts)
    ensures run[0].posted == Pushes(acts[..0]) && HoldTheirs(run[0], acts[..0]) && !run[0].stopped
  {
  }

  // -------------------------------------------------------- how the loop ends

  /** What ends `run`: a check that sees the stop flag, or an exception other than `std::exception` out of the drain or the
      compaction at its head. */
  predicate Ends<C>(s: State<C>, a: Action<C>) {
    || (a.Check? && s.stopped)
    || (a.ThrowOne? && a.foreign && s.pc.Running? && s.pc.top)
    || (a.Compact? && a.foreign && s.pc.Compacting? && s.pc.top)
  }

  lemma StepEndsExactly<C>(s: State<C>, a: Action<C>)
    requires Enabled(s, a)
    ensures Step(s, a).pc == Exited <==> s.pc == Exited || Ends(s, a)
  {
  }

  /** `run` has returned or thrown if and only if one of these things has happened. */
  lemma {:induction false} ExitsExactly<C>(run: seq<State<C>>, acts: seq<Action<C>>, n: nat)
    requires IsRun(run, acts) && n <= |acts|
    ensures run[n].pc == Exited <==> exists i :: 0 <= i < n && Ends(run[i], acts[i])
  {
    if n > 0 {
      assert Enabled(run[n - 1], acts[n - 1]) && run[n] == Step(run[n - 1], acts[n - 1]);
      ExitsExactly(run, acts, n - 1);
      StepEndsExactly(run[n - 1], acts[n - 1]);
      hide Step, Ends;
    }
  }

  /** Between two states the loop has done nothing, whatever was posted. */
  ghost predicate LoopIdle<C>(s: State<C>, s': State<C>) {
    && s'.pc == s.pc && s'.consumed == s.consumed && s'.batch == s.batch && s'.drains == s.drains
    && s.pending <= s'.pending
  }

  lemma ExitedStays<C>(s: State<C>, a: Action<C>)
    requires Enabled(s, a) && s.pc == Exited
    ensures LoopIdle(s, Step(s, a))
  {
  }

  lemma IdleSelf<C>(s: State<C>)
    ensures LoopIdle(s, s)
  {
  }

  lemma IdleTwice<C>(a: State<C>, b: State<C>, c: State<C>)
    requires LoopIdle(a, b) && LoopIdle(b, c)
    ensures LoopIdle(a, c) && c.pc == a.pc
  {
  }

  /** Nothing is consumed or swapped after that, and the queue only grows. */
  lemma {:induction false} ExitIsFinal<C>(run: seq<State<C>>, acts: seq<Action<C>>, m: nat, n: nat)
    requires IsRun(run, acts) && m <= n <= |acts| && run[m].pc == Exited
    ensures run[n].pc == Exited && LoopIdle(run[m], run[n])
    decreases n
  {
    hide IsRun, Step, Enabled, LoopIdle;
    RunLength(run, acts);
    if m == n {
      IdleSelf(run[m]);
    } else {
      ExitIsFinal(run, acts, m, n - 1);
      StepOfRun(run, acts, n - 1);
      ExitedStays(run[n - 1], acts[n - 1]);
      IdleTwice(run[m], run[n - 1], run[n]);
    }
  }
}
