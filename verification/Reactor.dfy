/** The slot table of `EventLoop` as a transition system over epoll.

    One step is one piece of code that runs without handing control to a coroutine: an await, a `remove`, the first
    half of `dispatch` (take the handles and update the table), the resumption of one taken handle, or one
    `epoll_wait`; between them the kernel changes readiness as it likes. Coroutines re-register and remove from inside
    a resumption, so awaits and removals are allowed between any two steps.

    A registration is named by a token, issued in order by the awaits. */
module Reactor {
  import opened Wrappers
  import opened Epoll

  datatype FdState = FdState(rd: Option<nat>, wr: Option<nat>, et: bool) {
    function Get(d: Dir): Option<nat> { if d == Read then rd else wr }

    function Put(d: Dir, h: Option<nat>): FdState { if d == Read then this.(rd := h) else this.(wr := h) }

    predicate Empty() { rd.None? && wr.None? }
  }

  /** What became of the tokens, how many dispatches of client events resumed nobody, how many removals there were. */
  datatype Ledger = Ledger(issued: nat, resumed: set<nat>, dropped: set<nat>, overwritten: set<nat>,
                           idle: nat, removals: nat)

  /** `wake` is the eventfd; `batch` are the harvested events not yet dispatched; `taken` are the handles that
      `dispatch` has moved out of the table and not yet resumed. */
  datatype State = State(k: Kernel, states: map<int, FdState>, wake: int, batch: seq<Event>, taken: seq<nat>,
                         led: Ledger)
  {
    function Slot(fd: int, d: Dir): Option<nat> { if fd in states then states[fd].Get(d) else None }
  }

  function OptSet(o: Option<nat>): set<nat> { if o.Some? then {o.value} else {} }

  function OptSeq(o: Option<nat>): seq<nat> { if o.Some? then [o.value] else [] }

  function Tokens(s: FdState): set<nat> { OptSet(s.rd) + OptSet(s.wr) }

  function Active(s: FdState): Interest { Interest(s.rd.Some?, s.wr.Some?, s.et) }

  /** A loop that has registered nothing but its eventfd. */
  function Init(wake: int): State {
    State(Kernel(map[wake := Interest(true, false, false)], map[wake := Bits(false, false, false)], []),
          map[], wake, [], [], Ledger(0, {}, {}, {}, 0, 0))
  }

  // ---------------------------------------------------------------- the code

  /** `add_interest_impl`. The token is issued only when the call succeeds; otherwise the entry is gone and the
      coroutine gets an exception. */
  function Await(s: State, fd: int, d: Dir, et: bool): State {
    if fd < 0 then s
    else
      var before := if fd in s.states then s.states[fd] else FdState(None, None, false);
      match Ctl(s.k, if fd in s.states then Mod else Add, fd, Interest(true, true, et))
      case None => s.(states := s.states - {fd}, led := s.led.(dropped := s.led.dropped + Tokens(before)))
      case Some(k') =>
        s.(k := k',
           states := s.states[fd := before.Put(d, Some(s.led.issued)).(et := et)],
           led := s.led.(issued := s.led.issued + 1, overwritten := s.led.overwritten + OptSet(before.Get(d))))
  }

  /** `remove`: a failing DEL is ignored and the handles are forgotten without being resumed. */
  function Remove(s: State, fd: int): State {
    if fd < 0 then s
    else
      var k' := Ctl(s.k, Del, fd, Interest(false, false, false));
      s.(k := if k'.Some? then k'.value else s.k,
         states := s.states - {fd},
         led := s.led.(dropped := s.led.dropped + (if fd in s.states then Tokens(s.states[fd]) else {}),
                       removals := s.led.removals + 1))
  }

  /** `update_or_remove_impl` for an entry with new contents. */
  function UpdateOrRemove(s: State, fd: int, st: FdState): State {
    if st.Empty() then
      var k' := Ctl(s.k, Del, fd, Interest(false, false, false));
      s.(k := if k'.Some? then k'.value else s.k, states := s.states - {fd})
    else
      var k' := Ctl(s.k, Mod, fd, Active(st));
      s.(k := if k'.Some? then k'.value else s.k, states := s.states[fd := st])
  }

  lemma UpdateFacts(s: State, fd: int, st: FdState)
    ensures UpdateOrRemove(s.(states := s.states[fd := st]), fd, st) == UpdateOrRemove(s, fd, st)
    ensures var s' := UpdateOrRemove(s, fd, st);
            s'.wake == s.wake && s'.batch == s.batch && s'.taken == s.taken && s'.led == s.led
  {
  }

  function TakenBy(st: FdState, b: Bits): seq<nat> {
    (if b.Carries(Read) then OptSeq(st.rd) else []) + (if b.Carries(Write) then OptSeq(st.wr) else [])
  }

  function LeftBy(st: FdState, b: Bits): FdState {
    FdState(if b.Carries(Read) then None else st.rd, if b.Carries(Write) then None else st.wr, st.et)
  }

  /** `dispatch` up to the first resumption. The wakeup descriptor and unknown descriptors touch no slot. */
  function Take(s: State): State
    requires s.batch != []
  {
    var e, s' := s.batch[0], s.(batch := s.batch[1..]);
    if e.fd == s.wake then s'
    else if e.fd !in s.states then s'.(led := s.led.(idle := s.led.idle + 1))
    else
      var st := s.states[e.fd];
      var hs := TakenBy(st, e.bits);
      UpdateOrRemove(s', e.fd, LeftBy(st, e.bits)).(
        taken := s.taken + hs, led := s.led.(idle := s.led.idle + if hs == [] then 1 else 0))
  }

  /** Resume the next taken handle; what its coroutine does then are further steps. */
  function Resume(s: State): State
    requires s.taken != []
  {
    s.(taken := s.taken[1..], led := s.led.(resumed := s.led.resumed + {s.taken[0]}))
  }

  // --------------------------------------------------------------- the steps

  datatype Action =
    | OpenFd(fd: int)
    | CloseFd(fd: int)
    | SignalFd(fd: int, bits: Bits)
    | ConsumeFd(fd: int, bits: Bits)
    | AwaitFd(fd: int, d: Dir, et: bool)
    | RemoveFd(fd: int)
    | WaitEvents
    | TakeEvent
    | ResumeTaken

  /** The eventfd is private to the loop; a descriptor is closed after `remove` has been called for it, or when
      nothing waits on it; a dispatch runs to its end before the next one, a batch before the next wait. */
  predicate Enabled(s: State, a: Action) {
    match a
    case OpenFd(fd) => fd >= 0 && fd !in s.k.ready
    case CloseFd(fd) => fd != s.wake && fd !in s.states
    case AwaitFd(fd, _, _) => fd != s.wake
    case RemoveFd(fd) => fd != s.wake
    case WaitEvents => s.batch == [] && s.taken == []
    case TakeEvent => s.batch != [] && s.taken == []
    case ResumeTaken => s.taken != []
    case _ => true
  }

  function Step(s: State, a: Action): State
    requires Enabled(s, a)
  {
    match a
    case OpenFd(fd) => s.(k := Open(s.k, fd))
    case CloseFd(fd) => s.(k := Close(s.k, fd))
    case SignalFd(fd, b) => s.(k := Signal(s.k, fd, b))
    case ConsumeFd(fd, b) => s.(k := Consume(s.k, fd, b))
    case AwaitFd(fd, d, et) => Await(s, fd, d, et)
    case RemoveFd(fd) => Remove(s, fd)
    case WaitEvents => var (k', events) := Wait(s.k); s.(k := k', batch := events)
    case TakeEvent => Take(s)
    case ResumeTaken => Resume(s)
  }

  /** A run: every state, and the action that leads to the next one. */
  ghost predicate IsRun(run: seq<State>, acts: seq<Action>) {
    && |run| == |acts| + 1
    && forall i :: 0 <= i < |acts| ==> Enabled(run[i], acts[i]) && run[i + 1] == Step(run[i], acts[i])
  }

  lemma RunLength(run: seq<State>, acts: seq<Action>)
    requires IsRun(run, acts)
    ensures |run| == |acts| + 1
  {
  }

  // ---------------------------------------------------------- the invariants

  /** The table agrees with the interest list. */
  ghost predicate Agree(s: State) {
    && s.wake >= 0
    && s.wake !in s.states && s.wake in s.k.interest
    && s.states.Keys + {s.wake} == s.k.interest.Keys
    && forall fd :: fd in s.states ==>
         var (st, i) := (s.states[fd], s.k.interest[fd]);
         && fd >= 0 && !st.Empty() && st.et == i.et
         && (forall d :: st.Get(d).Some? ==> i.Wants(d))
  }

  /** Events of one batch have distinct descriptors and carry only what the current mask asks for. */
  ghost predicate BatchOk(s: State) {
    && (forall i, j :: 0 <= i < j < |s.batch| ==> s.batch[i].fd != s.batch[j].fd)
    && (forall e :: e in s.batch ==> e.bits.Any())
    && (forall e :: e in s.batch && e.fd in s.states && e.fd in s.k.interest ==>
          && (e.bits.rd ==> s.k.interest[e.fd].rd) && (e.bits.wr ==> s.k.interest[e.fd].wr))
  }

  predicate Occupied(s: State, fd: int, d: Dir) { s.Slot(fd, d).Some? }

  predicate ReadyFor(s: State, fd: int, d: Dir) { fd in s.k.ready && s.k.ready[fd].Carries(d) }

  ghost predicate InBatch(s: State, fd: int, d: Dir) {
    exists e :: e in s.batch && e.fd == fd && e.bits.Carries(d)
  }

  /** No waiter is stranded: if its direction is ready, an event for it is on its way. */
  ghost predicate NoneStranded(s: State) {
    forall fd, d :: Occupied(s, fd, d) && ReadyFor(s, fd, d) ==> fd in s.k.rdl || InBatch(s, fd, d)
  }

  ghost predicate Past(l: Ledger, t: nat) { t in l.resumed || t in l.dropped || t in l.overwritten }

  /** Each issued token has exactly one fate. */
  ghost predicate Linear(s: State) {
    var l := s.led;
    && l.resumed !! l.dropped !! l.overwritten
    && Distinct(s.taken)
    && (forall t: nat :: Past(l, t) ==> t < l.issued)
    && (forall t :: t in s.taken ==> t < l.issued && !Past(l, t))
    && (forall fd, d :: Occupied(s, fd, d) ==>
          var t := s.Slot(fd, d).value; t < l.issued && !Past(l, t) && t !in s.taken)
    && (forall fd, d, fd', d' :: Occupied(s, fd, d) && s.Slot(fd, d) == s.Slot(fd', d') ==> fd == fd' && d == d')
    && (forall t :: 0 <= t < l.issued ==> Past(l, t) || t in s.taken || InSlot(s, t))
  }

  ghost predicate InSlot(s: State, t: nat) {
    exists fd, d :: s.Slot(fd, d) == Some(t)
  }

  ghost predicate Inv(s: State) {
    KernelValid(s.k) && Agree(s) && BatchOk(s) && NoneStranded(s) && Linear(s)
  }

  // ---------------------------------------------- what a step does to the slots

  lemma AwaitSlots(s: State, fd: int, d: Dir, et: bool)
    requires Inv(s) && fd != s.wake
    ensures var s' := Await(s, fd, d, et);
            if fd in s.k.ready && fd >= 0 then
              && s'.led.issued == s.led.issued + 1
              && (forall x, y :: s'.Slot(x, y) == if (x, y) == (fd, d) then Some(s.led.issued) else s.Slot(x, y))
              && s'.led.overwritten == s.led.overwritten + OptSet(s.Slot(fd, d))
              && s'.led.resumed == s.led.resumed && s'.led.dropped == s.led.dropped && s'.taken == s.taken
            else s' == s
  {
  }

  lemma RemoveSlots(s: State, fd: int)
    requires Inv(s) && fd != s.wake
    ensures var s' := Remove(s, fd);
            && (forall x, y :: s'.Slot(x, y) == if x == fd then None else s.Slot(x, y))
            && s'.led.dropped == s.led.dropped + OptSet(s.Slot(fd, Read)) + OptSet(s.Slot(fd, Write))
  {
  }

  lemma TakeSlots(s: State)
    requires Inv(s) && s.batch != []
    ensures var (s', e) := (Take(s), s.batch[0]);
            && (forall x, y :: s'.Slot(x, y) == if x == e.fd && e.bits.Carries(y) then None else s.Slot(x, y))
            && s'.taken == s.taken + (if e.bits.Carries(Read) then OptSeq(s.Slot(e.fd, Read)) else [])
                                   + (if e.bits.Carries(Write) then OptSeq(s.Slot(e.fd, Write)) else [])
  {
  }

  // ------------------------------------------------------- tokens stay linear

  /** A new token takes a slot, and the one it finds there is overwritten. */
  lemma IssueLinear(s: State, s': State, fd: int, d: Dir)
    requires Linear(s) && s'.led.issued == s.led.issued + 1
    requires forall x, y :: s'.Slot(x, y) == if (x, y) == (fd, d) then Some(s.led.issued) else s.Slot(x, y)
    requires s'.led.overwritten == s.led.overwritten + OptSet(s.Slot(fd, d))
    requires s'.led.resumed == s.led.resumed && s'.led.dropped == s.led.dropped && s'.taken == s.taken
    ensures Linear(s')
  {
    assert forall t: nat :: Past(s'.led, t) <==> Past(s.led, t) || s.Slot(fd, d) == Some(t);
    assert Occupied(s, fd, d) ==> s.Slot(fd, d).value < s.led.issued;
    assert forall x, y :: Occupied(s', x, y) ==> (x, y) == (fd, d) || Occupied(s, x, y);
    forall t | 0 <= t < s'.led.issued
      ensures Past(s'.led, t) || t in s'.taken || InSlot(s', t)
    {
      if t == s.led.issued {
        assert s'.Slot(fd, d) == Some(t);
      } else if InSlot(s, t) {
        var x, y :| s.Slot(x, y) == Some(t);
        assert (x, y) == (fd, d) || s'.Slot(x, y) == Some(t);
      }
    }
  }

  lemma AwaitLinear(s: State, fd: int, d: Dir, et: bool)
    requires Inv(s) && fd != s.wake
    ensures Linear(Await(s, fd, d, et))
  {
    hide Await, Linear;
    AwaitSlots(s, fd, d, et);
    if Await(s, fd, d, et) != s {
      IssueLinear(s, Await(s, fd, d, et), fd, d);
    }
  }

  lemma RemoveLinear(s: State, fd: int)
    requires Inv(s) && fd != s.wake
    ensures Linear(Remove(s, fd))
  {
    RemoveSlots(s, fd);
    var s' := Remove(s, fd);
    assert forall t: nat :: Past(s'.led, t) <==> Past(s.led, t) || s.Slot(fd, Read) == Some(t) || s.Slot(fd, Write) == Some(t);
    assert forall d :: Occupied(s, fd, d) ==> s.Slot(fd, d).value < s.led.issued;
    forall t | 0 <= t < s'.led.issued
      ensures Past(s'.led, t) || t in s'.taken || InSlot(s', t)
    {
      if InSlot(s, t) {
        var x, y :| s.Slot(x, y) == Some(t);
        assert x == fd || s'.Slot(x, y) == Some(t);
      }
    }
  }

  lemma TakeLinear(s: State)
    requires Inv(s) && s.batch != [] && s.taken == []
    ensures Linear(Take(s))
  {
    TakeSlots(s);
    var s', e := Take(s), s.batch[0];
    assert forall t: nat :: Past(s'.led, t) <==> Past(s.led, t);
    forall t | 0 <= t < s'.led.issued
      ensures Past(s'.led, t) || t in s'.taken || InSlot(s', t)
    {
      if InSlot(s, t) {
        var x, y :| s.Slot(x, y) == Some(t);
        assert s'.Slot(x, y) == Some(t) || t in s'.taken;
      }
    }
  }

  lemma ResumeLinear(s: State)
    requires Inv(s) && s.taken != []
    ensures Linear(Resume(s))
  {
    var s' := Resume(s);
    assert s.taken[0] in s.taken;
    assert forall t: nat :: Past(s'.led, t) <==> Past(s.led, t) || t == s.taken[0];
    assert forall x, y :: s'.Slot(x, y) == s.Slot(x, y);
    assert forall t :: t in s'.taken ==> t in s.taken && t != s.taken[0];
    forall t | 0 <= t < s'.led.issued
      ensures Past(s'.led, t) || t in s'.taken || InSlot(s', t)
    {
      if InSlot(s, t) {
        var x, y :| s.Slot(x, y) == Some(t);
        assert s'.Slot(x, y) == Some(t);
      } else if t in s.taken && t != s.taken[0] {
        assert t in s.taken[1..];
      }
    }
  }

  // ------------------------------------------- table, batch and ready list

  /** What `add_interest_impl` leaves in the kernel and in the table, in plain terms. */
  lemma AwaitKernel(s: State, fd: int, d: Dir, et: bool)
    requires Inv(s) && fd != s.wake && Await(s, fd, d, et) != s
    ensures var s' := Await(s, fd, d, et);
            && fd >= 0 && KernelValid(s'.k) && s'.wake == s.wake && s'.batch == s.batch
            && s'.k.interest == s.k.interest[fd := Interest(true, true, et)]
            && s'.states.Keys == s.states.Keys + {fd}
            && (forall x :: x in s.states && x != fd ==> s'.states[x] == s.states[x])
            && !s'.states[fd].Empty() && s'.states[fd].et == et
  {
  }

  lemma AwaitTable(s: State, fd: int, d: Dir, et: bool)
    requires Inv(s) && fd != s.wake
    ensures var s' := Await(s, fd, d, et); KernelValid(s'.k) && Agree(s') && BatchOk(s')
  {
    var s' := Await(s, fd, d, et);
    if s' != s {
      AwaitKernel(s, fd, d, et);
      hide Await, KernelValid, NoneStranded, Linear;
    }
  }

  lemma AwaitStrands(s: State, fd: int, d: Dir, et: bool)
    requires Inv(s) && fd != s.wake
    ensures NoneStranded(Await(s, fd, d, et))
  {
    AwaitSlots(s, fd, d, et);
    var s' := Await(s, fd, d, et);
    if s' != s {
      forall x, y | Occupied(s', x, y) && ReadyFor(s', x, y)
        ensures x in s'.k.rdl || InBatch(s', x, y)
      {
        assert x != fd ==> Occupied(s, x, y) && ReadyFor(s, x, y);
      }
    }
  }

  lemma RemoveTable(s: State, fd: int)
    requires Inv(s) && fd != s.wake
    ensures var s' := Remove(s, fd); KernelValid(s'.k) && Agree(s') && BatchOk(s') && NoneStranded(s')
  {
    var s' := Remove(s, fd);
    RemoveSlots(s, fd);
    WithoutFacts(s.k.rdl, fd);
    forall x, y | Occupied(s', x, y) && ReadyFor(s', x, y)
      ensures x in s'.k.rdl || InBatch(s', x, y)
    {
      assert Occupied(s, x, y) && ReadyFor(s, x, y);
    }
  }

  lemma TakeKernel(s: State)
    requires Inv(s) && s.batch != []
    ensures KernelValid(Take(s).k)
  {
    var e := s.batch[0];
    if e.fd != s.wake && e.fd in s.states {
      var st := LeftBy(s.states[e.fd], e.bits);
      var op, i := if st.Empty() then Del else Mod, if st.Empty() then Interest(false, false, false) else Active(st);
      hide Ctl, Inv, KernelValid;
    }
  }

  lemma TakeTable(s: State)
    requires Inv(s) && s.batch != []
    ensures var (s', e) := (Take(s), s.batch[0]);
            && Agree(s')
            && (e.fd in s'.states ==> s'.k.interest[e.fd] == Active(s'.states[e.fd]))
  {
    var e, s1 := s.batch[0], s.(batch := s.batch[1..]);
    if e.fd in s.states {
      var st := LeftBy(s.states[e.fd], e.bits);
      hide Inv, UpdateOrRemove, Agree;
    }
  }

  lemma TakeBatch(s: State)
    requires Inv(s) && s.batch != []
    ensures BatchOk(Take(s))
  {
    assert Take(s).batch == s.batch[1..];
    assert Agree(s) && BatchOk(s);
    hide Inv, Take;
  }

  lemma TakeStrands(s: State)
    requires Inv(s) && s.batch != []
    ensures NoneStranded(Take(s))
  {
    var s', e := Take(s), s.batch[0];
    TakeSlots(s);
    forall x, y | Occupied(s', x, y) && ReadyFor(s', x, y)
      ensures x in s'.k.rdl || InBatch(s', x, y)
    {
      assert Occupied(s, x, y) && ReadyFor(s, x, y);
      if x != e.fd && x !in s.k.rdl {
        var c :| c in s.batch && c.fd == x && c.bits.Carries(y);
        assert c in s'.batch;
      }
    }
  }

  lemma WaitTable(s: State)
    requires Inv(s) && s.batch == [] && s.taken == []
    ensures var s' := Step(s, WaitEvents); KernelValid(s'.k) && Agree(s') && BatchOk(s') && NoneStranded(s')
  {
    var s' := Step(s, WaitEvents);
    WaitKeepsValid(s.k);
    ScanReports(s.k, s.k.rdl, MAX_EVENTS);
    assert forall x, y :: s'.Slot(x, y) == s.Slot(x, y);
    forall x, y | Occupied(s', x, y) && ReadyFor(s', x, y)
      ensures x in s'.k.rdl || InBatch(s', x, y)
    {
      assert Occupied(s, x, y) && ReadyFor(s, x, y);
      WaitAdvances(s.k, x);
      var e := Event(x, Poll(s.k.interest[x], s.k.ready[x]));
      assert e in s'.batch ==> InBatch(s', x, y);
    }
  }

  lemma KernelMovesTable(s: State, a: Action)
    requires Inv(s) && Enabled(s, a) && (a.OpenFd? || a.CloseFd? || a.SignalFd? || a.ConsumeFd?)
    ensures var s' := Step(s, a); KernelValid(s'.k) && Agree(s') && BatchOk(s')
    ensures forall x :: x in s.k.rdl && x in s.states ==> x in Step(s, a).k.rdl
  {
  }

  lemma KernelMovesStrands(s: State, a: Action)
    requires Inv(s) && Enabled(s, a) && (a.OpenFd? || a.CloseFd? || a.SignalFd? || a.ConsumeFd?)
    ensures NoneStranded(Step(s, a))
  {
    var s' := Step(s, a);
    KernelMovesTable(s, a);
    forall x, y | Occupied(s', x, y) && ReadyFor(s', x, y)
      ensures x in s'.k.rdl || InBatch(s', x, y)
    {
      assert Occupied(s, x, y);
      if !ReadyFor(s, x, y) {
        assert a.SignalFd? && x == a.fd;
      } else if x !in s.k.rdl {
        var c :| c in s.batch && c.fd == x && c.bits.Carries(y);
        assert c in s'.batch;
      }
    }
  }

  /** A step that moves no token. */
  lemma LinearFrame(s: State, s': State)
    requires Linear(s) && s'.led == s.led && s'.taken == s.taken && s'.states == s.states
    ensures Linear(s')
  {
    assert forall x, y :: s'.Slot(x, y) == s.Slot(x, y);
    forall t | 0 <= t < s'.led.issued
      ensures Past(s'.led, t) || t in s'.taken || InSlot(s', t)
    {
      if InSlot(s, t) {
        var x, y :| s.Slot(x, y) == Some(t);
        assert s'.Slot(x, y) == Some(t);
      }
    }
  }

  lemma ResumeTable(s: State)
    requires Inv(s) && s.taken != []
    ensures var s' := Resume(s); KernelValid(s'.k) && Agree(s') && BatchOk(s') && NoneStranded(s')
  {
    var s' := Resume(s);
    assert forall x, y :: Occupied(s', x, y) == Occupied(s, x, y) && ReadyFor(s', x, y) == ReadyFor(s, x, y);
    assert forall x, y :: InBatch(s, x, y) ==> InBatch(s', x, y);
  }

  /** Every step keeps the table in agreement with epoll, strands no waiter and loses or duplicates no token. */
  lemma StepKeepsInv(s: State, a: Action)
    requires Inv(s) && Enabled(s, a)
    ensures Inv(Step(s, a))
  {
    match a
    case AwaitFd(fd, d, et) => AwaitTable(s, fd, d, et); AwaitStrands(s, fd, d, et); AwaitLinear(s, fd, d, et);
    case RemoveFd(fd) => RemoveTable(s, fd); RemoveLinear(s, fd);
    case WaitEvents => WaitTable(s); LinearFrame(s, Step(s, a));
    case TakeEvent => TakeKernel(s); TakeTable(s); TakeBatch(s); TakeStrands(s); TakeLinear(s);
    case ResumeTaken => ResumeTable(s); ResumeLinear(s);
    case _ => KernelMovesTable(s, a); KernelMovesStrands(s, a); LinearFrame(s, Step(s, a));
  }

  // ------------------------------------------------------------- whole runs

  lemma {:induction false} RunKeepsInv(run: seq<State>, acts: seq<Action>)
    requires IsRun(run, acts) && Inv(run[0])
    ensures forall i :: 0 <= i < |run| ==> Inv(run[i])
  {
    if acts != [] {
      var n := |acts| - 1;
      RunKeepsInv(run[..n + 1], acts[..n]);
      assert run[..n + 1][n] == run[n];
      StepKeepsInv(run[n], acts[n]);
    }
  }

  /** In every state of every run of a loop: the keys of the table are the registered client descriptors with the
      right trigger mode and a wide enough mask, no ready waiter is stranded, no token is lost or used twice. */
  lemma LoopIsSound(run: seq<State>, acts: seq<Action>, wake: int)
    requires wake >= 0 && IsRun(run, acts) && run[0] == Init(wake)
    ensures forall i :: 0 <= i < |run| ==> Inv(run[i])
  {
    RunKeepsInv(run, acts);
  }

  /** No waiter is stranded: one whose direction is ready is in an event still to be dispatched, or its descriptor is
      queued and the kernel reports it as soon as a wait gets to it. */
  lemma NoStrandedWaiter(run: seq<State>, acts: seq<Action>, wake: int, i: nat, fd: int, d: Dir)
    requires wake >= 0 && IsRun(run, acts) && run[0] == Init(wake) && i < |run|
    requires Occupied(run[i], fd, d) && ReadyFor(run[i], fd, d)
    ensures var s := run[i];
            || InBatch(s, fd, d)
            || (fd in s.k.rdl && Reportable(s.k, fd) && Poll(s.k.interest[fd], s.k.ready[fd]).Carries(d))
  {
    RunKeepsInv(run, acts);
    assert NoneStranded(run[i]);
  }

  /** The table has exactly the registered client descriptors as its keys, no entry is empty, the trigger mode is that of
      the registration, and the mask asks for every direction that has a waiter. */
  lemma TableMatchesEpoll(run: seq<State>, acts: seq<Action>, wake: int, i: nat, fd: int)
    requires wake >= 0 && IsRun(run, acts) && run[0] == Init(wake) && i < |run|
    ensures var s := run[i];
            && (fd in s.states <==> fd in s.k.interest && fd != s.wake)
            && (fd in s.states ==>
                  && fd in s.k.ready && !s.states[fd].Empty() && s.k.interest[fd].et == s.states[fd].et
                  && (s.states[fd].rd.Some? ==> s.k.interest[fd].rd) && (s.states[fd].wr.Some? ==> s.k.interest[fd].wr))
  {
    RunKeepsInv(run, acts);
    var s := run[i];
    assert fd in s.states.Keys + {s.wake} <==> fd in s.k.interest.Keys;
    assert fd in s.states ==> forall d :: s.states[fd].Get(d).Some? ==> s.k.interest[fd].Wants(d);
    assert fd in s.states ==> s.states[fd].Get(Read) == s.states[fd].rd && s.states[fd].Get(Write) == s.states[fd].wr;
  }

  /** The tokens of the coroutines that sit in slots. */
  function SlotTokens(s: State): set<nat> {
    set fd, d: Dir | fd in s.states && s.states[fd].Get(d).Some? :: s.states[fd].Get(d).value
  }

  /** Registrations are linear: those made so far are the disjoint union of the resumed, the dropped, the overwritten,
      those a dispatch is about to resume, and those in a slot, where no two slots hold the same one. */
  lemma RegistrationsAreLinear(run: seq<State>, acts: seq<Action>, wake: int, i: nat)
    requires wake >= 0 && IsRun(run, acts) && run[0] == Init(wake) && i < |run|
    ensures var (s, l) := (run[i], run[i].led);
            var taken := set t | t in s.taken;
            && l.resumed !! l.dropped !! l.overwritten !! taken !! SlotTokens(s)
            && (forall t: nat :: t in l.resumed + l.dropped + l.overwritten + taken + SlotTokens(s) <==> t < l.issued)
            && Distinct(s.taken)
            && forall fd, d, fd', d' :: Occupied(s, fd, d) && s.Slot(fd, d) == s.Slot(fd', d') ==> (fd, d) == (fd', d')
  {
    RunKeepsInv(run, acts);
    var s := run[i];
    assert Linear(s);
    hide Inv, IsRun;
    forall t: nat
      ensures t in SlotTokens(s) <==> InSlot(s, t)
    {
      if InSlot(s, t) {
        var fd, d :| s.Slot(fd, d) == Some(t);
        assert fd in s.states && s.states[fd].Get(d) == Some(t);
      }
      if t in SlotTokens(s) {
        var fd, d: Dir :| fd in s.states && s.states[fd].Get(d) == Some(t);
        assert s.Slot(fd, d) == Some(t);
      }
    }
    assert forall t: nat :: InSlot(s, t) ==> t < s.led.issued && !Past(s.led, t) && t !in s.taken by {
      forall t: nat | InSlot(s, t)
        ensures t < s.led.issued && !Past(s.led, t) && t !in s.taken
      {
        var fd, d :| s.Slot(fd, d) == Some(t);
        assert Occupied(s, fd, d);
      }
    }
    assert forall t: nat :: t in s.taken ==> t < s.led.issued && !Past(s.led, t);
    assert forall t: nat :: t < s.led.issued ==> Past(s.led, t) || t in s.taken || InSlot(s, t);
    assert forall t: nat :: t in s.led.resumed + s.led.dropped + s.led.overwritten <==> Past(s.led, t);
  }

  ghost predicate Grows(l: Ledger, l': Ledger) {
    l.resumed <= l'.resumed && l.dropped <= l'.dropped && l.overwritten <= l'.overwritten
  }

  lemma StepGrowsLedger(s: State, a: Action)
    requires Inv(s) && Enabled(s, a)
    ensures Grows(s.led, Step(s, a).led)
  {
    if a.AwaitFd? {
      AwaitSlots(s, a.fd, a.d, a.et);
    }
  }

  lemma {:induction false} RunGrowsLedger(run: seq<State>, acts: seq<Action>, i: nat, j: nat)
    requires IsRun(run, acts) && Inv(run[0]) && i <= j < |run|
    ensures Grows(run[i].led, run[j].led)
    decreases j
  {
    hide Inv, IsRun;
    RunLength(run, acts);
    if i < j {
      RunGrowsLedger(run, acts, i, j - 1);
      NextGrowsLedger(run, acts, j - 1);
    }
  }

  lemma NextGrowsLedger(run: seq<State>, acts: seq<Action>, i: nat)
    requires IsRun(run, acts) && Inv(run[0]) && i < |acts|
    ensures i + 1 < |run| && Grows(run[i].led, run[i + 1].led)
  {
  }

  /** A registration is resumed at most once, and never after `remove` or an overwrite has forgotten it. */
  lemma ResumedAtMostOnce(run: seq<State>, acts: seq<Action>, i: nat, j: nat)
    requires IsRun(run, acts) && Inv(run[0])
    requires j < |acts| && acts[j] == ResumeTaken
    ensures i <= j ==> !Past(run[i].led, run[j].taken[0])
    ensures i < j && acts[i] == ResumeTaken ==> run[i].taken[0] != run[j].taken[0]
  {
    RunKeepsInv(run, acts);
    var t := run[j].taken[0];
    assert t in run[j].taken;
    if i <= j {
      RunGrowsLedger(run, acts, i, j);
    }
    if i < j && acts[i] == ResumeTaken {
      RunGrowsLedger(run, acts, i + 1, j);
      assert run[i].taken[0] in run[i + 1].led.resumed;
    }
  }

  /** The only way to lose a waiter to an overwrite is to await a direction that already has one. */
  lemma OverwriteExactly(s: State, a: Action)
    requires Inv(s) && Enabled(s, a)
    ensures Step(s, a).led.overwritten != s.led.overwritten <==>
            a.AwaitFd? && a.fd in s.k.ready && Occupied(s, a.fd, a.d)
  {
  }

  /** A waiter leaves its slot only by a dispatch that carries its direction, a removal of its descriptor, or another await
      of the same direction; in particular no resumption and no dispatch of another event clobbers it. */
  lemma SlotLostExactly(s: State, a: Action, fd: int, d: Dir)
    requires Inv(s) && Enabled(s, a) && Occupied(s, fd, d)
    ensures Step(s, a).Slot(fd, d) != s.Slot(fd, d) <==>
            || a == RemoveFd(fd)
            || (a.AwaitFd? && a.fd == fd && a.d == d)
            || (a == TakeEvent && s.batch[0].fd == fd && s.batch[0].bits.Carries(d))
  {
    assert s.Slot(fd, d).value < s.led.issued && fd in s.k.ready && fd >= 0 && fd != s.wake;
    match a
    case AwaitFd(x, y, et) => AwaitSlots(s, x, y, et);
    case RemoveFd(x) => RemoveSlots(s, x);
    case TakeEvent => TakeSlots(s);
    case _ =>
  }

  // ------------------------------------------------------------ no busy spin

  /** Descriptors whose mask asks for a direction nobody waits for. */
  function SurplusFds(s: State): set<int> {
    set fd | fd in s.states && fd in s.k.interest && s.k.interest[fd] != Active(s.states[fd])
  }

  /** Descriptors of undispatched events that have lost their table entry. */
  function UnknownFds(s: State): set<int> {
    set e | e in s.batch && e.fd != s.wake && e.fd !in s.states :: e.fd
  }

  /** How many dispatches in state s may still resume nobody, before anybody registers or removes again. */
  function Surplus(s: State): nat { |SurplusFds(s)| + |UnknownFds(s)| }

  /** Idle dispatches are paid for by the surplus, and only a registration or a removal adds to it. */
  ghost predicate Pays(s: State, s': State) {
    && s.led.issued <= s'.led.issued && s.led.removals <= s'.led.removals
    && s'.led.idle + Surplus(s') + s.led.issued + s.led.removals <= s.led.idle + Surplus(s) + s'.led.issued + s'.led.removals
  }

  lemma SubsetCard<T>(a: set<T>, b: set<T>)
    requires a <= b
    ensures |a| <= |b|
  {
    assert b == a + (b - a);
  }

  /** If a dispatch resumes nobody, it narrows the mask of its descriptor or retires a stale event. */
  lemma IdleTakePays(s: State)
    requires Inv(s) && s.batch != [] && s.taken == []
    ensures var (s', e) := (Take(s), s.batch[0]);
            && SurplusFds(s') <= SurplusFds(s) - {e.fd} && UnknownFds(s') <= UnknownFds(s) - {e.fd}
            && (e.fd != s.wake && s'.taken == s.taken ==> e.fd in SurplusFds(s) || e.fd in UnknownFds(s))
  {
  }

  lemma AwaitPays(s: State, fd: int, d: Dir, et: bool)
    requires Inv(s) && fd != s.wake
    ensures Pays(s, Await(s, fd, d, et))
  {
    var s' := Await(s, fd, d, et);
    AwaitSlots(s, fd, d, et);
    if s' != s {
      assert s'.led.idle == s.led.idle && s'.led.removals == s.led.removals;
      assert SurplusFds(s') <= SurplusFds(s) + {fd} && UnknownFds(s') <= UnknownFds(s);
      hide Inv, Await, SurplusFds, UnknownFds;
      SubsetCard(SurplusFds(s'), SurplusFds(s) + {fd});
      SubsetCard(UnknownFds(s'), UnknownFds(s));
    }
  }

  lemma RemoveSurplus(s: State, fd: int)
    requires Inv(s) && fd != s.wake
    ensures var s' := Remove(s, fd);
            && SurplusFds(s') <= SurplusFds(s) && UnknownFds(s') <= UnknownFds(s) + {fd}
            && s'.led.idle == s.led.idle && s'.led.issued == s.led.issued
            && s'.led.removals == s.led.removals + (if fd < 0 then 0 else 1) && (fd < 0 ==> s' == s)
  {
  }

  lemma RemovePays(s: State, fd: int)
    requires Inv(s) && fd != s.wake
    ensures Pays(s, Remove(s, fd))
  {
    RemoveSurplus(s, fd);
    hide Remove, SurplusFds, UnknownFds, Inv;
    SubsetCard(SurplusFds(Remove(s, fd)), SurplusFds(s));
    SubsetCard(UnknownFds(Remove(s, fd)), UnknownFds(s) + {fd});
  }

  lemma SubsetBut<T>(a: set<T>, b: set<T>, x: T)
    requires a <= b - {x}
    ensures |a| + (if x in b then 1 else 0) <= |b|
  {
    SubsetCard(a + if x in b then {x} else {}, b);
  }

  lemma TakePays(s: State)
    requires Inv(s) && s.batch != [] && s.taken == []
    ensures Pays(s, Take(s))
  {
    var s', fd := Take(s), s.batch[0].fd;
    assert s'.led.issued == s.led.issued && s'.led.removals == s.led.removals && s'.led.idle <= s.led.idle + 1;
    assert s'.led.idle > s.led.idle ==> fd != s.wake && s'.taken == s.taken;
    IdleTakePays(s);
    hide Inv, Take, SurplusFds, UnknownFds;
    SubsetBut(SurplusFds(s'), SurplusFds(s), fd);
    SubsetBut(UnknownFds(s'), UnknownFds(s), fd);
  }

  lemma WaitPays(s: State)
    requires Inv(s) && s.batch == [] && s.taken == []
    ensures Pays(s, Step(s, WaitEvents))
  {
    ScanReports(s.k, s.k.rdl, MAX_EVENTS);
    assert SurplusFds(Step(s, WaitEvents)) == SurplusFds(s);
    assert UnknownFds(Step(s, WaitEvents)) == {};
  }

  lemma StepPays(s: State, a: Action)
    requires Inv(s) && Enabled(s, a)
    ensures Pays(s, Step(s, a))
  {
    match a
    case AwaitFd(fd, d, et) => AwaitPays(s, fd, d, et);
    case RemoveFd(fd) => RemovePays(s, fd);
    case TakeEvent => TakePays(s);
    case WaitEvents => WaitPays(s);
    case CloseFd(fd) =>
      assert fd !in s.k.interest && s.k.interest - {fd} == s.k.interest;
      assert SurplusFds(Step(s, a)) == SurplusFds(s);
      assert UnknownFds(Step(s, a)) == UnknownFds(s);
    case _ =>
      assert SurplusFds(Step(s, a)) == SurplusFds(s);
      assert UnknownFds(Step(s, a)) == UnknownFds(s);
  }

  /** A dispatch of a client event that resumes nobody. */
  predicate Idle(s: State, a: Action)
    requires Enabled(s, a)
  {
    a.TakeEvent? && s.batch[0].fd != s.wake && Step(s, a).taken == s.taken
  }

  /** A registration that succeeds, or a removal. */
  predicate Changes(s: State, a: Action) {
    (a.AwaitFd? && a.fd >= 0 && a.fd in s.k.ready) || (a.RemoveFd? && a.fd >= 0)
  }

  /** How many steps between i and j are the one or the other. */
  ghost function IdleIn(run: seq<State>, acts: seq<Action>, i: nat, j: nat): nat
    requires IsRun(run, acts) && i <= j <= |acts|
    decreases j
  {
    if i == j then 0 else IdleIn(run, acts, i, j - 1) + if Idle(run[j - 1], acts[j - 1]) then 1 else 0
  }

  ghost function ChangesIn(run: seq<State>, acts: seq<Action>, i: nat, j: nat): nat
    requires IsRun(run, acts) && i <= j <= |acts|
    decreases j
  {
    if i == j then 0 else ChangesIn(run, acts, i, j - 1) + if Changes(run[j - 1], acts[j - 1]) then 1 else 0
  }

  lemma StepCounts(s: State, a: Action)
    requires Inv(s) && Enabled(s, a)
    ensures Step(s, a).led.idle == s.led.idle + if Idle(s, a) then 1 else 0
    ensures Step(s, a).led.issued + Step(s, a).led.removals == s.led.issued + s.led.removals + if Changes(s, a) then 1 else 0
  {
    match a
    case AwaitFd(fd, d, et) => AwaitSlots(s, fd, d, et); AwaitIdles(s, fd, d, et);
    case RemoveFd(fd) => RemoveSurplus(s, fd);
    case _ =>
  }

  lemma AwaitIdles(s: State, fd: int, d: Dir, et: bool)
    ensures Await(s, fd, d, et).led.idle == s.led.idle && Await(s, fd, d, et).led.removals == s.led.removals
  {
  }

  /** No busy spin, over any stretch of any run: the dispatches that resume nobody are at most the surplus at its
      beginning plus one per registration and removal on the way. */
  lemma {:induction false} NoBusySpin(run: seq<State>, acts: seq<Action>, i: nat, j: nat)
    requires IsRun(run, acts) && Inv(run[0]) && i <= j <= |acts|
    ensures IdleIn(run, acts, i, j) + Surplus(run[j]) <= Surplus(run[i]) + ChangesIn(run, acts, i, j)
    decreases j
  {
    hide Inv, IsRun, Surplus, Idle, Changes;
    RunLength(run, acts);
    if i < j {
      NoBusySpin(run, acts, i, j - 1);
      NextPays(run, acts, j - 1);
    }
  }

  lemma NextPays(run: seq<State>, acts: seq<Action>, i: nat)
    requires IsRun(run, acts) && Inv(run[0]) && i < |acts|
    ensures i + 1 < |run| && Enabled(run[i], acts[i])
    ensures Surplus(run[i + 1]) + (if Idle(run[i], acts[i]) then 1 else 0)
            <= Surplus(run[i]) + (if Changes(run[i], acts[i]) then 1 else 0)
  {
    RunKeepsInv(run, acts);
    assert Enabled(run[i], acts[i]) && run[i + 1] == Step(run[i], acts[i]);
    hide Inv, Step, Enabled, Surplus, Idle, Changes;
    StepPays(run[i], acts[i]);
    StepCounts(run[i], acts[i]);
  }

  // ----------------------------------------------------------- no starvation

  function CountWaits(acts: seq<Action>): nat {
    if acts == [] then 0 else CountWaits(acts[..|acts| - 1]) + if acts[|acts| - 1] == WaitEvents then 1 else 0
  }

  /** How many calls of `epoll_wait` a ready waiter still has to sit through. */
  ghost function Rank(s: State, fd: int, d: Dir): nat {
    if InBatch(s, fd, d) then 0 else 1 + Pos(s.k.rdl, fd) / MAX_EVENTS
  }

  lemma {:induction false} PosOfAppend(l: seq<int>, x: int, y: int)
    requires x in l
    ensures Pos(l + [y], x) == Pos(l, x)
  {
    assert (l + [y])[Pos(l, x)] == x;
    assert forall i :: 0 <= i < Pos(l, x) ==> (l + [y])[i] == l[i];
  }

  /** A queue change that appends or takes one other descriptor out. */
  ghost predicate KeepsPlace(l: seq<int>, l': seq<int>, fd: int) {
    fd in l' && Pos(l', fd) <= Pos(l, fd)
  }

  lemma CtlKeepsPlace(k: Kernel, op: CtlOp, x: int, i: Interest, fd: int)
    requires KernelValid(k) && fd in k.rdl && (op == Del ==> x != fd) && Ctl(k, op, x, i).Some?
    ensures KeepsPlace(k.rdl, Ctl(k, op, x, i).value.rdl, fd)
  {
  }

  lemma TakeKeepsPlace(s: State, fd: int)
    requires Inv(s) && s.batch != [] && fd in s.k.rdl && fd in Take(s).states
    ensures KeepsPlace(s.k.rdl, Take(s).k.rdl, fd)
  {
    var e := s.batch[0];
    if e.fd != s.wake && e.fd in s.states {
      var st := LeftBy(s.states[e.fd], e.bits);
      CtlKeepsPlace(s.k, if st.Empty() then Del else Mod, e.fd,
                    if st.Empty() then Interest(false, false, false) else Active(st), fd);
    }
  }

  /** Between two waits nobody overtakes a queued descriptor that stays registered. */
  lemma QueueKeepsPlace(s: State, a: Action, fd: int)
    requires Inv(s) && Enabled(s, a) && a != WaitEvents
    requires fd in s.k.rdl && fd in s.states && fd in Step(s, a).states
    requires a.RemoveFd? ==> a.fd != fd
    ensures KeepsPlace(s.k.rdl, Step(s, a).k.rdl, fd)
  {
    match a
    case AwaitFd(x, d, et) =>
      AwaitSlots(s, x, d, et);
      if Step(s, a) != s {
        CtlKeepsPlace(s.k, if x in s.states then Mod else Add, x, Interest(true, true, et), fd);
      }
    case RemoveFd(x) =>
      if x in s.k.interest {
        CtlKeepsPlace(s.k, Del, x, Interest(false, false, false), fd);
      }
    case TakeEvent => TakeKeepsPlace(s, fd);
    case SignalFd(x, b) => PosOfAppend(s.k.rdl, fd, x);
    case CloseFd(x) => WithoutFacts(s.k.rdl, x);
    case _ =>
  }

  /** Waiter t sits in its slot and its direction is ready. */
  predicate Due(s: State, fd: int, d: Dir, t: nat) {
    s.Slot(fd, d) == Some(t) && ReadyFor(s, fd, d)
  }

  lemma WaitLowersRank(s: State, fd: int, d: Dir, t: nat)
    requires Inv(s) && Enabled(s, WaitEvents) && Due(s, fd, d, t)
    ensures Rank(Step(s, WaitEvents), fd, d) + 1 <= Rank(s, fd, d)
  {
    var s' := Step(s, WaitEvents);
    assert Occupied(s, fd, d);
    WaitAdvances(s.k, fd);
    var e := Event(fd, Poll(s.k.interest[fd], s.k.ready[fd]));
    if e in s'.batch {
      assert InBatch(s', fd, d);
    }
  }

  lemma StepLowersRank(s: State, a: Action, fd: int, d: Dir, t: nat)
    requires Inv(s) && Enabled(s, a) && Due(s, fd, d, t) && Due(Step(s, a), fd, d, t)
    ensures Rank(Step(s, a), fd, d) + (if a == WaitEvents then 1 else 0) <= Rank(s, fd, d)
  {
    assert Occupied(s, fd, d) && (fd in s.k.rdl || InBatch(s, fd, d));
    assert Step(s, a).Slot(fd, d) == Some(t) && fd in s.states && fd in Step(s, a).states;
    hide Inv, Step;
    if a == WaitEvents {
      WaitLowersRank(s, fd, d, t);
    } else if InBatch(s, fd, d) {
    } else {
      if a == RemoveFd(fd) { RemovedIsEmpty(s, a, fd); }
      QueueKeepsPlace(s, a, fd);
    }
  }

  lemma RemovedIsEmpty(s: State, a: Action, fd: int)
    requires Inv(s) && Enabled(s, a) && a == RemoveFd(fd)
    ensures fd !in Step(s, a).states
  {
  }

  /** A waiter that stays registered and ready sits through at most 1 + (its place in the ready list) / 128 waits,
      whatever the other coroutines do and whichever events are stale. */
  lemma {:induction false} NoStarvation(run: seq<State>, acts: seq<Action>, fd: int, d: Dir, t: nat)
    requires IsRun(run, acts) && Inv(run[0])
    requires forall i :: 0 <= i < |run| ==> Due(run[i], fd, d, t)
    ensures CountWaits(acts) + Rank(run[|acts|], fd, d) <= Rank(run[0], fd, d)
    ensures CountWaits(acts) <= 1 + Pos(run[0].k.rdl, fd) / MAX_EVENTS
  {
    if acts != [] {
      var n := |acts| - 1;
      RunKeepsInv(run, acts);
      NoStarvation(run[..n + 1], acts[..n], fd, d, t);
      assert run[..n + 1][n] == run[n] && run[n + 1] == Step(run[n], acts[n]) && Enabled(run[n], acts[n]);
      hide Inv, Step, Enabled, Due, Rank;
      StepLowersRank(run[n], acts[n], fd, d, t);
    }
  }

  // ----------------------------------------------- when epoll_ctl itself fails

  /** `add_interest_impl` when `epoll_ctl` reports an error of its own (ENOMEM, ENOSPC): the whole entry goes. */
  function AwaitFault(s: State, fd: int): State {
    s.(states := s.states - {fd},
       led := s.led.(dropped := s.led.dropped + if fd in s.states then Tokens(s.states[fd]) else {}))
  }

  /** A failing ADD is harmless. A failing MOD is not: the kernel keeps a registration the table has lost. */
  lemma FaultAgreesExactly(s: State, fd: int)
    requires Inv(s) && fd != s.wake
    ensures Agree(AwaitFault(s, fd)) <==> fd !in s.states
    ensures fd !in s.states ==> AwaitFault(s, fd) == s
  {
  }

  /** After a failing MOD every further await on the descriptor is refused with EEXIST, until it is removed. */
  lemma FaultLocksOut(s: State, fd: int, d: Dir, et: bool)
    requires Inv(s) && fd in s.states
    ensures var s' := AwaitFault(s, fd);
            && Await(s', fd, d, et) == s'
            && Await(Remove(s', fd), fd, d, et).Slot(fd, d) == Some(s.led.issued)
  {
  }

  /** Does `dispatch` of the next event issue a MOD, that is, does a waiter stay in the table? */
  predicate Narrows(s: State) {
    && s.batch != [] && s.batch[0].fd != s.wake && s.batch[0].fd in s.states
    && !LeftBy(s.states[s.batch[0].fd], s.batch[0].bits).Empty()
  }

  /** `dispatch` when that MOD reports an error of its own: the exception leaves after the handles have been moved out of
      the table and before any is resumed. */
  function TakeFault(s: State): State
    requires Narrows(s)
  {
    var e := s.batch[0];
    s.(batch := s.batch[1..],
       states := s.states[e.fd := LeftBy(s.states[e.fd], e.bits)],
       led := s.led.(dropped := s.led.dropped + (set t | t in TakenBy(s.states[e.fd], e.bits))))
  }

  lemma TakenByIs(s: State)
    requires Narrows(s)
    ensures var e := s.batch[0];
            forall t: nat :: t in TakenBy(s.states[e.fd], e.bits) <==>
              exists y :: e.bits.Carries(y) && s.Slot(e.fd, y) == Some(t)
  {
    var e := s.batch[0];
    forall t: nat
      ensures t in TakenBy(s.states[e.fd], e.bits) <==> exists y :: e.bits.Carries(y) && s.Slot(e.fd, y) == Some(t)
    {
      assert t in TakenBy(s.states[e.fd], e.bits) <==>
             (e.bits.Carries(Read) && s.Slot(e.fd, Read) == Some(t)) || (e.bits.Carries(Write) && s.Slot(e.fd, Write) == Some(t));
    }
  }

  lemma TakeFaultSlots(s: State)
    requires Inv(s) && Narrows(s)
    ensures var (s', e) := (TakeFault(s), s.batch[0]);
            && (forall x, y :: s'.Slot(x, y) == if x == e.fd && e.bits.Carries(y) then None else s.Slot(x, y))
            && (forall t: nat :: Past(s'.led, t) <==>
                  Past(s.led, t) || exists y :: e.bits.Carries(y) && s.Slot(e.fd, y) == Some(t))
  {
    TakenByIs(s);
  }

  /** The tokens of some slots of one descriptor are lost. */
  lemma LoseLinear(s: State, s': State, fd: int, b: Bits)
    requires Linear(s) && s'.taken == s.taken && s'.led.issued == s.led.issued
    requires s'.led.resumed !! s'.led.dropped !! s'.led.overwritten
    requires forall x, y :: s'.Slot(x, y) == if x == fd && b.Carries(y) then None else s.Slot(x, y)
    requires forall t: nat :: Past(s'.led, t) <==>
               Past(s.led, t) || exists y :: b.Carries(y) && s.Slot(fd, y) == Some(t)
    ensures Linear(s')
  {
    assert forall y :: Occupied(s, fd, y) ==> s.Slot(fd, y).value < s.led.issued;
    assert forall x, y :: Occupied(s', x, y) ==> Occupied(s, x, y) && !(x == fd && b.Carries(y));
    forall t | 0 <= t < s'.led.issued
      ensures Past(s'.led, t) || t in s'.taken || InSlot(s', t)
    {
      if InSlot(s, t) {
        var x, y :| s.Slot(x, y) == Some(t);
        assert s'.Slot(x, y) == Some(t) || Past(s'.led, t);
      }
    }
  }

  lemma TakeFaultLinear(s: State)
    requires Inv(s) && Narrows(s)
    ensures Linear(TakeFault(s))
  {
    TakeFaultSlots(s);
    var s', e := TakeFault(s), s.batch[0];
    assert s'.taken == s.taken && s'.led.issued == s.led.issued;
    hide TakeFault, Linear, Past;
    TakeFaultDisjoint(s);
    LoseLinear(s, s', e.fd, e.bits);
  }

  lemma TakeFaultDisjoint(s: State)
    requires Linear(s) && Narrows(s)
    ensures var l := TakeFault(s).led; l.resumed !! l.dropped !! l.overwritten
  {
    var e := s.batch[0];
    forall t | t in TakenBy(s.states[e.fd], e.bits)
      ensures !Past(s.led, t)
    {
      assert s.Slot(e.fd, Read) == Some(t) || s.Slot(e.fd, Write) == Some(t);
      assert Occupied(s, e.fd, if s.Slot(e.fd, Read) == Some(t) then Read else Write);
    }
  }

  lemma TakeFaultTable(s: State)
    requires Inv(s) && Narrows(s)
    ensures var s' := TakeFault(s); KernelValid(s'.k) && Agree(s') && BatchOk(s') && NoneStranded(s')
  {
    TakeFaultSlots(s);
    var s', e := TakeFault(s), s.batch[0];
    assert s'.states.Keys == s.states.Keys;
    forall x, y | Occupied(s', x, y) && ReadyFor(s', x, y)
      ensures x in s'.k.rdl || InBatch(s', x, y)
    {
      assert Occupied(s, x, y) && ReadyFor(s, x, y);
      if x !in s.k.rdl {
        var c :| c in s.batch && c.fd == x && c.bits.Carries(y);
        assert c in s'.batch;
      }
    }
  }

  /** A failing MOD inside `dispatch` keeps every invariant, but loses exactly the handles the event was for. */
  lemma DispatchFaultLoses(s: State)
    requires Inv(s) && Narrows(s)
    ensures var (s', e) := (TakeFault(s), s.batch[0]);
            && Inv(s') && s'.taken == s.taken
            && forall t: nat :: t in s'.led.dropped <==>
                 t in s.led.dropped || exists y :: e.bits.Carries(y) && s.Slot(e.fd, y) == Some(t)
  {
    TakeFaultTable(s);
    TakeFaultLinear(s);
    TakenByIs(s);
    hide Inv;
  }

  /** In no continuation is one of them resumed. */
  lemma DispatchFaultIsFinal(s: State, run: seq<State>, acts: seq<Action>, y: Dir, j: nat)
    requires Inv(s) && Narrows(s) && IsRun(run, acts) && run[0] == TakeFault(s)
    requires s.batch[0].bits.Carries(y) && Occupied(s, s.batch[0].fd, y)
    requires j < |acts| && acts[j] == ResumeTaken
    ensures run[j].taken != [] && run[j].taken[0] != s.Slot(s.batch[0].fd, y).value
  {
    DispatchFaultLoses(s);
    ResumedAtMostOnce(run, acts, 0, j);
  }

  /** `TcpServer::close` closes before it removes, `TcpSocket::close` after: the outcome is the same. */
  lemma CloseOrderIrrelevant(s: State, fd: int)
    requires Inv(s) && fd != s.wake && fd >= 0
    ensures var s1 := Remove(s, fd);
            s1.(k := Close(s1.k, fd)) == Remove(s.(k := Close(s.k, fd)), fd)
  {
  }
}
