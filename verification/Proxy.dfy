/** One proxy session: the two relays of `handle_session` over the same pair of sockets, interleaved at their awaits, on a
    loop that serves other coroutines as well. Socket 0 is the client, socket 1 the backend; relay i moves bytes from
    socket i to socket 1 - i. A relay that waits is a token of the reactor; whether and when it runs again is up to the
    reactor's own steps. */
module Proxy {
  import opened Wrappers
  import opened Epoll
  import opened Sockets
  import R = Reactor

  /** `open` is false once `close` has set the descriptor of the shared `TcpSocket` to -1. */
  datatype Sock = Sock(open: bool, inbound: string, consumed: string, sent: string)

  /** Where a relay is; a waiting one has registered token t. */
  datatype Pc =
    | Reading
    | ReadWait(t: nat)
    | Writing(buf: string, total: nat)
    | WriteWait(buf: string, total: nat, t: nat)
    | Ended(eof: bool)
  {
    predicate Waits() { ReadWait? || WriteWait? }
  }

  datatype State = State(socks: seq<Sock>, pcs: seq<Pc>, fds: seq<int>, loop: R.State)

  /** A system call of a relay, the resumption of a relay, or anything else that happens on the loop. */
  datatype Action = Recv(i: nat, c: Choice) | Send(i: nat, c: Choice) | Resume(i: nat) | Loop(a: R.Action)

  const RELAY_BUFFER: nat := 8192

  predicate TwoOfEach(s: State) { |s.socks| == |s.pcs| == |s.fds| == 2 }

  function Start(client: string, backend: string, fds: seq<int>, loop: R.State): State {
    State([Sock(true, client, "", ""), Sock(true, backend, "", "")], [Reading, Reading], fds, loop)
  }

  /** Both descriptors are open and nobody waits on them yet. */
  ghost predicate Startable(fds: seq<int>, loop: R.State) {
    && R.Inv(loop) && |fds| == 2 && fds[0] != fds[1]
    && (forall i :: 0 <= i < 2 ==> fds[i] >= 0 && fds[i] != loop.wake && fds[i] in loop.k.ready && fds[i] !in loop.states)
  }

  /** The slot relay i waits in. */
  function SlotOf(s: State, i: nat): (int, Dir)
    requires TwoOfEach(s) && i < 2 && s.pcs[i].Waits()
  {
    if s.pcs[i].ReadWait? then (s.fds[i], Read) else (s.fds[1 - i], Write)
  }

  predicate InSlot(s: State, i: nat)
    requires TwoOfEach(s) && i < 2
  {
    s.pcs[i].Waits() && var (fd, d) := SlotOf(s, i); s.loop.Slot(fd, d) == Some(s.pcs[i].t)
  }

  /** The rest of the program may do anything on the loop, but leaves the descriptors of the session alone while they are
      open, and resumes only its own handles. */
  predicate Elsewhere(s: State, a: R.Action)
    requires TwoOfEach(s)
  {
    && R.Enabled(s.loop, a)
    && (a.AwaitFd? || a.RemoveFd? || a.OpenFd? || a.CloseFd? ==> s.socks[0].open ==> a.fd !in s.fds)
    && (a.ResumeTaken? ==> forall i :: 0 <= i < 2 && s.pcs[i].Waits() ==> s.pcs[i].t != s.loop.taken[0])
  }

  predicate Enabled(s: State, a: Action) {
    && TwoOfEach(s)
    && match a
       case Recv(i, _) => i < 2 && s.pcs[i].Reading?
       case Send(i, _) => i < 2 && s.pcs[i].Writing? && s.pcs[i].total < |s.pcs[i].buf|
       case Resume(i) => i < 2 && s.pcs[i].Waits() && s.loop.taken != [] && s.loop.taken[0] == s.pcs[i].t
       case Loop(b) => Elsewhere(s, b)
  }

  /** `TcpSocket::close`: `remove`, then `::close`. */
  function CloseSock(l: R.State, fd: int): R.State {
    var l' := R.Remove(l, fd);
    l'.(k := Close(l'.k, fd))
  }

  /** The end of `relay`: close `from`, then `to`, unless that has happened before. */
  function Finish(s: State, i: nat, eof: bool): State
    requires TwoOfEach(s) && i < 2
  {
    var s' := s.(pcs := s.pcs[i := Ended(eof)]);
    if s.socks[0].open then
      s'.(socks := [s.socks[0].(open := false), s.socks[1].(open := false)],
          loop := CloseSock(CloseSock(s.loop, s.fds[i]), s.fds[1 - i]))
    else s'
  }

  function Step(s: State, a: Action): State
    requires Enabled(s, a)
  {
    match a
    case Recv(i, c) =>
      var f := s.socks[i];
      if !f.open || c.Fail? then Finish(s, i, false)
      else if c.Again? then
        s.(loop := R.Await(s.loop, s.fds[i], Read, false), pcs := s.pcs[i := ReadWait(s.loop.led.issued)])
      else if c.Intr? then s
      else if f.inbound == "" then Finish(s, i, true)
      else
        var k := Min(Max(c.n, 1), Min(RELAY_BUFFER, |f.inbound|));
        s.(socks := s.socks[i := f.(inbound := f.inbound[k..], consumed := f.consumed + f.inbound[..k])],
           pcs := s.pcs[i := Writing(f.inbound[..k], 0)])
    case Send(i, c) =>
      var t, pc := s.socks[1 - i], s.pcs[i];
      if !t.open || c.Fail? then Finish(s, i, false)
      else if c.Again? || (c.Xfer? && c.n == 0) then
        s.(loop := R.Await(s.loop, s.fds[1 - i], Write, false), pcs := s.pcs[i := WriteWait(pc.buf, pc.total, s.loop.led.issued)])
      else if c.Intr? then s
      else
        var k := Min(c.n, |pc.buf| - pc.total);
        var pc' := if pc.total + k == |pc.buf| then Reading else Writing(pc.buf, pc.total + k);
        s.(socks := s.socks[1 - i := t.(sent := t.sent + pc.buf[pc.total..pc.total + k])], pcs := s.pcs[i := pc'])
    case Resume(i) =>
      var pc := s.pcs[i];
      s.(loop := R.Resume(s.loop), pcs := s.pcs[i := if pc.ReadWait? then Reading else Writing(pc.buf, pc.total)])
    case Loop(b) => s.(loop := R.Step(s.loop, b))
  }

  // ---------------------------------------------------- bytes in each direction

  /** Direction i: everything received is accounted for, in order; what is not sent yet is in the relay's buffer. */
  ghost predicate DirectionOk(s: State, i: nat, all: string)
    requires TwoOfEach(s) && i < 2
  {
    var (f, t, pc) := (s.socks[i], s.socks[1 - i], s.pcs[i]);
    && f.consumed + f.inbound == all
    && t.sent <= f.consumed
    && (pc.Reading? || pc.ReadWait? ==> t.sent == f.consumed)
    && (pc.Writing? || pc.WriteWait? ==> pc.total < |pc.buf| && f.consumed == t.sent + pc.buf[pc.total..])
    && (pc.Ended? && pc.eof ==> t.sent == all)
  }

  lemma FinishKeepsDirection(s: State, j: nat, eof: bool, i: nat, all: string)
    requires TwoOfEach(s) && i < 2 && j < 2 && DirectionOk(s, i, all)
    requires j == i && eof ==> s.socks[i].inbound == "" && s.pcs[i].Reading?
    ensures TwoOfEach(Finish(s, j, eof)) && DirectionOk(Finish(s, j, eof), i, all)
  {
  }

  lemma RecvKeepsDirection(s: State, a: Action, i: nat, all: string)
    requires Enabled(s, a) && a.Recv? && i < 2 && DirectionOk(s, i, all)
    ensures TwoOfEach(Step(s, a)) && DirectionOk(Step(s, a), i, all)
  {
    var f := s.socks[a.i];
    if !f.open || a.c.Fail? {
      hide Finish, DirectionOk;
      FinishKeepsDirection(s, a.i, false, i, all);
    } else if a.c.Xfer? && f.inbound == "" {
      FinishKeepsDirection(s, a.i, true, i, all);
      hide Finish, DirectionOk;
    } else {
      hide Finish;
      if a.c.Xfer? {
        TakeInbound(f.consumed, f.inbound, Min(Max(a.c.n, 1), Min(RELAY_BUFFER, |f.inbound|)));
      }
    }
  }

  lemma TakeInbound(consumed: string, inbound: string, k: nat)
    requires k <= |inbound|
    ensures consumed + inbound == (consumed + inbound[..k]) + inbound[k..]
    ensures consumed + inbound[..k] == consumed + inbound[..k][0..]
  {
    assert inbound == inbound[..k] + inbound[k..] && inbound[..k][0..] == inbound[..k];
  }

  lemma SendOther(s: State, a: Action, i: nat, all: string)
    requires Enabled(s, a) && a.Send? && i < 2 && a.i != i && DirectionOk(s, i, all)
    ensures TwoOfEach(Step(s, a)) && DirectionOk(Step(s, a), i, all)
  {
    hide Finish, R.Await, Min;
    FinishKeepsDirection(s, a.i, false, i, all);
  }

  lemma SendOwn(s: State, a: Action, i: nat, all: string)
    requires Enabled(s, a) && a.Send? && i < 2 && a.i == i && DirectionOk(s, i, all)
    ensures TwoOfEach(Step(s, a)) && DirectionOk(Step(s, a), i, all)
  {
    hide Finish, R.Await;
    var t, pc := s.socks[1 - i], s.pcs[i];
    if !t.open || a.c.Fail? {
      FinishKeepsDirection(s, i, false, i, all);
      hide DirectionOk;
    } else if a.c.Xfer? && a.c.n > 0 {
      SendsSome(s, i, Min(a.c.n, |pc.buf| - pc.total), all);
      hide DirectionOk, Min;
    }
  }

  lemma SendsSome(s: State, i: nat, k: nat, all: string)
    requires TwoOfEach(s) && i < 2 && DirectionOk(s, i, all) && s.pcs[i].Writing?
    requires k <= |s.pcs[i].buf| - s.pcs[i].total
    ensures var (t, pc) := (s.socks[1 - i], s.pcs[i]);
            var pc' := if pc.total + k == |pc.buf| then Reading else Writing(pc.buf, pc.total + k);
            var s' := s.(socks := s.socks[1 - i := t.(sent := t.sent + pc.buf[pc.total..pc.total + k])], pcs := s.pcs[i := pc']);
            TwoOfEach(s') && DirectionOk(s', i, all)
  {
    var pc := s.pcs[i];
    SplitRest(s.socks[1 - i].sent, pc.buf, pc.total, k);
  }

  lemma SplitRest(sent: string, buf: string, total: nat, k: nat)
    requires total + k <= |buf|
    ensures sent + buf[total..] == (sent + buf[total..total + k]) + buf[total + k..]
  {
    assert buf[total..] == buf[total..total + k] + buf[total + k..];
  }

  lemma StepKeepsDirection(s: State, a: Action, i: nat, all: string)
    requires Enabled(s, a) && i < 2 && DirectionOk(s, i, all)
    ensures TwoOfEach(Step(s, a)) && DirectionOk(Step(s, a), i, all)
  {
    match a
    case Recv(_, _) => hide Step, DirectionOk; RecvKeepsDirection(s, a, i, all);
    case Send(_, _) => hide Step, DirectionOk; if a.i == i { SendOwn(s, a, i, all); } else { SendOther(s, a, i, all); }
    case _ =>
  }

  // ------------------------------------------------------- relays as waiters

  /** Where the handle of relay i is: in its slot or taken out of it while the sockets are open; taken out or forgotten once
      they have been closed. */
  ghost predicate WaitOk(s: State, i: nat)
    requires TwoOfEach(s) && i < 2
  {
    s.pcs[i].Waits() ==>
      && s.pcs[i].t < s.loop.led.issued
      && (s.pcs[i].t in s.loop.taken || (if s.socks[0].open then InSlot(s, i) else s.pcs[i].t in s.loop.led.dropped))
  }

  /** Nobody but the relays sits in the slots of the session. */
  ghost predicate SlotsOk(s: State)
    requires TwoOfEach(s)
  {
    s.socks[0].open ==>
      forall i :: 0 <= i < 2 ==>
        && s.fds[i] in s.loop.k.ready
        && (s.loop.Slot(s.fds[i], Read).Some? ==> s.pcs[i].ReadWait? && s.loop.Slot(s.fds[i], Read) == Some(s.pcs[i].t))
        && (s.loop.Slot(s.fds[i], Write).Some? ==>
              s.pcs[1 - i].WriteWait? && s.loop.Slot(s.fds[i], Write) == Some(s.pcs[1 - i].t))
  }

  ghost predicate FdsOk(s: State)
    requires TwoOfEach(s)
  {
    && R.Inv(s.loop) && s.fds[0] != s.fds[1]
    && (forall i :: 0 <= i < 2 ==> s.fds[i] >= 0 && s.fds[i] != s.loop.wake)
    && s.socks[0].open == s.socks[1].open
    && (s.pcs[0].Waits() && s.pcs[1].Waits() ==> s.pcs[0].t != s.pcs[1].t)
    && (s.socks[0].open <==> !s.pcs[0].Ended? && !s.pcs[1].Ended?)
  }

  ghost predicate WaitersOk(s: State)
    requires TwoOfEach(s)
  {
    FdsOk(s) && SlotsOk(s) && WaitOk(s, 0) && WaitOk(s, 1)
  }

  /** What a step of the loop that is not about slot (fd, d) does to the token in it. */
  lemma TokenMoves(l: R.State, a: R.Action, fd: int, d: Dir, t: nat)
    requires R.Inv(l) && R.Enabled(l, a) && l.Slot(fd, d) == Some(t)
    requires a != R.RemoveFd(fd) && !(a.AwaitFd? && a.fd == fd)
    ensures var l' := R.Step(l, a); l'.Slot(fd, d) == Some(t) || (l'.Slot(fd, d) == Option.None && t in l'.taken)
  {
    R.SlotLostExactly(l, a, fd, d);
    if a == R.TakeEvent {
      R.TakeSlots(l);
    }
  }

  lemma NoTokenAppears(l: R.State, a: R.Action, fd: int, d: Dir)
    requires R.Inv(l) && R.Enabled(l, a) && l.Slot(fd, d) == Option.None && !(a.AwaitFd? && a.fd == fd)
    ensures R.Step(l, a).Slot(fd, d) == Option.None
  {
    match a
    case AwaitFd(x, y, et) => R.AwaitSlots(l, x, y, et);
    case RemoveFd(x) => R.RemoveSlots(l, x);
    case TakeEvent => R.TakeSlots(l);
    case _ =>
  }

  lemma TakenStays(l: R.State, a: R.Action, t: nat)
    requires R.Inv(l) && R.Enabled(l, a) && t in l.taken && (a.ResumeTaken? ==> l.taken[0] != t)
    ensures t in R.Step(l, a).taken
  {
    if a.ResumeTaken? {
      assert t in l.taken[1..];
    }
  }

  lemma IssuedGrows(l: R.State, a: R.Action)
    requires R.Inv(l) && R.Enabled(l, a)
    ensures l.led.issued <= R.Step(l, a).led.issued && R.Step(l, a).wake == l.wake
  {
  }

  lemma LoopKeepsWaiting(s: State, b: R.Action, i: nat)
    requires Enabled(s, Loop(b)) && WaitersOk(s) && i < 2
    ensures WaitOk(Step(s, Loop(b)), i)
  {
    var l, pc := s.loop, s.pcs[i];
    if pc.Waits() {
      assert WaitOk(s, i);
      R.StepGrowsLedger(l, b);
      IssuedGrows(l, b);
      if pc.t in l.taken {
        TakenStays(l, b, pc.t);
      } else if s.socks[0].open {
        var (fd, d) := SlotOf(s, i);
        TokenMoves(l, b, fd, d, pc.t);
      }
      hide R.Inv, R.Step;
    }
  }

  lemma FdStaysOpen(l: R.State, b: R.Action, fd: int)
    requires R.Inv(l) && R.Enabled(l, b) && fd in l.k.ready && b != R.CloseFd(fd)
    ensures fd in R.Step(l, b).k.ready
  {
  }

  lemma LoopKeepsSlots(s: State, b: R.Action)
    requires Enabled(s, Loop(b)) && WaitersOk(s)
    ensures SlotsOk(Step(s, Loop(b)))
  {
    var l := s.loop;
    if s.socks[0].open {
      forall i | 0 <= i < 2
        ensures s.fds[i] in R.Step(l, b).k.ready
        ensures forall d :: R.Step(l, b).Slot(s.fds[i], d).Some? ==> R.Step(l, b).Slot(s.fds[i], d) == l.Slot(s.fds[i], d)
      {
        FdStaysOpen(l, b, s.fds[i]);
        forall d
          ensures R.Step(l, b).Slot(s.fds[i], d).Some? ==> R.Step(l, b).Slot(s.fds[i], d) == l.Slot(s.fds[i], d)
        {
          if l.Slot(s.fds[i], d).Some? {
            TokenMoves(l, b, s.fds[i], d, l.Slot(s.fds[i], d).value);
          } else {
            NoTokenAppears(l, b, s.fds[i], d);
          }
        }
      }
      hide R.Inv, R.Step;
    }
  }

  lemma LoopKeepsWaiters(s: State, b: R.Action)
    requires Enabled(s, Loop(b)) && WaitersOk(s)
    ensures WaitersOk(Step(s, Loop(b)))
  {
    LoopKeepsWaiting(s, b, 0);
    LoopKeepsWaiting(s, b, 1);
    LoopKeepsSlots(s, b);
    R.StepKeepsInv(s.loop, b);
    IssuedGrows(s.loop, b);
    hide R.Inv, R.Step, SlotsOk, WaitOk;
  }

  lemma AwaitFacts(l: R.State, fd: int, d: Dir)
    requires R.Inv(l) && fd >= 0 && fd != l.wake && fd in l.k.ready && l.Slot(fd, d) == Option.None
    ensures var l' := R.Await(l, fd, d, false);
            && R.Inv(l') && l'.wake == l.wake && l'.taken == l.taken && l'.led.issued == l.led.issued + 1
            && (forall x, y :: l'.Slot(x, y) == if (x, y) == (fd, d) then Some(l.led.issued) else l.Slot(x, y))
            && (forall x :: x in l.k.ready ==> x in l'.k.ready)
            && l'.led.dropped == l.led.dropped && l'.led.overwritten == l.led.overwritten
  {
    R.AwaitSlots(l, fd, d, false);
    R.StepKeepsInv(l, R.AwaitFd(fd, d, false));
  }

  /** A relay registers: its slot is free, so nobody is overwritten. */
  lemma AwaitKeepsWaiters(s: State, i: nat, pc: Pc)
    requires TwoOfEach(s) && WaitersOk(s) && s.socks[0].open && i < 2 && !s.pcs[i].Waits() && !s.pcs[i].Ended?
    requires pc.Waits() && pc.t == s.loop.led.issued
    ensures var (fd, d) := if pc.ReadWait? then (s.fds[i], Read) else (s.fds[1 - i], Write);
            var s' := s.(loop := R.Await(s.loop, fd, d, false), pcs := s.pcs[i := pc]);
            WaitersOk(s') && InSlot(s', i) && s'.loop.led.overwritten == s.loop.led.overwritten
  {
    hide R.Inv, R.Await;
    var (fd, d) := if pc.ReadWait? then (s.fds[i], Read) else (s.fds[1 - i], Write);
    assert s.loop.Slot(fd, d) == Option.None;
    AwaitFacts(s.loop, fd, d);
    var s' := s.(loop := R.Await(s.loop, fd, d, false), pcs := s.pcs[i := pc]);
    assert WaitOk(s', i);
    assert WaitOk(s', 1 - i) by {
      assert WaitOk(s, 1 - i);
    }
    hide WaitOk;
  }

  lemma ResumeFacts(l: R.State)
    requires R.Inv(l) && l.taken != []
    ensures var l' := R.Resume(l);
            && R.Inv(l') && l'.wake == l.wake && l'.k == l.k && l'.led.issued == l.led.issued
            && l'.led.dropped == l.led.dropped && l'.led.overwritten == l.led.overwritten
            && (forall fd, d :: l'.Slot(fd, d) == l.Slot(fd, d) && l'.Slot(fd, d) != Some(l.taken[0]))
            && (forall t :: t in l.taken && t != l.taken[0] ==> t in l'.taken)
  {
    R.StepKeepsInv(l, R.ResumeTaken);
    assert l.taken[0] in l.taken;
    TakenIsNotInSlot(l, l.taken[0]);
  }

  lemma ResumeKeepsWaiters(s: State, i: nat)
    requires Enabled(s, Resume(i)) && WaitersOk(s)
    ensures WaitersOk(Step(s, Resume(i))) && Step(s, Resume(i)).loop.led.overwritten == s.loop.led.overwritten
  {
    hide R.Inv, R.Resume;
    ResumeFacts(s.loop);
    var s' := Step(s, Resume(i));
    assert WaitOk(s', 1 - i) by {
      assert WaitOk(s, 1 - i);
    }
    hide WaitOk;
  }

  lemma TakenIsNotInSlot(l: R.State, t: nat)
    requires R.Inv(l) && t in l.taken
    ensures forall fd, d :: l.Slot(fd, d) != Some(t)
    ensures !R.Past(l.led, t)
  {
    forall fd, d
      ensures l.Slot(fd, d) != Some(t)
    {
      if l.Slot(fd, d) == Some(t) {
        assert R.Occupied(l, fd, d);
      }
    }
  }

  // --------------------------------------------------------------- the close

  /** Token t is in a slot of fd. */
  predicate Sits(l: R.State, fd: int, t: nat) { l.Slot(fd, Read) == Some(t) || l.Slot(fd, Write) == Some(t) }

  /** What closing a descriptor does to the reactor: its slots are emptied, and who was in them is forgotten. */
  lemma CloseSockFacts(l: R.State, fd: int)
    requires R.Inv(l) && fd >= 0 && fd != l.wake
    ensures var l' := CloseSock(l, fd);
            && R.Inv(l') && l'.wake == l.wake && l'.taken == l.taken && l'.led.issued == l.led.issued
            && (forall x, d :: l'.Slot(x, d) == if x == fd then Option.None else l.Slot(x, d))
            && (forall t: nat :: t in l'.led.dropped <==> t in l.led.dropped || Sits(l, fd, t))
            && l'.led.overwritten == l.led.overwritten
  {
    var m := R.Remove(l, fd);
    R.RemoveSlots(l, fd);
    R.StepKeepsInv(l, R.RemoveFd(fd));
    assert R.Step(l, R.RemoveFd(fd)) == m;
    R.StepKeepsInv(m, R.CloseFd(fd));
    assert R.Step(m, R.CloseFd(fd)) == CloseSock(l, fd);
    assert forall x, d :: CloseSock(l, fd).Slot(x, d) == m.Slot(x, d);
  }

  lemma CloseBoth(l: R.State, x: int, y: int)
    requires R.Inv(l) && x >= 0 && y >= 0 && x != l.wake && y != l.wake && x != y
    ensures var l' := CloseSock(CloseSock(l, x), y);
            && R.Inv(l') && l'.wake == l.wake && l'.taken == l.taken && l'.led.issued == l.led.issued
            && (forall d :: l'.Slot(x, d) == Option.None && l'.Slot(y, d) == Option.None)
            && (forall t: nat :: t in l'.led.dropped <==> t in l.led.dropped || Sits(l, x, t) || Sits(l, y, t))
            && l'.led.overwritten == l.led.overwritten
  {
    hide CloseSock, R.Inv;
    CloseSockFacts(l, x);
    CloseSockFacts(CloseSock(l, x), y);
  }

  /** Closing forgets the sibling if and only if it sits in its slot; a sibling that a dispatch has already taken out is
      still going to be resumed. */
  lemma FinishDrops(s: State, i: nat, eof: bool)
    requires TwoOfEach(s) && WaitersOk(s) && s.socks[0].open && i < 2 && !s.pcs[i].Waits()
    ensures var (s', j) := (Finish(s, i, eof), 1 - i);
            && TwoOfEach(s') && WaitersOk(s') && !s'.socks[0].open && s'.pcs[j] == s.pcs[j]
            && s'.loop.led.overwritten == s.loop.led.overwritten
            && (s.pcs[j].Waits() ==> (s.pcs[j].t in s'.loop.led.dropped <==> InSlot(s, j)))
            && (s.pcs[j].Waits() ==> (s.pcs[j].t in s'.loop.taken <==> !InSlot(s, j)))
  {
    hide CloseSock, R.Inv;
    var l, j := s.loop, 1 - i;
    CloseBoth(l, s.fds[i], s.fds[j]);
    if s.pcs[j].Waits() {
      assert WaitOk(s, j);
      SittingOrTaken(s, j);
    }
    hide SlotsOk;
  }

  lemma SittingOrTaken(s: State, j: nat)
    requires TwoOfEach(s) && j < 2 && FdsOk(s) && SlotsOk(s) && WaitOk(s, j) && s.socks[0].open && s.pcs[j].Waits()
    ensures var t := s.pcs[j].t;
            && t !in s.loop.led.dropped && (t in s.loop.taken <==> !InSlot(s, j))
            && (InSlot(s, j) <==> Sits(s.loop, s.fds[0], t) || Sits(s.loop, s.fds[1], t))
  {
    var l, t := s.loop, s.pcs[j].t;
    if t in l.taken {
      TakenIsNotInSlot(l, t);
    } else {
      var (fd, d) := SlotOf(s, j);
      SlotIsNotTaken(l, fd, d);
    }
    hide R.Inv;
  }

  lemma SlotIsNotTaken(l: R.State, fd: int, d: Dir)
    requires R.Inv(l) && l.Slot(fd, d).Some?
    ensures l.Slot(fd, d).value !in l.taken && !R.Past(l.led, l.Slot(fd, d).value)
  {
    assert R.Occupied(l, fd, d);
  }

  lemma FinishKeepsWaiters(s: State, i: nat, eof: bool)
    requires TwoOfEach(s) && WaitersOk(s) && i < 2 && !s.pcs[i].Waits()
    ensures TwoOfEach(Finish(s, i, eof)) && WaitersOk(Finish(s, i, eof))
    ensures Finish(s, i, eof).loop.led.overwritten == s.loop.led.overwritten
  {
    if s.socks[0].open {
      hide WaitersOk;
      FinishDrops(s, i, eof);
    }
  }

  /** A system call that moves bytes or is interrupted concerns no waiter. */
  lemma MovingKeepsWaiters(s: State, s': State)
    requires TwoOfEach(s) && TwoOfEach(s') && WaitersOk(s) && s'.loop == s.loop && s'.fds == s.fds
    requires forall i :: 0 <= i < 2 ==>
               && s'.socks[i].open == s.socks[i].open
               && (s'.pcs[i] == s.pcs[i] || (!s.pcs[i].Waits() && !s'.pcs[i].Waits() && !s.pcs[i].Ended? && !s'.pcs[i].Ended?))
    ensures WaitersOk(s')
  {
    hide R.Inv;
  }

  lemma RecvKeepsWaiters(s: State, a: Action)
    requires Enabled(s, a) && a.Recv? && WaitersOk(s)
    ensures TwoOfEach(Step(s, a)) && WaitersOk(Step(s, a)) && Step(s, a).loop.led.overwritten == s.loop.led.overwritten
  {
    var f := s.socks[a.i];
    assert f.open == s.socks[0].open;
    hide WaitersOk, Finish, R.Await, Min, Max;
    if !f.open || a.c.Fail? {
      FinishKeepsWaiters(s, a.i, false);
    } else if a.c.Again? {
      AwaitKeepsWaiters(s, a.i, ReadWait(s.loop.led.issued));
    } else if a.c.Xfer? && f.inbound == "" {
      FinishKeepsWaiters(s, a.i, true);
    } else {
      MovingKeepsWaiters(s, Step(s, a));
    }
  }

  lemma OpenTogether(s: State)
    requires TwoOfEach(s) && WaitersOk(s)
    ensures s.socks[0].open == s.socks[1].open
  {
    hide R.Inv;
  }

  lemma SendKeepsWaiters(s: State, a: Action)
    requires Enabled(s, a) && a.Send? && WaitersOk(s)
    ensures TwoOfEach(Step(s, a)) && WaitersOk(Step(s, a)) && Step(s, a).loop.led.overwritten == s.loop.led.overwritten
  {
    hide WaitersOk, Finish, R.Await, Min, Max;
    var t, pc := s.socks[1 - a.i], s.pcs[a.i];
    OpenTogether(s);
    if !t.open || a.c.Fail? {
      FinishKeepsWaiters(s, a.i, false);
    } else if a.c.Again? || (a.c.Xfer? && a.c.n == 0) {
      AwaitKeepsWaiters(s, a.i, WriteWait(pc.buf, pc.total, s.loop.led.issued));
    } else {
      MovingKeepsWaiters(s, Step(s, a));
    }
  }

  lemma StepKeepsWaiters(s: State, a: Action)
    requires Enabled(s, a) && WaitersOk(s)
    ensures TwoOfEach(Step(s, a)) && WaitersOk(Step(s, a))
  {
    match a
    case Recv(_, _) => hide WaitersOk, Step; RecvKeepsWaiters(s, a);
    case Send(_, _) => hide WaitersOk, Step; SendKeepsWaiters(s, a);
    case Resume(i) => hide WaitersOk, R.Resume; ResumeKeepsWaiters(s, i);
    case Loop(b) => hide WaitersOk, R.Step; LoopKeepsWaiters(s, b);
  }

  // --------------------------------------------------------------- whole runs

  ghost predicate Inv(s: State, client: string, backend: string) {
    TwoOfEach(s) && WaitersOk(s) && DirectionOk(s, 0, client) && DirectionOk(s, 1, backend)
  }

  lemma StepKeepsInv(s: State, a: Action, client: string, backend: string)
    requires Inv(s, client, backend) && Enabled(s, a)
    ensures Inv(Step(s, a), client, backend)
  {
    hide WaitersOk, DirectionOk, Step;
    StepKeepsDirection(s, a, 0, client);
    StepKeepsDirection(s, a, 1, backend);
    StepKeepsWaiters(s, a);
  }

  lemma RunLength(run: seq<State>, acts: seq<Action>, client: string, backend: string)
    requires IsRun(run, acts, client, backend)
    ensures |run| == |acts| + 1
  {
  }

  lemma StepOfRun(run: seq<State>, acts: seq<Action>, client: string, backend: string, n: nat)
    requires IsRun(run, acts, client, backend) && n < |acts|
    ensures TwoOfEach(run[n]) && TwoOfEach(run[n + 1]) && WaitersOk(run[n]) && WaitersOk(run[n + 1])
    ensures Enabled(run[n], acts[n]) && run[n + 1] == Step(run[n], acts[n])
  {
    RunKeepsInv(run, acts, client, backend, n);
    RunKeepsInv(run, acts, client, backend, n + 1);
    assert Enabled(run[n], acts[n]) && run[n + 1] == Step(run[n], acts[n]);
    hide WaitersOk, DirectionOk, Step, Enabled, Startable, Start;
  }

  lemma StartInv(client: string, backend: string, fds: seq<int>, loop: R.State)
    requires Startable(fds, loop)
    ensures Inv(Start(client, backend, fds, loop), client, backend)
  {
    hide R.Inv;
  }

  ghost predicate IsRun(run: seq<State>, acts: seq<Action>, client: string, backend: string) {
    && |run| == |acts| + 1
    && Startable(run[0].fds, run[0].loop) && run[0] == Start(client, backend, run[0].fds, run[0].loop)
    && forall i :: 0 <= i < |acts| ==> Enabled(run[i], acts[i]) && run[i + 1] == Step(run[i], acts[i])
  }

  lemma {:induction false} RunKeepsInv(run: seq<State>, acts: seq<Action>, client: string, backend: string, n: nat)
    requires IsRun(run, acts, client, backend) && n <= |acts|
    ensures Inv(run[n], client, backend)
  {
    if n > 0 {
      RunKeepsInv(run, acts, client, backend, n - 1);
      assert Enabled(run[n - 1], acts[n - 1]) && run[n] == Step(run[n - 1], acts[n - 1]);
      hide Inv, Step, Enabled, IsRun;
      StepKeepsInv(run[n - 1], acts[n - 1], client, backend);
    } else {
      StartInv(client, backend, run[0].fds, run[0].loop);
    }
  }

  /** What one system call of relay i does to it. It ends exactly if its socket is closed, the call fails, or a read finds
      the end of the stream, and only then at end of file; it takes or sends bytes exactly if the call offers to move some;
      it waits exactly if the call would block; and an interrupted call changes nothing at all. */
  lemma RelayCalls(s: State, a: Action)
    requires Enabled(s, a) && (a.Recv? || a.Send?)
    ensures TwoOfEach(Step(s, a)) && a.i < 2
    ensures var (s', i) := (Step(s, a), a.i);
            var (from, to, open) := (s.socks[i], s.socks[1 - i], s.socks[if a.Recv? then i else 1 - i].open);
            && (s'.pcs[i].Ended? <==> !open || a.c.Fail? || (a.Recv? && a.c.Xfer? && from.inbound == ""))
            && (s'.pcs[i].Ended? ==> (s'.pcs[i].eof <==> open && a.c.Xfer?))
            && (|s'.socks[i].consumed| > |from.consumed| <==> a.Recv? && open && a.c.Xfer? && from.inbound != "")
            && (|s'.socks[1 - i].sent| > |to.sent| <==> a.Send? && open && a.c.Xfer? && a.c.n > 0)
            && (s'.pcs[i].Waits() <==> open && (a.c.Again? || (a.Send? && a.c.Xfer? && a.c.n == 0)))
            && (open && a.c.Intr? ==> s' == s)
  {
    hide R.Await, R.Inv, CloseSock;
  }

  /** A relay that waits sits in the slot of the socket and the direction it waits for: reading its own side, writing the
      other one. */
  lemma RelayWaitsThere(s: State, a: Action)
    requires Enabled(s, a) && (a.Recv? || a.Send?) && WaitersOk(s)
    ensures TwoOfEach(Step(s, a)) && a.i < 2
    ensures var s' := Step(s, a);
            s'.pcs[a.i].Waits() ==>
              s'.loop.Slot(if a.Recv? then s.fds[a.i] else s.fds[1 - a.i], if a.Recv? then Read else Write)
              == Some(s'.pcs[a.i].t)
  {
    hide WaitersOk, CloseSock, R.Await, Min, Max;
    var pc := s.pcs[a.i];
    OpenTogether(s);
    if Step(s, a).pcs[a.i].Waits() {
      AwaitKeepsWaiters(s, a.i, if a.Recv? then ReadWait(s.loop.led.issued) else WriteWait(pc.buf, pc.total, s.loop.led.issued));
    }
  }

  /** In every reachable state of a session, after any error or close: in both directions what has been sent is a prefix of
      what has been received, which is a prefix of what the peer sends; a relay that saw the end of file has passed on
      everything; and the two relays never wait in the same slot. */
  lemma SessionIsSafe(run: seq<State>, acts: seq<Action>, client: string, backend: string, n: nat)
    requires IsRun(run, acts, client, backend) && n <= |acts|
    ensures var s := run[n];
            && TwoOfEach(s)
            && s.socks[1].sent <= s.socks[0].consumed <= client
            && s.socks[0].sent <= s.socks[1].consumed <= backend
            && (s.pcs[0] == Ended(true) ==> s.socks[1].sent == client)
            && (s.pcs[1] == Ended(true) ==> s.socks[0].sent == backend)
            && (s.pcs[0].Waits() && s.pcs[1].Waits() ==> SlotOf(s, 0) != SlotOf(s, 1))
  {
    RunKeepsInv(run, acts, client, backend, n);
    hide R.Inv, SlotsOk, WaitOk;
  }

  /** No step of a relay overwrites a waiter, its own or anybody's. */
  lemma RelaysOverwriteNobody(run: seq<State>, acts: seq<Action>, client: string, backend: string, n: nat)
    requires IsRun(run, acts, client, backend) && n < |acts| && !acts[n].Loop?
    ensures run[n + 1].loop.led.overwritten == run[n].loop.led.overwritten
  {
    RunKeepsInv(run, acts, client, backend, n);
    match acts[n]
    case Recv(_, _) => RecvKeepsWaiters(run[n], acts[n]);
    case Send(_, _) => SendKeepsWaiters(run[n], acts[n]);
    case _ =>
  }

  lemma ClosedStepIsQuiet(s: State, a: Action)
    requires Enabled(s, a) && WaitersOk(s) && !s.socks[0].open
    ensures Step(s, a).socks == s.socks
  {
    assert !s.socks[1].open;
    hide R.Inv, R.Step, R.Await, R.Resume;
  }

  predicate Closed(s: State) { TwoOfEach(s) && !s.socks[0].open }

  lemma ClosedNext(run: seq<State>, acts: seq<Action>, client: string, backend: string, n: nat)
    requires IsRun(run, acts, client, backend) && n < |acts| && Closed(run[n])
    ensures Closed(run[n + 1]) && run[n + 1].socks == run[n].socks
  {
    StepOfRun(run, acts, client, backend, n);
    hide IsRun, Enabled, Step, WaitersOk;
    ClosedStepIsQuiet(run[n], acts[n]);
  }

  /** Closed sockets stay closed, and no byte is received or sent after the close. */
  lemma {:induction false} CloseIsFinal(run: seq<State>, acts: seq<Action>, client: string, backend: string, m: nat, n: nat)
    requires IsRun(run, acts, client, backend) && m <= n <= |acts| && Closed(run[m])
    ensures Closed(run[n]) && run[n].socks == run[m].socks
    decreases n
  {
    hide IsRun, Closed;
    RunLength(run, acts, client, backend);
    if m < n {
      CloseIsFinal(run, acts, client, backend, m, n - 1);
      ClosedNext(run, acts, client, backend, n - 1);
    }
  }

  /** Relay j of a closed session ends at its next system call, after its resumption if it waits. */
  ghost predicate CanEnd(s: State, j: nat) {
    && TwoOfEach(s) && j < 2
    && forall c :: match s.pcs[j]
                   case Reading => Step(s, Recv(j, c)).pcs[j] == Ended(false)
                   case Writing(buf, total) => total < |buf| && Step(s, Send(j, c)).pcs[j] == Ended(false)
                   case ReadWait(t) =>
                     s.loop.taken != [] && s.loop.taken[0] == t ==>
                       Step(Step(s, Resume(j)), Recv(j, c)).pcs[j] == Ended(false)
                   case WriteWait(buf, total, t) =>
                     s.loop.taken != [] && s.loop.taken[0] == t ==>
                       total < |buf| && Step(Step(s, Resume(j)), Send(j, c)).pcs[j] == Ended(false)
                   case Ended(_) => true
  }

  lemma ClosedCanEnd(s: State, j: nat)
    requires TwoOfEach(s) && j < 2 && !s.socks[0].open && !s.socks[1].open
    requires s.pcs[j].Writing? || s.pcs[j].WriteWait? ==> s.pcs[j].total < |s.pcs[j].buf|
    ensures CanEnd(s, j)
  {
    hide R.Resume, R.Await, CloseSock;
  }

  /** Which step closes: one in which a relay ends. */
  lemma ClosingStep(s: State, a: Action)
    requires Enabled(s, a) && WaitersOk(s) && s.socks[0].open && !Step(s, a).socks[0].open
    ensures (a.Recv? || a.Send?) && exists eof :: Step(s, a) == Finish(s, a.i, eof)
  {
    hide R.Inv, R.Step, R.Await, R.Resume, CloseSock;
    assert s.socks[1].open;
  }

  lemma CloserActs(s: State, a: Action)
    requires Enabled(s, a) && (a.Recv? || a.Send?)
    ensures a.i < 2 && !s.pcs[a.i].Waits()
  {
  }

  lemma BothClosed(s: State)
    requires TwoOfEach(s) && WaitersOk(s) && !s.socks[0].open
    ensures !s.socks[1].open
  {
    hide R.Inv;
  }

  lemma ClosingWakes(s: State, a: Action, client: string, backend: string)
    requires Inv(s, client, backend) && Enabled(s, a) && s.socks[0].open && !Step(s, a).socks[0].open
    ensures (a.Recv? || a.Send?) && a.i < 2
    ensures var (s', j) := (Step(s, a), 1 - a.i);
            && s'.pcs[j] == s.pcs[j]
            && (s.pcs[j].Waits() ==>
                  && (s.pcs[j].t in s'.loop.led.dropped <==> InSlot(s, j))
                  && (s.pcs[j].t in s'.loop.taken <==> !InSlot(s, j)))
            && CanEnd(s', j)
  {
    ClosingStep(s, a);
    CloserActs(s, a);
    StepKeepsInv(s, a, client, backend);
    hide Enabled, Step, Finish, CanEnd, WaitersOk, InSlot;
    var s', j := Step(s, a), 1 - a.i;
    var eof :| Step(s, a) == Finish(s, a.i, eof);
    FinishDrops(s, a.i, eof);
    BothClosed(s');
    assert DirectionOk(s', j, if j == 0 then client else backend);
    ClosedCanEnd(s', j);
  }

  /** Does closing both sockets make the sibling relay end, as the source says it is meant to? The reactor decides: exactly
      if the sibling sits in its slot at that moment, `remove` drops its token; otherwise its handle has been taken by a
      dispatch, or it was not waiting, and it ends at its next system call. */
  lemma SiblingWakesExactly(run: seq<State>, acts: seq<Action>, client: string, backend: string, n: nat)
    requires IsRun(run, acts, client, backend) && n < |acts|
    requires TwoOfEach(run[n]) && TwoOfEach(run[n + 1]) && run[n].socks[0].open && !run[n + 1].socks[0].open
    ensures (acts[n].Recv? || acts[n].Send?) && acts[n].i < 2
    ensures var (s, s', j) := (run[n], run[n + 1], 1 - acts[n].i);
            && s'.pcs[j] == s.pcs[j]
            && (s.pcs[j].Waits() ==>
                  && (s.pcs[j].t in s'.loop.led.dropped <==> InSlot(s, j))
                  && (s.pcs[j].t in s'.loop.taken <==> !InSlot(s, j)))
            && CanEnd(s', j)
  {
    RunKeepsInv(run, acts, client, backend, n);
    assert Enabled(run[n], acts[n]) && run[n + 1] == Step(run[n], acts[n]);
    hide IsRun, Enabled, Step, Inv, CanEnd, InSlot;
    ClosingWakes(run[n], acts[n], client, backend);
  }

  lemma DroppedIsNotResumed(s: State, a: Action, j: nat)
    requires Enabled(s, a) && WaitersOk(s) && j < 2 && s.pcs[j].Waits() && s.pcs[j].t in s.loop.led.dropped
    ensures Step(s, a).pcs[j] == s.pcs[j] && s.pcs[j].t in Step(s, a).loop.led.dropped
  {
    hide R.Inv, R.Await, R.Resume, R.Step, CloseSock, SlotsOk, WaitOk;
    var l, t := s.loop, s.pcs[j].t;
    match a
    case Loop(b) => R.StepGrowsLedger(l, b);
    case Recv(i, c) => DropsStay(l, s.fds[i], s.fds[1 - i], Read);
    case Send(i, c) => DropsStay(l, s.fds[1 - i], s.fds[i], Write);
                       DropsStay(l, s.fds[i], s.fds[1 - i], Write);
    case Resume(i) => DroppedIsNotTaken(l, t); ResumeFacts(l); assert l.taken[0] in l.taken;
  }

  lemma DroppedIsNotTaken(l: R.State, t: nat)
    requires R.Inv(l) && t in l.led.dropped
    ensures t !in l.taken
  {
  }

  lemma DropsStay(l: R.State, x: int, y: int, d: Dir)
    requires R.Inv(l) && x >= 0 && y >= 0 && x != l.wake && y != l.wake && x != y
    ensures l.led.dropped <= CloseSock(CloseSock(l, x), y).led.dropped
    ensures l.led.dropped <= R.Await(l, x, d, false).led.dropped
  {
    CloseBoth(l, x, y);
    R.AwaitSlots(l, x, d, false);
    hide CloseSock, R.Inv, R.Await;
  }

  /** Relay j waits for a token that has been dropped. */
  predicate Lost(s: State, j: nat) { TwoOfEach(s) && j < 2 && s.pcs[j].Waits() && s.pcs[j].t in s.loop.led.dropped }

  lemma LostNext(run: seq<State>, acts: seq<Action>, client: string, backend: string, j: nat, n: nat)
    requires IsRun(run, acts, client, backend) && n < |acts| && Lost(run[n], j)
    ensures Lost(run[n + 1], j) && run[n + 1].pcs[j] == run[n].pcs[j]
  {
    StepOfRun(run, acts, client, backend, n);
    hide IsRun, Enabled, Step, WaitersOk;
    DroppedIsNotResumed(run[n], acts[n], j);
  }

  /** A relay whose token has been dropped waits for ever: it is never resumed, so it never ends. */
  lemma {:induction false} LostForGood(run: seq<State>, acts: seq<Action>, client: string, backend: string,
                                       j: nat, m: nat, n: nat)
    requires IsRun(run, acts, client, backend) && m <= n <= |acts| && Lost(run[m], j)
    ensures Lost(run[n], j) && run[n].pcs[j] == run[m].pcs[j]
    decreases n
  {
    hide IsRun;
    RunLength(run, acts, client, backend);
    if m < n {
      LostForGood(run, acts, client, backend, j, m, n - 1);
      LostNext(run, acts, client, backend, j, n - 1);
    }
  }

  // ------------------------------------------------------------- a lost sibling

  /** A loop whose eventfd is 3, with the two sockets of a session open and nothing else going on. */
  function QuietLoop(): R.State {
    var l := R.Init(3);
    l.(k := Open(Open(l.k, 4), 5))
  }

  lemma QuietLoopStarts()
    ensures Startable([4, 5], QuietLoop())
  {
    var l := R.Init(3);
    InitInv();
    R.StepKeepsInv(l, R.OpenFd(4));
    R.StepKeepsInv(R.Step(l, R.OpenFd(4)), R.OpenFd(5));
    assert R.Step(R.Step(l, R.OpenFd(4)), R.OpenFd(5)) == QuietLoop();
  }

  lemma InitInv()
    ensures R.Inv(R.Init(3))
  {
  }

  lemma WitnessWaits(s: State)
    requires s == Start("", "", [4, 5], QuietLoop())
    ensures Startable(s.fds, s.loop) && Enabled(s, Recv(1, Again(Ready)))
    ensures var s1 := Step(s, Recv(1, Again(Ready)));
            && TwoOfEach(s1) && WaitersOk(s1) && s1.pcs == [Reading, ReadWait(0)] && s1.socks == s.socks && s1.fds == [4, 5]
            && InSlot(s1, 1)
  {
    QuietLoopStarts();
    StartInv("", "", [4, 5], s.loop);
    QuietAwait();
    assert s.loop.led.issued == 0;
    RecvKeepsWaiters(s, Recv(1, Again(Ready)));
    hide R.Inv, R.Await, QuietLoop, WaitersOk;
  }

  lemma WitnessEnds(s: State)
    requires TwoOfEach(s) && WaitersOk(s) && s.pcs == [Reading, ReadWait(0)] && s.fds == [4, 5] && InSlot(s, 1)
    requires s.socks == [Sock(true, "", "", ""), Sock(true, "", "", "")]
    ensures Enabled(s, Recv(0, Xfer(1)))
    ensures var s2 := Step(s, Recv(0, Xfer(1)));
            && s2.pcs == [Ended(true), ReadWait(0)] && 0 in s2.loop.led.dropped && 0 !in s2.loop.taken
            && s2.socks == [Sock(false, "", "", ""), Sock(false, "", "", "")]
  {
    hide WaitersOk, CloseSock;
    FinishDrops(s, 0, true);
  }

  /** It does happen: the backend has nothing to say, so relay 1 waits; the client closes its side, so relay 0 sees the end
      and closes both sockets; relay 1 is forgotten. */
  lemma LostSiblingWitness() returns (run: seq<State>, acts: seq<Action>)
    ensures IsRun(run, acts, "", "") && |acts| == 2
    ensures var s := run[2];
            && s.pcs == [Ended(true), ReadWait(0)] && 0 in s.loop.led.dropped && 0 !in s.loop.taken
            && s.socks == [Sock(false, "", "", ""), Sock(false, "", "", "")]
  {
    var s0, a0, a1 := Start("", "", [4, 5], QuietLoop()), Recv(1, Again(Ready)), Recv(0, Xfer(1));
    WitnessWaits(s0);
    var s1 := Step(s0, a0);
    assert s0.fds == [4, 5] && s0.loop == QuietLoop();
    hide Step, Startable, QuietLoop, WaitersOk, Enabled, Start, IsRun;
    WitnessEnds(s1);
    run, acts := [s0, s1, Step(s1, a1)], [a0, a1];
    TwoSteps(s0, a0, s1, a1, Step(s1, a1));
  }

  lemma TwoSteps(s0: State, a0: Action, s1: State, a1: Action, s2: State)
    requires Startable(s0.fds, s0.loop) && s0 == Start("", "", s0.fds, s0.loop)
    requires Enabled(s0, a0) && s1 == Step(s0, a0) && Enabled(s1, a1) && s2 == Step(s1, a1)
    ensures IsRun([s0, s1, s2], [a0, a1], "", "")
  {
    hide Startable, Start, Enabled, Step;
  }

  lemma QuietAwait()
    ensures R.Await(QuietLoop(), 5, Read, false).Slot(5, Read) == Some(0)
  {
    QuietLoopStarts();
    AwaitFacts(QuietLoop(), 5, Read);
  }
}
