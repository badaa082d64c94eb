/** The part of the Linux kernel that one `EventLoop` talks to: an epoll instance, reduced to the interest list,
    the readiness of every open descriptor and the FIFO list of descriptors queued for the next `epoll_wait`. */
module Epoll {
  import opened Wrappers

  datatype Dir = Read | Write

  /** Readiness or event bits. `er` stands for EPOLLERR and EPOLLHUP, which epoll reports whatever the mask is. */
  datatype Bits = Bits(rd: bool, wr: bool, er: bool) {
    predicate Any() { rd || wr || er }

    // Would a waiter for direction d be woken by these bits?
    predicate Carries(d: Dir) { er || (if d == Read then rd else wr) }

    function Union(b: Bits): Bits { Bits(rd || b.rd, wr || b.wr, er || b.er) }

    function Minus(b: Bits): Bits { Bits(rd && !b.rd, wr && !b.wr, er && !b.er) }
  }

  /** One entry of the interest list: the requested mask and the EPOLLET flag. */
  datatype Interest = Interest(rd: bool, wr: bool, et: bool) {
    predicate Wants(d: Dir) { if d == Read then rd else wr }
  }

  datatype Event = Event(fd: int, bits: Bits)

  datatype CtlOp = Add | Mod | Del

  /** `ready` has a key for every open descriptor; `rdl` is the ready list. */
  datatype Kernel = Kernel(interest: map<int, Interest>, ready: map<int, Bits>, rdl: seq<int>)

  // The size of the event buffer of `EventLoop::run`.
  const MAX_EVENTS: nat := 128

  ghost predicate Distinct<T>(s: seq<T>) {
    forall i, j :: 0 <= i < j < |s| ==> s[i] != s[j]
  }

  function Poll(i: Interest, b: Bits): Bits {
    Bits(b.rd && i.rd, b.wr && i.wr, b.er)
  }

  ghost predicate KernelValid(k: Kernel) {
    && k.interest.Keys <= k.ready.Keys
    && Distinct(k.rdl)
    && (forall x :: x in k.rdl ==> x in k.interest)
  }

  /** Is fd pollable right now, that is, would `epoll_wait` report it if it were queued? */
  predicate Reportable(k: Kernel, fd: int) {
    fd in k.interest && fd in k.ready && Poll(k.interest[fd], k.ready[fd]).Any()
  }

  /** ADD, MOD and a readiness callback all poll the file and queue it if something is ready. */
  function Enqueue(k: Kernel, fd: int): Kernel {
    if Reportable(k, fd) && fd !in k.rdl then k.(rdl := k.rdl + [fd]) else k
  }

  function Pos(l: seq<int>, x: int): (p: nat)
    ensures p <= |l| && (forall i :: 0 <= i < p ==> l[i] != x)
    ensures x in l ==> p < |l| && l[p] == x
  {
    if l == [] || l[0] == x then 0 else 1 + Pos(l[1..], x)
  }

  function Without(l: seq<int>, x: int): seq<int> {
    if x in l then l[..Pos(l, x)] + l[Pos(l, x) + 1..] else l
  }

  function Forget(k: Kernel, fd: int): Kernel {
    k.(interest := k.interest - {fd}, rdl := Without(k.rdl, fd))
  }

  /** `epoll_ctl`; `None` is a negative return (EBADF, EEXIST or ENOENT). */
  function Ctl(k: Kernel, op: CtlOp, fd: int, i: Interest): Option<Kernel> {
    match op
    case Add =>
      if fd in k.ready && fd !in k.interest then Some(Enqueue(k.(interest := k.interest[fd := i]), fd)) else None
    case Mod =>
      if fd in k.ready && fd in k.interest then Some(Enqueue(k.(interest := k.interest[fd := i]), fd)) else None
    case Del =>
      if fd in k.interest then Some(Forget(k, fd)) else None
  }

  function Open(k: Kernel, fd: int): Kernel {
    k.(ready := k.ready[fd := Bits(false, false, false)])
  }

  // Closing the last reference to a descriptor also removes it from the interest list.
  function Close(k: Kernel, fd: int): Kernel {
    Forget(k, fd).(ready := k.ready - {fd})
  }

  /** New readiness arrives (data, window space, error): an edge, even if the bit was already up. */
  function Signal(k: Kernel, fd: int, b: Bits): Kernel {
    if fd !in k.ready then k
    else
      var k' := k.(ready := k.ready[fd := k.ready[fd].Union(b)]);
      if fd in k.interest && Poll(k.interest[fd], b).Any() then Enqueue(k', fd) else k'
  }

  /** Readiness is used up by a system call. */
  function Consume(k: Kernel, fd: int, b: Bits): Kernel {
    if fd !in k.ready then k else k.(ready := k.ready[fd := k.ready[fd].Minus(b)])
  }

  /** What one pass of `epoll_wait` over the ready list yields: the events, how much of the list it looked at,
      and the level-triggered descriptors that go back to its tail. */
  datatype ScanResult = ScanResult(events: seq<Event>, taken: nat, again: seq<int>)

  function Scan(k: Kernel, list: seq<int>, room: nat): (r: ScanResult)
    ensures r.taken <= |list|
  {
    if list == [] || room == 0 then ScanResult([], 0, [])
    else if !Reportable(k, list[0]) then
      var r := Scan(k, list[1..], room);
      r.(taken := r.taken + 1)
    else
      var fd, r := list[0], Scan(k, list[1..], room - 1);
      ScanResult([Event(fd, Poll(k.interest[fd], k.ready[fd]))] + r.events, r.taken + 1,
                 if k.interest[fd].et then r.again else [fd] + r.again)
  }

  /** `epoll_wait`: the ready list keeps its unscanned rest, then the level-triggered descriptors just reported. */
  function Wait(k: Kernel): (Kernel, seq<Event>) {
    var r := Scan(k, k.rdl, MAX_EVENTS);
    (k.(rdl := k.rdl[r.taken..] + r.again), r.events)
  }

  /** The list splits into what a scan looked at and the rest; a rest remains only when the buffer is full. */
  lemma {:induction false} ScanStops(k: Kernel, list: seq<int>, room: nat)
    ensures var r := Scan(k, list, room);
            && r.taken >= |r.events|
            && (r.taken < |list| ==> |r.events| == room)
  {
    if list != [] && room > 0 {
      ScanStops(k, list[1..], if Reportable(k, list[0]) then room - 1 else room);
    }
  }

  /** A scan reports each pollable descriptor it looks at exactly once, with its current readiness. */
  lemma {:induction false} ScanReports(k: Kernel, list: seq<int>, room: nat)
    requires Distinct(list)
    ensures var r := Scan(k, list, room);
            && (forall e :: e in r.events ==> e.fd in list[..r.taken] && Reportable(k, e.fd)
                                              && e.bits == Poll(k.interest[e.fd], k.ready[e.fd]))
            && (forall i, j :: 0 <= i < j < |r.events| ==> r.events[i].fd != r.events[j].fd)
            && (forall x :: x in list[..r.taken] && Reportable(k, x) ==>
                              Event(x, Poll(k.interest[x], k.ready[x])) in r.events)
  {
    if list != [] && room > 0 {
      var fd, r := list[0], Scan(k, list, room);
      var r' := Scan(k, list[1..], if Reportable(k, fd) then room - 1 else room);
      ScanReports(k, list[1..], if Reportable(k, fd) then room - 1 else room);
      assert list[..r.taken] == [fd] + list[1..][..r'.taken];
      assert forall x :: x in list[1..][..r'.taken] ==> x != fd by { TailDiffers(list); }
      if Reportable(k, fd) {
        assert r.events == [Event(fd, Poll(k.interest[fd], k.ready[fd]))] + r'.events;
        assert forall e :: e in r'.events ==> e.fd != fd;
      }
    }
  }

  /** A scan puts exactly the level-triggered descriptors it reports back at the tail. */
  lemma {:induction false} ScanKeeps(k: Kernel, list: seq<int>, room: nat)
    requires Distinct(list)
    ensures var r := Scan(k, list, room);
            && Distinct(r.again)
            && (forall x :: x in r.again <==> x in list[..r.taken] && Reportable(k, x) && !k.interest[x].et)
  {
    if list != [] && room > 0 {
      var fd, r := list[0], Scan(k, list, room);
      var r' := Scan(k, list[1..], if Reportable(k, fd) then room - 1 else room);
      ScanKeeps(k, list[1..], if Reportable(k, fd) then room - 1 else room);
      assert list[..r.taken] == [fd] + list[1..][..r'.taken];
      assert forall x :: x in list[1..][..r'.taken] ==> x != fd by { TailDiffers(list); }
    }
  }

  lemma TailDiffers(list: seq<int>)
    requires Distinct(list) && list != []
    ensures list[0] !in list[1..]
  {
  }

  lemma WithoutFacts(l: seq<int>, x: int)
    requires Distinct(l)
    ensures Distinct(Without(l, x)) && x !in Without(l, x)
    ensures forall y :: y in Without(l, x) <==> y in l && y != x
    ensures forall y :: y in l && y != x ==> Pos(Without(l, x), y) <= Pos(l, y)
  {
  }

  lemma DistinctAppend(a: seq<int>, b: seq<int>)
    requires Distinct(a) && Distinct(b)
    requires forall x :: x in b ==> x !in a
    ensures Distinct(a + b)
  {
    forall i, j | 0 <= i < j < |a + b|
      ensures (a + b)[i] != (a + b)[j]
    {
      if i < |a| <= j {
        assert b[j - |a|] in b;
      }
    }
  }

  lemma WaitKeepsValid(k: Kernel)
    requires KernelValid(k)
    ensures KernelValid(Wait(k).0)
  {
    var r := Scan(k, k.rdl, MAX_EVENTS);
    ScanKeeps(k, k.rdl, MAX_EVENTS);
    assert forall x :: x in r.again ==> x in k.rdl[..r.taken];
    assert forall x :: x in k.rdl[..r.taken] ==> x !in k.rdl[r.taken..];
    DistinctAppend(k.rdl[r.taken..], r.again);
  }

  /** Bounded overtaking: one `epoll_wait` either reports a pollable queued descriptor
      or moves it at least MAX_EVENTS places towards the head of the ready list. */
  lemma WaitAdvances(k: Kernel, fd: int)
    requires KernelValid(k) && fd in k.rdl && Reportable(k, fd)
    ensures var (k', events) := Wait(k);
            || Event(fd, Poll(k.interest[fd], k.ready[fd])) in events
            || (fd in k'.rdl && Pos(k'.rdl, fd) + MAX_EVENTS <= Pos(k.rdl, fd))
  {
    ScanStops(k, k.rdl, MAX_EVENTS);
    ScanReports(k, k.rdl, MAX_EVENTS);
    var r := Scan(k, k.rdl, MAX_EVENTS);
    var p := Pos(k.rdl, fd);
    if p < r.taken {
      assert k.rdl[..r.taken][p] == fd;
    } else {
      assert Wait(k).0.rdl[p - r.taken] == fd;
    }
  }
}
