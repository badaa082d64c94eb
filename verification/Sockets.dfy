/** `TcpSocket` over an adversarial kernel. Each system call takes the next entry of a script, which decides how much is
    transferred or which error is reported. An operation that finds the script used up has not ended at that moment, so
    that scripts of every length stand for every moment of every run. What an operation owes to the length of the script
    is stated beside it: each entry that can move data moves some, and an operation that is still going on has none left. */
module Sockets {
  import opened Epoll

  /** How the wait for readiness ends: the descriptor becomes ready; the waiter is forgotten by `remove` and never
      resumed; or it is resumed from a dispatch in which another coroutine has closed the socket first. */
  datatype Wake = Ready | Forgotten | AfterClose

  /** The kernel's choice for one call. Xfer is bounded by what is asked for and available. */
  datatype Choice = Xfer(n: nat) | Again(w: Wake) | Intr | Fail

  datatype Errno = None | EINTR | EAGAIN | Hard

  /** How an awaited socket operation ends, or that it has not ended yet. */
  datatype IoResult = Done(n: nat) | Threw | Ongoing

  function Min(a: nat, b: nat): nat { if a <= b then a else b }

  function Max(a: nat, b: nat): nat { if a <= b then b else a }

  // ------------------------------------------------------------- scripts

  ghost predicate Suffix<T>(a: seq<T>, b: seq<T>) { |a| <= |b| && a == b[|b| - |a|..] }

  /** The part of a script that has been used when `after` is left of `before`. */
  ghost function Used(before: seq<Choice>, after: seq<Choice>): seq<Choice> {
    if |after| <= |before| then before[..|before| - |after|] else []
  }

  /** How many entries offer to move data. */
  function Productive(script: seq<Choice>): nat {
    if script == [] then 0 else (if script[0].Xfer? && script[0].n > 0 then 1 else 0) + Productive(script[1..])
  }

  /** No error, nobody closes the socket, nobody forgets the waiter. */
  ghost predicate Sound(script: seq<Choice>) {
    forall c :: c in script ==> c.Xfer? || c.Intr? || c == Again(Ready)
  }

  /** The last entry of u makes a call fail: it is a hard error, or the entry before it woke the coroutine on a socket
      that another one had closed. `open` tells whether the socket was open before u. */
  ghost predicate Breaks(u: seq<Choice>, open: bool) {
    && u != []
    && (u[|u| - 1] == Fail || (if |u| > 1 then u[|u| - 2] == Again(AfterClose) else !open))
  }

  lemma UsedStep(before: seq<Choice>, s: seq<Choice>)
    requires Suffix(s, before) && s != []
    ensures Suffix(s[1..], before)
  {
  }

  lemma UsedGrows(before: seq<Choice>, s: seq<Choice>)
    requires Suffix(s, before) && s != []
    ensures Used(before, s[1..]) == Used(before, s) + [s[0]]
  {
    assert before[|before| - |s|] == s[0];
  }

  /** Do the entries of u make an operation wait for readiness? A read waits on each EAGAIN; a write also when `send` takes
      nothing; a drain only before it has received anything. */
  ghost predicate Sleeps(u: seq<Choice>, kind: Kind) {
    exists i :: 0 <= i < |u| && SleepsAt(u, kind, i)
  }

  datatype Kind = Reads | Writes | Drains

  ghost predicate SleepsAt(u: seq<Choice>, kind: Kind, i: nat)
    requires i < |u|
  {
    match kind
    case Reads => u[i].Again?
    case Writes => u[i].Again? || u[i] == Xfer(0)
    case Drains => u[i].Again? && NoXfer(u[..i])
  }

  ghost predicate NoXfer(u: seq<Choice>) { forall c :: c in u ==> !c.Xfer? }

  ghost function Slept(u: seq<Choice>, kind: Kind): set<Dir> {
    if Sleeps(u, kind) then {if kind.Writes? then Write else Read} else {}
  }

  /** Has another coroutine closed the socket during one of these waits? */
  ghost predicate ClosedIn(u: seq<Choice>, kind: Kind) {
    exists i :: 0 <= i < |u| && SleepsAt(u, kind, i) && u[i] == Again(AfterClose)
  }

  lemma SleepsMore(u: seq<Choice>, c: Choice, kind: Kind)
    ensures Sleeps(u + [c], kind) <==> Sleeps(u, kind) || SleepsAt(u + [c], kind, |u|)
    ensures SleepsAt(u + [c], kind, |u|) <==> (c.Again? && (kind.Drains? ==> NoXfer(u))) || (kind.Writes? && c == Xfer(0))
    ensures ClosedIn(u + [c], kind) <==> ClosedIn(u, kind) || (SleepsAt(u + [c], kind, |u|) && c == Again(AfterClose))
    ensures NoXfer(u + [c]) <==> NoXfer(u) && !c.Xfer?
  {
    var v := u + [c];
    assert v[..|u|] == u;
    assert forall i :: 0 <= i < |u| ==> v[i] == u[i] && v[..i] == u[..i];
    assert forall i: nat :: i < |u| ==> (SleepsAt(v, kind, i) <==> SleepsAt(u, kind, i));
    assert forall x :: x in v <==> x in u || x == c;
  }

  lemma ClosedSleeps(u: seq<Choice>, kind: Kind)
    ensures ClosedIn(u, kind) ==> Sleeps(u, kind)
  {
  }

  lemma SleepsNot(kind: Kind)
    ensures Slept([], kind) == {} && NoXfer([]) && !ClosedIn([], kind)
  {
  }

  lemma TakeTwice(a: string, s: string, n: nat, k: nat)
    requires n + k <= |s|
    ensures a + s[..n] + s[n..][..k] == a + s[..n + k] && s[n..][k..] == s[n + k..]
    ensures s[..n] + s[n..][..k] == s[..n + k]
  {
    assert s[..n + k] == s[..n] + s[n..][..k];
  }

  // ----------------------------------------------------------- snapshots

  /** The state of a socket as a value. */
  datatype Snapshot = Snapshot(fd: int, hasLoop: bool, inbound: string, consumed: string, sent: string,
                               script: seq<Choice>, waits: set<Dir>, removed: seq<int>)
  {
    predicate Open() { fd >= 0 && hasLoop }

    ghost predicate Healthy() { Open() && Sound(script) }
  }

  /** The reason to throw: the socket was closed before, or the last entry used breaks it. */
  ghost predicate Broken(before: Snapshot, after: Snapshot) {
    !before.Open() || Breaks(Used(before.script, after.script), true)
  }

  /** The reason not to have ended: the script is used up, or the last entry used has `remove` forget the waiter. */
  ghost predicate Stalled(before: Snapshot, after: Snapshot) {
    || after.script == []
    || (var u := Used(before.script, after.script); u != [] && u[|u| - 1] == Again(Forgotten))
  }

  ghost predicate SameSocket(a: Snapshot, b: Snapshot) {
    a.fd == b.fd && a.hasLoop == b.hasLoop && a.removed == b.removed
  }

  /** The open socket a has been closed: the loop has forgotten the descriptor, and the socket both. */
  ghost predicate Shut(a: Snapshot, b: Snapshot) {
    a.Open() && b.fd == -1 && !b.hasLoop && b.removed == a.removed + [a.fd]
  }

  /** The socket is as it was, or another coroutine has closed it in the meantime. */
  ghost predicate Lives(a: Snapshot, b: Snapshot) { SameSocket(a, b) || Shut(a, b) }

  lemma LivesOn(a: Snapshot, b: Snapshot, c: Snapshot)
    requires Lives(a, b) && Lives(b, c)
    ensures Lives(a, c)
  {
  }

  /** The socket is closed. If it was open, the loop has been told so exactly once. */
  ghost predicate Gone(a: Snapshot, b: Snapshot) {
    b.fd < 0 && b.removed == a.removed + if a.Open() then [a.fd] else []
  }

  /** An operation leaves its socket open, unless another coroutine has closed it while the operation waited. */
  ghost predicate Stays(a: Snapshot, b: Snapshot, kind: Kind) {
    if ClosedIn(Used(a.script, b.script), kind) then Shut(a, b) else SameSocket(a, b)
  }

  /** A reason that is there after the second of two operations is a reason for both. */
  lemma ReasonsCarry(a: Snapshot, b: Snapshot, c: Snapshot)
    requires Suffix(b.script, a.script) && Suffix(c.script, b.script) && SameSocket(a, b)
    ensures Suffix(c.script, a.script)
    ensures Broken(b, c) ==> Broken(a, c)
    ensures Stalled(b, c) ==> Stalled(a, c)
  {
  }

  /** On a healthy socket there is no reason to throw, and only the end of the script is one not to have ended. */
  lemma HealthyIsWell(a: Snapshot, c: Snapshot)
    ensures a.Healthy() ==> !Broken(a, c) && (Stalled(a, c) ==> c.script == [])
  {
    var u := Used(a.script, c.script);
    assert forall i :: 0 <= i < |u| ==> u[i] in a.script;
  }

  // --------------------------------------- the loops as functions on scripts

  /** How a loop ends, how many bytes it has moved, how many entries it has used. */
  datatype End = End(r: IoResult, got: nat, used: nat)

  function Later(e: End): End { e.(used := e.used + 1) }

  /** What every loop owes to its script. */
  ghost predicate Fair(script: seq<Choice>, e: End, open: bool) {
    && e.used <= |script|
    && (e.r == Threw <==> Breaks(script[..e.used], open))
    && (e.r == Ongoing ==> e.used == |script| || (e.used > 0 && script[e.used - 1] == Again(Forgotten)))
  }

  lemma FairLater(script: seq<Choice>, e: End)
    requires script != [] && script[0] != Fail && Fair(script[1..], e, script[0] != Again(AfterClose))
    ensures Fair(script, Later(e), true)
  {
    assert script[..e.used + 1] == [script[0]] + script[1..][..e.used];
  }

  /** The loop of `async_read`. */
  function ReadRun(script: seq<Choice>, avail: nat, size: nat, open: bool): (e: End)
    ensures e.used <= |script| && e.got <= Min(size, avail)
    decreases |script|
  {
    if script == [] then End(Ongoing, 0, 0)
    else if !open then End(Threw, 0, 1)
    else
      match script[0]
      case Fail => End(Threw, 0, 1)
      case Intr => Later(ReadRun(script[1..], avail, size, open))
      case Again(w) => if w == Forgotten then End(Ongoing, 0, 1) else Later(ReadRun(script[1..], avail, size, w != AfterClose))
      case Xfer(n) =>
        var k := if size == 0 || avail == 0 then 0 else Min(Max(n, 1), Min(size, avail));
        End(Done(k), k, 1)
  }

  lemma {:induction false} ReadRunFair(script: seq<Choice>, avail: nat, size: nat, open: bool)
    ensures var e := ReadRun(script, avail, size, open);
            && Fair(script, e, open)
            && (e.r != Threw ==> Productive(script) <= Productive(script[e.used..]) + (if e.r.Done? then 1 else 0))
    decreases |script|
  {
    if script != [] && open && (script[0].Intr? || (script[0].Again? && script[0].w != Forgotten)) {
      var e := ReadRun(script[1..], avail, size, script[0] != Again(AfterClose));
      ReadRunFair(script[1..], avail, size, script[0] != Again(AfterClose));
      FairLater(script, e);
      assert script[e.used + 1..] == script[1..][e.used..];
      hide Fair;
    } else if script != [] {
      assert script[..1] == [script[0]] && script[1..] == script[1..];
    }
  }

  /** The loop of `async_write` with `left` bytes to send. */
  function WriteRun(script: seq<Choice>, left: nat, open: bool): (e: End)
    ensures e.used <= |script| && e.got <= left && (e.r == Ongoing ==> e.got < left) && (e.r.Done? ==> e.got == left)
    decreases |script|
  {
    if left == 0 then End(Done(0), 0, 0)
    else if script == [] then End(Ongoing, 0, 0)
    else if !open then End(Threw, 0, 1)
    else
      match script[0]
      case Fail => End(Threw, 0, 1)
      case Intr => Carry(WriteRun(script[1..], left, open), 0, 1)
      case Again(w) => if w == Forgotten then End(Ongoing, 0, 1) else Carry(WriteRun(script[1..], left, w != AfterClose), 0, 1)
      case Xfer(n) =>
        var k := Min(n, left);
        Carry(WriteRun(script[1..], left - k, open), k, 1)
  }

  /** One turn of that loop, by what the call reports. */
  lemma WriteStep(script: seq<Choice>, left: nat, open: bool)
    requires left > 0 && script != []
    ensures var (e, c, rest) := (WriteRun(script, left, open), script[0], script[1..]);
            && (!open || c == Fail ==> e == End(Threw, 0, 1))
            && (open && c == Intr ==> e == Carry(WriteRun(rest, left, open), 0, 1))
            && (open && c == Again(Forgotten) ==> e == End(Ongoing, 0, 1))
            && (open && c.Again? && c.w != Forgotten ==> e == Carry(WriteRun(rest, left, c.w != AfterClose), 0, 1))
            && (open && c.Xfer? ==> e == Carry(WriteRun(rest, left - Min(c.n, left), open), Min(c.n, left), 1))
  {
  }

  /** The end of a loop that has moved `got` bytes with `used` entries before. */
  function Carry(e: End, got: nat, used: nat): End {
    End(if e.r.Done? then Done(e.r.n + got) else e.r, e.got + got, e.used + used)
  }

  lemma CarryTwice(e: End, got: nat, used: nat, got': nat, used': nat)
    ensures Carry(Carry(e, got, used), got', used') == Carry(e, got + got', used + used')
  {
  }

  lemma {:induction false} WriteRunFair(script: seq<Choice>, left: nat, open: bool)
    requires left > 0 || open
    ensures var e := WriteRun(script, left, open);
            && Fair(script, e, open)
            && (e.r != Threw ==> Productive(script) <= Productive(script[e.used..]) + e.got)
            && (e.r.Done? ==> e.r.n == e.got)
    decreases |script|
  {
    if left > 0 && script != [] && open && !script[0].Fail? && script[0] != Again(Forgotten) {
      var left' := if script[0].Xfer? then left - Min(script[0].n, left) else left;
      var e := WriteRun(script[1..], left', script[0] != Again(AfterClose));
      WriteRunFair(script[1..], left', script[0] != Again(AfterClose));
      FairLater(script, e);
      assert script[e.used + 1..] == script[1..][e.used..];
      assert Fair(script, Later(e), true) <==> Fair(script, WriteRun(script, left, open), true);
      hide Fair;
    } else if left > 0 && script != [] {
      assert script[..1] == [script[0]];
    } else {
      assert script[..0] == [] && script[0..] == script;
    }
  }

  /** The loop of `async_read_et` on a script: `avail` bytes are left in the stream, `total` have been taken. */
  function EtRun(script: seq<Choice>, avail: nat, size: nat, total: nat, open: bool): (e: End)
    requires total <= size
    ensures e.used <= |script| && total <= e.got <= Min(size, total + avail) && (e.r.Done? ==> e.r.n == e.got)
    decreases |script|
  {
    if script == [] then End(Ongoing, total, 0)
    else
      match script[0]
      case Fail => End(Threw, total, 1)
      case Intr => if open then Later(EtRun(script[1..], avail, size, total, open)) else End(Threw, total, 1)
      case Again(w) =>
        if !open then End(Threw, total, 1)
        else if total > 0 then End(Done(total), total, 1)
        else if w == Forgotten then End(Ongoing, total, 1)
        else Later(EtRun(script[1..], avail, size, total, w != AfterClose))
      case Xfer(n) =>
        if !open then End(Threw, total, 1)
        else if size == total || avail == 0 then End(Done(total), total, 1)
        else
          var k := Min(Max(n, 1), Min(size - total, avail));
          Later(EtRun(script[1..], avail - k, size, total + k, open))
  }

  /** One turn of that loop, by what the call reports. */
  lemma EtStep(script: seq<Choice>, avail: nat, size: nat, total: nat, open: bool)
    requires total <= size && script != []
    ensures var (e, c, rest) := (EtRun(script, avail, size, total, open), script[0], script[1..]);
            && (!open || c == Fail ==> e == End(Threw, total, 1))
            && (open && c == Intr ==> e == Later(EtRun(rest, avail, size, total, open)))
            && (open && c.Again? && total > 0 ==> e == End(Done(total), total, 1))
            && (open && c == Again(Forgotten) && total == 0 ==> e == End(Ongoing, 0, 1))
            && (open && c.Again? && c.w != Forgotten && total == 0 ==>
                  e == Later(EtRun(rest, avail, size, 0, c.w != AfterClose)))
            && (open && c.Xfer? && (size == total || avail == 0) ==> e == End(Done(total), total, 1))
            && (open && c.Xfer? && size > total && avail > 0 ==>
                  var k := Min(Max(c.n, 1), Min(size - total, avail));
                  e == Later(EtRun(rest, avail - k, size, total + k, open)))
  {
  }

  /** What a drain that has taken `total` bytes owes to its script. */
  ghost predicate EtFair(script: seq<Choice>, avail: nat, size: nat, total: nat, open: bool, e: End) {
    && Fair(script, e, open)
    && (e.r != Threw ==> Productive(script) <= Productive(script[e.used..]) + (e.got - total) + (if e.r.Done? then 1 else 0))
    && (e.r == Done(0) ==> size == 0 || avail == 0)
  }

  lemma {:induction false} EtRunFair(script: seq<Choice>, avail: nat, size: nat, total: nat, open: bool)
    requires total <= size && (open || total == 0)
    ensures EtFair(script, avail, size, total, open, EtRun(script, avail, size, total, open))
    decreases |script|
  {
    if script != [] {
      var c, rest := script[0], script[1..];
      EtStep(script, avail, size, total, open);
      hide EtRun, EtFair;
      if open && c.Xfer? && size > total && avail > 0 {
        var k := Min(Max(c.n, 1), Min(size - total, avail));
        EtRunFair(rest, avail - k, size, total + k, open);
        EtMoves(script, avail, size, total, k, EtRun(rest, avail - k, size, total + k, open));
      } else if open && (c == Intr || (c.Again? && c.w != Forgotten && total == 0)) {
        var e := EtRun(rest, avail, size, total, c != Again(AfterClose));
        EtRunFair(rest, avail, size, total, c != Again(AfterClose));
        EtSkips(script, avail, size, total, e);
      } else {
        EtStops(script, avail, size, total, open, EtRun(script, avail, size, total, open));
      }
    }
  }

  lemma EtMoves(script: seq<Choice>, avail: nat, size: nat, total: nat, k: nat, e: End)
    requires script != [] && script[0].Xfer? && 0 < k <= avail && avail > 0 && total + k <= e.got
    requires e.r.Done? ==> e.r.n == e.got
    requires EtFair(script[1..], avail - k, size, total + k, true, e)
    ensures EtFair(script, avail, size, total, true, Later(e))
  {
    hide Fair;
    EtAfter(script, e);
  }

  lemma EtSkips(script: seq<Choice>, avail: nat, size: nat, total: nat, e: End)
    requires script != [] && (script[0].Intr? || script[0].Again?)
    requires EtFair(script[1..], avail, size, total, script[0] != Again(AfterClose), e)
    ensures EtFair(script, avail, size, total, true, Later(e))
  {
    hide Fair;
    EtAfter(script, e);
  }

  lemma EtStops(script: seq<Choice>, avail: nat, size: nat, total: nat, open: bool, e: End)
    requires script != [] && total <= size && (open || total == 0)
    requires var c := script[0];
             || (e == End(Threw, total, 1) && (!open || c == Fail))
             || (e == End(Done(total), total, 1) && open && c != Fail
                 && ((c.Again? && total > 0) || (c.Xfer? && (size == total || avail == 0))))
             || (e == End(Ongoing, 0, 1) && open && c == Again(Forgotten) && total == 0)
    ensures EtFair(script, avail, size, total, open, e)
  {
    assert script[..1] == [script[0]];
  }

  lemma EtAfter(script: seq<Choice>, e: End)
    requires script != [] && script[0] != Fail && Fair(script[1..], e, script[0] != Again(AfterClose))
    ensures Fair(script, Later(e), true) && script[Later(e).used..] == script[1..][e.used..]
  {
    FairLater(script, e);
  }

  /** What a stretch of a script offers in all; an offer of nothing is taken as one of a byte. */
  function Supply(script: seq<Choice>): nat {
    if script == [] then 0
    else Supply(script[..|script| - 1])
         + (if script[|script| - 1].Xfer? then Max(script[|script| - 1].n, 1) else 0)
  }

  lemma {:induction false} SupplyFront(script: seq<Choice>)
    requires script != []
    ensures Supply(script) == (if script[0].Xfer? then Max(script[0].n, 1) else 0) + Supply(script[1..])
  {
    var n := |script| - 1;
    if n > 0 {
      assert script[..n][0] == script[0] && script[..n][1..] == script[1..][..n - 1] && script[1..][n - 1] == script[n];
      SupplyFront(script[..n]);
    }
  }

  /** The error at i hits a drain that can still take `cap` bytes: everything before it is an interruption or a transfer
      that finds room and data. */
  ghost predicate FailsAt(script: seq<Choice>, cap: int, i: nat) {
    && i < |script| && script[i] == Fail
    && forall j :: 0 <= j < i ==> script[j] == Intr || (script[j].Xfer? && Supply(script[..j]) < cap)
  }

  lemma FailsAtShifts(script: seq<Choice>, cap: int, i: nat)
    requires script != [] && (script[0] == Intr || (script[0].Xfer? && cap > 0))
    ensures FailsAt(script, cap, i + 1) <==>
            FailsAt(script[1..], cap - (if script[0].Xfer? then Max(script[0].n, 1) else 0), i)
  {
    var offer := if script[0].Xfer? then Max(script[0].n, 1) else 0;
    forall j | 0 <= j < i && j + 1 < |script|
      ensures Supply(script[..j + 1]) == offer + Supply(script[1..][..j])
    {
      SupplyFront(script[..j + 1]);
      assert script[..j + 1][1..] == script[1..][..j];
    }
    assert forall j :: 0 <= j < i && j + 1 < |script| ==> script[1..][j] == script[j + 1];
    if FailsAt(script, cap, i + 1) {
      forall j | 0 <= j < i
        ensures script[1..][j] == Intr || (script[1..][j].Xfer? && Supply(script[1..][..j]) < cap - offer)
      {
        assert script[j + 1] == Intr || (script[j + 1].Xfer? && Supply(script[..j + 1]) < cap);
      }
    }
    if FailsAt(script[1..], cap - offer, i) {
      forall j | 0 <= j < i + 1
        ensures script[j] == Intr || (script[j].Xfer? && Supply(script[..j]) < cap)
      {
        if j > 0 {
          assert script[1..][j - 1] == script[j];
          assert script[..j][..] == script[..j];
          assert script[j] == Intr || Supply(script[1..][..j - 1]) < cap - offer;
        }
      }
    }
  }

  /** Some error hits it. */
  ghost predicate Fails(script: seq<Choice>, cap: int) { exists i :: FailsAt(script, cap, i) }

  lemma FailsShifts(script: seq<Choice>, cap: nat, cap': nat)
    requires script != [] && (script[0] == Intr || (script[0].Xfer? && cap > 0))
    requires cap' == cap - Min(cap, if script[0].Xfer? then Max(script[0].n, 1) else 0)
    ensures Fails(script, cap) <==> Fails(script[1..], cap')
  {
    var rest, left := script[1..], cap - (if script[0].Xfer? then Max(script[0].n, 1) else 0);
    assert left >= 0 ==> cap' == left;
    if Fails(script, cap) {
      var i: nat :| FailsAt(script, cap, i);
      assert i > 0;
      FailsAtShifts(script, cap, i - 1);
      assert FailsAt(rest, cap', i - 1);
    }
    if Fails(rest, cap') {
      var i: nat :| FailsAt(rest, cap', i);
      assert FailsAt(rest, left, i);
      FailsAtShifts(script, cap, i);
      assert FailsAt(script, cap, i + 1);
    }
  }

  lemma {:induction false} DrainFailsExactly(script: seq<Choice>, avail: nat, size: nat, total: nat)
    requires 0 < total <= size
    ensures EtRun(script, avail, size, total, true).r == Threw <==> Fails(script, Min(avail, size - total))
    decreases |script|
  {
    var cap := Min(avail, size - total);
    if script == [] {
    } else if script[0] == Fail {
      assert FailsAt(script, cap, 0);
    } else if script[0].Again? || (script[0].Xfer? && cap == 0) {
      assert forall i :: FailsAt(script, cap, i) ==> i > 0 && script[..0] == [];
    } else {
      var k := if script[0].Xfer? then Min(Max(script[0].n, 1), cap) else 0;
      DrainFailsExactly(script[1..], avail - k, size, total + k);
      FailsShifts(script, cap, cap - k);
      hide Fails;
    }
  }

  /** The drain starts at entry m, after interruptions and waits only, and an error hits it. */
  ghost predicate LosesFrom(script: seq<Choice>, cap: nat, m: nat) {
    && m < |script| && script[m].Xfer? && cap > 0 && (forall j :: 0 <= j < m ==> script[j] == Intr || script[j] == Again(Ready))
    && Fails(script[m..], cap)
  }

  /** A script makes a drain that can take `cap` bytes lose some. */
  ghost predicate Loses(script: seq<Choice>, cap: nat) { exists m :: LosesFrom(script, cap, m) }

  /** A drain loses bytes, that is, throws after it has taken some, if and only if the script makes it transfer something
      after nothing but interruptions and waits, and then only interruptions and transfers that find room and data come
      before a hard error. */
  lemma {:induction false} LosesExactly(script: seq<Choice>, avail: nat, size: nat)
    ensures var e := EtRun(script, avail, size, 0, true); e.r == Threw && e.got > 0 <==> Loses(script, Min(avail, size))
    decreases |script|
  {
    var cap := Min(avail, size);
    if script == [] {
    } else if script[0] == Intr || script[0] == Again(Ready) {
      LosesExactly(script[1..], avail, size);
      LosesShifts(script, cap);
      hide Loses;
    } else if script[0].Xfer? && cap > 0 {
      FirstTransfer(script, avail, size);
    } else {
      NothingLost(script, avail, size);
    }
  }

  lemma LosesShifts(script: seq<Choice>, cap: nat)
    requires script != [] && (script[0] == Intr || script[0] == Again(Ready))
    ensures Loses(script, cap) <==> Loses(script[1..], cap)
  {
    var rest := script[1..];
    hide Fails;
    if Loses(script, cap) {
      var m: nat :| LosesFrom(script, cap, m);
      assert m > 0 && script[m..] == rest[m - 1..];
      assert LosesFrom(rest, cap, m - 1);
    }
    if Loses(rest, cap) {
      var m: nat :| LosesFrom(rest, cap, m);
      assert script[m + 1..] == rest[m..];
      assert LosesFrom(script, cap, m + 1);
    }
  }

  lemma FirstChunk(n: nat, avail: nat, size: nat)
    requires Min(avail, size) > 0
    ensures var (cap, k) := (Min(avail, size), Min(Max(n, 1), Min(avail, size)));
            && size > 0 && avail > 0 && 0 < k <= cap && k <= avail && k <= size && Min(avail - k, size - k) == cap - k
            && k == Min(cap, Max(n, 1)) && k == Min(Max(n, 1), Min(size - 0, avail))
  {
  }

  lemma FirstTransfer(script: seq<Choice>, avail: nat, size: nat)
    requires script != [] && script[0].Xfer? && Min(avail, size) > 0
    ensures var e := EtRun(script, avail, size, 0, true); e.r == Threw && e.got > 0 <==> Loses(script, Min(avail, size))
  {
    hide Fails, EtRun, Loses, Min, Max;
    var cap := Min(avail, size);
    var k := Min(Max(script[0].n, 1), cap);
    FirstChunk(script[0].n, avail, size);
    EtStep(script, avail, size, 0, true);
    DrainFailsExactly(script[1..], avail - k, size, k);
    FailsShifts(script, cap, cap - k);
    LosesAtOnce(script, cap);
  }

  lemma LosesAtOnce(script: seq<Choice>, cap: nat)
    requires script != [] && script[0].Xfer? && cap > 0
    ensures Loses(script, cap) <==> Fails(script, cap)
  {
    hide Fails;
    assert script[0..] == script;
    if Loses(script, cap) {
      var m: nat :| LosesFrom(script, cap, m);
      assert m == 0;
    }
    if Fails(script, cap) {
      assert LosesFrom(script, cap, 0);
    }
  }

  lemma NothingLost(script: seq<Choice>, avail: nat, size: nat)
    requires script != [] && script[0] != Intr && script[0] != Again(Ready) && !(script[0].Xfer? && Min(avail, size) > 0)
    ensures var e := EtRun(script, avail, size, 0, true); !(e.r == Threw && e.got > 0)
    ensures !Loses(script, Min(avail, size))
  {
  }

  /** For instance: three bytes come, then the connection is reset. */
  lemma LossWitness()
    ensures EtRun([Xfer(3), Fail], 5, 4096, 0, true) == End(Threw, 3, 2)
    ensures Loses([Xfer(3), Fail], 5)
  {
    var script := [Xfer(3), Fail];
    assert script[1..] == [Fail];
    assert EtRun([Fail], 2, 4096, 3, true) == End(Threw, 3, 1);
    LosesExactly(script, 5, 4096);
  }

  // ----------------------------------------------- one turn of each loop

  /** The loop of `async_read`: a is the socket at its beginning, b the socket now. */
  ghost predicate ReadInv(a: Snapshot, b: Snapshot, size: nat) {
    && Suffix(b.script, a.script) && b.inbound == a.inbound && b.consumed == a.consumed && b.sent == a.sent
    && b.waits == a.waits + Slept(Used(a.script, b.script), Reads)
    && (b.fd < 0 <==> ClosedIn(Used(a.script, b.script), Reads)) && (if b.fd >= 0 then SameSocket(a, b) else Shut(a, b))
    && ReadRun(a.script, |a.inbound|, size, true)
       == After(ReadRun(b.script, |a.inbound|, size, b.fd >= 0), |a.script| - |b.script|)
  }

  ghost predicate ReadEnds(a: Snapshot, b: Snapshot, size: nat, r: IoResult) {
    var k := if r.Done? then r.n else 0;
    && k <= size && k <= |a.inbound| && Suffix(b.script, a.script)
    && b.inbound == a.inbound[k..] && b.consumed == a.consumed + a.inbound[..k] && b.sent == a.sent
    && b.waits == a.waits + Slept(Used(a.script, b.script), Reads) && Stays(a, b, Reads)
    && (r.Done? ==> SameSocket(a, b) && |b.script| < |a.script|) && (r == Done(0) ==> size == 0 || a.inbound == "")
    && ReadRun(a.script, |a.inbound|, size, true) == End(r, k, |a.script| - |b.script|)
  }

  lemma ReadStarts(a: Snapshot, size: nat)
    requires a.Open()
    ensures ReadInv(a, a, size)
  {
    SleepsNot(Reads);
  }

  lemma ReadTurn(a: Snapshot, b: Snapshot, size: nat)
    requires ReadInv(a, b, size)
    ensures b.inbound == a.inbound && b.consumed == a.consumed && (a.Open() && b.fd >= 0 ==> b.Open())
    ensures b.script == [] ==> ReadEnds(a, b, size, Ongoing)
  {
    assert a.inbound[..0] == "" && a.consumed + "" == a.consumed;
  }

  /** The call was interrupted, or the coroutine has waited and runs again. */
  lemma ReadWaits(a: Snapshot, b: Snapshot, c: Snapshot, size: nat)
    requires ReadInv(a, b, size) && b.script != [] && b.fd >= 0
    requires var x := b.script[0];
             && (x.Intr? || (x.Again? && x.w != Forgotten))
             && c == b.(script := b.script[1..], fd := c.fd, hasLoop := c.hasLoop, removed := c.removed,
                        waits := if x.Intr? then b.waits else b.waits + {Read})
             && (if x == Again(AfterClose) then Shut(b, c) else SameSocket(b, c))
    ensures ReadInv(a, c, size)
  {
    hide Sleeps, ClosedIn, Used;
    UsedMore(a.script, b.script, Reads);
    UsedStep(a.script, b.script);
    var rest := ReadRun(c.script, |a.inbound|, size, c.fd >= 0);
    assert ReadRun(b.script, |a.inbound|, size, true) == Later(rest);
    hide ReadRun;
  }

  /** The call that ends the loop. */
  lemma ReadStops(a: Snapshot, b: Snapshot, c: Snapshot, size: nat, r: IoResult)
    requires ReadInv(a, b, size) && b.script != []
    requires var (x, n, k) := (b.script[0], |a.inbound|, if r.Done? then r.n else 0);
             && k <= |b.inbound|
             && (r == Threw ==> b.fd < 0 || x == Fail)
             && (r == Ongoing ==> b.fd >= 0 && x == Again(Forgotten))
             && (r.Done? ==> b.fd >= 0 && x.Xfer? && k == if size == 0 || n == 0 then 0 else Min(Max(x.n, 1), Min(size, n)))
             && c == b.(script := b.script[1..], inbound := b.inbound[k..], consumed := b.consumed + b.inbound[..k],
                        waits := if r == Ongoing then b.waits + {Read} else b.waits)
    ensures ReadEnds(a, c, size, r)
  {
    hide Sleeps, ClosedIn, Used;
    UsedMore(a.script, b.script, Reads);
    UsedStep(a.script, b.script);
    assert b.inbound == a.inbound && b.consumed == a.consumed;
  }

  /** The loop of `async_write` after `total` bytes: a is the socket at its beginning, b the socket now. */
  ghost predicate WriteInv(a: Snapshot, b: Snapshot, data: string, total: nat) {
    && total <= |data| && b.sent == a.sent + data[..total] && Suffix(b.script, a.script)
    && b.waits == a.waits + Slept(Used(a.script, b.script), Writes)
    && (b.fd < 0 <==> ClosedIn(Used(a.script, b.script), Writes))
    && b.inbound == a.inbound && b.consumed == a.consumed
    && (if b.fd >= 0 then SameSocket(a, b) else Shut(a, b) && total < |data|)
    && WriteRun(a.script, |data|, true)
       == Carry(WriteRun(b.script, |data| - total, b.fd >= 0), total, |a.script| - |b.script|)
  }

  ghost predicate WriteEnds(a: Snapshot, b: Snapshot, data: string, r: IoResult) {
    var k := |b.sent| - |a.sent|;
    && 0 <= k <= |data| && b.sent == a.sent + data[..k] && (r.Done? ==> r.n == k && SameSocket(a, b))
    && Suffix(b.script, a.script) && b.waits == a.waits + Slept(Used(a.script, b.script), Writes)
    && Stays(a, b, Writes)
    && WriteRun(a.script, |data|, true) == End(r, k, |a.script| - |b.script|)
  }

  /** One more entry has been used. */
  lemma UsedMore(before: seq<Choice>, s: seq<Choice>, kind: Kind)
    requires Suffix(s, before) && s != []
    ensures var (u, v, c) := (Used(before, s), Used(before, s[1..]), s[0]);
            && (Sleeps(v, kind) <==>
                  Sleeps(u, kind) || (c.Again? && (kind.Drains? ==> NoXfer(u))) || (kind.Writes? && c == Xfer(0)))
            && (ClosedIn(u, kind) ==> Sleeps(u, kind))
            && (ClosedIn(v, kind) <==> ClosedIn(u, kind) || (c == Again(AfterClose) && (kind.Drains? ==> NoXfer(u))))
            && (NoXfer(v) <==> NoXfer(u) && !c.Xfer?)
  {
    UsedGrows(before, s);
    SleepsMore(Used(before, s), s[0], kind);
    ClosedSleeps(Used(before, s), kind);
    hide Sleeps, ClosedIn, NoXfer, Used;
  }

  lemma WriteStarts(a: Snapshot, data: string)
    requires a.Open()
    ensures WriteInv(a, a, data, 0)
  {
    assert data[..0] == "" && a.sent + "" == a.sent;
    SleepsNot(Writes);
  }

  lemma WriteTurn(a: Snapshot, b: Snapshot, data: string, total: nat)
    requires WriteInv(a, b, data, total)
    ensures total <= |data| && (a.Open() && b.fd >= 0 ==> b.Open())
    ensures total < |data| && b.script == [] ==> WriteEnds(a, b, data, Ongoing)
    ensures total == |data| ==> WriteEnds(a, b, data, Done(total))
  {
    hide Sleeps, ClosedIn, Used;
  }

  /** `send` has taken some bytes. */
  lemma WriteMoves(a: Snapshot, b: Snapshot, c: Snapshot, data: string, total: nat, count: nat)
    requires WriteInv(a, b, data, total) && total < |data| && b.script != [] && c.script == b.script[1..]
    requires b.fd >= 0 && b.script[0].Xfer? && count == Min(b.script[0].n, |data| - total) && count > 0
    requires c == b.(script := b.script[1..], sent := b.sent + data[total..][..count])
    ensures WriteInv(a, c, data, total + count)
  {
    hide WriteRun, Carry, Sleeps, ClosedIn, Used;
    UsedMore(a.script, b.script, Writes);
    TakeTwice(a.sent, data, total, count);
    WriteStep(b.script, |data| - total, true);
    UsedStep(a.script, b.script);
    CarryTwice(WriteRun(c.script, |data| - total - count, true), count, 1, total, |a.script| - |b.script|);
  }

  /** The call was interrupted, or the coroutine has waited and runs again. */
  lemma WriteWaits(a: Snapshot, b: Snapshot, c: Snapshot, data: string, total: nat)
    requires WriteInv(a, b, data, total) && total < |data| && b.script != [] && b.fd >= 0
    requires var x := b.script[0];
             && (x.Intr? || (x.Again? && x.w != Forgotten) || (x.Xfer? && x.n == 0))
             && c.sent == b.sent && c.inbound == b.inbound && c.consumed == b.consumed && c.script == b.script[1..]
             && c.waits == (if x.Intr? then b.waits else b.waits + {Write})
             && (if x == Again(AfterClose) then Shut(b, c) else SameSocket(b, c))
    ensures WriteInv(a, c, data, total)
  {
    hide Sleeps, ClosedIn, Used;
    UsedMore(a.script, b.script, Writes);
    var left, used := |data| - total, |a.script| - |b.script|;
    var rest := WriteRun(c.script, left, c.fd >= 0);
    assert WriteRun(b.script, left, true) == Carry(rest, 0, 1) by { WriteSkip(b.script, left); }
    UsedStep(a.script, b.script);
    hide WriteRun;
    CarryTwice(rest, 0, 1, total, used);
    hide Carry, Suffix;
  }

  lemma WriteSkip(script: seq<Choice>, left: nat)
    requires script != [] && left > 0
    requires var x := script[0]; x.Intr? || (x.Again? && x.w != Forgotten) || (x.Xfer? && x.n == 0)
    ensures WriteRun(script, left, true) == Carry(WriteRun(script[1..], left, script[0] != Again(AfterClose)), 0, 1)
  {
    hide WriteRun, Carry;
    WriteStep(script, left, true);
  }

  lemma WriteSleeps(a: Snapshot, b: Snapshot, c: Snapshot, data: string, total: nat)
    requires WriteInv(a, b, data, total) && total < |data| && b.script != [] && b.fd >= 0 && b.script[0] == Again(Forgotten)
    requires c.sent == b.sent && c.script == b.script[1..] && c.waits == b.waits + {Write} && SameSocket(b, c)
    ensures WriteEnds(a, c, data, Ongoing)
  {
    hide WriteRun, Suffix, Sleeps, ClosedIn, Used;
    UsedMore(a.script, b.script, Writes);
    WriteStep(b.script, |data| - total, true);
    UsedStep(a.script, b.script);
  }

  lemma WriteThrows(a: Snapshot, b: Snapshot, c: Snapshot, data: string, total: nat)
    requires WriteInv(a, b, data, total) && total < |data| && b.script != [] && (b.fd < 0 || b.script[0] == Fail)
    requires c == b.(script := b.script[1..])
    ensures WriteEnds(a, c, data, Threw)
  {
    hide WriteRun, Suffix, Sleeps, ClosedIn, Used;
    UsedMore(a.script, b.script, Writes);
    WriteStep(b.script, |data| - total, b.fd >= 0);
    UsedStep(a.script, b.script);
  }

  /** What one `send` of the data behind the first `total` bytes makes of the socket b. */
  ghost predicate Sending(b: Snapshot, c: Snapshot, data: string, total: nat, count: int, err: Errno) {
    && b.script != [] && total <= |data| && -1 <= count <= |data| - total && (count == -1 <==> err != None)
    && c == b.(script := b.script[1..], sent := b.sent + data[total..][..if count < 0 then 0 else count])
    && (b.fd < 0 ==> err == Hard)
    && (b.fd >= 0 ==>
          var x := b.script[0];
          && (err == EAGAIN <==> x.Again?) && (err == EINTR <==> x.Intr?) && (err == Hard <==> x.Fail?)
          && (x.Xfer? ==> count == Min(x.n, |data| - total)))
  }

  /** And what the wait after it does, if there is one. */
  ghost predicate Waited(b: Snapshot, c: Snapshot, c': Snapshot, count: int, err: Errno) {
    if count == 0 || err == EAGAIN then
      && b.script != [] && c' == c.(waits := c.waits + {Write}, fd := c'.fd, hasLoop := c'.hasLoop, removed := c'.removed)
      && if b.script[0] == Again(AfterClose) then Shut(c, c') else SameSocket(c, c')
    else c' == c
  }

  lemma SendingMeans(b: Snapshot, c: Snapshot, data: string, total: nat, count: int, err: Errno)
    requires Sending(b, c, data, total, count, err)
    ensures -1 <= count <= |data| - total && (count == -1 <==> err != None) && |c.script| < |b.script| && SameSocket(b, c)
    ensures (count == 0 || err == EAGAIN ==> b.fd >= 0) && (err == EAGAIN <==> b.fd >= 0 && b.script[0].Again?)
  {
  }

  /** One turn of the loop of `async_write`. */
  lemma WriteGoesOn(a: Snapshot, b: Snapshot, c: Snapshot, c': Snapshot, data: string, total: nat, count: int, err: Errno)
    requires WriteInv(a, b, data, total) && total < |data|
    requires Sending(b, c, data, total, count, err) && Waited(b, c, c', count, err)
    ensures if err == Hard then WriteEnds(a, c', data, Threw)
            else if err == EAGAIN && b.script[0].w == Forgotten then WriteEnds(a, c', data, Ongoing)
            else WriteInv(a, c', data, total + if count < 0 then 0 else count)
  {
    hide WriteInv, WriteEnds;
    if err == Hard {
      WriteThrows(a, b, c', data, total);
    } else if err == EAGAIN && b.script[0].w == Forgotten {
      WriteSleeps(a, b, c', data, total);
    } else if count > 0 {
      WriteMoves(a, b, c', data, total, count);
    } else {
      WriteWaits(a, b, c', data, total);
    }
  }

  /** The loop of `async_read_et` after `total` bytes. */
  ghost predicate DrainInv(a: Snapshot, b: Snapshot, size: nat, total: nat) {
    && total <= size && total <= |a.inbound| && Suffix(b.script, a.script)
    && b.waits == a.waits + Slept(Used(a.script, b.script), Drains)
    && (total == 0 <==> NoXfer(Used(a.script, b.script))) && (b.fd < 0 <==> ClosedIn(Used(a.script, b.script), Drains))
    && b.inbound == a.inbound[total..] && b.consumed == a.consumed + a.inbound[..total] && b.sent == a.sent
    && (if b.fd >= 0 then SameSocket(a, b) else Shut(a, b) && total == 0)
    && EtRun(a.script, |a.inbound|, size, 0, true)
       == After(EtRun(b.script, |a.inbound| - total, size, total, b.fd >= 0), |a.script| - |b.script|)
  }

  function After(e: End, used: nat): End { e.(used := e.used + used) }

  ghost predicate DrainEnds(a: Snapshot, b: Snapshot, size: nat, r: IoResult, total: nat) {
    && total <= size && total <= |a.inbound| && Suffix(b.script, a.script)
    && b.waits == a.waits + Slept(Used(a.script, b.script), Drains)
    && b.inbound == a.inbound[total..] && b.consumed == a.consumed + a.inbound[..total] && b.sent == a.sent
    && Stays(a, b, Drains)
    && (r.Done? ==> r.n == total && SameSocket(a, b) && |b.script| < |a.script|)
    && EtRun(a.script, |a.inbound|, size, 0, true) == End(r, total, |a.script| - |b.script|)
  }

  /** The buffer holds the first `total` bytes of `all`, and is as before behind them. */
  ghost predicate Filled(buffer: string, all: string, space: string, total: nat) {
    && total <= |buffer| == |space| && total <= |all|
    && buffer[..total] == all[..total] && buffer[total..] == space[total..]
  }

  /** `after` is `before` with some bytes written over it. */
  ghost predicate Placed(before: string, after: string, from: nat, bytes: string) {
    && |after| == |before| && from + |bytes| <= |before|
    && after[..from] == before[..from] && after[from..from + |bytes|] == bytes
    && after[from + |bytes|..] == before[from + |bytes|..]
  }

  lemma FilledNone(buffer: string, all: string)
    ensures Filled(buffer, all, buffer, 0)
  {
  }

  lemma FilledMore(before: string, after: string, all: string, space: string, total: nat, k: nat)
    requires Filled(before, all, space, total) && total + k <= |all| && Placed(before, after, total, all[total..][..k])
    ensures Filled(after, all, space, total + k)
  {
    assert after[..total + k] == after[..total] + after[total..total + k];
  }

  lemma DrainStarts(a: Snapshot, size: nat)
    requires a.Open()
    ensures DrainInv(a, a, size, 0)
  {
    assert a.consumed + a.inbound[..0] == a.consumed;
    SleepsNot(Drains);
  }

  lemma DrainTurn(a: Snapshot, b: Snapshot, size: nat, total: nat)
    requires DrainInv(a, b, size, total)
    ensures total <= |a.inbound| && b.inbound == a.inbound[total..] && b.consumed == a.consumed + a.inbound[..total]
    ensures b.script == [] ==> DrainEnds(a, b, size, Ongoing, total)
    ensures a.Open() && b.fd >= 0 ==> b.Open()
  {
  }

  /** What one `recv` behind the first `total` bytes makes of the socket b. */
  ghost predicate Received(a: Snapshot, b: Snapshot, c: Snapshot, size: nat, total: nat, count: int, err: Errno) {
    var n := total + (if count < 0 then 0 else count);
    && b.script != [] && total <= size && -1 <= count <= size - total && n <= |a.inbound| && (count == -1 <==> err != None)
    && c == b.(script := b.script[1..], inbound := a.inbound[n..], consumed := a.consumed + a.inbound[..n])
    && (b.fd < 0 ==> err == Hard)
    && (b.fd >= 0 ==>
          var x := b.script[0];
          && (err == EAGAIN <==> x.Again?) && (err == EINTR <==> x.Intr?) && (err == Hard <==> x.Fail?)
          && (x.Xfer? ==> count == if size == total || |a.inbound| == total then 0
                                   else Min(Max(x.n, 1), Min(size - total, |a.inbound| - total))))
  }

  lemma ReceivedMeans(a: Snapshot, b: Snapshot, c: Snapshot, size: nat, total: nat, count: int, err: Errno)
    requires Received(a, b, c, size, total, count, err)
    ensures -1 <= count <= size - total && (count == -1 <==> err != None)
    ensures |c.script| < |b.script| && SameSocket(b, c)
    ensures |c.consumed| == |a.consumed| + total + if count < 0 then 0 else count
    ensures (err == EAGAIN ==> b.fd >= 0 && b.script[0].Again?) && (err == EINTR ==> b.script[0].Intr?)
  {
  }

  /** `recv` has delivered some bytes. */
  lemma DrainMoves(a: Snapshot, b: Snapshot, c: Snapshot, size: nat, total: nat, count: nat)
    requires DrainInv(a, b, size, total) && Received(a, b, c, size, total, count, None) && count > 0
    ensures DrainInv(a, c, size, total + count)
  {
    hide EtRun, Min, Max, Sleeps, ClosedIn, NoXfer, Used;
    UsedMore(a.script, b.script, Drains);
    DrainStep(b.script, |a.inbound| - total, size, total, count);
    UsedStep(a.script, b.script);
  }

  lemma DrainStep(script: seq<Choice>, avail: nat, size: nat, total: nat, count: nat)
    requires script != [] && script[0].Xfer? && total < size && avail > 0
    requires count == Min(Max(script[0].n, 1), Min(size - total, avail))
    ensures EtRun(script, avail, size, total, true) == After(EtRun(script[1..], avail - count, size, total + count, true), 1)
  {
    hide EtRun;
    EtStep(script, avail, size, total, true);
  }

  /** The call was interrupted, or the coroutine has waited and runs again. */
  lemma DrainWaits(a: Snapshot, b: Snapshot, c: Snapshot, c': Snapshot, size: nat, total: nat, err: Errno)
    requires DrainInv(a, b, size, total) && Received(a, b, c, size, total, -1, err)
    requires err == EINTR || (err == EAGAIN && total == 0 && b.script[0] != Again(Forgotten))
    requires c' == c.(waits := c'.waits, fd := c'.fd, hasLoop := c'.hasLoop, removed := c'.removed)
    requires c'.waits == if err == EAGAIN then c.waits + {Read} else c.waits
    requires if b.script[0] == Again(AfterClose) then Shut(c, c') else SameSocket(c, c')
    ensures DrainInv(a, c', size, total)
  {
    hide EtRun, Suffix, Min, Max, Sleeps, ClosedIn, NoXfer, Used;
    UsedMore(a.script, b.script, Drains);
    EtStep(b.script, |a.inbound| - total, size, total, b.fd >= 0);
    UsedStep(a.script, b.script);
  }

  /** The call that ends the drain. */
  lemma DrainStops(a: Snapshot, b: Snapshot, c: Snapshot, c': Snapshot, size: nat, total: nat, count: int, err: Errno,
                   r: IoResult)
    requires DrainInv(a, b, size, total) && Received(a, b, c, size, total, count, err) && count <= 0 && err != EINTR
    requires r == if err == Hard then Threw else if err == EAGAIN && total == 0 then Ongoing else Done(total)
    requires r == Ongoing ==> b.script[0] == Again(Forgotten)
    requires c' == c.(waits := if r == Ongoing then c.waits + {Read} else c.waits)
    ensures DrainEnds(a, c', size, r, total)
  {
    hide EtRun, Sleeps, ClosedIn, NoXfer, Used, Min, Max;
    UsedMore(a.script, b.script, Drains);
    StoppingCall(a, b, c, size, total, count, err, r);
    UsedStep(a.script, b.script);
    hide SameSocket, Shut;
  }

  lemma StoppingCall(a: Snapshot, b: Snapshot, c: Snapshot, size: nat, total: nat, count: int, err: Errno, r: IoResult)
    requires Received(a, b, c, size, total, count, err) && count <= 0 && err != EINTR && total <= |a.inbound|
    requires r == if err == Hard then Threw else if err == EAGAIN && total == 0 then Ongoing else Done(total)
    requires r == Ongoing ==> b.script[0] == Again(Forgotten)
    ensures EtRun(b.script, |a.inbound| - total, size, total, b.fd >= 0) == End(r, total, 1)
  {
    EtStep(b.script, |a.inbound| - total, size, total, b.fd >= 0);
    hide EtRun;
  }

  // ------------------------------------------------------------ the sockets

  class TcpSocket {
    var fd: int
    var hasLoop: bool

    // The connection: bytes the peer sends and that have not been received yet (after them comes its FIN), bytes
    // received so far, bytes sent so far.
    var inbound: string
    var consumed: string
    var sent: string
    var script: seq<Choice>
    // The slots of the loop that this socket has waited in, the descriptors it has had `remove` called for, and whether
    // the last recv ran dry.
    ghost var waits: set<Dir>
    ghost var removed: seq<int>
    ghost var dry: bool

    ghost function Snap(): Snapshot
      reads this
    {
      Snapshot(fd, hasLoop, inbound, consumed, sent, script, waits, removed)
    }

    constructor (fd: int, inbound: string, script: seq<Choice>)
      requires fd >= 0
      ensures this.fd == fd && hasLoop && this.inbound == inbound && this.script == script
      ensures consumed == "" && sent == "" && waits == {} && removed == [] && !dry
    {
      this.fd, this.hasLoop, this.inbound, this.script := fd, true, inbound, script;
      consumed, sent, waits, removed, dry := "", "", {}, [], false;
    }

    /** `::recv`, into the caller's buffer. */
    method Recv(buffer: array<char>, from: nat, size: nat) returns (count: int, err: Errno)
      requires script != [] && from + size <= buffer.Length
      modifies this`inbound, this`consumed, this`script, this`dry, buffer
      ensures script == old(script)[1..]
      ensures -1 <= count <= size && (count == -1 <==> err != None)
      ensures var k := if count < 0 then 0 else count;
              && k <= |old(inbound)| && inbound == old(inbound)[k..] && consumed == old(consumed) + old(inbound)[..k]
              && Placed(old(buffer[..]), buffer[..], from, old(inbound)[..k])
      ensures fd < 0 ==> err == Hard
      ensures fd >= 0 ==> (err == EAGAIN <==> old(script)[0].Again?) && (err == EINTR <==> old(script)[0].Intr?)
                          && (err == Hard <==> old(script)[0].Fail?)
      ensures fd >= 0 && old(script)[0].Xfer? ==>
                count == if size == 0 || old(inbound) == "" then 0 else Min(Max(old(script)[0].n, 1), Min(size, |old(inbound)|))
      ensures dry == (err == EAGAIN || (count == 0 && size > 0))
    {
      var c := script[0];
      script := script[1..];
      dry := false;
      if fd < 0 || c.Fail? {
        return -1, Hard;
      }
      if c.Again? {
        dry := true;
        return -1, EAGAIN;
      }
      if c.Intr? {
        return -1, EINTR;
      }
      err := None;
      if size == 0 || inbound == "" {
        dry := size > 0;
        return 0, None;
      }
      var k := Min(Max(c.n, 1), Min(size, |inbound|));
      forall i | 0 <= i < k {
        buffer[from + i] := inbound[i];
      }
      consumed := consumed + inbound[..k];
      inbound := inbound[k..];
      count := k;
    }

    /** `::send` of a slice; it may accept nothing at all. */
    method Send(data: string) returns (count: int, err: Errno)
      requires script != []
      modifies this`sent, this`script
      ensures script == old(script)[1..]
      ensures -1 <= count <= |data| && (count == -1 <==> err != None)
      ensures sent == old(sent) + data[..if count < 0 then 0 else count]
      ensures fd < 0 ==> err == Hard
      ensures fd >= 0 ==> (err == EAGAIN <==> old(script)[0].Again?) && (err == EINTR <==> old(script)[0].Intr?)
                          && (err == Hard <==> old(script)[0].Fail?)
      ensures fd >= 0 && old(script)[0].Xfer? ==> count == Min(old(script)[0].n, |data|)
    {
      var c := script[0];
      script := script[1..];
      if fd < 0 || c.Fail? {
        return -1, Hard;
      }
      if c.Again? {
        return -1, EAGAIN;
      }
      if c.Intr? {
        return -1, EINTR;
      }
      count, err := Min(c.n, |data|), None;
      sent := sent + data[..count];
    }

    /** `co_await loop_->readable(fd_)` and its siblings: false if the coroutine is never resumed. */
    method Wait(d: Dir, w: Wake) returns (resumed: bool)
      requires fd >= 0 && hasLoop
      modifies this`waits, this`fd, this`hasLoop, this`removed
      ensures waits == old(waits) + {d} && resumed == !w.Forgotten?
      ensures if w.AfterClose? then Shut(old(Snap()), Snap()) else SameSocket(old(Snap()), Snap())
    {
      waits := waits + {d};
      if w.AfterClose? {
        Close();
      }
      resumed := !w.Forgotten?;
    }

    /** `close`: the loop forgets the descriptor before it is closed, and the socket forgets both. */
    method Close()
      modifies this`fd, this`hasLoop, this`removed
      ensures if old(fd) >= 0 then fd == -1 && !hasLoop else fd == old(fd) && hasLoop == old(hasLoop)
      ensures removed == old(removed) + if old(fd) >= 0 && old(hasLoop) then [old(fd)] else []
      ensures forall s :: Lives(s, old(Snap())) ==> Gone(s, Snap())
    {
      if fd >= 0 {
        if hasLoop {
          removed := removed + [fd];
        }
        fd, hasLoop := -1, false;
      }
    }

    /** `async_read`. */
    method AsyncRead(buffer: array<char>, size: nat) returns (r: IoResult)
      requires size <= buffer.Length
      modifies this`inbound, this`consumed, this`script, this`dry, this`waits, this`fd, this`hasLoop, this`removed, buffer
      ensures Suffix(script, old(script)) && (r.Done? ==> |script| < |old(script)|)
      ensures var k := if r.Done? then r.n else 0;
              && k <= size && k <= |old(inbound)|
              && inbound == old(inbound)[k..] && consumed == old(consumed) + old(inbound)[..k]
              && buffer[..k] == old(inbound)[..k] && buffer[k..] == old(buffer[k..])
      ensures r == Done(0) ==> size == 0 || old(inbound) == ""
      ensures waits == old(waits) + Slept(Used(old(script), script), Reads) && Stays(old(Snap()), Snap(), Reads)
      ensures r.Done? ==> SameSocket(old(Snap()), Snap())
      ensures r == Threw <==> Broken(old(Snap()), Snap())
      ensures r == Ongoing ==> Stalled(old(Snap()), Snap())
      ensures r != Threw ==> Productive(old(script)) <= Productive(script) + (if r.Done? then 1 else 0)
      ensures old(Snap()).Healthy() && Productive(old(script)) > 0 ==> r.Done?
    {
      if !hasLoop || fd < 0 {
        return Threw;
      }
      hide ReadRun, Productive;
      ghost var s0 := Snap();
      ReadRunFair(script, |inbound|, size, true);
      r := ReadLoop(buffer, size);
      FairMeans(s0, Snap(), ReadRun(s0.script, |s0.inbound|, size, true));
    }

    method ReadLoop(buffer: array<char>, size: nat) returns (r: IoResult)
      requires size <= buffer.Length && hasLoop && fd >= 0
      modifies this`inbound, this`consumed, this`script, this`dry, this`waits, this`fd, this`hasLoop, this`removed, buffer
      ensures ReadEnds(old(Snap()), Snap(), size, r)
      ensures var k := if r.Done? then r.n else 0;
              k <= |old(inbound)| && k <= buffer.Length && buffer[..k] == old(inbound)[..k] && buffer[k..] == old(buffer[k..])
    {
      ghost var a := Snap();
      ReadStarts(a, size);
      hide ReadInv, ReadEnds, Min, Max;
      while true
        invariant ReadInv(a, Snap(), size) && buffer[..] == old(buffer[..])
        decreases |script|
      {
        ghost var b := Snap();
        ReadTurn(a, b, size);
        if script == [] {
          return Ongoing;
        }
        var c := script[0];
        var count, err := Recv(buffer, 0, size);
        if count > 0 {
          ReadStops(a, b, Snap(), size, Done(count));
          return Done(count);
        }
        if count == 0 {
          ReadStops(a, b, Snap(), size, Done(0));
          return Done(0);
        }
        if err == EINTR {
          ReadWaits(a, b, Snap(), size);
          continue;
        }
        if err == EAGAIN {
          var resumed := Wait(Read, c.w);
          if !resumed {
            ReadStops(a, b, Snap(), size, Ongoing);
            return Ongoing;
          }
          ReadWaits(a, b, Snap(), size);
          continue;
        }
        ReadStops(a, b, Snap(), size, Threw);
        return Threw;
      }
    }

    /** `async_read_et`: drain until the socket runs dry. A hard error after a partial drain loses what was drained. */
    method AsyncReadEt(buffer: array<char>, size: nat) returns (r: IoResult)
      requires size <= buffer.Length
      modifies this`inbound, this`consumed, this`script, this`dry, this`waits, this`fd, this`hasLoop, this`removed, buffer
      ensures Suffix(script, old(script)) && (r.Done? ==> |script| < |old(script)|)
      ensures var k := |consumed| - |old(consumed)|;
              && 0 <= k <= size && k <= |old(inbound)|
              && inbound == old(inbound)[k..] && consumed == old(consumed) + old(inbound)[..k]
              && buffer[..k] == old(inbound)[..k] && buffer[k..] == old(buffer[k..])
              && (r.Done? ==> r.n == k)
              && (r != Threw ==> Productive(old(script)) <= Productive(script) + k + (if r.Done? then 1 else 0))
              && (old(Snap()).Open() ==> (r == Threw && k > 0 <==> Loses(old(script), Min(|old(inbound)|, size))))
      ensures r.Done? && r.n < size ==> dry
      ensures r == Done(0) ==> size == 0 || old(inbound) == ""
      ensures waits == old(waits) + Slept(Used(old(script), script), Drains) && Stays(old(Snap()), Snap(), Drains)
      ensures r.Done? ==> SameSocket(old(Snap()), Snap())
      ensures r == Threw <==> Broken(old(Snap()), Snap())
      ensures r == Ongoing ==> Stalled(old(Snap()), Snap())
      ensures old(Snap()).Healthy() && Productive(old(script)) > Min(size, |old(inbound)|) ==> r.Done?
    {
      hide EtRun, Loses, Productive, DrainEnds;
      ghost var s0 := Snap();
      if !hasLoop || fd < 0 {
        NotOpen(s0, Drains);
        return Threw;
      }
      r := DrainLoop(buffer, size);
      DrainMeans(s0, Snap(), size, r, |consumed| - |s0.consumed|);
      hide Broken, Stalled, Stays, SameSocket, Suffix, Snapshot.Healthy, Used, Sleeps;
    }

    method DrainLoop(buffer: array<char>, size: nat) returns (r: IoResult)
      requires size <= buffer.Length && hasLoop && fd >= 0
      modifies this`inbound, this`consumed, this`script, this`dry, this`waits, this`fd, this`hasLoop, this`removed, buffer
      ensures var k := |consumed| - |old(consumed)|;
              && 0 <= k <= size && k <= |old(inbound)|
              && DrainEnds(old(Snap()), Snap(), size, r, k)
              && Filled(buffer[..], old(inbound), old(buffer[..]), k)
      ensures r.Done? && r.n < size ==> dry
    {
      hide DrainInv, DrainEnds, Filled, Received, Suffix, Min, Max;
      var total := 0;
      ghost var a, space := Snap(), buffer[..];
      DrainStarts(a, size);
      FilledNone(space, a.inbound);
      while true
        invariant 0 <= total <= size && DrainInv(a, Snap(), size, total) && Filled(buffer[..], a.inbound, space, total)
        decreases |script|
      {
        ghost var b := Snap();
        DrainTurn(a, b, size, total);
        if script == [] {
          return Ongoing;
        }
        var c := script[0];
        var count, err := ReceiveMore(buffer, total, size, a, space);
        ghost var b' := Snap();
        ReceivedMeans(a, b, b', size, total, count, err);
        if count > 0 {
          DrainMoves(a, b, b', size, total, count);
          total := total + count;
          continue;
        }
        if count == 0 {
          DrainStops(a, b, b', b', size, total, count, err, Done(total));
          return Done(total);
        }
        if err == EINTR {
          DrainWaits(a, b, b', b', size, total, err);
          continue;
        }
        if err == EAGAIN {
          if total > 0 {
            DrainStops(a, b, b', b', size, total, count, err, Done(total));
            return Done(total);
          }
          var resumed := Wait(Read, c.w);
          if !resumed {
            DrainStops(a, b, b', Snap(), size, total, count, err, Ongoing);
            return Ongoing;
          }
          DrainWaits(a, b, b', Snap(), size, total, err);
          continue;
        }
        DrainStops(a, b, b', b', size, total, count, err, Threw);
        return Threw;
      }
    }

    /** One `recv` behind the bytes already in the buffer. */
    method ReceiveMore(buffer: array<char>, total: nat, size: nat, ghost a: Snapshot, ghost space: string)
      returns (count: int, err: Errno)
      requires script != [] && total <= size <= buffer.Length && total <= |a.inbound|
      requires inbound == a.inbound[total..] && consumed == a.consumed + a.inbound[..total]
      requires Filled(buffer[..], a.inbound, space, total)
      modifies this`inbound, this`consumed, this`script, this`dry, buffer
      ensures Received(a, old(Snap()), Snap(), size, total, count, err)
      ensures Filled(buffer[..], a.inbound, space, total + if count < 0 then 0 else count)
      ensures dry == (err == EAGAIN || (count == 0 && size > total))
    {
      hide Filled, Placed;
      ghost var before := buffer[..];
      count, err := Recv(buffer, total, size - total);
      ghost var k := if count < 0 then 0 else count;
      TakeTwice(a.consumed, a.inbound, total, k);
      FilledMore(before, buffer[..], a.inbound, space, total, k);
    }

    /** `async_write`: everything is sent in order, or a prefix of it is. */
    method AsyncWrite(data: string) returns (r: IoResult)
      modifies this`sent, this`script, this`waits, this`fd, this`hasLoop, this`removed
      ensures Suffix(script, old(script))
      ensures var k := |sent| - |old(sent)|;
              && 0 <= k <= |data| && sent == old(sent) + data[..k] && (r.Done? ==> r.n == k == |data|)
              && (r == Ongoing ==> k < |data|)
              && (r != Threw ==> Productive(old(script)) <= Productive(script) + k)
      ensures !old(Snap()).Open() ==> sent == old(sent)
      ensures waits == old(waits) + Slept(Used(old(script), script), Writes) && Stays(old(Snap()), Snap(), Writes)
      ensures r.Done? ==> SameSocket(old(Snap()), Snap())
      ensures r == Threw <==> Broken(old(Snap()), Snap())
      ensures r == Ongoing ==> Stalled(old(Snap()), Snap())
      ensures old(Snap()).Healthy() && Productive(old(script)) >= |data| ==> r.Done?
    {
      if !hasLoop || fd < 0 {
        return Threw;
      }
      hide WriteRun, Productive;
      ghost var s0 := Snap();
      WriteRunFair(script, |data|, true);
      r := WriteLoop(data);
      FairMeans(s0, Snap(), WriteRun(s0.script, |data|, true));
    }

    /** One `send` of what is left. */
    method SendMore(data: string, total: nat) returns (count: int, err: Errno)
      requires script != [] && total <= |data|
      modifies this`sent, this`script
      ensures Sending(old(Snap()), Snap(), data, total, count, err)
    {
      count, err := Send(data[total..]);
    }

    method WriteLoop(data: string) returns (r: IoResult)
      requires hasLoop && fd >= 0
      modifies this`sent, this`script, this`waits, this`fd, this`hasLoop, this`removed
      ensures WriteEnds(old(Snap()), Snap(), data, r)
    {
      var total := 0;
      ghost var a := Snap();
      WriteStarts(a, data);
      hide WriteInv, WriteEnds, Sending, Min;
      while total < |data|
        invariant 0 <= total <= |data| && WriteInv(a, Snap(), data, total)
        decreases |script|
      {
        ghost var b := Snap();
        WriteTurn(a, b, data, total);
        if script == [] {
          return Ongoing;
        }
        var c := script[0];
        var count, err := SendMore(data, total);
        ghost var b' := Snap();
        SendingMeans(b, b', data, total, count, err);
        if count > 0 {
          WriteGoesOn(a, b, b', b', data, total, count, err);
          total := total + count;
          continue;
        }
        if err == EINTR {
          WriteGoesOn(a, b, b', b', data, total, count, err);
          continue;
        }
        if count == 0 || err == EAGAIN {
          var resumed := Wait(Write, if c.Again? then c.w else Ready);
          WriteGoesOn(a, b, b', Snap(), data, total, count, err);
          if !resumed {
            return Ongoing;
          }
          continue;
        }
        WriteGoesOn(a, b, b', b', data, total, count, err);
        return Threw;
      }
      WriteTurn(a, Snap(), data, total);
      return Done(total);
    }
  }

  lemma NotOpen(s: Snapshot, kind: Kind)
    ensures Slept(Used(s.script, s.script), kind) == {} && Stays(s, s, kind) && Suffix(s.script, s.script)
    ensures !s.Open() ==> Broken(s, s)
  {
    SleepsNot(kind);
  }

  /** What the end of a drain means for the socket. */
  lemma DrainMeans(a: Snapshot, b: Snapshot, size: nat, r: IoResult, k: nat)
    requires a.Open() && DrainEnds(a, b, size, r, k)
    ensures Suffix(b.script, a.script) && Stays(a, b, Drains) && b.waits == a.waits + Slept(Used(a.script, b.script), Drains)
    ensures k <= size && k <= |a.inbound| && b.inbound == a.inbound[k..] && b.consumed == a.consumed + a.inbound[..k]
    ensures r.Done? ==> r.n == k && SameSocket(a, b) && |b.script| < |a.script|
    ensures r != Threw ==> Productive(a.script) <= Productive(b.script) + k + (if r.Done? then 1 else 0)
    ensures r == Threw && k > 0 <==> Loses(a.script, Min(|a.inbound|, size))
    ensures r == Done(0) ==> size == 0 || a.inbound == ""
    ensures (r == Threw <==> Broken(a, b)) && (r == Ongoing ==> Stalled(a, b))
    ensures a.Healthy() && Productive(a.script) > Min(size, |a.inbound|) ==> r.Done?
  {
    hide EtRun, Loses, Productive, Fair, Stays, Slept;
    EtRunFair(a.script, |a.inbound|, size, 0, true);
    LosesExactly(a.script, |a.inbound|, size);
    FairMeans(a, b, EtRun(a.script, |a.inbound|, size, 0, true));
  }

  /** What a loop owes to its script, in terms of the socket. */
  lemma FairMeans(s0: Snapshot, s: Snapshot, e: End)
    requires s0.Open() && Suffix(s.script, s0.script) && e.used == |s0.script| - |s.script| && Fair(s0.script, e, true)
    ensures s.script == s0.script[e.used..]
    ensures e.r == Threw <==> Broken(s0, s)
    ensures e.r == Ongoing ==> Stalled(s0, s)
    ensures s0.Healthy() ==> e.r != Threw && (e.r == Ongoing ==> s.script == [] && Productive(s.script) == 0)
  {
    HealthyIsWell(s0, s);
  }

  /** `TcpServer`: the connections that wait to be accepted, and those a coroutine has let go of again. */
  class TcpServer {
    var fd: int
    var hasLoop: bool
    var backlog: seq<int>
    var accepted: seq<int>
    var closed: seq<int>
    var script: seq<Choice>

    constructor (fd: int, backlog: seq<int>, script: seq<Choice>)
      ensures this.fd == fd && hasLoop && this.backlog == backlog && accepted == [] && closed == [] && this.script == script
    {
      this.fd, this.hasLoop, this.backlog, this.script := fd, true, backlog, script;
      accepted, closed := [], [];
    }

    /** `accept4`. With nobody waiting it reports EAGAIN. */
    method Accept() returns (client: int, err: Errno)
      requires script != []
      modifies this`backlog, this`accepted, this`script
      ensures script == old(script)[1..]
      ensures if err == None then old(backlog) == [client] + backlog && accepted == old(accepted) + [client]
              else backlog == old(backlog) && accepted == old(accepted)
      ensures err == Hard <==> fd < 0 || old(script)[0].Fail?
      ensures fd >= 0 ==> (err == EINTR <==> old(script)[0].Intr?)
                          && (err == EAGAIN <==> old(script)[0].Again? || (old(script)[0].Xfer? && old(backlog) == []))
    {
      var c := script[0];
      script := script[1..];
      if fd < 0 || c.Fail? {
        return -1, Hard;
      }
      if c.Intr? {
        return -1, EINTR;
      }
      if c.Again? || backlog == [] {
        return -1, EAGAIN;
      }
      client, err := backlog[0], None;
      backlog := backlog[1..];
      accepted := accepted + [client];
    }

    ghost function Snap(): Listener
      reads this
    {
      Listener(fd, hasLoop, backlog, accepted, closed, script)
    }

    /** `async_accept_et`: wait for an edge, then drain. The connections come in order; a hard error in the middle of the
        drain closes the ones accepted before it. `w` is how the wait at the beginning ends. After it nothing waits: one
        entry more than there are connections, not counting interruptions, is enough for the drain to end. */
    method AsyncAcceptEt(w: Wake) returns (clients: seq<int>, r: IoResult)
      modifies this
      ensures AcceptEnds(old(Snap()), Snap(), w, clients, r)
      ensures old(Snap()).Open() && w == Ready && Calls(old(script)) > |old(backlog)| ==> r != Ongoing
    {
      clients := [];
      ghost var a := Snap();
      AcceptRefused(a, w);
      hide AcceptInv, AcceptEnds, Calls;
      if !hasLoop || fd < 0 {
        return clients, Threw;
      }
      AcceptStarts(a, w);
      if w == AfterClose {
        fd, hasLoop := -1, false;
      }
      if w == Forgotten {
        return clients, Ongoing;
      }
      while true
        invariant AcceptInv(a, Snap(), w, clients)
        decreases |script|
      {
        ghost var b := Snap();
        if script == [] {
          AcceptRunsOut(a, b, w, clients);
          return clients, Ongoing;
        }
        var client, err := Accept();
        if err == None {
          AcceptsOne(a, b, Snap(), w, clients, client);
          clients := clients + [client];
          continue;
        }
        if err == EINTR {
          AcceptSkips(a, b, Snap(), w, clients);
          continue;
        }
        if err == EAGAIN {
          AcceptDrained(a, b, Snap(), w, clients);
          return clients, Done(|clients|);
        }
        closed := closed + clients;
        AcceptFails(a, b, Snap(), w, clients);
        return [], Threw;
      }
    }
  }

  /** The state of a listening socket as a value. */
  datatype Listener = Listener(fd: int, hasLoop: bool, backlog: seq<int>, accepted: seq<int>, closed: seq<int>,
                               script: seq<Choice>)
  {
    predicate Open() { fd >= 0 && hasLoop }
  }

  /** What `async_accept_et` has done by the time it ends, or by now. */
  ghost predicate AcceptEnds(a: Listener, b: Listener, w: Wake, clients: seq<int>, r: IoResult) {
    var k := |b.accepted| - |a.accepted|;
    && 0 <= k <= |a.backlog| && b.backlog == a.backlog[k..] && b.accepted == a.accepted + a.backlog[..k]
    && (r.Done? ==> clients == a.backlog[..k] && r.n == k && b.closed == a.closed)
    && (r == Threw ==> clients == [] && b.closed == a.closed + a.backlog[..k])
    && (r == Ongoing ==> b.closed == a.closed && (w == Forgotten || (b.script == [] && Calls(a.script) <= k)))
    && (r.Done? && (forall c :: c in a.script ==> !c.Again?) ==> b.backlog == [])
    && (r.Done? ==>
          var u := Used(a.script, b.script);
          && u != [] && (u[|u| - 1].Again? || (u[|u| - 1].Xfer? && b.backlog == []))
          && Calls(a.script) == Calls(b.script) + k + 1)
    && Suffix(b.script, a.script)
    && (if a.Open() && w == AfterClose then b.fd == -1 && !b.hasLoop else b.fd == a.fd && b.hasLoop == a.hasLoop)
    && (r == Threw <==>
          || !a.Open()
          || (w == AfterClose && a.script != [])
          || (w == Ready && var u := Used(a.script, b.script); u != [] && u[|u| - 1] == Fail))
  }

  /** The drain after having accepted `clients`. */
  ghost predicate AcceptInv(a: Listener, b: Listener, w: Wake, clients: seq<int>) {
    && a.Open() && w != Forgotten && |clients| <= |a.backlog| && clients == a.backlog[..|clients|]
    && b.backlog == a.backlog[|clients|..] && b.accepted == a.accepted + clients && b.closed == a.closed
    && Suffix(b.script, a.script)
    && (if w == AfterClose then b.fd == -1 && !b.hasLoop && b.script == a.script && clients == []
        else b.fd == a.fd && b.hasLoop == a.hasLoop)
    && (w == Ready ==> var u := Used(a.script, b.script); u == [] || u[|u| - 1] != Fail)
    && Calls(a.script) == Calls(b.script) + |clients|
  }

  lemma AcceptRefused(a: Listener, w: Wake)
    ensures !a.Open() ==> AcceptEnds(a, a, w, [], Threw)
    ensures a.Open() && w == Forgotten ==> AcceptEnds(a, a, w, [], Ongoing)
  {
  }

  lemma AcceptStarts(a: Listener, w: Wake)
    requires a.Open()
    ensures w != Forgotten ==> AcceptInv(a, if w == AfterClose then a.(fd := -1, hasLoop := false) else a, w, [])
  {
    assert a.backlog[..0] == [] && a.accepted + [] == a.accepted;
  }

  lemma AcceptRunsOut(a: Listener, b: Listener, w: Wake, clients: seq<int>)
    requires AcceptInv(a, b, w, clients) && b.script == []
    ensures AcceptEnds(a, b, w, clients, Ongoing) && Calls(a.script) <= |a.backlog|
  {
    assert Calls(b.script) == 0 && Used(a.script, b.script) == a.script;
    hide Calls, Used, Suffix;
  }

  lemma AcceptsOne(a: Listener, b: Listener, c: Listener, w: Wake, clients: seq<int>, client: int)
    requires AcceptInv(a, b, w, clients) && b.script != [] && b.fd >= 0 && b.script[0] != Fail && !b.script[0].Intr?
    requires b.backlog == [client] + c.backlog
    requires c == b.(script := b.script[1..], backlog := c.backlog, accepted := b.accepted + [client])
    ensures AcceptInv(a, c, w, clients + [client])
  {
    var n := |clients|;
    UsedStep(a.script, b.script);
    UsedGrows(a.script, b.script);
    assert a.backlog[n..][0] == client;
    assert a.backlog[..n + 1] == a.backlog[..n] + [client] && a.backlog[n..][1..] == a.backlog[n + 1..];
    assert c.backlog == b.backlog[1..];
    hide Used, Suffix;
  }

  lemma AcceptSkips(a: Listener, b: Listener, c: Listener, w: Wake, clients: seq<int>)
    requires AcceptInv(a, b, w, clients) && b.script != [] && b.fd >= 0 && b.script[0].Intr? && c == b.(script := b.script[1..])
    ensures AcceptInv(a, c, w, clients)
  {
    hide Used, Suffix;
    UsedStep(a.script, b.script);
    UsedGrows(a.script, b.script);
  }

  lemma AcceptDrained(a: Listener, b: Listener, c: Listener, w: Wake, clients: seq<int>)
    requires AcceptInv(a, b, w, clients) && b.script != [] && b.fd >= 0 && c == b.(script := b.script[1..])
    requires b.script[0].Again? || (b.script[0].Xfer? && b.backlog == [])
    ensures AcceptEnds(a, c, w, clients, Done(|clients|))
  {
    UsedStep(a.script, b.script);
    UsedGrows(a.script, b.script);
    assert b.script[0] == a.script[|a.script| - |b.script|];
    hide Used, Suffix;
  }

  lemma AcceptFails(a: Listener, b: Listener, c: Listener, w: Wake, clients: seq<int>)
    requires AcceptInv(a, b, w, clients) && b.script != [] && (b.fd < 0 || b.script[0] == Fail)
    requires c == b.(script := b.script[1..], closed := b.closed + clients)
    ensures AcceptEnds(a, c, w, [], Threw)
  {
    hide Used, Suffix;
    UsedStep(a.script, b.script);
    UsedGrows(a.script, b.script);
  }

  /** The entries that are not interruptions. */
  function Calls(script: seq<Choice>): nat {
    if script == [] then 0 else (if script[0].Intr? then 0 else 1) + Calls(script[1..])
  }
}
