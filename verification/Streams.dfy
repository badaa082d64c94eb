/** The two example servers that move bytes: the proxy's relay and the edge-triggered echo. */
module Streams {
  import opened Epoll
  import opened Sockets

  /** How a handler ends: at end of file, by an exception it catches, or not yet. `More` is a round done with no end in
      sight. */
  datatype Finish = Eof | Failed | Pending | More

  const RELAY_BUFFER: nat := 8192
  const ECHO_BUFFER: nat := 4096

  /** The first `got` bytes of f have been taken. */
  ghost predicate Took(f: Snapshot, f': Snapshot, got: nat) {
    got <= |f.inbound| && f'.inbound == f.inbound[got..] && f'.consumed == f.consumed + f.inbound[..got]
  }

  /** The first `put` bytes of f have been sent on t. */
  ghost predicate Gave(f: Snapshot, t: Snapshot, t': Snapshot, put: nat) {
    put <= |f.inbound| && t'.sent == t.sent + f.inbound[..put]
  }

  /** Between two moments of a transfer from f to t: what arrived came in order, what was sent is a prefix of it, and at
      most `lag` bytes are in between; nothing else about the two connections has changed. */
  ghost predicate Transfer(f: Snapshot, t: Snapshot, f': Snapshot, t': Snapshot, end: Finish, lag: nat) {
    var (got, put) := (|f'.consumed| - |f.consumed|, |t'.sent| - |t.sent|);
    && 0 <= put <= got && got - put <= lag && Took(f, f', got) && Gave(f, t, t', put)
    && (end == More ==> put == got && SameSocket(f, f') && SameSocket(t, t'))
    && (end == Eof ==> put == got == |f.inbound|)
  }

  /** The scripts have been used from the front; f has waited only to read, t only to write. */
  ghost predicate Tidy(f: Snapshot, t: Snapshot, f': Snapshot, t': Snapshot) {
    && Suffix(f'.script, f.script) && Suffix(t'.script, t.script)
    && f'.waits <= f.waits + {Read} && t'.waits <= t.waits + {Write}
  }

  /** What a transfer owes to the scripts: each entry that offers data has moved some, one more may have told of the end;
      it fails or has not ended only for a reason at the end of what has been used. */
  ghost predicate Owes(f: Snapshot, t: Snapshot, f': Snapshot, t': Snapshot, end: Finish) {
    var (got, put) := (|f'.consumed| - |f.consumed|, |t'.sent| - |t.sent|);
    && (end != Failed ==>
          && Productive(f.script) <= Productive(f'.script) + got + (if end == Eof then 1 else 0)
          && Productive(t.script) <= Productive(t'.script) + put)
    && (end == Failed ==> Broken(f, f') || Broken(t, t'))
    && (end == Pending ==> Stalled(f, f') || (Stalled(t, t') && put < got))
  }

  lemma TookTwice(f: Snapshot, f1: Snapshot, f2: Snapshot, n: nat, got: nat)
    requires Took(f, f1, n) && Took(f1, f2, got)
    ensures |f1.inbound| == |f.inbound| - n && Took(f, f2, n + got)
  {
    TakeTwice(f.consumed, f.inbound, n, got);
  }

  lemma GaveTwice(f: Snapshot, f1: Snapshot, t: Snapshot, t1: Snapshot, t2: Snapshot, n: nat, put: nat)
    requires Took(f, f1, n) && Gave(f, t, t1, n) && Gave(f1, t1, t2, put)
    ensures Gave(f, t, t2, n + put)
  {
    TakeTwice(t.sent, f.inbound, n, put);
  }

  lemma TransferThen(f: Snapshot, t: Snapshot, f1: Snapshot, t1: Snapshot, f2: Snapshot, t2: Snapshot, end: Finish, lag: nat)
    requires Transfer(f, t, f1, t1, More, lag) && Transfer(f1, t1, f2, t2, end, lag)
    ensures Transfer(f, t, f2, t2, end, lag)
  {
    var n, got, put := |f1.consumed| - |f.consumed|, |f2.consumed| - |f1.consumed|, |t2.sent| - |t1.sent|;
    hide Took, Gave;
    TookTwice(f, f1, f2, n, got);
    GaveTwice(f, f1, t, t1, t2, n, put);
  }

  lemma TidyThen(f: Snapshot, t: Snapshot, f1: Snapshot, t1: Snapshot, f2: Snapshot, t2: Snapshot)
    requires Tidy(f, t, f1, t1) && Tidy(f1, t1, f2, t2)
    ensures Tidy(f, t, f2, t2)
  {
    SuffixTwice(f.script, f1.script, f2.script);
    SuffixTwice(t.script, t1.script, t2.script);
    hide Suffix;
  }

  lemma SuffixTwice<T>(a: seq<T>, b: seq<T>, c: seq<T>)
    requires Suffix(b, a) && Suffix(c, b)
    ensures Suffix(c, a) && |c| <= |b|
  {
  }

  lemma OwesThen(f: Snapshot, t: Snapshot, f1: Snapshot, t1: Snapshot, f2: Snapshot, t2: Snapshot, end: Finish, lag: nat)
    requires Transfer(f, t, f1, t1, More, lag) && Transfer(f1, t1, f2, t2, end, lag)
    requires Tidy(f, t, f1, t1) && Tidy(f1, t1, f2, t2) && Owes(f, t, f1, t1, More) && Owes(f1, t1, f2, t2, end)
    ensures Owes(f, t, f2, t2, end)
  {
    ReasonsCarry(f, f1, f2);
    ReasonsCarry(t, t1, t2);
    hide Suffix, Broken, Stalled, Productive;
  }

  /** Progress: with enough entries that offer data, and none that breaks or forgets, a transfer comes to the end. */
  lemma TransferEnds(f: Snapshot, t: Snapshot, f': Snapshot, t': Snapshot, end: Finish, lag: nat)
    requires Transfer(f, t, f', t', end, lag) && Owes(f, t, f', t', end) && end != More
    requires f.Healthy() && t.Healthy() && Productive(f.script) > |f.inbound| && Productive(t.script) >= |f.inbound|
    ensures end == Eof
  {
    HealthyIsWell(f, f');
    HealthyIsWell(t, t');
    hide Broken, Stalled, Snapshot.Healthy;
  }

  /** One round of `relay`. */
  method RelayRound(from: TcpSocket, to: TcpSocket, buffer: array<char>) returns (end: Finish)
    requires from != to && buffer.Length == RELAY_BUFFER
    modifies from, to, buffer
    ensures Transfer(old(from.Snap()), old(to.Snap()), from.Snap(), to.Snap(), end, RELAY_BUFFER)
    ensures Tidy(old(from.Snap()), old(to.Snap()), from.Snap(), to.Snap())
    ensures Owes(old(from.Snap()), old(to.Snap()), from.Snap(), to.Snap(), end)
    ensures from.sent == old(from.sent) && to.inbound == old(to.inbound) && to.consumed == old(to.consumed)
    ensures Lives(old(from.Snap()), from.Snap()) && Lives(old(to.Snap()), to.Snap())
    ensures end == More ==> |from.script| < |old(from.script)|
  {
    hide Broken, Stalled, Productive, Suffix;
    assert Suffix(to.script, to.script) by { SuffixSelf(to.script); }
    var r := from.AsyncRead(buffer, buffer.Length);
    if r == Ongoing {
      return Pending;
    }
    if r == Threw {
      return Failed;
    }
    if r.n == 0 {
      return Eof;
    }
    var w := to.AsyncWrite(buffer[..r.n]);
    if w == Ongoing {
      return Pending;
    }
    return if w == Threw then Failed else More;
  }

  lemma SuffixSelf<T>(a: seq<T>)
    ensures Suffix(a, a)
  {
  }

  /** `relay`: whatever the kernel does and at every moment, what has been sent is a prefix of what has been received,
      and all of what the peer sent once the relay has seen its end. It never waits in a slot of the opposite direction,
      it closes both sockets when it ends, and it does end, with everything passed on, if the kernel offers to move data
      often enough and nothing goes wrong. */
  method Relay(from: TcpSocket, to: TcpSocket) returns (end: Finish)
    requires from != to
    modifies from, to
    ensures end != More
    ensures Transfer(old(from.Snap()), old(to.Snap()), from.Snap(), to.Snap(), end, RELAY_BUFFER)
    ensures Tidy(old(from.Snap()), old(to.Snap()), from.Snap(), to.Snap())
    ensures Owes(old(from.Snap()), old(to.Snap()), from.Snap(), to.Snap(), end)
    ensures from.sent == old(from.sent) && to.inbound == old(to.inbound) && to.consumed == old(to.consumed)
    ensures end != Pending ==> Gone(old(from.Snap()), from.Snap()) && Gone(old(to.Snap()), to.Snap())
    ensures old(from.Snap()).Healthy() && old(to.Snap()).Healthy()
            && Productive(old(from.script)) > |old(from.inbound)| && Productive(old(to.script)) >= |old(from.inbound)| ==>
              end == Eof && to.sent == old(to.sent) + old(from.inbound)
  {
    var buffer := new char[RELAY_BUFFER];
    ghost var f, t := from.Snap(), to.Snap();
    end := More;
    RelayStarts(f, t);
    while end == More
      invariant fresh(buffer)
      invariant Transfer(f, t, from.Snap(), to.Snap(), end, RELAY_BUFFER) && Tidy(f, t, from.Snap(), to.Snap())
      invariant Owes(f, t, from.Snap(), to.Snap(), end)
      invariant from.sent == old(from.sent) && to.inbound == old(to.inbound) && to.consumed == old(to.consumed)
      invariant Lives(f, from.Snap()) && Lives(t, to.Snap())
      decreases if end == More then |from.script| + 1 else 0
    {
      ghost var f1, t1 := from.Snap(), to.Snap();
      hide Transfer, Tidy, Owes, Lives, Snapshot.Healthy, Productive;
      end := RelayRound(from, to, buffer);
      LivesOn(f, f1, from.Snap());
      LivesOn(t, t1, to.Snap());
      TransferThen(f, t, f1, t1, from.Snap(), to.Snap(), end, RELAY_BUFFER);
      TidyThen(f, t, f1, t1, from.Snap(), to.Snap());
      OwesThen(f, t, f1, t1, from.Snap(), to.Snap(), end, RELAY_BUFFER);
    }
    if f.Healthy() && t.Healthy() && Productive(f.script) > |f.inbound| && Productive(t.script) >= |f.inbound| {
      TransferEnds(f, t, from.Snap(), to.Snap(), end, RELAY_BUFFER);
      AllSent(f, t, from.Snap(), to.Snap());
    }
    if end == Pending {
      return;
    }
    ghost var f2, t2 := from.Snap(), to.Snap();
    from.Close();
    to.Close();
    CloseKeeps(f, t, f2, t2, from.Snap(), to.Snap(), end);
  }

  lemma RelayStarts(f: Snapshot, t: Snapshot)
    ensures Transfer(f, t, f, t, More, RELAY_BUFFER) && Tidy(f, t, f, t) && Owes(f, t, f, t, More)
  {
    assert f.consumed + f.inbound[..0] == f.consumed && t.sent + f.inbound[..0] == t.sent;
  }

  lemma AllSent(f: Snapshot, t: Snapshot, f': Snapshot, t': Snapshot)
    requires Transfer(f, t, f', t', Eof, RELAY_BUFFER)
    ensures t'.sent == t.sent + f.inbound
  {
    assert f.inbound[..|f.inbound|] == f.inbound;
  }

  lemma CloseKeeps(f: Snapshot, t: Snapshot, f1: Snapshot, t1: Snapshot, f2: Snapshot, t2: Snapshot, end: Finish)
    requires Transfer(f, t, f1, t1, end, RELAY_BUFFER) && Tidy(f, t, f1, t1) && Owes(f, t, f1, t1, end) && end != More
    requires f2 == f1.(fd := f2.fd, hasLoop := f2.hasLoop, removed := f2.removed)
    requires t2 == t1.(fd := t2.fd, hasLoop := t2.hasLoop, removed := t2.removed)
    ensures Transfer(f, t, f2, t2, end, RELAY_BUFFER) && Tidy(f, t, f2, t2) && Owes(f, t, f2, t2, end)
  {
    hide Productive, Used, Suffix;
  }

  // ------------------------------------------------------------------- echo

  /** How one `co_await pool.submit` ends: with the result of the function, with an exception (of the function, or because
      the pool is stopped), or not yet. */
  datatype Submission = Returns | Raises | Unfinished

  function ProcessPayload(input: string): string { input }

  /** What the echo owes: of three entries that offer data at most two go by for a byte that has not been echoed yet. */
  ghost predicate EchoOwes(s: Snapshot, s': Snapshot, end: Finish, raises: bool, unfinished: bool) {
    var got := |s'.consumed| - |s.consumed|;
    && (end != Failed ==> Productive(s.script) <= Productive(s'.script) + 3 * got + (if end == Eof then 1 else 0))
    && (end == Failed ==> Broken(s, s') || raises)
    && (end == Pending ==> Stalled(s, s') || unfinished)
  }

  /** Hand the input to the pool and write back what it returns. */
  method Reply(socket: TcpSocket, input: string, s: Submission) returns (end: Finish)
    modifies socket
    ensures var k := |socket.sent| - |old(socket.sent)|;
            && 0 <= k <= |input| && socket.sent == old(socket.sent) + input[..k] && (end == More ==> k == |input|)
            && (end != Failed ==> Productive(old(socket.script)) <= Productive(socket.script) + k)
    ensures s != Returns ==> end != More && socket.sent == old(socket.sent)
    ensures socket.inbound == old(socket.inbound) && socket.consumed == old(socket.consumed)
    ensures Suffix(socket.script, old(socket.script)) && end != Eof
    ensures Lives(old(socket.Snap()), socket.Snap()) && (end == More ==> SameSocket(old(socket.Snap()), socket.Snap()))
    ensures end == Failed ==> Broken(old(socket.Snap()), socket.Snap()) || s == Raises
    ensures end == Pending ==> Stalled(old(socket.Snap()), socket.Snap()) || s == Unfinished
  {
    SuffixSelf(socket.script);
    hide Broken, Stalled, Productive, Suffix;
    if s == Unfinished {
      return Pending;
    }
    if s == Raises {
      return Failed;
    }
    var output := ProcessPayload(input);
    var w := socket.AsyncWrite(output);
    if w == Ongoing {
      return Pending;
    }
    return if w == Threw then Failed else More;
  }

  lemma NothingBack(s0: Snapshot, s1: Snapshot)
    requires var k := |s1.consumed| - |s0.consumed|;
             && 0 <= k <= ECHO_BUFFER && k <= |s0.inbound|
             && s1.inbound == s0.inbound[k..] && s1.consumed == s0.consumed + s0.inbound[..k]
    requires s1.sent == s0.sent
    ensures Transfer(s0, s0, s1, s1, Pending, ECHO_BUFFER) && Transfer(s0, s0, s1, s1, Failed, ECHO_BUFFER)
    ensures s0.inbound == "" ==> Transfer(s0, s0, s1, s1, Eof, ECHO_BUFFER)
  {
  }

  lemma DrainOwes(s: Snapshot, s': Snapshot, r: IoResult, raises: bool, unfinished: bool)
    requires |s.consumed| <= |s'.consumed|
    requires r == Threw ==> Broken(s, s')
    requires r == Ongoing ==> Stalled(s, s')
    requires r != Threw ==> Productive(s.script) <= Productive(s'.script) + (|s'.consumed| - |s.consumed|)
                                                    + (if r.Done? then 1 else 0)
    ensures EchoOwes(s, s', if r == Threw then Failed else if r == Ongoing then Pending else Eof, raises, unfinished)
  {
  }

  lemma ReplyOwes(s0: Snapshot, s1: Snapshot, s2: Snapshot, end: Finish, raises: bool, unfinished: bool, n: nat, k: nat)
    requires n > 0 && k <= n && |s1.consumed| == |s0.consumed| + n && |s2.consumed| == |s1.consumed|
    requires Productive(s0.script) <= Productive(s1.script) + n + 1
    requires end != Failed ==> Productive(s1.script) <= Productive(s2.script) + k
    requires end == Failed ==> Broken(s0, s2) || raises
    requires end == Pending ==> Stalled(s0, s2) || unfinished
    ensures EchoOwes(s0, s2, end, raises, unfinished)
  {
  }

  lemma EchoedBack(s0: Snapshot, s1: Snapshot, s2: Snapshot, input: string, end: Finish)
    requires |input| <= |s0.inbound| && input == s0.inbound[..|input|] && |input| <= ECHO_BUFFER && end != Eof
    requires s1.inbound == s0.inbound[|input|..] && s1.consumed == s0.consumed + input && s1.sent == s0.sent
    requires s2.inbound == s1.inbound && s2.consumed == s1.consumed
    requires var k := |s2.sent| - |s1.sent|;
             0 <= k <= |input| && s2.sent == s1.sent + input[..k] && (end == More ==> k == |input|)
    requires end == More ==> SameSocket(s0, s2)
    ensures Transfer(s0, s0, s2, s2, end, ECHO_BUFFER)
  {
    var k := |s2.sent| - |s1.sent|;
    assert s0.inbound[..k] == input[..k];
  }

  /** The drain at the head of a round, with the input it has put into the buffer. */
  method Drain(socket: TcpSocket, buffer: array<char>) returns (r: IoResult, input: string)
    requires buffer.Length == ECHO_BUFFER
    modifies socket, buffer
    ensures Transfer(old(socket.Snap()), old(socket.Snap()), socket.Snap(), socket.Snap(),
                     if r == Done(0) then Eof else if r == Threw then Failed else Pending, ECHO_BUFFER)
    ensures Suffix(socket.script, old(socket.script)) && (r.Done? ==> |socket.script| < |old(socket.script)|)
    ensures r.Done? ==> |input| == r.n <= ECHO_BUFFER && r.n <= |old(socket.inbound)| && input == old(socket.inbound)[..r.n]
                        && socket.consumed == old(socket.consumed) + input && socket.inbound == old(socket.inbound)[r.n..]
                        && SameSocket(old(socket.Snap()), socket.Snap())
    ensures socket.sent == old(socket.sent) && Lives(old(socket.Snap()), socket.Snap())
    ensures r == Threw ==> Broken(old(socket.Snap()), socket.Snap())
    ensures r == Ongoing ==> Stalled(old(socket.Snap()), socket.Snap())
    ensures var k := |socket.consumed| - |old(socket.consumed)|;
            r != Threw ==> Productive(old(socket.script)) <= Productive(socket.script) + k + (if r.Done? then 1 else 0)
  {
    ghost var before := socket.Snap();
    hide Stalled, Broken, Transfer, Suffix, Productive, Loses;
    r := socket.AsyncReadEt(buffer, buffer.Length);
    NothingBack(before, socket.Snap());
    input := if r.Done? then buffer[..r.n] else "";
  }

  /** One round of the echo's `handle_client`: drain, hand to the pool, write back. */
  method EchoRound(socket: TcpSocket, buffer: array<char>, s: Submission) returns (end: Finish)
    requires buffer.Length == ECHO_BUFFER
    modifies socket, buffer
    ensures Transfer(old(socket.Snap()), old(socket.Snap()), socket.Snap(), socket.Snap(), end, ECHO_BUFFER)
    ensures Suffix(socket.script, old(socket.script)) && (end == More ==> |socket.script| < |old(socket.script)|)
    ensures EchoOwes(old(socket.Snap()), socket.Snap(), end, s == Raises,
                     s == Unfinished && |old(socket.consumed)| < |socket.consumed|)
    ensures end == More ==> |old(socket.consumed)| < |socket.consumed|
    ensures Lives(old(socket.Snap()), socket.Snap())
    ensures |socket.sent| <= |old(socket.sent)| + (if s == Returns then ECHO_BUFFER else 0) && (end == More ==> s == Returns)
  {
    ghost var before := socket.Snap();
    hide Stalled, Broken, Transfer, Suffix, Productive, EchoOwes;
    var r, input := Drain(socket, buffer);
    ghost var mid := socket.Snap();
    if !r.Done? || r.n == 0 {
      DrainOwes(before, mid, r, s == Raises, s == Unfinished && |before.consumed| < |mid.consumed|);
    }
    if !r.Done? {
      return if r == Threw then Failed else Pending;
    }
    if r.n == 0 {
      return Eof;
    }
    end := Reply(socket, input, s);
    ReasonsCarry(before, mid, socket.Snap());
    SuffixTwice(before.script, mid.script, socket.script);
    ReplyOwes(before, mid, socket.Snap(), end, s == Raises, s == Unfinished && |before.consumed| < |socket.consumed|,
              r.n, |socket.sent| - |mid.sent|);
    EchoedBack(before, mid, socket.Snap(), input, end);
  }

  lemma EchoThen(s0: Snapshot, s1: Snapshot, s2: Snapshot, end: Finish, a: bool, b: bool)
    requires Suffix(s1.script, s0.script) && Suffix(s2.script, s1.script) && SameSocket(s0, s1)
    requires EchoOwes(s0, s1, More, false, false) && EchoOwes(s1, s2, end, a, b)
    ensures EchoOwes(s0, s2, end, a, b)
  {
    ReasonsCarry(s0, s1, s2);
    hide Suffix, Broken, Stalled, Productive;
  }

  /** The echo's `handle_client`: what it has sent is always a prefix of what it has received, all of it at the head of
      every round, and all the peer ever sent once it has seen the end; and it does see the end if the kernel offers to
      move data often enough, every submission returns and nothing goes wrong. The socket is closed with the frame. */
  method Echo(socket: TcpSocket, submissions: seq<Submission>) returns (end: Finish)
    modifies socket
    ensures end != More
    ensures Transfer(old(socket.Snap()), old(socket.Snap()), socket.Snap(), socket.Snap(), end, ECHO_BUFFER)
    ensures end != Pending ==> Gone(old(socket.Snap()), socket.Snap())
    ensures EchoOwes(old(socket.Snap()), socket.Snap(), end, Raises in submissions,
                     Unfinished in submissions || |submissions| < |socket.consumed| - |old(socket.consumed)|)
    ensures old(socket.Snap()).Healthy() && Productive(old(socket.script)) > 3 * |old(socket.inbound)|
            && |submissions| >= |old(socket.inbound)| && (forall s :: s in submissions ==> s == Returns) ==>
              end == Eof && socket.sent == old(socket.sent) + old(socket.inbound)
    ensures forall i :: 0 <= i <= |submissions| && (i < |submissions| ==> submissions[i] != Returns) ==>
              |socket.sent| <= |old(socket.sent)| + i * ECHO_BUFFER
  {
    var buffer := new char[ECHO_BUFFER];
    ghost var s0 := socket.Snap();
    var i := 0;
    end := More;
    EchoStarts(s0);
    while end == More
      invariant fresh(buffer) && 0 <= i
      invariant Transfer(s0, s0, socket.Snap(), socket.Snap(), end, ECHO_BUFFER) && Suffix(socket.script, s0.script)
      invariant Lives(s0, socket.Snap()) && RoundsPaid(s0, socket.Snap(), submissions, i, end)
      invariant end == More ==> EchoOwes(s0, socket.Snap(), end, false, false) && |s0.consumed| + i <= |socket.consumed|
      invariant end != More ==>
                  EchoOwes(s0, socket.Snap(), end, Raises in submissions,
                           Unfinished in submissions || |submissions| < |socket.consumed| - |s0.consumed|)
      decreases if end == More then |socket.script| + 1 else 0
    {
      ghost var s1 := socket.Snap();
      assert SameSocket(s0, s1);
      hide Transfer, EchoOwes, Lives, RoundsPaid, Suffix, Snapshot.Healthy, Productive;
      var s := if i < |submissions| then submissions[i] else Unfinished;
      end := EchoRound(socket, buffer, s);
      ghost var s2 := socket.Snap();
      LivesOn(s0, s1, s2);
      RoundPaid(s0, s1, s2, submissions, i, s, end);
      TransferThen(s0, s0, s1, s1, s2, s2, end, ECHO_BUFFER);
      EchoThen(s0, s1, s2, end, s == Raises, s == Unfinished && |s1.consumed| < |s2.consumed|);
      SuffixTwice(s0.script, s1.script, s2.script);
      EchoWeaker(s0, s2, end, s == Raises, s == Unfinished && |s1.consumed| < |s2.consumed|, Raises in submissions,
                 Unfinished in submissions || |submissions| < |s2.consumed| - |s0.consumed|);
      i := i + 1;
    }
    if s0.Healthy() && Productive(s0.script) > 3 * |s0.inbound|
       && |submissions| >= |s0.inbound| && (forall s :: s in submissions ==> s == Returns) {
      EchoEnds(s0, socket.Snap(), end);
    }
    if end == Pending {
      return;
    }
    ghost var s2 := socket.Snap();
    socket.Close();
    CloseEcho(s0, s2, socket.Snap(), end, Raises in submissions,
              Unfinished in submissions || |submissions| < |socket.consumed| - |s0.consumed|);
  }

  /** Each round that has sent anything has had a submission return, and none has gone by without. */
  ghost predicate RoundsPaid(s: Snapshot, s': Snapshot, submissions: seq<Submission>, rounds: nat, end: Finish) {
    && (end == More ==> rounds <= |submissions| && |s'.sent| <= |s.sent| + rounds * ECHO_BUFFER)
    && (end == More ==> forall i :: 0 <= i < rounds ==> submissions[i] == Returns)
    && (end != More ==>
          forall i :: 0 <= i <= |submissions| && (i < |submissions| ==> submissions[i] != Returns) ==>
            |s'.sent| <= |s.sent| + i * ECHO_BUFFER)
  }

  lemma RoundPaid(s0: Snapshot, s1: Snapshot, s2: Snapshot, submissions: seq<Submission>, i: nat, s: Submission, end: Finish)
    requires RoundsPaid(s0, s1, submissions, i, More)
    requires s == if i < |submissions| then submissions[i] else Unfinished
    requires |s2.sent| <= |s1.sent| + (if s == Returns then ECHO_BUFFER else 0) && (end == More ==> s == Returns)
    ensures RoundsPaid(s0, s2, submissions, i + 1, end)
  {
    forall j | i + 1 <= j
      ensures (i + 1) * ECHO_BUFFER <= j * ECHO_BUFFER
    {
    }
  }

  lemma EchoStarts(s: Snapshot)
    ensures Transfer(s, s, s, s, More, ECHO_BUFFER) && Suffix(s.script, s.script) && EchoOwes(s, s, More, false, false)
  {
    assert s.consumed + s.inbound[..0] == s.consumed && s.sent + s.inbound[..0] == s.sent;
  }

  lemma EchoWeaker(s: Snapshot, s': Snapshot, end: Finish, a: bool, b: bool, c: bool, d: bool)
    requires EchoOwes(s, s', end, a, b) && (a ==> c) && (b ==> d)
    ensures EchoOwes(s, s', end, c, d) && (end == More ==> EchoOwes(s, s', end, false, false))
  {
    hide Broken, Stalled, Productive;
  }

  lemma EchoEnds(s: Snapshot, s': Snapshot, end: Finish)
    requires Transfer(s, s, s', s', end, ECHO_BUFFER) && EchoOwes(s, s', end, false, false) && end != More
    requires s.Healthy() && Productive(s.script) > 3 * |s.inbound|
    ensures end == Eof && s'.sent == s.sent + s.inbound
  {
    HealthyIsWell(s, s');
    hide Broken, Stalled, Snapshot.Healthy;
    assert s.inbound[..|s.inbound|] == s.inbound;
  }

  lemma CloseEcho(s: Snapshot, s1: Snapshot, s2: Snapshot, end: Finish, a: bool, b: bool)
    requires Transfer(s, s, s1, s1, end, ECHO_BUFFER) && EchoOwes(s, s1, end, a, b) && end != More
    requires s2 == s1.(fd := s2.fd, hasLoop := s2.hasLoop, removed := s2.removed)
    ensures Transfer(s, s, s2, s2, end, ECHO_BUFFER) && EchoOwes(s, s2, end, a, b)
  {
    hide Productive, Used;
  }
}
