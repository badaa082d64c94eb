/** The HTTP example as it runs: loops that read a socket byte by byte and append to strings, proved to compute the
    functions of module Http on whatever the peer has sent, under any behaviour of the kernel. */
module HttpServer {
  import opened Wrappers
  import opened Epoll
  import opened Sockets
  import opened Http
  import Streams

  /** How an awaited task of this example ends: with a value, by an exception, or not yet. */
  datatype Task<T> = Got(value: T) | Raised | Blocked

  /** What reading leaves alone: nothing is sent, bytes are taken from the front. */
  ghost predicate OnlyReads(s: Snapshot, s': Snapshot) {
    var k := |s'.consumed| - |s.consumed|;
    && s'.sent == s.sent && Suffix(s'.script, s.script) && Lives(s, s')
    && 0 <= k <= |s.inbound| && s'.inbound == s.inbound[k..] && s'.consumed == s.consumed + s.inbound[..k]
  }

  /** What an operation owes to the script: it throws or has not ended only for a reason at the end of what has been used,
      and all but `extra` of the entries that offered data have moved some. */
  ghost predicate Owes(s: Snapshot, s': Snapshot, raised: bool, blocked: bool, extra: nat) {
    && (raised ==> Broken(s, s')) && (blocked ==> Stalled(s, s'))
    && (!raised ==>
          Productive(s.script) <= Productive(s'.script) + (|s'.consumed| - |s.consumed|) + (|s'.sent| - |s.sent|) + extra)
  }

  /** How many entries may have told no more than that the stream is at its end. */
  function AtEnd(s: string, n: nat): nat { if s == "" then n else 0 }

  lemma OwesThen(a: Snapshot, b: Snapshot, c: Snapshot, raised: bool, blocked: bool, x: nat, y: nat, z: nat)
    requires Suffix(b.script, a.script) && Suffix(c.script, b.script) && SameSocket(a, b)
    requires Owes(a, b, false, false, x) && Owes(b, c, raised, blocked, y) && x + y <= z
    ensures Owes(a, c, raised, blocked, z)
  {
    ReasonsCarry(a, b, c);
    hide Broken, Stalled, Productive, Suffix;
  }

  lemma ReadsTwice(a: Snapshot, b: Snapshot, c: Snapshot)
    requires OnlyReads(a, b) && OnlyReads(b, c)
    ensures OnlyReads(a, c) && Suffix(b.script, a.script) && Suffix(c.script, b.script)
  {
    TakeTwice(a.consumed, a.inbound, |b.consumed| - |a.consumed|, |c.consumed| - |b.consumed|);
    Streams.SuffixTwice(a.script, b.script, c.script);
    LivesOn(a, b, c);
    hide Suffix, Lives;
  }

  /** `co_await socket.async_read(ch.data(), 1)`: the next byte, or none at end of file. */
  method ReadByte(socket: TcpSocket, ch: array<char>) returns (r: Task<Option<char>>)
    requires ch.Length == 1
    modifies socket, ch
    ensures OnlyReads(old(socket.Snap()), socket.Snap())
    ensures r.Got? ==> old(socket.inbound) == if r.value.None? then "" else [r.value.value] + socket.inbound
    ensures r.Got? ==> SameSocket(old(socket.Snap()), socket.Snap()) && |socket.script| < |old(socket.script)|
    ensures r.Got? && r.value.None? ==> socket.inbound == ""
    ensures Owes(old(socket.Snap()), socket.Snap(), r.Raised?, r.Blocked?, if r.Got? && r.value.None? then 1 else 0)
  {
    ghost var before := socket.inbound;
    hide Broken, Stalled, Productive, Suffix;
    var count := socket.AsyncRead(ch, 1);
    match count
    case Ongoing => r := Blocked;
    case Threw => r := Raised;
    case Done(n) =>
      if n == 0 {
        r := Got(Option.None);
      } else {
        r := Got(Some(ch[0]));
      }
  }

  /** A line grows by a byte that does not complete a CRLF, or is completed by one that does. */
  lemma LineGrows(all: string, line: string, c: char, before: string, rest: string)
    requires NoCrlf(line) && line + before == all && before == [c] + rest
    ensures line + [c] + rest == all
    ensures if line != "" && line[|line| - 1] == '\r' && c == '\n'
            then Line(all) == ((line + [c])[..|line| - 1], rest) else NoCrlf(line + [c])
  {
    assert line + [c] + rest == all;
    if line != "" && line[|line| - 1] == '\r' && c == '\n' {
      var stripped := line[..|line| - 1];
      assert NoCrlf(stripped);
      assert all == stripped + CRLF + rest;
      LineAtCrlf(stripped, rest);
      assert (line + [c])[..|line| - 1] == stripped;
    }
  }

  lemma LineEnds(all: string, line: string)
    requires NoCrlf(line) && line + "" == all
    ensures Line(all) == (line, "")
  {
    LineAtEof(line);
    assert all == line;
  }

  /** How far `read_line` is after one more byte. */
  datatype Progress = Partial(line: string) | Complete(line: string)

  method ReadStep(socket: TcpSocket, ch: array<char>, line: string, ghost all: string) returns (r: Task<Progress>)
    requires ch.Length == 1 && NoCrlf(line) && line + socket.inbound == all
    modifies socket, ch
    ensures OnlyReads(old(socket.Snap()), socket.Snap())
    ensures r.Got? && r.value.Partial? ==> NoCrlf(r.value.line) && r.value.line + socket.inbound == all
    ensures r.Got? && r.value.Complete? ==> Line(all) == (r.value.line, socket.inbound)
    ensures r.Got? ==> SameSocket(old(socket.Snap()), socket.Snap()) && |socket.script| < |old(socket.script)|
    ensures Owes(old(socket.Snap()), socket.Snap(), r.Raised?, r.Blocked?,
                 if r.Got? && r.value.Complete? then AtEnd(socket.inbound, 1) else 0)
  {
    ghost var before, s0 := socket.inbound, socket.Snap();
    hide OnlyReads, NoCrlf, Line, Owes;
    var count := ReadByte(socket, ch);
    if !count.Got? {
      return if count.Raised? then Raised else Blocked;
    }
    if count.value.None? {
      LineEnds(all, line);
      return Got(Complete(line));
    }
    var c := count.value.value;
    LineGrows(all, line, c, before, socket.inbound);
    var longer := line + [c];
    if |longer| >= 2 && longer[|longer| - 2] == '\r' && longer[|longer| - 1] == '\n' {
      return Got(Complete(longer[..|longer| - 2]));
    }
    return Got(Partial(longer));
  }

  /** `read_line`: byte by byte, exactly through the first CRLF. */
  method ReadLine(socket: TcpSocket) returns (r: Task<string>)
    modifies socket
    ensures OnlyReads(old(socket.Snap()), socket.Snap())
    ensures r.Got? ==> (r.value, socket.inbound) == Line(old(socket.inbound))
    ensures r.Got? ==> SameSocket(old(socket.Snap()), socket.Snap()) && |socket.script| < |old(socket.script)|
    ensures Owes(old(socket.Snap()), socket.Snap(), r.Raised?, r.Blocked?, if r.Got? then AtEnd(socket.inbound, 1) else 0)
    ensures old(socket.Snap()).Healthy() && Productive(old(socket.script)) > |old(socket.inbound)| ==> r.Got?
  {
    var line: string := "";
    var ch := new char[1];
    ghost var s0 := socket.Snap();
    assert line + socket.inbound == s0.inbound;
    while true
      invariant fresh(ch) && ch.Length == 1 && OnlyReads(s0, socket.Snap()) && SameSocket(s0, socket.Snap())
      invariant |socket.script| <= |s0.script|
      invariant NoCrlf(line) && line + socket.inbound == s0.inbound
      invariant Owes(s0, socket.Snap(), false, false, 0)
      decreases |socket.script|
    {
      ghost var s1 := socket.Snap();
      hide OnlyReads, NoCrlf, Line, Owes, Snapshot.Healthy, Productive;
      var step := ReadStep(socket, ch, line, s0.inbound);
      ghost var extra := if step.Got? && step.value.Complete? then AtEnd(socket.inbound, 1) else 0;
      ReadsTwice(s0, s1, socket.Snap());
      OwesThen(s0, s1, socket.Snap(), step.Raised?, step.Blocked?, 0, extra, extra);
      if !step.Got? {
        ReadComesOn(s0, socket.Snap(), step.Raised?, step.Blocked?, 0, 0);
        return if step.Raised? then Raised else Blocked;
      }
      line := step.value.line;
      if step.value.Complete? {
        return Got(line);
      }
    }
  }

  /** Progress: an operation that only reads does end if the kernel offers data often enough and nothing goes wrong. */
  lemma ReadComesOn(s: Snapshot, s': Snapshot, raised: bool, blocked: bool, extra: nat, n: nat)
    requires OnlyReads(s, s') && Owes(s, s', raised, blocked, extra) && extra <= n
    ensures s.Healthy() && Productive(s.script) > |s.inbound| + n ==> !raised && !blocked
  {
    HealthyIsWell(s, s');
    hide Broken, Stalled, Snapshot.Healthy, Suffix;
  }

  /** `parse_request`. */
  method ReadRequest(socket: TcpSocket) returns (r: Task<Option<Request>>)
    modifies socket
    ensures OnlyReads(old(socket.Snap()), socket.Snap())
    ensures r.Got? ==> var p := Http.ParseRequest(old(socket.inbound));
                       && p.rest == socket.inbound
                       && (if r.value.None? then p.Malformed? else p.Parsed? && p.req == r.value.value)
    ensures r.Got? ==> SameSocket(old(socket.Snap()), socket.Snap()) && |socket.script| < |old(socket.script)|
    ensures Owes(old(socket.Snap()), socket.Snap(), r.Raised?, r.Blocked?, AtEnd(socket.inbound, 2))
    ensures old(socket.Snap()).Healthy() && Productive(old(socket.script)) > |old(socket.inbound)| + 2 ==> r.Got?
  {
    ghost var s0 := socket.Snap();
    hide OnlyReads, Line, StartLine, AddHeader, Owes, Snapshot.Healthy, Productive;
    var first := ReadLine(socket);
    ReadComesOn(s0, socket.Snap(), first.Raised?, first.Blocked?, AtEnd(socket.inbound, 2), 2);
    if first.Blocked? {
      return Blocked;
    }
    if first.Raised? {
      return Raised;
    }
    if first.value == "" {
      return Got(Some(NO_REQUEST));
    }
    var start := StartLine(first.value);
    if start.None? {
      return Got(Option.None);
    }
    var (meth, path, version) := start.value;
    var headers := ReadHeaders(socket, s0);
    ReadComesOn(s0, socket.Snap(), headers.Raised?, headers.Blocked?, AtEnd(socket.inbound, 2), 2);
    match headers
    case Blocked => return Blocked;
    case Raised => return Raised;
    case Got(h) => return Got(Some(Request(meth, path, version, h)));
  }

  /** The header loop of `parse_request`. */
  method ReadHeaders(socket: TcpSocket, ghost s0: Snapshot) returns (r: Task<map<string, string>>)
    requires OnlyReads(s0, socket.Snap()) && SameSocket(s0, socket.Snap()) && |socket.script| < |s0.script|
    requires Owes(s0, socket.Snap(), false, false, AtEnd(socket.inbound, 1))
    modifies socket
    ensures OnlyReads(s0, socket.Snap())
    ensures r.Got? ==> ParseHeaders(old(socket.inbound), map[]) == (r.value, socket.inbound)
    ensures r.Got? ==> SameSocket(s0, socket.Snap()) && |socket.script| < |s0.script|
    ensures Owes(s0, socket.Snap(), r.Raised?, r.Blocked?, AtEnd(socket.inbound, 2))
  {
    var headers: map<string, string> := map[];
    ghost var s1 := socket.Snap();
    hide OnlyReads, Line, StartLine, AddHeader, Owes, Productive;
    while true
      invariant OnlyReads(s0, socket.Snap()) && SameSocket(s0, socket.Snap()) && |socket.script| < |s0.script|
      invariant ParseHeaders(socket.inbound, headers) == ParseHeaders(s1.inbound, map[])
      invariant Owes(s0, socket.Snap(), false, false, AtEnd(socket.inbound, 1))
      decreases |socket.script|
    {
      ghost var s2 := socket.Snap();
      var line := ReadLine(socket);
      ReadsTwice(s0, s2, socket.Snap());
      OwesThen(s0, s2, socket.Snap(), line.Raised?, line.Blocked?, AtEnd(s2.inbound, 1),
               if line.Got? then AtEnd(socket.inbound, 1) else 0,
               AtEnd(socket.inbound, if line.Got? && line.value != "" then 1 else 2));
      if line.Blocked? {
        return Blocked;
      }
      if line.Raised? {
        return Raised;
      }
      if line.value == "" {
        return Got(headers);
      }
      headers := AddHeader(headers, line.value);
    }
  }

  /** `handle_route`. */
  method HandleRoute(req: Request, site: Site) returns (r: Response)
    ensures r == Route(req, site)
  {
    r := Response(200, "OK", "text/plain", "", []);
    if req.meth != "GET" {
      r := r.(status := 405, statusText := "Method Not Allowed");
      r := r.(contentType := "text/plain", body := "405 Method Not Allowed\n");
      return;
    }
    if req.path == "/" {
      r := r.(status := 200, statusText := "OK", contentType := "text/html; charset=utf-8", body := site.indexHtml);
    } else if req.path == "/hello" {
      r := r.(status := 200, statusText := "OK", contentType := "text/plain; charset=utf-8", body := "Hello, World!\n");
    } else if req.path == "/json" {
      r := r.(status := 200, statusText := "OK", contentType := "application/json", body := site.statusJson);
    } else {
      r := r.(status := 404, statusText := "Not Found", contentType := "text/plain; charset=utf-8", body := "404 Not Found\n");
    }
  }

  /** `to_string`, with the headers in their order of enumeration. */
  method ToString(r: Response) returns (result: string)
    ensures result == Render(r)
  {
    result := "HTTP/1.1 " + Integer(r.status) + " " + r.statusText + CRLF;
    result := result + "Content-Type: " + r.contentType + CRLF;
    result := result + "Content-Length: " + Decimal(|r.body|) + CRLF;
    result := result + "Connection: keep-alive" + CRLF;
    ghost var head := [StatusLine(r)] + HeaderLines(AllHeaders(r)[..3]);
    FixedLines(r);
    assert head + HeaderLines(r.headers[..0]) == head;
    hide Lines, HeaderLine;
    for i := 0 to |r.headers|
      invariant result == Lines(head + HeaderLines(r.headers[..i]))
    {
      HeaderPrinted(head + HeaderLines(r.headers[..i]), r.headers[i].0 + ": ", r.headers[i].0, r.headers[i].1);
      assert head + HeaderLines(r.headers[..i]) + [HeaderLine(r.headers[i])] == head + HeaderLines(r.headers[..i + 1]);
      result := result + r.headers[i].0;
      result := result + ": ";
      result := result + r.headers[i].1;
      result := result + CRLF;
    }
    assert head + HeaderLines(r.headers[..|r.headers|]) == [StatusLine(r)] + HeaderLines(AllHeaders(r));
    result := result + CRLF;
    result := result + r.body;
  }

  lemma {:induction false} LinesPush(ls: seq<string>, l: string)
    ensures Lines(ls + [l]) == Lines(ls) + l + CRLF
  {
    if ls == [] {
      assert [l][1..] == [];
    } else {
      assert (ls + [l])[1..] == ls[1..] + [l];
      LinesPush(ls[1..], l);
    }
  }

  /** The three headers that every response has. */
  lemma FixedLines(r: Response)
    ensures Lines([StatusLine(r)] + HeaderLines(AllHeaders(r)[..3]))
            == StatusLine(r) + CRLF + "Content-Type: " + r.contentType + CRLF
               + "Content-Length: " + Decimal(|r.body|) + CRLF + "Connection: keep-alive" + CRLF
  {
    var hs := AllHeaders(r);
    var l0 := [StatusLine(r)];
    var l1, l2 := l0 + [HeaderLine(hs[0])], l0 + [HeaderLine(hs[0])] + [HeaderLine(hs[1])];
    assert l0 + HeaderLines(hs[..3]) == l2 + [HeaderLine(hs[2])];
    LinesPush([], StatusLine(r));
    assert [] + l0 == l0 && Lines([]) + StatusLine(r) == StatusLine(r);
    HeaderPrinted(l0, "Content-Type: ", "Content-Type", r.contentType);
    HeaderPrinted(l1, "Content-Length: ", "Content-Length", Decimal(|r.body|));
    LinesPush(l2, HeaderLine(hs[2]));
    assert HeaderLine(hs[2]) == "Connection: keep-alive";
    hide Lines, StatusLine, HeaderLine, HeaderLines, Decimal;
  }

  lemma HeaderPrinted(ls: seq<string>, prefix: string, k: string, v: string)
    requires prefix == k + ": "
    ensures Lines(ls + [HeaderLine((k, v))]) == Lines(ls) + prefix + v + CRLF
  {
    LinesPush(ls, HeaderLine((k, v)));
    assert HeaderLine((k, v)) == prefix + v;
  }

  /** Between two rounds: what has been sent, and what the rest of the stream still calls for, make up the answer to the
      whole stream. */
  ghost predicate OnTrack(s: Snapshot, s': Snapshot, site: Site) {
    && s.sent <= s'.sent && s'.sent + Serve(s'.inbound, site) == s.sent + Serve(s.inbound, site)
    && (EndsWell(s.inbound) <==> EndsWell(s'.inbound))
    && |s'.consumed| - |s.consumed| == |s.inbound| - |s'.inbound|
    && Suffix(s'.script, s.script) && SameSocket(s, s')
  }

  /** What has been sent is a prefix of the answer to the whole stream. */
  ghost predicate Partly(s: Snapshot, s': Snapshot, site: Site) {
    s.sent <= s'.sent <= s.sent + Serve(s.inbound, site) && |s'.consumed| - |s.consumed| <= |s.inbound|
  }

  ghost predicate Fully(s: Snapshot, s': Snapshot, site: Site) {
    s'.sent == s.sent + Serve(s.inbound, site)
  }

  lemma WritePart(a: Snapshot, b: Snapshot, c: Snapshot, raw: string, k: nat, site: Site)
    requires OnlyReads(a, b) && SameSocket(a, b)
    requires Serve(a.inbound, site) == raw + Serve(b.inbound, site) && (EndsWell(a.inbound) <==> EndsWell(b.inbound))
    requires k <= |raw| && c.sent == b.sent + raw[..k] && c.inbound == b.inbound && c.consumed == b.consumed
    requires Suffix(c.script, b.script)
    ensures Partly(a, c, site)
    ensures k == |raw| && SameSocket(b, c) ==> OnTrack(a, c, site)
  {
    var tail := Serve(b.inbound, site);
    hide Serve, EndsWell;
    assert a.sent + (raw + tail) == a.sent + raw[..k] + (raw[k..] + tail);
    assert k == |raw| ==> raw[..k] == raw;
    Streams.SuffixTwice(a.script, b.script, c.script);
    hide Suffix;
  }

  lemma ReadsArePart(a: Snapshot, b: Snapshot, site: Site)
    requires OnlyReads(a, b)
    ensures Partly(a, b, site) && (Serve(a.inbound, site) == "" ==> Fully(a, b, site))
    ensures Suffix(b.script, a.script) && Lives(a, b)
  {
    hide Serve;
  }

  /** The response to a request, sent whole or in part. */
  method SendAnswer(socket: TcpSocket, req: Request, site: Site) returns (end: Streams.Finish)
    modifies socket
    ensures var (raw, k) := (Render(Route(req, site)), |socket.sent| - |old(socket.sent)|);
            && 0 <= k <= |raw| && socket.sent == old(socket.sent) + raw[..k]
            && (end == Streams.More ==> k == |raw| && SameSocket(old(socket.Snap()), socket.Snap()))
    ensures socket.inbound == old(socket.inbound) && socket.consumed == old(socket.consumed)
    ensures Suffix(socket.script, old(socket.script)) && end != Streams.Eof && Lives(old(socket.Snap()), socket.Snap())
    ensures Owes(old(socket.Snap()), socket.Snap(), end == Streams.Failed, end == Streams.Pending, 0)
  {
    hide Render, Route, Broken, Stalled, Productive;
    var response := HandleRoute(req, site);
    var raw := ToString(response);
    var w := socket.AsyncWrite(raw);
    if !w.Done? {
      return if w.Threw? then Streams.Failed else Streams.Pending;
    }
    return Streams.More;
  }

  /** The rest of a round, once the request has been read; s0 is the state at its beginning. */
  method AnswerRequest(socket: TcpSocket, req: Request, site: Site, ghost s0: Snapshot) returns (end: Streams.Finish)
    requires OnlyReads(s0, socket.Snap()) && SameSocket(s0, socket.Snap()) && |socket.script| < |s0.script|
    requires Serve(s0.inbound, site) == Render(Route(req, site)) + Serve(socket.inbound, site)
    requires EndsWell(s0.inbound) <==> EndsWell(socket.inbound)
    requires Owes(s0, socket.Snap(), false, false, AtEnd(socket.inbound, 2))
    modifies socket
    ensures end != Streams.Eof && Partly(s0, socket.Snap(), site) && Suffix(socket.script, s0.script) && Lives(s0, socket.Snap())
    ensures end == Streams.More ==> OnTrack(s0, socket.Snap(), site) && |socket.script| < |s0.script|
    ensures Owes(s0, socket.Snap(), end == Streams.Failed, end == Streams.Pending, AtEnd(socket.inbound, 2))
  {
    hide Serve, EndsWell, Render, Route, Partly, OnTrack, OnlyReads, Suffix, Owes, Lives;
    ghost var s1 := socket.Snap();
    ReadsArePart(s0, s1, site);
    end := SendAnswer(socket, req, site);
    Streams.SuffixTwice(s0.script, s1.script, socket.script);
    LivesOn(s0, s1, socket.Snap());
    WritePart(s0, s1, socket.Snap(), Render(Route(req, site)), |socket.sent| - |s1.sent|, site);
    OwesThen(s0, s1, socket.Snap(), end == Streams.Failed, end == Streams.Pending, AtEnd(s1.inbound, 2), 0, AtEnd(s1.inbound, 2));
  }

  /** One request and its response. */
  method ServeRequest(socket: TcpSocket, site: Site) returns (end: Streams.Finish)
    modifies socket
    ensures end == Streams.More ==>
              OnTrack(old(socket.Snap()), socket.Snap(), site) && |socket.script| < |old(socket.script)|
    ensures end == Streams.More ==> old(socket.inbound) != ""
    ensures Partly(old(socket.Snap()), socket.Snap(), site) && Suffix(socket.script, old(socket.script))
    ensures Lives(old(socket.Snap()), socket.Snap())
    ensures end == Streams.Eof ==> Fully(old(socket.Snap()), socket.Snap(), site) && EndsWell(old(socket.inbound))
    ensures end == Streams.Failed ==>
              || Broken(old(socket.Snap()), socket.Snap())
              || (!EndsWell(old(socket.inbound)) && Fully(old(socket.Snap()), socket.Snap(), site))
    ensures end != Streams.Failed ==>
              Owes(old(socket.Snap()), socket.Snap(), false, end == Streams.Pending, AtEnd(socket.inbound, 2))
  {
    ghost var s0 := socket.Snap();
    hide Serve, EndsWell, Http.ParseRequest, Render, Route, Partly, OnTrack, Fully, OnlyReads, Owes, Broken;
    var r := ReadRequest(socket);
    ReadsArePart(s0, socket.Snap(), site);
    if !r.Got? {
      if r.Raised? {
        return Streams.Failed;
      }
      return Streams.Pending;
    }
    if r.value.None? {
      return Streams.Failed;
    }
    if r.value.value.meth == "" {
      return Streams.Eof;
    }
    end := AnswerRequest(socket, r.value.value, site, s0);
  }

  lemma TrackTwice(a: Snapshot, b: Snapshot, c: Snapshot, site: Site)
    requires OnTrack(a, b, site) && Suffix(c.script, b.script)
    ensures OnTrack(b, c, site) ==> OnTrack(a, c, site)
    ensures Partly(b, c, site) ==> Partly(a, c, site)
    ensures Fully(b, c, site) ==> Fully(a, c, site)
    ensures Broken(b, c) ==> Broken(a, c)
    ensures SameSocket(a, b) && Suffix(b.script, a.script) && Suffix(c.script, a.script)
  {
    ReasonsCarry(a, b, c);
    hide Serve, EndsWell, Broken, Stalled;
    Streams.SuffixTwice(a.script, b.script, c.script);
    hide Suffix;
  }

  /** What `handle_client` promises of its end. */
  ghost predicate ServedWell(s: Snapshot, s': Snapshot, site: Site, end: Streams.Finish) {
    && Partly(s, s', site)
    && (end == Streams.Eof ==> Fully(s, s', site) && EndsWell(s.inbound))
    && (end == Streams.Failed ==> Broken(s, s') || (!EndsWell(s.inbound) && Fully(s, s', site)))
    && (end == Streams.Pending ==> Stalled(s, s'))
  }

  /** Progress: a healthy connection on which the kernel offers to move data often enough is served to its end, or to its
      first malformed request line. */
  lemma ServiceEnds(s: Snapshot, s': Snapshot, site: Site, end: Streams.Finish)
    requires ServedWell(s, s', site, end) && end != Streams.More && s.Healthy()
    requires end != Streams.Failed ==> Owes(s, s', false, end == Streams.Pending, 4)
    requires Productive(s.script) > |s.inbound| + |Serve(s.inbound, site)| + 4
    ensures end == (if EndsWell(s.inbound) then Streams.Eof else Streams.Failed) && Fully(s, s', site)
  {
    HealthyIsWell(s, s');
    hide Broken, Stalled, Snapshot.Healthy, Serve, EndsWell;
  }

  /** `handle_client`. Whatever the kernel does and at every moment, what has been sent is a prefix of the answer to all the
      peer sends, and at the end of the stream it is all of it. The end of the stream is reached, under any fragmentation
      and any number of interruptions and waits, once the kernel has offered to move data often enough; only the kernel or
      a malformed request line can make it fail. For a stream of well-formed requests the answer is the concatenation of
      their responses. The socket is closed with the frame. */
  method HandleClient(socket: TcpSocket, site: Site) returns (end: Streams.Finish)
    modifies socket
    ensures end != Streams.More && ServedWell(old(socket.Snap()), socket.Snap(), site, end)
    ensures end != Streams.Pending ==> Gone(old(socket.Snap()), socket.Snap())
    ensures old(socket.Snap()).Healthy()
            && Productive(old(socket.script)) > |old(socket.inbound)| + |Serve(old(socket.inbound), site)| + 4 ==>
              && end == (if EndsWell(old(socket.inbound)) then Streams.Eof else Streams.Failed)
              && socket.sent == old(socket.sent) + Serve(old(socket.inbound), site)
    ensures forall cs :: (forall c :: c in cs ==> GoodRequest(c)) && old(socket.inbound) == RequestsBytes(cs) ==>
              && EndsWell(old(socket.inbound)) && Serve(old(socket.inbound), site) == RenderAll(Answers(cs, site))
  {
    ghost var s0 := socket.Snap();
    forall cs | (forall c :: c in cs ==> GoodRequest(c)) && s0.inbound == RequestsBytes(cs)
      ensures Serve(s0.inbound, site) == RenderAll(Answers(cs, site)) && EndsWell(s0.inbound)
    {
      KeepAlive(cs, site);
    }
    end := ServeAll(socket, site);
    ghost var s1 := socket.Snap();
    hide Serve, EndsWell, RequestsBytes, Answers, RenderAll, GoodRequest, Productive;
    if s0.Healthy() && Productive(s0.script) > |s0.inbound| + |Serve(s0.inbound, site)| + 4 {
      ServiceEnds(s0, s1, site, end);
    }
    hide ServedWell, Owes, Snapshot.Healthy;
    if end != Streams.Pending {
      socket.Close();
    }
    ClosedWell(s0, s1, socket.Snap(), site, end);
  }

  lemma ClosedWell(s: Snapshot, s1: Snapshot, s2: Snapshot, site: Site, end: Streams.Finish)
    requires ServedWell(s, s1, site, end) && s2 == s1.(fd := s2.fd, hasLoop := s2.hasLoop, removed := s2.removed)
    ensures ServedWell(s, s2, site, end)
  {
    hide Serve, EndsWell;
  }

  /** The loop of `handle_client`. */
  method ServeAll(socket: TcpSocket, site: Site) returns (end: Streams.Finish)
    modifies socket
    ensures end != Streams.More && ServedWell(old(socket.Snap()), socket.Snap(), site, end)
    ensures Lives(old(socket.Snap()), socket.Snap())
    ensures end != Streams.Failed ==> Owes(old(socket.Snap()), socket.Snap(), false, end == Streams.Pending, 4)
  {
    ghost var s0 := socket.Snap();
    end := Streams.More;
    while end == Streams.More
      invariant end == Streams.More ==>
                  OnTrack(s0, socket.Snap(), site) && Owes(s0, socket.Snap(), false, false, AtEnd(socket.inbound, 2))
      invariant end != Streams.More ==> ServedWell(s0, socket.Snap(), site, end)
      invariant Lives(s0, socket.Snap())
      invariant end != Streams.More && end != Streams.Failed ==> Owes(s0, socket.Snap(), false, end == Streams.Pending, 4)
      decreases if end == Streams.More then |socket.script| + 1 else 0
    {
      ghost var s1 := socket.Snap();
      assert EndsWell(s0.inbound) <==> EndsWell(s1.inbound);
      hide OnTrack, Partly, Fully, EndsWell, Broken, Stalled, Owes, Suffix, Lives, Productive, ServedWell;
      end := ServeRequest(socket, site);
      ghost var s2 := socket.Snap();
      TrackTwice(s0, s1, s2, site);
      LivesOn(s0, s1, s2);
      if end != Streams.Failed {
        OwesThen(s0, s1, s2, false, end == Streams.Pending, AtEnd(s1.inbound, 2), AtEnd(s2.inbound, 2), 4);
        if end == Streams.More {
          OwesThen(s0, s1, s2, false, false, AtEnd(s1.inbound, 2), AtEnd(s2.inbound, 2), AtEnd(s2.inbound, 2));
        }
      }
    }
  }

}
