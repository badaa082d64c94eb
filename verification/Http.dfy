/** The wire format of the HTTP example as functions on byte strings: what `read_line` and `parse_request` make of a
    stream, what `to_string` prints, and how the two fit together (RFC 9112, sections 2.1, 3, 5 and 6.3). */
module Http {
  import opened Wrappers

  const CRLF: string := "\r\n"

  // ------------------------------------------------------------------- lines

  /** The line at the head of a stream, and what is left behind its CRLF; at end of file, whatever there is. */
  function Line(s: string): (r: (string, string))
    ensures |r.0| + |r.1| <= |s| && (s != "" ==> |r.1| < |s|)
  {
    if s == "" then ("", "")
    else if CRLF <= s then ("", s[2..])
    else var (line, rest) := Line(s[1..]); ([s[0]] + line, rest)
  }

  ghost predicate NoCrlf(s: string) {
    forall i :: 0 <= i < |s| - 1 ==> !(s[i] == '\r' && s[i + 1] == '\n')
  }

  lemma HeadNotCrlf(s: string)
    requires |s| < 2 || s[0] != '\r' || s[1] != '\n'
    ensures !(CRLF <= s)
  {
  }

  /** A line ends exactly at the first CRLF. */
  lemma {:induction false} LineAtCrlf(x: string, rest: string)
    requires NoCrlf(x)
    ensures Line(x + CRLF + rest) == (x, rest)
  {
    var s := x + CRLF + rest;
    if x == "" {
      assert s == CRLF + rest && CRLF <= s && s[2..] == rest;
    } else {
      assert s[1..] == x[1..] + CRLF + rest;
      assert s[0] == x[0] && s[1] == if |x| > 1 then x[1] else '\r';
      assert !(CRLF <= s) by { HeadNotCrlf(s); }
      assert NoCrlf(x[1..]) by {
        forall i | 0 <= i < |x[1..]| - 1
          ensures !(x[1..][i] == '\r' && x[1..][i + 1] == '\n')
        {
          assert x[1..][i] == x[i + 1];
        }
      }
      LineAtCrlf(x[1..], rest);
      assert [x[0]] + x[1..] == x;
    }
  }

  lemma {:induction false} LineAtEof(x: string)
    requires NoCrlf(x)
    ensures Line(x) == (x, "")
  {
    if x != "" {
      assert !(CRLF <= x) by { HeadNotCrlf(x); }
      assert NoCrlf(x[1..]) by {
        forall i | 0 <= i < |x[1..]| - 1
          ensures !(x[1..][i] == '\r' && x[1..][i + 1] == '\n')
        {
          assert x[1..][i] == x[i + 1];
        }
      }
      LineAtEof(x[1..]);
      assert [x[0]] + x[1..] == x;
    }
  }

  // ----------------------------------------------------------------- parsing

  datatype Request = Request(meth: string, path: string, version: string, headers: map<string, string>)

  /** `parse_request` on a stream, with what it leaves unread. */
  datatype Parse = Parsed(req: Request, rest: string) | Malformed(rest: string)

  const NO_REQUEST := Request("", "", "", map[])

  /** `find`: the first position of c, or the length. */
  function Find(s: string, c: char): (i: nat)
    ensures i <= |s| && c !in s[..i] && (i < |s| ==> s[i] == c)
  {
    if s == "" || s[0] == c then 0 else 1 + Find(s[1..], c)
  }

  lemma {:induction false} FindIs(x: string, c: char, rest: string)
    requires c !in x
    ensures Find(x + [c] + rest, c) == |x|
  {
    if x == "" {
      assert (x + [c] + rest)[0] == c;
    } else {
      assert (x + [c] + rest)[1..] == x[1..] + [c] + rest;
      assert (x + [c] + rest)[0] == x[0] && x[0] in x;
      FindIs(x[1..], c, rest);
    }
  }

  /** METHOD SP PATH SP VERSION; a line with one space only is HTTP/1.0, a line without any is an error. */
  function StartLine(line: string): Option<(string, string, string)> {
    var sp1 := Find(line, ' ');
    if sp1 == |line| then None
    else
      var tail := line[sp1 + 1..];
      var sp2 := Find(tail, ' ');
      if sp2 == |tail| then Some((line[..sp1], tail, "HTTP/1.0")) else Some((line[..sp1], tail[..sp2], tail[sp2 + 1..]))
  }

  predicate Blank(c: char) { c == ' ' || c == '\t' }

  function SkipBlanks(v: string): string { if v != "" && Blank(v[0]) then SkipBlanks(v[1..]) else v }

  /** Leading blanks go, unless there is nothing else. */
  function Trim(v: string): string { if SkipBlanks(v) == "" then v else SkipBlanks(v) }

  /** `::tolower` in the C locale. */
  function LowerChar(c: char): char { if 'A' <= c <= 'Z' then c + 32 as char else c }

  function Lower(s: string): string { seq(|s|, i requires 0 <= i < |s| => LowerChar(s[i])) }

  /** One header line; a line without a colon is skipped, a repeated name overwrites. */
  function AddHeader(h: map<string, string>, line: string): map<string, string> {
    var colon := Find(line, ':');
    if colon == |line| then h else h[Lower(line[..colon]) := Trim(line[colon + 1..])]
  }

  function ParseHeaders(s: string, h: map<string, string>): (r: (map<string, string>, string))
    ensures |r.1| <= |s|
    decreases |s|
  {
    var (line, rest) := Line(s);
    if line == "" then (h, rest) else ParseHeaders(rest, AddHeader(h, line))
  }

  function ParseRequest(s: string): (p: Parse)
    ensures |p.rest| <= |s| && (p.Malformed? || p.req.meth != "" ==> |p.rest| < |s|)
  {
    var (line, rest) := Line(s);
    if line == "" then Parsed(NO_REQUEST, rest)
    else
      match StartLine(line)
      case None => Malformed(rest)
      case Some((meth, path, version)) =>
        var (h, rest') := ParseHeaders(rest, map[]);
        Parsed(Request(meth, path, version, h), rest')
  }

  // ---------------------------------------------------------------- printing

  /** The fields of a response; `headers` in the order in which the hash table enumerates them. */
  datatype Response = Response(status: int, statusText: string, contentType: string, body: string,
                               headers: seq<(string, string)>)

  function Digit(n: nat): char
    requires n < 10
  {
    '0' + n as char
  }

  /** `std::to_string`. */
  function Decimal(n: nat): string {
    if n < 10 then [Digit(n)] else Decimal(n / 10) + [Digit(n % 10)]
  }

  function Integer(i: int): string { if i < 0 then "-" + Decimal(-i) else Decimal(i) }

  function HeaderLine(kv: (string, string)): string { kv.0 + ": " + kv.1 }

  /** Lines, each with its CRLF. */
  function Lines(ls: seq<string>): string {
    if ls == [] then "" else ls[0] + CRLF + Lines(ls[1..])
  }

  function AllHeaders(r: Response): seq<(string, string)> {
    [("Content-Type", r.contentType), ("Content-Length", Decimal(|r.body|)), ("Connection", "keep-alive")] + r.headers
  }

  function HeaderLines(hs: seq<(string, string)>): seq<string> {
    seq(|hs|, i requires 0 <= i < |hs| => HeaderLine(hs[i]))
  }

  function StatusLine(r: Response): string { "HTTP/1.1 " + Integer(r.status) + " " + r.statusText }

  /** `to_string`. */
  function Render(r: Response): string {
    Lines([StatusLine(r)] + HeaderLines(AllHeaders(r))) + CRLF + r.body
  }

  /** A request head as a client writes it: the request line and any header lines. */
  function RenderRequest(meth: string, path: string, version: string, lines: seq<string>): string {
    Lines([meth + " " + path + " " + version] + lines) + CRLF
  }

  // --------------------------------------------------- parsing what was printed

  ghost predicate GoodLine(l: string) { l != "" && NoCrlf(l) }

  function AddHeaders(h: map<string, string>, lines: seq<string>): map<string, string>
    decreases |lines|
  {
    if lines == [] then h else AddHeaders(AddHeader(h, lines[0]), lines[1..])
  }

  /** The header loop reads printed lines up to the blank one and leaves exactly what follows it. */
  lemma {:induction false} HeadersRead(lines: seq<string>, rest: string, h: map<string, string>)
    requires forall l :: l in lines ==> GoodLine(l)
    ensures ParseHeaders(Lines(lines) + CRLF + rest, h) == (AddHeaders(h, lines), rest)
    decreases |lines|
  {
    var s := Lines(lines) + CRLF + rest;
    if lines == [] {
      LineAtCrlf("", rest);
      assert s == "" + CRLF + rest;
    } else {
      var tail := Lines(lines[1..]) + CRLF + rest;
      assert GoodLine(lines[0]) && forall l :: l in lines[1..] ==> l in lines;
      assert s == lines[0] + CRLF + tail;
      LineAtCrlf(lines[0], tail);
      HeadersRead(lines[1..], rest, AddHeader(h, lines[0]));
    }
  }

  ghost predicate GoodStart(meth: string, path: string, version: string) {
    ' ' !in meth && ' ' !in path && NoCrlf(meth + " " + path + " " + version)
  }

  lemma StartLineRead(meth: string, path: string, version: string)
    requires ' ' !in meth && ' ' !in path
    ensures StartLine(meth + " " + path + " " + version) == Some((meth, path, version))
  {
    var line, tail := meth + " " + path + " " + version, path + " " + version;
    assert line == meth + [' '] + tail;
    FindIs(meth, ' ', tail);
    assert line[|meth| + 1..] == tail && line[..|meth|] == meth;
    assert tail == path + [' '] + version;
    FindIs(path, ' ', version);
    assert tail[..|path|] == path && tail[|path| + 1..] == version;
  }

  /** A printed head is read back exactly, up to its blank line and no further. */
  lemma HeadRead(meth: string, path: string, version: string, lines: seq<string>, rest: string)
    requires GoodStart(meth, path, version) && forall l :: l in lines ==> GoodLine(l)
    ensures ParseRequest(RenderRequest(meth, path, version, lines) + rest)
            == Parsed(Request(meth, path, version, AddHeaders(map[], lines)), rest)
  {
    var start, tail := meth + " " + path + " " + version, Lines(lines) + CRLF + rest;
    assert ([start] + lines)[1..] == lines;
    assert RenderRequest(meth, path, version, lines) + rest == start + CRLF + tail;
    LineAtCrlf(start, tail);
    StartLineRead(meth, path, version);
    HeadersRead(lines, rest, map[]);
  }

  /** A request line with one space is that of HTTP/1.0. */
  lemma ShortHeadRead(meth: string, path: string, lines: seq<string>, rest: string)
    requires ' ' !in meth && ' ' !in path && NoCrlf(meth + " " + path) && forall l :: l in lines ==> GoodLine(l)
    ensures ParseRequest(Lines([meth + " " + path] + lines) + CRLF + rest)
            == Parsed(Request(meth, path, "HTTP/1.0", AddHeaders(map[], lines)), rest)
  {
    var start, tail := meth + " " + path, Lines(lines) + CRLF + rest;
    assert ([start] + lines)[1..] == lines;
    assert Lines([start] + lines) + CRLF + rest == start + CRLF + tail;
    LineAtCrlf(start, tail);
    FindIs(meth, ' ', path);
    assert start[..|meth|] == meth && start[|meth| + 1..] == path;
    assert StartLine(start) == Some((meth, path, "HTTP/1.0"));
    HeadersRead(lines, rest, map[]);
    hide Line, StartLine, ParseHeaders, Lines;
  }

  /** A request line without a space is an error, and consumes just that line. */
  lemma NoSpaceIsMalformed(line: string, rest: string)
    requires line != "" && ' ' !in line && NoCrlf(line)
    ensures ParseRequest(line + CRLF + rest) == Malformed(rest)
  {
    LineAtCrlf(line, rest);
    hide Line;
  }

  // ------------------------------------------------- headers as a dictionary

  /** A header that survives: its name has no colon, its value is not empty and starts with no blank, neither breaks
      the line. */
  ghost predicate GoodHeader(kv: (string, string)) {
    && ':' !in kv.0 && NoCrlf(HeaderLine(kv))
    && kv.1 != "" && !Blank(kv.1[0])
  }

  lemma {:induction false} SkipBlanksFacts(v: string)
    ensures |SkipBlanks(v)| <= |v| && (SkipBlanks(v) != "" ==> !Blank(SkipBlanks(v)[0]))
    ensures SkipBlanks(v) == v <==> v == "" || !Blank(v[0])
  {
    if v != "" && Blank(v[0]) {
      SkipBlanksFacts(v[1..]);
    }
  }

  /** The space that `to_string` puts before a value is taken away again exactly if the value is not empty and does not
      start with a blank of its own. */
  lemma TrimInvertsExactly(v: string)
    ensures Trim(" " + v) == v <==> v != "" && !Blank(v[0])
  {
    assert (" " + v)[1..] == v;
    assert SkipBlanks(" " + v) == SkipBlanks(v);
    SkipBlanksFacts(v);
  }

  lemma HeaderRead(h: map<string, string>, kv: (string, string))
    requires ':' !in kv.0
    ensures AddHeader(h, HeaderLine(kv)) == h[Lower(kv.0) := Trim(" " + kv.1)]
  {
    var line := HeaderLine(kv);
    assert line == kv.0 + [':'] + (" " + kv.1);
    FindIs(kv.0, ':', " " + kv.1);
    assert line[..|kv.0|] == kv.0 && line[|kv.0| + 1..] == " " + kv.1;
  }

  function Dictionary(h: map<string, string>, hs: seq<(string, string)>): map<string, string>
    decreases |hs|
  {
    if hs == [] then h else Dictionary(h[Lower(hs[0].0) := hs[0].1], hs[1..])
  }

  /** One header line: a name, a colon, blanks, and a value that may be missing. Letters of the name are folded, the blanks
      go unless there is nothing else, and a line without a colon changes nothing. */
  lemma HeaderLineRead(h: map<string, string>, name: string, blanks: string, value: string)
    requires ':' !in name && (forall b :: b in blanks ==> Blank(b)) && (value == "" || !Blank(value[0]))
    ensures AddHeader(h, name + ":" + blanks + value) == h[Lower(name) := if value == "" then blanks else value]
    ensures AddHeader(h, name) == h
  {
    var line := name + ":" + blanks + value;
    assert line == name + [':'] + (blanks + value);
    FindIs(name, ':', blanks + value);
    assert line[..|name|] == name && line[|name| + 1..] == blanks + value;
    SkipAllBlanks(blanks, value);
    assert blanks + "" == blanks;
  }

  lemma {:induction false} SkipAllBlanks(blanks: string, value: string)
    requires (forall b :: b in blanks ==> Blank(b)) && (value == "" || !Blank(value[0]))
    ensures SkipBlanks(blanks + value) == value
  {
    if blanks == "" {
      assert blanks + value == value;
    } else {
      assert (blanks + value)[0] == blanks[0] && blanks[0] in blanks;
      assert (blanks + value)[1..] == blanks[1..] + value;
      SkipAllBlanks(blanks[1..], value);
    }
  }

  /** Folding takes each capital letter to its small one and leaves everything else. */
  lemma LowerFolds()
    ensures Lower("ABCDEFGHIJKLMNOPQRSTUVWXYZ") == "abcdefghijklmnopqrstuvwxyz"
    ensures forall s, i :: 0 <= i < |s| && s[i] !in "ABCDEFGHIJKLMNOPQRSTUVWXYZ" ==> Lower(s)[i] == s[i]
  {
    var letters := "ABCDEFGHIJKLMNOPQRSTUVWXYZ";
    forall c | 'A' <= c <= 'Z'
      ensures c in letters
    {
      assert letters[c as int - 'A' as int] == c;
    }
  }

  lemma {:induction false} HeadersAreDictionary(h: map<string, string>, hs: seq<(string, string)>)
    requires forall kv :: kv in hs ==> GoodHeader(kv)
    ensures AddHeaders(h, HeaderLines(hs)) == Dictionary(h, hs)
    decreases |hs|
  {
    if hs != [] {
      assert GoodHeader(hs[0]) && forall kv :: kv in hs[1..] ==> kv in hs;
      assert HeaderLines(hs)[1..] == HeaderLines(hs[1..]);
      HeaderRead(h, hs[0]);
      TrimInvertsExactly(hs[0].1);
      HeadersAreDictionary(h[Lower(hs[0].0) := hs[0].1], hs[1..]);
    }
  }

  ghost predicate DistinctNames(hs: seq<(string, string)>) {
    forall i, j :: 0 <= i < j < |hs| ==> Lower(hs[i].0) != Lower(hs[j].0)
  }

  /** With distinct names the order of enumeration does not matter: each name maps to its value, and there are no others. */
  lemma {:induction false} DictionaryFacts(h: map<string, string>, hs: seq<(string, string)>)
    requires DistinctNames(hs)
    ensures forall i :: 0 <= i < |hs| ==> Lower(hs[i].0) in Dictionary(h, hs) && Dictionary(h, hs)[Lower(hs[i].0)] == hs[i].1
    ensures forall k :: (forall i :: 0 <= i < |hs| ==> Lower(hs[i].0) != k) ==>
              (k in Dictionary(h, hs) <==> k in h) && (k in h ==> Dictionary(h, hs)[k] == h[k])
    decreases |hs|
  {
    if hs != [] {
      var tail := hs[1..];
      assert forall i :: 0 <= i < |tail| ==> tail[i] == hs[i + 1];
      DictionaryFacts(h[Lower(hs[0].0) := hs[0].1], tail);
      assert forall i :: 0 < i < |hs| ==> hs[i] == tail[i - 1];
    }
  }

  // ------------------------------------------------------------- round trips

  ghost predicate GoodResponse(r: Response) {
    && NoCrlf(r.statusText)
    && (forall kv :: kv in AllHeaders(r) ==> GoodHeader(kv))
    && DistinctNames(AllHeaders(r))
  }

  lemma {:induction false} DecimalFacts(n: nat)
    ensures Decimal(n) != "" && forall c :: c in Decimal(n) ==> '0' <= c <= '9'
    ensures Number(Decimal(n)) == n
  {
    if n >= 10 {
      DecimalFacts(n / 10);
      assert Decimal(n)[..|Decimal(n)| - 1] == Decimal(n / 10);
    }
  }

  /** The number that a string of digits denotes. */
  function Number(s: string): int {
    if s == "" then 0 else 10 * Number(s[..|s| - 1]) + (s[|s| - 1] as int - '0' as int)
  }

  lemma PlainNoCrlf(a: string, b: string)
    requires '\r' !in a && NoCrlf(b)
    ensures NoCrlf(a + b)
  {
  }

  lemma StatusLineGood(r: Response)
    requires NoCrlf(r.statusText)
    ensures GoodStart("HTTP/1.1", Integer(r.status), r.statusText)
    ensures StatusLine(r) == "HTTP/1.1" + " " + Integer(r.status) + " " + r.statusText
  {
    DecimalFacts(if r.status < 0 then -r.status else r.status);
    var a := "HTTP/1.1" + " " + Integer(r.status) + " ";
    assert StatusLine(r) == a + r.statusText;
    PlainNoCrlf(a, r.statusText);
  }

  /** `parse_request` inverts `to_string`, for any order of the headers: it finds the version, the decimal status, the
      status text and the headers with lower-case names, and leaves exactly the body and what follows. */
  lemma ResponseRoundTrip(r: Response, rest: string)
    requires GoodResponse(r)
    ensures ParseRequest(Render(r) + rest)
            == Parsed(Request("HTTP/1.1", Integer(r.status), r.statusText, Dictionary(map[], AllHeaders(r))), r.body + rest)
  {
    var lines := HeaderLines(AllHeaders(r));
    StatusLineGood(r);
    assert Render(r) + rest == RenderRequest("HTTP/1.1", Integer(r.status), r.statusText, lines) + (r.body + rest);
    forall l | l in lines
      ensures GoodLine(l)
    {
      var i :| 0 <= i < |lines| && lines[i] == l;
      assert AllHeaders(r)[i] in AllHeaders(r);
    }
    HeadRead("HTTP/1.1", Integer(r.status), r.statusText, lines, r.body + rest);
    HeadersAreDictionary(map[], AllHeaders(r));
  }

  /** The parsed headers are those of the response, and Content-Length denotes the length of the body. */
  lemma HeadersMean(r: Response)
    requires GoodResponse(r)
    ensures var h := Dictionary(map[], AllHeaders(r));
            && (forall i :: 0 <= i < |r.headers| ==> Lower(r.headers[i].0) in h && h[Lower(r.headers[i].0)] == r.headers[i].1)
            && "content-type" in h && h["content-type"] == r.contentType
            && "connection" in h && h["connection"] == "keep-alive"
            && "content-length" in h && Number(h["content-length"]) == |r.body|
            && |h| == |r.headers| + 3
  {
    var hs := AllHeaders(r);
    FixedNames(r);
    assert forall i :: 0 <= i < |r.headers| ==> hs[i + 3] == r.headers[i];
    assert DistinctNames(hs) && hs[0].1 == r.contentType && hs[1].1 == Decimal(|r.body|) && hs[2].1 == "keep-alive";
    hide GoodResponse, AllHeaders, Lower, Dictionary, DistinctNames, Decimal, Number;
    DictionaryFacts(map[], hs);
    DecimalFacts(|r.body|);
    DictionarySize(map[], hs);
  }

  lemma FixedNames(r: Response)
    ensures var hs := AllHeaders(r);
            && |hs| == |r.headers| + 3
            && Lower(hs[0].0) == "content-type" && Lower(hs[1].0) == "content-length" && Lower(hs[2].0) == "connection"
  {
  }

  lemma {:induction false} DictionarySize(h: map<string, string>, hs: seq<(string, string)>)
    requires DistinctNames(hs) && forall i :: 0 <= i < |hs| ==> Lower(hs[i].0) !in h
    ensures |Dictionary(h, hs)| == |h| + |hs|
    decreases |hs|
  {
    if hs != [] {
      var h' := h[Lower(hs[0].0) := hs[0].1];
      assert h'.Keys == h.Keys + {Lower(hs[0].0)};
      assert |h'| == |h'.Keys| == |h| + 1;
      DictionarySize(h', hs[1..]);
    }
  }

  /** What a client can see of a response. */
  datatype View = View(status: string, statusText: string, headers: map<string, string>, body: string)

  function ViewOf(r: Response): View {
    View(Integer(r.status), r.statusText, Dictionary(map[], AllHeaders(r)), r.body)
  }

  /** A client's reading of one response: the head, then as many bytes as Content-Length says. */
  function Decode(s: string): Option<(View, string)> {
    match ParseRequest(s)
    case Malformed(_) => None
    case Parsed(req, rest) =>
      if "content-length" in req.headers && 0 <= Number(req.headers["content-length"]) <= |rest| then
        var n := Number(req.headers["content-length"]);
        Some((View(req.path, req.version, req.headers, rest[..n]), rest[n..]))
      else None
  }

  lemma DecodeRender(r: Response, rest: string)
    requires GoodResponse(r)
    ensures Decode(Render(r) + rest) == Some((ViewOf(r), rest))
  {
    ResponseRoundTrip(r, rest);
    HeadersMean(r);
    assert (r.body + rest)[..|r.body|] == r.body && (r.body + rest)[|r.body|..] == rest;
  }

  function RenderAll(rs: seq<Response>): string { if rs == [] then "" else Render(rs[0]) + RenderAll(rs[1..]) }

  lemma RenderNotEmpty(r: Response)
    ensures Render(r) != ""
  {
  }

  /** Responses sent back to back on one connection decode in one way only. */
  lemma {:induction false} ResponsesDecodeUniquely(a: seq<Response>, b: seq<Response>)
    requires forall r :: r in a || r in b ==> GoodResponse(r)
    requires RenderAll(a) == RenderAll(b)
    ensures |a| == |b| && forall i :: 0 <= i < |a| ==> ViewOf(a[i]) == ViewOf(b[i])
    decreases |a|
  {
    hide GoodResponse, ViewOf, Render, Decode;
    if a != [] {
      RenderNotEmpty(a[0]);
    }
    if b != [] {
      RenderNotEmpty(b[0]);
    }
    if a != [] && b != [] {
      assert a[0] in a && b[0] in b;
      DecodeRender(a[0], RenderAll(a[1..]));
      DecodeRender(b[0], RenderAll(b[1..]));
      hide RenderAll;
      ResponsesDecodeUniquely(a[1..], b[1..]);
      forall i | 0 <= i < |a|
        ensures ViewOf(a[i]) == ViewOf(b[i])
      {
        if i > 0 {
          assert a[i] == a[1..][i - 1] && b[i] == b[1..][i - 1];
        }
      }
    }
  }

  // ------------------------------------------------------------- the server

  /** The static files. */
  datatype Site = Site(indexHtml: string, statusJson: string)

  function Route(req: Request, site: Site): Response {
    if req.meth != "GET" then Response(405, "Method Not Allowed", "text/plain", "405 Method Not Allowed\n", [])
    else if req.path == "/" then Response(200, "OK", "text/html; charset=utf-8", site.indexHtml, [])
    else if req.path == "/hello" then Response(200, "OK", "text/plain; charset=utf-8", "Hello, World!\n", [])
    else if req.path == "/json" then Response(200, "OK", "application/json", site.statusJson, [])
    else Response(404, "Not Found", "text/plain; charset=utf-8", "404 Not Found\n", [])
  }

  /** Everything the server sends on a connection whose peer sends s. */
  function Serve(s: string, site: Site): string
    decreases |s|
  {
    var p := ParseRequest(s);
    if p.Malformed? || p.req.meth == "" then "" else Render(Route(p.req, site)) + Serve(p.rest, site)
  }

  /** Does the connection end at end of file (or a blank line), rather than at a malformed request line? */
  predicate EndsWell(s: string)
    decreases |s|
  {
    var p := ParseRequest(s);
    p.Parsed? && (p.req.meth == "" || EndsWell(p.rest))
  }

  /** A request as a client writes it. */
  datatype ClientRequest = ClientRequest(meth: string, path: string, version: string, lines: seq<string>)

  ghost predicate GoodRequest(c: ClientRequest) {
    c.meth != "" && GoodStart(c.meth, c.path, c.version) && forall l :: l in c.lines ==> GoodLine(l)
  }

  function RequestBytes(c: ClientRequest): string { RenderRequest(c.meth, c.path, c.version, c.lines) }

  function RequestsBytes(cs: seq<ClientRequest>): string {
    if cs == [] then "" else RequestBytes(cs[0]) + RequestsBytes(cs[1..])
  }

  function Answer(c: ClientRequest, site: Site): Response {
    Route(Request(c.meth, c.path, c.version, AddHeaders(map[], c.lines)), site)
  }

  function Answers(cs: seq<ClientRequest>, site: Site): seq<Response> {
    seq(|cs|, i requires 0 <= i < |cs| => Answer(cs[i], site))
  }

  /** One request is answered, and what follows it is served in turn. In particular the bytes of a request body are taken
      for the next request: the server does not read bodies. */
  lemma ServeOne(c: ClientRequest, rest: string, site: Site)
    requires GoodRequest(c)
    ensures Serve(RequestBytes(c) + rest, site) == Render(Answer(c, site)) + Serve(rest, site)
    ensures EndsWell(RequestBytes(c) + rest) == EndsWell(rest)
  {
    HeadRead(c.meth, c.path, c.version, c.lines, rest);
  }

  lemma AnswersTail(cs: seq<ClientRequest>, site: Site)
    requires cs != []
    ensures RenderAll(Answers(cs, site)) == Render(Answer(cs[0], site)) + RenderAll(Answers(cs[1..], site))
  {
    hide Render, Answer;
    assert Answers(cs, site)[1..] == Answers(cs[1..], site);
  }

  /** Keep-alive: n requests back to back are answered by n responses back to back, in order. */
  lemma {:induction false} KeepAlive(cs: seq<ClientRequest>, site: Site)
    requires forall c :: c in cs ==> GoodRequest(c)
    ensures Serve(RequestsBytes(cs), site) == RenderAll(Answers(cs, site)) && EndsWell(RequestsBytes(cs))
  {
    if cs == [] {
      assert Line("") == ("", "");
    } else {
      hide Serve, EndsWell, Render, Answer, Answers, GoodRequest, RequestBytes;
      assert GoodRequest(cs[0]) && forall x :: x in cs[1..] ==> x in cs;
      ServeOne(cs[0], RequestsBytes(cs[1..]), site);
      KeepAlive(cs[1..], site);
      AnswersTail(cs, site);
    }
  }

  ghost predicate Plain(s: string) { forall i :: 0 <= i < |s| ==> s[i] != '\r' }

  lemma PlainTexts()
    ensures Plain("Method Not Allowed") && Plain("OK") && Plain("Not Found") && Plain("text/plain")
    ensures Plain("text/html; charset=utf-8") && Plain("text/plain; charset=utf-8") && Plain("application/json")
  {
  }

  lemma RouteFacts(req: Request, site: Site)
    ensures var r := Route(req, site);
            && Plain(r.statusText) && Plain(r.contentType) && r.contentType != "" && !Blank(r.contentType[0])
            && r.headers == []
  {
    PlainTexts();
    hide Plain;
  }

  lemma PlainHeader(k: string, v: string)
    requires k in {"Content-Type", "Content-Length", "Connection"} && Plain(v) && v != "" && !Blank(v[0])
    ensures GoodHeader((k, v))
  {
  }

  lemma DecimalPlain(n: nat)
    ensures Plain(Decimal(n)) && Decimal(n) != "" && !Blank(Decimal(n)[0])
  {
  }

  lemma FixedNamesDiffer(hs: seq<(string, string)>)
    requires |hs| == 3 && hs[0].0 == "Content-Type" && hs[1].0 == "Content-Length" && hs[2].0 == "Connection"
    ensures DistinctNames(hs)
  {
  }

  lemma KeepAliveHeader()
    ensures GoodHeader(("Connection", "keep-alive"))
  {
    PlainHeader("Connection", "keep-alive");
  }

  lemma FixedHeaders(r: Response)
    ensures r.headers == [] ==> AllHeaders(r) == [("Content-Type", r.contentType), ("Content-Length", Decimal(|r.body|)),
                                                  ("Connection", "keep-alive")]
  {
  }

  /** Every answer is one that a client can decode. */
  lemma AnswersAreGood(c: ClientRequest, site: Site)
    ensures GoodResponse(Answer(c, site))
  {
    hide Route, Decimal, DistinctNames, AllHeaders, Plain, NoCrlf, GoodHeader, AddHeaders;
    var req := Request(c.meth, c.path, c.version, AddHeaders(map[], c.lines));
    var r := Route(req, site);
    assert Answer(c, site) == r;
    RouteFacts(req, site);
    DecimalPlain(|r.body|);
    FixedHeaders(r);
    FixedNamesDiffer(AllHeaders(r));
    PlainHeader("Content-Type", r.contentType);
    PlainHeader("Content-Length", Decimal(|r.body|));
    KeepAliveHeader();
    PlainIsGood(r.statusText);
  }

  lemma PlainIsGood(s: string)
    requires Plain(s)
    ensures NoCrlf(s)
  {
  }

  lemma StatusStrings()
    ensures Integer(200) == "200" && Integer(404) == "404" && Integer(405) == "405"
  {
    assert Decimal(20) == "2" + "0" && Decimal(40) == "4" + "0";
    assert Decimal(200) == Decimal(20) + "0" && Decimal(404) == Decimal(40) + "4" && Decimal(405) == Decimal(40) + "5";
  }

  /** What a client makes of an answer. */
  ghost predicate Says(v: View, status: string, statusText: string, contentType: string, body: string) {
    && v.status == status && v.statusText == statusText && v.body == body
    && "content-type" in v.headers && v.headers["content-type"] == contentType
    && "content-length" in v.headers && Number(v.headers["content-length"]) == |body|
    && "connection" in v.headers && v.headers["connection"] == "keep-alive"
    && |v.headers| == 3
  }

  /** What a client reads from the wire, for each method and path: status, reason, type and body, nothing more; and what
      follows the answer is left for the next one. */
  lemma ClientSees(c: ClientRequest, rest: string, site: Site)
    ensures var seen := Decode(Render(Answer(c, site)) + rest);
            && seen.Some? && seen.value.1 == rest
            && var v := seen.value.0;
               && (c.meth != "GET" ==> Says(v, "405", "Method Not Allowed", "text/plain", "405 Method Not Allowed\n"))
               && (c.meth == "GET" && c.path == "/" ==> Says(v, "200", "OK", "text/html; charset=utf-8", site.indexHtml))
               && (c.meth == "GET" && c.path == "/hello" ==>
                     Says(v, "200", "OK", "text/plain; charset=utf-8", "Hello, World!\n"))
               && (c.meth == "GET" && c.path == "/json" ==> Says(v, "200", "OK", "application/json", site.statusJson))
               && (c.meth == "GET" && c.path !in {"/", "/hello", "/json"} ==>
                     Says(v, "404", "Not Found", "text/plain; charset=utf-8", "404 Not Found\n"))
  {
    var r := Answer(c, site);
    AnswersAreGood(c, site);
    DecodeRender(r, rest);
    HeadersMean(r);
    StatusStrings();
    assert r.headers == [];
    hide Decode, Render, Dictionary, GoodResponse, AddHeaders, Integer, Number;
  }

  // ------------------------------------- where the example is not an HTTP server

  /** A blank line before the request line ends the connection, where section 2.2 of RFC 9112 asks to skip it. */
  lemma LeadingBlankLineEnds(s: string, site: Site)
    ensures Serve(CRLF + s, site) == ""
  {
  }

  lemma CrlfHead(s: string)
    ensures CRLF <= s <==> |s| >= 2 && s[0] == '\r' && s[1] == '\n'
  {
  }

  /** Put a character in front that does not begin a line end with what follows. */
  lemma NoCrlfCons(c: char, t: string)
    requires NoCrlf(t) && !(c == '\r' && t != "" && t[0] == '\n')
    ensures NoCrlf([c] + t)
  {
    var s := [c] + t;
    forall i | 0 <= i < |s| - 1
      ensures !(s[i] == '\r' && s[i + 1] == '\n')
    {
      if i > 0 {
        assert s[i] == t[i - 1] && s[i + 1] == t[i];
      }
    }
  }

  lemma {:induction false} LineSplits(s: string)
    ensures if NoCrlf(s) then Line(s) == (s, "") else s == Line(s).0 + CRLF + Line(s).1 && NoCrlf(Line(s).0)
  {
    CrlfHead(s);
    if NoCrlf(s) {
      LineAtEof(s);
    } else if CRLF <= s {
      assert s == "" + CRLF + s[2..];
    } else {
      var t := s[1..];
      assert s == [s[0]] + t;
      assert !NoCrlf(t) by {
        if NoCrlf(t) {
          NoCrlfCons(s[0], t);
        }
      }
      LineSplits(t);
      hide NoCrlf;
      var first := Line(t).0;
      assert Line(s) == ([s[0]] + first, Line(t).1);
      assert first != "" ==> first[0] == s[1];
      NoCrlfCons(s[0], first);
      assert s == [s[0]] + first + CRLF + Line(t).1;
    }
  }

  /** The lines of a stream that end with a CRLF, and what comes after the last of them. */
  ghost function Split(s: string): (r: (seq<string>, string))
    decreases |s|
  {
    if NoCrlf(s) then ([], s)
    else
      var (line, rest) := Line(s);
      ([line] + Split(rest).0, Split(rest).1)
  }

  /** All lines, the last one cut off by the end of the stream if it is not empty. */
  ghost function AllLines(s: string): seq<string> {
    Split(s).0 + if Split(s).1 == "" then [] else [Split(s).1]
  }

  /** The end of the stream comes before the blank line that ends a head. */
  ghost predicate HeadIsCut(s: string) { "" !in Split(s).0 }

  /** The header loop takes what is left of the stream for header lines, the cut one included. */
  lemma {:induction false} HeadersCut(s: string, h: map<string, string>)
    requires HeadIsCut(s)
    ensures ParseHeaders(s, h) == (AddHeaders(h, AllLines(s)), "")
    decreases |s|
  {
    LineSplits(s);
    if NoCrlf(s) {
      if s != "" {
        assert AllLines(s) == [s] && [s][1..] == [];
        assert ParseHeaders("", AddHeader(h, s)) == (AddHeader(h, s), "");
      }
    } else {
      var (line, rest) := Line(s);
      assert line in Split(s).0;
      assert Split(rest).0 == Split(s).0[1..];
      assert AllLines(s) == [line] + AllLines(rest) && AllLines(s)[1..] == AllLines(rest);
      HeadersCut(rest, AddHeader(h, line));
    }
  }

  /** When a connection is answered at all: unless the stream is empty or begins with a blank line, its first line has a
      space, and something before it. */
  lemma AnsweredExactly(s: string, site: Site)
    ensures Serve(s, site) == "" <==>
            s == "" || CRLF <= s || StartLine(Line(s).0).None? || StartLine(Line(s).0).value.0 == ""
  {
    hide Render, Route;
    var p := ParseRequest(s);
    if p.Parsed? && p.req.meth != "" {
      RenderNotEmpty(Route(p.req, site));
    }
  }

  /** What becomes of a head that the end of the stream cuts off anywhere after its first byte: it is answered as if it were
      complete, with the cut line as its last, exactly if its first line is a request line with a method; and nothing else
      is sent. */
  lemma CutHeadExactly(s: string, site: Site)
    requires s != "" && HeadIsCut(s)
    ensures var all := AllLines(s);
            && all != []
            && (EndsWell(s) <==> StartLine(all[0]).Some?)
            && Serve(s, site) == (match StartLine(all[0])
                                  case None => ""
                                  case Some((meth, path, version)) =>
                                    if meth == "" then ""
                                    else Render(Route(Request(meth, path, version, AddHeaders(map[], all[1..])), site)))
  {
    LineSplits(s);
    var (line, rest) := Line(s);
    var all := AllLines(s);
    assert all[0] == line && line != "" && HeadIsCut(rest) && all[1..] == AllLines(rest) by { CutTail(s); }
    HeadersCut(rest, map[]);
    NothingMore(site);
    ServeStep(s, site);
    hide Serve, EndsWell, Render, Route, ParseHeaders, Split;
  }

  lemma CutTail(s: string)
    requires s != "" && HeadIsCut(s)
    ensures AllLines(s) != [] && AllLines(s)[0] == Line(s).0 != "" && HeadIsCut(Line(s).1)
    ensures AllLines(s)[1..] == AllLines(Line(s).1)
  {
    LineSplits(s);
    if NoCrlf(s) {
    } else {
      hide Split, Line, NoCrlf;
      assert Line(s).0 in Split(s).0;
      assert Split(Line(s).1).0 == Split(s).0[1..];
      assert AllLines(s) == [Line(s).0] + AllLines(Line(s).1);
    }
  }

  lemma ServeStep(s: string, site: Site)
    ensures var p := ParseRequest(s);
            && Serve(s, site) == (if p.Malformed? || p.req.meth == "" then ""
                                  else Render(Route(p.req, site)) + Serve(p.rest, site))
            && (EndsWell(s) <==> p.Parsed? && (p.req.meth == "" || EndsWell(p.rest)))
  {
  }

  lemma NothingMore(site: Site)
    ensures Serve("", site) == "" && EndsWell("")
  {
    assert Line("") == ("", "");
  }
}
