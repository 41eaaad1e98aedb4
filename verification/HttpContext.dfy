/** The incremental request parser of networking/http (HttpContext.cpp, HttpRequest.h). */
module HttpContext {
  import opened Bytes
  import opened Buffer

  const SPACE: byte := 0x20
  const QUESTION: byte := 0x3F
  const COLON: byte := 0x3A
  const ZERO: byte := 0x30
  const ONE: byte := 0x31

  datatype Method = Invalid | Get | Post | Head | Put | Delete

  datatype Version = Unknown | Http10 | Http11

  /** methodString: GET, POST, HEAD, PUT, DELETE, or UNKNOWN. */
  function MethodString(m: Method): seq<byte> {
    match m
    case Get => [0x47, 0x45, 0x54]
    case Post => [0x50, 0x4F, 0x53, 0x54]
    case Head => [0x48, 0x45, 0x41, 0x44]
    case Put => [0x50, 0x55, 0x54]
    case Delete => [0x44, 0x45, 0x4C, 0x45, 0x54, 0x45]
    case Invalid => [0x55, 0x4E, 0x4B, 0x4E, 0x4F, 0x57, 0x4E]
  }

  /** "HTTP/1." */
  const HTTP_1: seq<byte> := [0x48, 0x54, 0x54, 0x50, 0x2F, 0x31, 0x2E]

  function VersionString(v: Version): seq<byte> {
    HTTP_1 + [if v.Http11? then ONE else ZERO]
  }

  /** The fields of a request; the receive time is left aside. */
  datatype Request = Request(verb: Method, version: Version, path: seq<byte>, query: seq<byte>,
                             headers: map<seq<byte>, seq<byte>>)

  const FRESH := Request(Invalid, Unknown, [], [], map[])

  datatype ParseState = ExpectRequestLine | ExpectHeaders | ExpectBody | GotAll

  datatype Context = Context(state: ParseState, request: Request)

  // ----- Request lines -----

  /** std::find: the first position of c, or the end. */
  function Find(s: seq<byte>, c: byte): (r: nat)
    ensures r <= |s| && c !in s[..r]
    ensures r < |s| ==> s[r] == c
  {
    if s == [] || s[0] == c then 0 else
      var r := 1 + Find(s[1..], c);
      assert s[..r] == [s[0]] + s[1..][..r - 1];
      r
  }

  function MethodOf(s: seq<byte>): Method {
    if s == MethodString(Get) then Get
    else if s == MethodString(Post) then Post
    else if s == MethodString(Head) then Head
    else if s == MethodString(Put) then Put
    else if s == MethodString(Delete) then Delete
    else Invalid
  }

  /** Path and query of a request target: split at the first question mark, which the query keeps. */
  function WithTarget(req: Request, target: seq<byte>): Request {
    var q := Find(target, QUESTION);
    if q != |target| then req.(path := target[..q], query := target[q..]) else req.(path := target)
  }

  /** The rest of a request line: eight bytes, of which the first seven and the last are checked. */
  function WithVersion(req: Request, rest: seq<byte>): (bool, Request) {
    if |rest| != 8 || rest[..7] != HTTP_1 then (false, req)
    else if rest[7] == ONE then (true, req.(version := Http11))
    else if rest[7] == ZERO then (true, req.(version := Http10))
    else (false, req)
  }

  /** processRequestLine: whether the line is accepted, and the request as far as it was filled in. */
  function RequestLine(req: Request, line: seq<byte>): (bool, Request) {
    var sp := Find(line, SPACE);
    if sp == |line| then (false, req)
    else
      var req1 := req.(verb := MethodOf(line[..sp]));
      if req1.verb == Invalid then (false, req1)
      else
        var rest := line[sp + 1..];
        var sp2 := Find(rest, SPACE);
        if sp2 == |rest| then (false, req1)
        else WithVersion(WithTarget(req1, rest[..sp2]), rest[sp2 + 1..])
  }

  /** method SP target SP version, as section 3.1.1 of RFC 7230 lays a request line out. */
  function Layout(m: Method, target: seq<byte>, v: Version): seq<byte> {
    MethodString(m) + ([SPACE] + (target + ([SPACE] + VersionString(v))))
  }

  predicate IsRequestLine(line: seq<byte>, m: Method, target: seq<byte>, v: Version) {
    m != Invalid && v != Unknown && SPACE !in target && line == Layout(m, target, v)
  }

  /** A string without c, then c, then anything: the search splits it there. */
  lemma FindInConcat(a: seq<byte>, c: byte, b: seq<byte>)
    requires c !in a
    ensures var s := a + ([c] + b); Find(s, c) == |a| && |a| < |s| && s[..|a|] == a && s[|a| + 1..] == b
  {
    var s := a + ([c] + b);
    assert s[|a|] == c;
    assert forall i :: 0 <= i < |a| ==> s[i] == a[i];
  }

  lemma MethodStrings(m: Method)
    ensures SPACE !in MethodString(m)
    ensures m != Invalid ==> MethodOf(MethodString(m)) == m
  {
  }

  lemma MethodOfIsInverse(s: seq<byte>)
    ensures MethodOf(s) != Invalid ==> MethodString(MethodOf(s)) == s
  {
  }

  /** A line laid out as a request line is accepted, with exactly its parts. */
  lemma LayoutIsAccepted(req: Request, m: Method, target: seq<byte>, v: Version)
    requires m != Invalid && v != Unknown && SPACE !in target
    ensures RequestLine(req, Layout(m, target, v)) == (true, WithTarget(req.(verb := m), target).(version := v))
  {
    hide Find, MethodOf, MethodString, WithTarget;
    MethodStrings(m);
    FindInConcat(MethodString(m), SPACE, target + ([SPACE] + VersionString(v)));
    FindInConcat(target, SPACE, VersionString(v));
    assert VersionString(v)[..7] == HTTP_1;
  }

  /** A line is accepted if and only if it is laid out as a request line; then method, path, query and
      version written back give the line, the path has no question mark and the query starts with one. */
  lemma RequestLineIsExact(req: Request, line: seq<byte>)
    requires req.query == []
    ensures RequestLine(req, line).0 <==> exists m, target, v :: IsRequestLine(line, m, target, v)
    ensures RequestLine(req, line).0 ==>
              var r := RequestLine(req, line).1;
              && line == Layout(r.verb, r.path + r.query, r.version)
              && QUESTION !in r.path && (r.query == [] || r.query[0] == QUESTION)
              && r.headers == req.headers
  {
    var (ok, r) := RequestLine(req, line);
    if ok {
      AcceptedHasLayout(req, line);
      assert IsRequestLine(line, r.verb, r.path + r.query, r.version);
    }
    forall m, target, v | IsRequestLine(line, m, target, v) ensures ok {
      LayoutIsAccepted(req, m, target, v);
    }
  }

  lemma TargetParts(req: Request, target: seq<byte>)
    requires req.query == []
    ensures var r := WithTarget(req, target);
            && r.path + r.query == target
            && QUESTION !in r.path && (r.query == [] || r.query[0] == QUESTION)
            && r == req.(path := r.path, query := r.query)
  {
    var q := Find(target, QUESTION);
    assert target[..q] + target[q..] == target;
    assert target[..|target|] == target;
  }

  lemma AcceptedHasLayout(req: Request, line: seq<byte>)
    requires req.query == [] && RequestLine(req, line).0
    ensures var r := RequestLine(req, line).1;
            && IsRequestLine(line, r.verb, r.path + r.query, r.version)
            && QUESTION !in r.path && (r.query == [] || r.query[0] == QUESTION)
            && r.headers == req.headers
  {
    hide Find, MethodString, MethodOf, WithTarget, WithVersion;
    var sp := Find(line, SPACE);
    var rest := line[sp + 1..];
    var sp2 := Find(rest, SPACE);
    var target, tail := rest[..sp2], rest[sp2 + 1..];
    var req1 := req.(verb := MethodOf(line[..sp]));
    TargetParts(req1, target);
    VersionParts(WithTarget(req1, target), tail);
    MethodOfIsInverse(line[..sp]);
    SplitAtSpaces(line, sp, sp2);
  }

  lemma VersionParts(req: Request, tail: seq<byte>)
    ensures var (ok, r) := WithVersion(req, tail);
            ok ==> r.version != Unknown && tail == VersionString(r.version) && r == req.(version := r.version)
  {
    if |tail| == 8 { assert tail == tail[..7] + [tail[7]]; }
  }

  lemma SplitAtSpaces(line: seq<byte>, sp: nat, sp2: nat)
    requires sp < |line| && line[sp] == SPACE && sp2 < |line[sp + 1..]| && line[sp + 1..][sp2] == SPACE
    ensures var rest := line[sp + 1..];
            line == line[..sp] + ([SPACE] + (rest[..sp2] + ([SPACE] + rest[sp2 + 1..])))
  {
    var rest := line[sp + 1..];
    assert rest == rest[..sp2] + ([SPACE] + rest[sp2 + 1..]);
  }

  // ----- Headers -----

  /** isspace in the C locale. */
  predicate IsSpace(c: byte) {
    c == 0x20 || 0x09 <= c <= 0x0D
  }

  /** The first position from i on that is not a space. */
  function TrimStart(s: seq<byte>, i: nat): (r: nat)
    requires i <= |s|
    ensures i <= r <= |s|
    ensures forall k :: i <= k < r ==> IsSpace(s[k])
    ensures r < |s| ==> !IsSpace(s[r])
    decreases |s| - i
  {
    if i < |s| && IsSpace(s[i]) then TrimStart(s, i + 1) else i
  }

  /** The end of what is left of the first n bytes without the spaces at their end. */
  function TrimEnd(s: seq<byte>, n: nat): (r: nat)
    requires n <= |s|
    ensures r <= n
    ensures forall k :: r <= k < n ==> IsSpace(s[k])
    ensures r > 0 ==> !IsSpace(s[r - 1])
  {
    if n > 0 && IsSpace(s[n - 1]) then TrimEnd(s, n - 1) else n
  }

  function SkipSpaces(s: seq<byte>): seq<byte> {
    s[TrimStart(s, 0)..]
  }

  function DropSpaces(s: seq<byte>): seq<byte> {
    s[..TrimEnd(s, |s|)]
  }

  predicate AllSpaces(s: seq<byte>) {
    forall i :: 0 <= i < |s| ==> IsSpace(s[i])
  }

  /** addHeader: the field up to the colon, the value after it without spaces around it. */
  function WithHeader(req: Request, line: seq<byte>, colon: nat): Request
    requires colon < |line|
  {
    req.(headers := req.headers[line[..colon] := DropSpaces(SkipSpaces(line[colon + 1..]))])
  }

  predicate Trimmed(s: seq<byte>) {
    s != [] ==> !IsSpace(s[0]) && !IsSpace(s[|s| - 1])
  }

  /** field ":" spaces value spaces, the field without a colon and the value without spaces around it. */
  predicate IsHeaderLine(line: seq<byte>, field: seq<byte>, lead: seq<byte>, value: seq<byte>, trail: seq<byte>) {
    && line == field + ([COLON] + (lead + (value + trail)))
    && COLON !in field && AllSpaces(lead) && Trimmed(value) && AllSpaces(trail)
  }

  /** A header line with a colon adds exactly its field with exactly its trimmed value, and replaces what an
      earlier line gave for the field; nothing else of the request changes. */
  lemma HeaderIsExact(req: Request, line: seq<byte>)
    requires Find(line, COLON) < |line|
    ensures var colon := Find(line, COLON);
            var field, value := line[..colon], WithHeader(req, line, colon).headers[line[..colon]];
            && WithHeader(req, line, colon) == req.(headers := req.headers[field := value])
            && exists lead, trail :: IsHeaderLine(line, field, lead, value, trail)
  {
    hide Find, IsHeaderLine, SkipSpaces, DropSpaces;
    var colon := Find(line, COLON);
    var lead, trail := HeaderParts(line, colon);
    assert IsHeaderLine(line, line[..colon], lead, DropSpaces(SkipSpaces(line[colon + 1..])), trail);
  }

  lemma HeaderParts(line: seq<byte>, colon: nat) returns (lead: seq<byte>, trail: seq<byte>)
    requires colon < |line| && line[colon] == COLON && COLON !in line[..colon]
    ensures IsHeaderLine(line, line[..colon], lead, DropSpaces(SkipSpaces(line[colon + 1..])), trail)
  {
    var after := line[colon + 1..];
    lead, trail := TrimParts(after);
    hide SkipSpaces, DropSpaces, AllSpaces, Trimmed;
    assert line == line[..colon] + ([COLON] + after);
  }

  lemma TrimParts(s: seq<byte>) returns (lead: seq<byte>, trail: seq<byte>)
    ensures var value := DropSpaces(SkipSpaces(s));
            && s == lead + (value + trail) && AllSpaces(lead) && Trimmed(value) && AllSpaces(trail)
  {
    hide TrimStart, TrimEnd;
    var n := TrimStart(s, 0);
    var kept := s[n..];
    var m := TrimEnd(kept, |kept|);
    lead, trail := s[..n], kept[m..];
    assert kept == kept[..m] + trail;
  }

  // ----- parseRequest -----

  datatype Outcome = Outcome(ok: bool, ctx: Context, unread: seq<byte>)

  predicate Parsing(ctx: Context) {
    ctx.state.ExpectRequestLine? || ctx.state.ExpectHeaders?
  }

  /** What one line does: no whole line yet, refused, taken, or the end of the headers. */
  datatype Line =
    | Missing
    | Refused(ctx: Context)
    | Taken(ctx: Context, rest: seq<byte>)
    | Last(ctx: Context, rest: seq<byte>)

  function ParseLine(ctx: Context, buf: seq<byte>): (r: Line)
    requires Parsing(ctx)
    ensures r.Taken? ==> Parsing(r.ctx) && r.ctx.state.ExpectHeaders? && |r.rest| < |buf|
    ensures r.Last? ==> r.ctx.state.GotAll?
  {
    match FindCrlf(buf)
    case None => Missing
    case Some(i) =>
      var line, rest := buf[..i], buf[i + 2..];
      if ctx.state.ExpectRequestLine? then
        var (ok, req) := RequestLine(ctx.request, line);
        if ok then Taken(Context(ExpectHeaders, req), rest) else Refused(ctx.(request := req))
      else
        var colon := Find(line, COLON);
        if colon != i then Taken(ctx.(request := WithHeader(ctx.request, line, colon)), rest)
        else Last(ctx.(state := GotAll), rest)
  }

  function Parse(ctx: Context, buf: seq<byte>): (r: Outcome)
    requires Parsing(ctx)
    ensures r.ok ==> Parsing(r.ctx) || r.ctx.state.GotAll?
    decreases |buf|
  {
    match ParseLine(ctx, buf)
    case Missing => Outcome(true, ctx, buf)
    case Refused(ctx') => Outcome(false, ctx', buf)
    case Taken(ctx', rest) => Parse(ctx', rest)
    case Last(ctx', rest) => Outcome(true, ctx', rest)
  }

  /** One more piece arrives: it is parsed with what was left, unless parsing has ended. */
  function Feed(r: Outcome, piece: seq<byte>): Outcome {
    if r.ok && Parsing(r.ctx) then Parse(r.ctx, r.unread + piece) else r.(unread := r.unread + piece)
  }

  function FeedAll(r: Outcome, pieces: seq<seq<byte>>): Outcome
    decreases |pieces|
  {
    if pieces == [] then r else FeedAll(Feed(r, pieces[0]), pieces[1..])
  }

  function Joined(pieces: seq<seq<byte>>): seq<byte> {
    if pieces == [] then [] else pieces[0] + Joined(pieces[1..])
  }

  /** More bytes do not move the first CR LF. */
  lemma CrlfIsStable(a: seq<byte>, b: seq<byte>)
    requires FindCrlf(a).Some?
    ensures FindCrlf(a + b) == FindCrlf(a)
  {
    var i := FindCrlf(a).value;
    assert CrlfAt(a + b, i);
    forall k | 0 <= k < i ensures !CrlfAt(a + b, k) {
      assert !CrlfAt(a, k);
    }
  }

  /** More bytes do not change what a line that is already whole does. */
  lemma LineIsStable(ctx: Context, a: seq<byte>, b: seq<byte>)
    requires Parsing(ctx) && !ParseLine(ctx, a).Missing?
    ensures var whole := ParseLine(ctx, a + b);
            match ParseLine(ctx, a)
            case Refused(ctx') => whole == Refused(ctx')
            case Taken(ctx', rest) => whole == Taken(ctx', rest + b)
            case Last(ctx', rest) => whole == Last(ctx', rest + b)
  {
    hide RequestLine, WithHeader, Find, FindCrlf;
    CrlfIsStable(a, b);
    var i := FindCrlf(a).value;
    assert (a + b)[..i] == a[..i] && (a + b)[i + 2..] == a[i + 2..] + b;
  }

  /** Parsing a prefix and then feeding the rest is parsing the whole. */
  lemma {:induction false} ParseResumes(ctx: Context, a: seq<byte>, b: seq<byte>)
    requires Parsing(ctx)
    ensures Feed(Parse(ctx, a), b) == Parse(ctx, a + b)
    decreases |a|
  {
    hide ParseLine;
    if !ParseLine(ctx, a).Missing? {
      LineIsStable(ctx, a, b);
      match ParseLine(ctx, a)
      case Taken(ctx', rest) => ParseResumes(ctx', rest, b);
      case _ =>
    }
  }

  lemma FeedTwice(r: Outcome, a: seq<byte>, b: seq<byte>)
    ensures Feed(Feed(r, a), b) == Feed(r, a + b)
  {
    hide Parse;
    if r.ok && Parsing(r.ctx) {
      ParseResumes(r.ctx, r.unread + a, b);
      assert r.unread + a + b == r.unread + (a + b);
    } else {
      assert r.unread + a + b == r.unread + (a + b);
    }
  }

  lemma {:induction false} FeedsAddUp(r: Outcome, piece: seq<byte>, pieces: seq<seq<byte>>)
    ensures FeedAll(Feed(r, piece), pieces) == Feed(r, piece + Joined(pieces))
    decreases |pieces|
  {
    hide Feed;
    if pieces == [] {
      assert piece + [] == piece;
    } else {
      FeedTwice(r, piece, pieces[0]);
      FeedsAddUp(r, piece + pieces[0], pieces[1..]);
      assert piece + pieces[0] + Joined(pieces[1..]) == piece + Joined(pieces);
    }
  }

  /** Fragmentation does not matter: any bytes in any pieces leave the same verdict, state, request fields and
      unread bytes as one call on all of them together. */
  lemma FragmentationDoesNotMatter(pieces: seq<seq<byte>>)
    ensures FeedAll(Outcome(true, Context(ExpectRequestLine, FRESH), []), pieces)
            == Parse(Context(ExpectRequestLine, FRESH), Joined(pieces))
  {
    var r := Outcome(true, Context(ExpectRequestLine, FRESH), []);
    if pieces != [] {
      FeedsAddUp(r, pieces[0], pieces[1..]);
      assert [] + Joined(pieces) == Joined(pieces);
    }
  }

  // ----- The parser object, on a buffer -----

  /** The first loop of addHeader. */
  method TrimLeft(s: seq<byte>) returns (r: seq<byte>)
    ensures r == SkipSpaces(s)
  {
    var i := 0;
    while i < |s| && IsSpace(s[i])
      invariant 0 <= i <= |s|
      invariant TrimStart(s, i) == TrimStart(s, 0)
    {
      i := i + 1;
    }
    r := s[i..];
  }

  /** The second loop of addHeader. */
  method TrimRight(s: seq<byte>) returns (r: seq<byte>)
    ensures r == DropSpaces(s)
  {
    var n := |s|;
    while n > 0 && IsSpace(s[n - 1])
      invariant 0 <= n <= |s|
      invariant TrimEnd(s, n) == TrimEnd(s, |s|)
    {
      n := n - 1;
    }
    r := s[..n];
  }

  class Parser {
    var state: ParseState
    var request: Request

    function View(): Context
      reads this
    {
      Context(state, request)
    }

    constructor ()
      ensures View() == Context(ExpectRequestLine, FRESH)
    {
      state, request := ExpectRequestLine, FRESH;
    }

    method Reset()
      modifies this
      ensures View() == Context(ExpectRequestLine, FRESH)
    {
      state, request := ExpectRequestLine, FRESH;
    }

    /** The method has not been set before: setMethod asserts it. */
    method ProcessRequestLine(line: seq<byte>) returns (succeed: bool)
      requires request.verb == Invalid
      modifies this`request
      ensures (succeed, request) == RequestLine(old(request), line)
    {
      succeed := false;
      var space := Find(line, SPACE);
      if space != |line| {
        request := request.(verb := MethodOf(line[..space]));
        if request.verb != Invalid {
          var start := line[space + 1..];
          space := Find(start, SPACE);
          if space != |start| {
            request := WithTarget(request, start[..space]);
            var rest := start[space + 1..];
            succeed := |rest| == 8 && rest[..7] == HTTP_1;
            if succeed {
              if rest[7] == ONE {
                request := request.(version := Http11);
              } else if rest[7] == ZERO {
                request := request.(version := Http10);
              } else {
                succeed := false;
              }
            }
          }
        }
      }
    }

    method AddHeader(line: seq<byte>, colon: nat)
      requires colon < |line|
      modifies this`request
      ensures request == WithHeader(old(request), line, colon)
    {
      var value := TrimLeft(line[colon + 1..]);
      value := TrimRight(value);
      request := request.(headers := request.headers[line[..colon] := value]);
    }

    /** One round of parseRequest's loop. */
    method TakeLine(buf: Buffer) returns (ok: bool, hasMore: bool)
      requires buf.Valid() && Parsing(View())
      requires state.ExpectRequestLine? ==> request.verb == Invalid
      modifies this, buf
      ensures buf.Valid() && buf.buffer == old(buf.buffer)
      ensures match ParseLine(old(View()), old(buf.Contents()))
              case Missing => ok && !hasMore && View() == old(View()) && buf.Contents() == old(buf.Contents())
              case Refused(ctx) => !ok && !hasMore && View() == ctx && buf.Contents() == old(buf.Contents())
              case Taken(ctx, rest) => ok && hasMore && View() == ctx && buf.Contents() == rest
              case Last(ctx, rest) => ok && !hasMore && View() == ctx && buf.Contents() == rest
    {
      hide RequestLine, WithHeader, FindCrlf, Find;
      var crlf := buf.FindCRLF();
      if crlf.None? {
        return true, false;
      }
      var line := buf.Peek(crlf.value);
      if state == ExpectRequestLine {
        ok := ProcessRequestLine(line);
        hasMore := ok;
        if ok {
          buf.Retrieve(crlf.value + 2);
          state := ExpectHeaders;
        }
      } else {
        ok, hasMore := true, true;
        var colon := Find(line, COLON);
        if colon != crlf.value {
          AddHeader(line, colon);
        } else {
          state := GotAll;
          hasMore := false;
        }
        buf.Retrieve(crlf.value + 2);
      }
    }

    /** parseRequest: consumes whole lines from the buffer as long as there are any. */
    method ParseRequest(buf: Buffer) returns (ok: bool)
      requires buf.Valid() && Parsing(View())
      requires state.ExpectRequestLine? ==> request.verb == Invalid
      modifies this, buf
      ensures buf.Valid() && buf.buffer == old(buf.buffer)
      ensures Outcome(ok, View(), buf.Contents()) == Parse(old(View()), old(buf.Contents()))
    {
      hide ParseLine;
      ok := true;
      var hasMore := true;
      while hasMore
        invariant buf.Valid() && buf.buffer == old(buf.buffer)
        invariant hasMore && state.ExpectRequestLine? ==> request.verb == Invalid
        invariant hasMore ==>
                    ok && Parsing(View()) && Parse(View(), buf.Contents()) == Parse(old(View()), old(buf.Contents()))
        invariant !hasMore ==> Outcome(ok, View(), buf.Contents()) == Parse(old(View()), old(buf.Contents()))
        decreases hasMore, |buf.Contents()|
      {
        ok, hasMore := TakeLine(buf);
      }
    }
  }

  /** Pieces as they arrive from a connection: each is appended to the input buffer and parsed, until the request is
      refused or complete. The objects end up as after one call on all the bytes. */
  method ParsePieces(pieces: seq<seq<byte>>) returns (ok: bool, parser: Parser, buf: Buffer)
    ensures buf.Valid()
    ensures Outcome(ok, parser.View(), buf.Contents()) == Parse(Context(ExpectRequestLine, FRESH), Joined(pieces))
  {
    hide Parse, Joined;
    ok := true;
    parser := new Parser();
    buf := new Buffer();
    var i := 0;
    while i < |pieces|
      invariant 0 <= i <= |pieces| && buf.Valid() && fresh(parser) && fresh(buf) && fresh(buf.buffer)
      invariant parser.state.ExpectRequestLine? && ok ==> parser.request.verb == Invalid
      invariant FeedAll(Outcome(ok, parser.View(), buf.Contents()), pieces[i..])
             == FeedAll(Outcome(true, Context(ExpectRequestLine, FRESH), []), pieces)
    {
      assert pieces[i..][0] == pieces[i] && pieces[i..][1..] == pieces[i + 1..];
      buf.Append(pieces[i]);
      if ok && (parser.state.ExpectRequestLine? || parser.state.ExpectHeaders?) {
        LineStaysUnread(parser.View(), buf.Contents());
        ok := parser.ParseRequest(buf);
      }
      i := i + 1;
    }
    FragmentationDoesNotMatter(pieces);
  }

  /** The parser waits for a request line only as long as it has taken nothing. */
  lemma {:induction false} LineStaysUnread(ctx: Context, bytes: seq<byte>)
    requires Parsing(ctx)
    ensures var r := Parse(ctx, bytes); r.ok && r.ctx.state.ExpectRequestLine? ==> r.ctx == ctx && r.unread == bytes
    decreases |bytes|
  {
    match ParseLine(ctx, bytes)
    case Taken(ctx', rest) => LineStaysUnread(ctx', rest);
    case _ =>
  }
}
