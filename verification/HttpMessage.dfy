/** What networking/http/HttpContext.cpp takes for a whole request: exactly which bytes, and what it reads in them. */
module HttpMessage {
  import opened Bytes
  import opened Buffer
  import opened HttpContext

  const START := Context(ExpectRequestLine, FRESH)

  // ----- Requests as bytes -----

  /** Bytes that can stand on one line: no CR LF among them. */
  predicate OneLine(line: seq<byte>) {
    forall i :: 0 <= i < |line| ==> !CrlfAt(line, i)
  }

  datatype Header = Header(field: seq<byte>, lead: seq<byte>, value: seq<byte>, trail: seq<byte>)

  function HeaderText(h: Header): seq<byte> {
    h.field + ([COLON] + (h.lead + (h.value + h.trail)))
  }

  predicate WellFormed(h: Header) {
    IsHeaderLine(HeaderText(h), h.field, h.lead, h.value, h.trail) && OneLine(HeaderText(h))
  }

  predicate AllWellFormed(hs: seq<Header>) {
    forall i :: 0 <= i < |hs| ==> WellFormed(hs[i])
  }

  /** The header lines, each with its CR LF, and what follows them. */
  function Lines(hs: seq<Header>, tail: seq<byte>): seq<byte> {
    if hs == [] then tail else HeaderText(hs[0]) + ([CR, LF] + Lines(hs[1..], tail))
  }

  /** A request line, header lines, a line that ends them, and what follows the request. */
  function Message(m: Method, target: seq<byte>, v: Version, hs: seq<Header>, last: seq<byte>, rest: seq<byte>)
    : seq<byte>
  {
    Layout(m, target, v) + ([CR, LF] + Lines(hs, last + ([CR, LF] + rest)))
  }

  /** The parts of a request. The parser takes any line without a colon for the one that ends the headers. */
  predicate IsMessage(m: Method, target: seq<byte>, v: Version, hs: seq<Header>, last: seq<byte>) {
    && m != Invalid && v != Unknown && SPACE !in target && OneLine(Layout(m, target, v))
    && AllWellFormed(hs) && COLON !in last && OneLine(last)
  }

  /** Each field is present exactly when a line names it, with the value of the last line that does. */
  ghost predicate HeadersOf(headers: map<seq<byte>, seq<byte>>, hs: seq<Header>) {
    && (forall field :: field in headers <==> exists i :: 0 <= i < |hs| && hs[i].field == field)
    && (forall i :: 0 <= i < |hs| && LastOf(hs, i) ==>
          hs[i].field in headers && headers[hs[i].field] == hs[i].value)
  }

  predicate LastOf(hs: seq<Header>, i: nat)
    requires i < |hs|
  {
    forall j :: i < j < |hs| ==> hs[j].field != hs[i].field
  }

  // ----- One line -----

  lemma FirstCrlf(line: seq<byte>, rest: seq<byte>)
    requires OneLine(line)
    ensures var s := line + ([CR, LF] + rest);
            FindCrlf(s) == Some(|line|) && s[..|line|] == line && s[|line| + 2..] == rest
  {
    var s := line + ([CR, LF] + rest);
    assert CrlfAt(s, |line|);
    forall i | 0 <= i < |line| ensures !CrlfAt(s, i) {
      assert !CrlfAt(line, i);
      assert s[i] == line[i] && (i + 1 < |line| ==> s[i + 1] == line[i + 1]);
    }
  }

  lemma LineBefore(s: seq<byte>)
    requires FindCrlf(s).Some?
    ensures var i := FindCrlf(s).value;
            i + 2 <= |s| && OneLine(s[..i]) && s == s[..i] + ([CR, LF] + s[i + 2..])
  {
    var i := FindCrlf(s).value;
    forall k | 0 <= k < i ensures !CrlfAt(s[..i], k) { assert !CrlfAt(s, k); }
  }

  lemma LineIsTaken(line: seq<byte>, req: Request, rest: seq<byte>)
    requires OneLine(line) && RequestLine(FRESH, line) == (true, req)
    ensures ParseLine(START, line + ([CR, LF] + rest)) == Taken(Context(ExpectHeaders, req), rest)
  {
    hide RequestLine, FindCrlf;
    FirstCrlf(line, rest);
  }

  lemma HeaderIsTaken(req: Request, h: Header, rest: seq<byte>)
    requires WellFormed(h)
    ensures ParseLine(Context(ExpectHeaders, req), HeaderText(h) + ([CR, LF] + rest))
            == Taken(Context(ExpectHeaders, req.(headers := req.headers[h.field := h.value])), rest)
  {
    var line, after := HeaderText(h), h.lead + (h.value + h.trail);
    assert COLON !in h.field && line == h.field + ([COLON] + after);
    FindInConcat(h.field, COLON, after);
    TrimIsUnique(h.lead, h.value, h.trail);
    hide FindCrlf, Find, SkipSpaces, DropSpaces;
    FirstCrlf(line, rest);
  }

  lemma LastLineEnds(req: Request, last: seq<byte>, rest: seq<byte>)
    requires COLON !in last && OneLine(last)
    ensures ParseLine(Context(ExpectHeaders, req), last + ([CR, LF] + rest)) == Last(Context(GotAll, req), rest)
  {
    hide FindCrlf;
    FirstCrlf(last, rest);
    assert forall k :: 0 <= k < |last| ==> last[k] != COLON;
  }

  lemma TrimIsUnique(lead: seq<byte>, value: seq<byte>, trail: seq<byte>)
    requires AllSpaces(lead) && Trimmed(value) && AllSpaces(trail)
    ensures DropSpaces(SkipSpaces(lead + (value + trail))) == value
  {
    hide TrimStart, TrimEnd;
    var s := lead + (value + trail);
    var n := TrimStart(s, 0);
    assert forall k :: 0 <= k < |lead| ==> s[k] == lead[k];
    if value == [] {
      assert forall k :: |lead| <= k < |s| ==> s[k] == trail[k - |lead|];
      assert n == |s|;
    } else {
      assert s[|lead|] == value[0];
      assert n == |lead| && s[n..] == value + trail;
      TrimEndIsUnique(value, trail);
    }
  }

  lemma TrimEndIsUnique(value: seq<byte>, trail: seq<byte>)
    requires value != [] && Trimmed(value) && AllSpaces(trail)
    ensures DropSpaces(value + trail) == value
  {
    hide TrimEnd;
    var s := value + trail;
    var n := TrimEnd(s, |s|);
    assert forall k :: |value| <= k < |s| ==> s[k] == trail[k - |value|];
    assert s[|value| - 1] == value[|value| - 1];
    assert n == |value|;
  }

  // ----- Every such message is read as what it is -----

  /** The headers after more lines. */
  function Added(headers: map<seq<byte>, seq<byte>>, hs: seq<Header>): map<seq<byte>, seq<byte>>
    decreases |hs|
  {
    if hs == [] then headers else Added(headers[hs[0].field := hs[0].value], hs[1..])
  }

  lemma {:induction false} HeadersAreTaken(req: Request, hs: seq<Header>, last: seq<byte>, rest: seq<byte>)
    requires AllWellFormed(hs) && COLON !in last && OneLine(last)
    ensures Parse(Context(ExpectHeaders, req), Lines(hs, last + ([CR, LF] + rest)))
            == Outcome(true, Context(GotAll, req.(headers := Added(req.headers, hs))), rest)
    decreases |hs|
  {
    hide ParseLine, OneLine, WellFormed, HeaderText;
    if hs == [] {
      LastLineEnds(req, last, rest);
    } else {
      HeaderIsTaken(req, hs[0], Lines(hs[1..], last + ([CR, LF] + rest)));
      HeadersAreTaken(req.(headers := req.headers[hs[0].field := hs[0].value]), hs[1..], last, rest);
    }
  }

  lemma {:induction false} AddedFields(headers: map<seq<byte>, seq<byte>>, hs: seq<Header>, field: seq<byte>)
    ensures field in Added(headers, hs) <==> field in headers || exists i :: 0 <= i < |hs| && hs[i].field == field
    ensures field in headers && (forall i :: 0 <= i < |hs| ==> hs[i].field != field) ==>
              Added(headers, hs)[field] == headers[field]
    decreases |hs|
  {
    if hs != [] {
      AddedFields(headers[hs[0].field := hs[0].value], hs[1..], field);
      assert forall i :: 0 < i < |hs| ==> hs[i] == hs[1..][i - 1];
      assert forall i :: 0 <= i < |hs[1..]| ==> hs[1..][i] == hs[i + 1];
    }
  }

  lemma {:induction false} AddedValues(headers: map<seq<byte>, seq<byte>>, hs: seq<Header>, i: nat)
    requires i < |hs| && LastOf(hs, i)
    ensures hs[i].field in Added(headers, hs) && Added(headers, hs)[hs[i].field] == hs[i].value
    decreases |hs|
  {
    var headers' := headers[hs[0].field := hs[0].value];
    if i == 0 {
      assert forall k :: 0 <= k < |hs[1..]| ==> hs[1..][k] == hs[k + 1];
      AddedFields(headers', hs[1..], hs[0].field);
    } else {
      assert hs[i] == hs[1..][i - 1];
      assert forall k :: i - 1 < k < |hs[1..]| ==> hs[1..][k] == hs[k + 1];
      AddedValues(headers', hs[1..], i - 1);
    }
  }

  lemma AddedIsHeadersOf(hs: seq<Header>)
    ensures HeadersOf(Added(map[], hs), hs)
  {
    hide Added;
    forall field ensures field in Added(map[], hs) <==> exists i :: 0 <= i < |hs| && hs[i].field == field {
      AddedFields(map[], hs, field);
    }
    forall i | 0 <= i < |hs| && LastOf(hs, i)
      ensures hs[i].field in Added(map[], hs) && Added(map[], hs)[hs[i].field] == hs[i].value
    {
      AddedValues(map[], hs, i);
    }
  }

  /** Every request, with any header lines and whatever follows it, is read to its end and no further, as exactly its
      parts: method, path, query, version, and for each field the value of its last line. */
  lemma MessageIsParsed(m: Method, target: seq<byte>, v: Version, hs: seq<Header>, last: seq<byte>, rest: seq<byte>)
    requires IsMessage(m, target, v, hs, last)
    ensures var r := Parse(START, Message(m, target, v, hs, last, rest));
            var req := r.ctx.request;
            && r.ok && r.ctx.state.GotAll? && r.unread == rest
            && req.verb == m && req.version == v
            && req.path + req.query == target
            && QUESTION !in req.path && (req.query == [] || req.query[0] == QUESTION)
            && HeadersOf(req.headers, hs)
  {
    LayoutIsAccepted(FRESH, m, target, v);
    TargetParts(FRESH.(verb := m), target);
    AddedIsHeadersOf(hs);
    hide Layout, ParseLine, HeadersOf, Lines, Added, WithTarget, RequestLine, OneLine;
    var req := WithTarget(FRESH.(verb := m), target).(version := v);
    LineIsTaken(Layout(m, target, v), req, Lines(hs, last + ([CR, LF] + rest)));
    HeadersAreTaken(req, hs, last, rest);
  }

  // ----- And nothing else is -----

  lemma HeaderOf(line: seq<byte>) returns (h: Header)
    requires OneLine(line) && Find(line, COLON) < |line|
    ensures WellFormed(h) && HeaderText(h) == line
  {
    var colon := Find(line, COLON);
    var lead, trail := HeaderParts(line, colon);
    hide DropSpaces, SkipSpaces, Find, OneLine;
    h := Header(line[..colon], lead, DropSpaces(SkipSpaces(line[colon + 1..])), trail);
  }

  lemma NoColonIn(line: seq<byte>)
    requires Find(line, COLON) == |line|
    ensures COLON !in line
  {
    assert line[..|line|] == line;
  }

  lemma {:induction false} TakenAreHeaders(req: Request, bytes: seq<byte>) returns (hs: seq<Header>, last: seq<byte>)
    requires Parse(Context(ExpectHeaders, req), bytes).ctx.state.GotAll?
    ensures AllWellFormed(hs) && COLON !in last && OneLine(last)
    ensures bytes == Lines(hs, last + ([CR, LF] + Parse(Context(ExpectHeaders, req), bytes).unread))
    decreases |bytes|
  {
    hide FindCrlf, Find, HeaderText, WellFormed, OneLine, WithHeader;
    var i := FindCrlf(bytes).value;
    LineBefore(bytes);
    var line, rest := bytes[..i], bytes[i + 2..];
    if Find(line, COLON) == i {
      NoColonIn(line);
      hs, last := [], line;
    } else {
      var h := HeaderOf(line);
      var more, end := TakenAreHeaders(WithHeader(req, line, Find(line, COLON)), rest);
      hs, last := [h] + more, end;
      assert hs[1..] == more;
    }
  }

  /** Whatever the parser takes for a whole request is one, followed by the bytes left unread. */
  lemma ParsedIsMessage(bytes: seq<byte>)
    returns (m: Method, target: seq<byte>, v: Version, hs: seq<Header>, last: seq<byte>)
    requires Parse(START, bytes).ctx.state.GotAll?
    ensures IsMessage(m, target, v, hs, last)
    ensures bytes == Message(m, target, v, hs, last, Parse(START, bytes).unread)
  {
    hide RequestLine, Layout;
    var i := FindCrlf(bytes).value;
    LineBefore(bytes);
    var line, rest := bytes[..i], bytes[i + 2..];
    var (ok, req) := RequestLine(FRESH, line);
    AcceptedHasLayout(FRESH, line);
    m, target, v := req.verb, req.path + req.query, req.version;
    hs, last := TakenAreHeaders(req, rest);
  }

  /** A request is refused, with nothing consumed, if and only if its first line is whole and is no request line;
      until that line is whole nothing happens at all. */
  lemma RefusalIsExact(bytes: seq<byte>)
    ensures var r, crlf := Parse(START, bytes), FindCrlf(bytes);
            && (!r.ok <==> crlf.Some? && forall m, target, v :: !IsRequestLine(bytes[..crlf.value], m, target, v))
            && (!r.ok ==> r.unread == bytes && r.ctx.state.ExpectRequestLine?)
            && (crlf.None? ==> r == Outcome(true, START, bytes))
  {
    var crlf := FindCrlf(bytes);
    if crlf.Some? {
      RefusedFirst(bytes, crlf.value);
      hide IsRequestLine, RequestLine, Parse, FindCrlf;
      RequestLineIsExact(FRESH, bytes[..crlf.value]);
    }
  }

  lemma RefusedFirst(bytes: seq<byte>, i: nat)
    requires FindCrlf(bytes) == Some(i)
    ensures var r := Parse(START, bytes);
            && (r.ok <==> RequestLine(FRESH, bytes[..i]).0)
            && (!r.ok ==> r.unread == bytes && r.ctx.state.ExpectRequestLine?)
  {
    hide RequestLine, FindCrlf;
    var (ok, req) := RequestLine(FRESH, bytes[..i]);
    if ok { HeadersNeverRefuse(req, bytes[i + 2..]); }
  }

  lemma {:induction false} HeadersNeverRefuse(req: Request, bytes: seq<byte>)
    ensures Parse(Context(ExpectHeaders, req), bytes).ok
    decreases |bytes|
  {
    hide FindCrlf, Find, WithHeader;
    match ParseLine(Context(ExpectHeaders, req), bytes)
    case Taken(ctx, rest) => HeadersNeverRefuse(ctx.request, rest);
    case _ =>
  }

  /** The words and signs of the protocol, as section 2.1 of RFC 7231 and section 3 of RFC 7230 spell them. */
  lemma Spelling()
    ensures MethodString(Get) == Ascii("GET") && MethodString(Post) == Ascii("POST")
    ensures MethodString(Head) == Ascii("HEAD") && MethodString(Put) == Ascii("PUT")
    ensures MethodString(Delete) == Ascii("DELETE")
    ensures VersionString(Http10) == Ascii("HTTP/1.0") && VersionString(Http11) == Ascii("HTTP/1.1")
    ensures [SPACE, QUESTION, COLON, CR, LF] == Ascii(" ?:\r\n")
    ensures forall c: byte :: IsSpace(c) <==> c in Ascii(" \t\n\r") || c == 11 || c == 12
  {
    var spaces := Ascii(" \t\n\r");
    assert spaces == [32, 9, 10, 13];
  }
}
