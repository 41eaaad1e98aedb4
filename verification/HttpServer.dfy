/** networking/http/HttpServer.cpp: what a connection's messages make the server answer. onMessage parses once for
    each message, so a message serves one request at most. */
module HttpServer {
  import opened Bytes
  import opened Buffer
  import opened HttpContext
  import opened HttpMessage

  /** A connection's context and input buffer, the requests handed to the callback, and whether a request was
      refused with status 400. */
  datatype Session = Session(ctx: Context, unread: seq<byte>, served: seq<Request>, refused: bool)

  const OPENED := Session(START, [], [], false)

  predicate Open(s: Session) {
    s.refused || Parsing(s.ctx)
  }

  /** onMessage, with the piece that readFd appended; nothing is parsed after a refusal. */
  function Receive(s: Session, piece: seq<byte>): (s': Session)
    requires Open(s)
    ensures Open(s')
  {
    if s.refused then s.(unread := s.unread + piece)
    else
      var r := Parse(s.ctx, s.unread + piece);
      if !r.ok then s.(ctx := r.ctx, unread := r.unread, refused := true)
      else if r.ctx.state.GotAll? then s.(ctx := START, unread := r.unread, served := s.served + [r.ctx.request])
      else s.(ctx := r.ctx, unread := r.unread)
  }

  /** The session after the first n messages. */
  function After(pieces: seq<seq<byte>>, n: nat): (s: Session)
    requires n <= |pieces|
    ensures Open(s)
  {
    if n == 0 then OPENED else Receive(After(pieces, n - 1), pieces[n - 1])
  }

  /** The bytes of the first n messages. */
  function Received(pieces: seq<seq<byte>>, n: nat): seq<byte>
    requires n <= |pieces|
  {
    if n == 0 then [] else Received(pieces, n - 1) + pieces[n - 1]
  }

  // ----- The requests in a stream of bytes -----

  lemma {:induction false} RequestTakesBytes(ctx: Context, bytes: seq<byte>)
    requires Parsing(ctx)
    ensures var r := Parse(ctx, bytes); r.ctx.state.GotAll? ==> r.ok && |r.unread| < |bytes|
    decreases |bytes|
  {
    match ParseLine(ctx, bytes)
    case Taken(ctx', rest) => RequestTakesBytes(ctx', rest);
    case _ =>
  }

  /** All requests the bytes hold from here on, up to the first that is refused or incomplete. */
  function Requests(ctx: Context, bytes: seq<byte>): seq<Request>
    requires Parsing(ctx)
    decreases |bytes|
  {
    RequestTakesBytes(ctx, bytes);
    var r := Parse(ctx, bytes);
    if r.ctx.state.GotAll? then [r.ctx.request] + Requests(START, r.unread) else []
  }

  /** What a session has yet to serve of what it has received, given what is still to come. */
  function Ahead(s: Session, future: seq<byte>): seq<Request>
    requires Open(s)
  {
    if s.refused then [] else Requests(s.ctx, s.unread + future)
  }

  /** A message serves the first request that is ahead, if it is complete, and loses none. */
  lemma ReceiveServes(s: Session, piece: seq<byte>, future: seq<byte>)
    requires Open(s)
    ensures var s' := Receive(s, piece);
            && s'.served + Ahead(s', future) == s.served + Ahead(s, piece + future)
            && s'.served == s.served + (if Ahead(s, piece) == [] then [] else [Ahead(s, piece)[0]])
  {
    hide Parse;
    if s.refused {
    } else {
      var a := s.unread + piece;
      var r := Parse(s.ctx, a);
      assert s.unread + (piece + future) == a + future;
      ParseResumes(s.ctx, a, future);
      RequestTakesBytes(s.ctx, a);
      RequestTakesBytes(s.ctx, a + future);
      if r.ctx.state.GotAll? {
        var rest := Requests(START, r.unread + future);
        assert (s.served + [r.ctx.request]) + rest == s.served + ([r.ctx.request] + rest);
      }
    }
  }

  lemma {:induction false} ServedOrAhead(pieces: seq<seq<byte>>, n: nat, future: seq<byte>)
    requires n <= |pieces|
    ensures After(pieces, n).served + Ahead(After(pieces, n), future) == Requests(START, Received(pieces, n) + future)
  {
    hide Requests, Receive;
    if n == 0 {
      assert [] + future == future;
    } else {
      ServedOrAhead(pieces, n - 1, pieces[n - 1] + future);
      ReceiveServes(After(pieces, n - 1), pieces[n - 1], future);
      assert Received(pieces, n - 1) + (pieces[n - 1] + future) == Received(pieces, n) + future;
    }
  }

  // ----- How many are served -----

  /** The number of requests complete after n messages. */
  function Complete(pieces: seq<seq<byte>>, n: nat): nat
    requires n <= |pieces|
  {
    |Requests(START, Received(pieces, n))|
  }

  /** Whatever the pieces, what is served is the beginning of what the stream holds. */
  lemma ServedInOrder(pieces: seq<seq<byte>>, n: nat)
    requires n <= |pieces|
    ensures After(pieces, n).served <= Requests(START, Received(pieces, n))
  {
    hide Requests, Receive, After;
    ServedOrAhead(pieces, n, []);
    assert Received(pieces, n) + [] == Received(pieces, n);
  }

  lemma OneAtATime(pieces: seq<seq<byte>>, n: nat)
    requires 0 < n <= |pieces|
    ensures var k, c := |After(pieces, n - 1).served|, Complete(pieces, n);
            k <= c && |After(pieces, n).served| == if k < c then k + 1 else c
  {
    hide Requests, Receive;
    ServedOrAhead(pieces, n - 1, pieces[n - 1]);
    ReceiveServes(After(pieces, n - 1), pieces[n - 1], []);
  }

  lemma {:induction false} ServedAtMost(pieces: seq<seq<byte>>, n: nat, j: nat)
    requires j <= n <= |pieces|
    ensures |After(pieces, n).served| <= Complete(pieces, j) + (n - j)
  {
    hide After, Complete;
    if j == n {
      assert |After(pieces, n).served| <= Complete(pieces, n) by { ServedWithin(pieces, n); }
    } else {
      OneAtATime(pieces, n);
      ServedAtMost(pieces, n - 1, j);
    }
  }

  lemma ServedWithin(pieces: seq<seq<byte>>, n: nat)
    requires n <= |pieces|
    ensures |After(pieces, n).served| <= Complete(pieces, n)
  {
    hide After, Requests;
    ServedInOrder(pieces, n);
  }

  predicate CaughtUpAt(pieces: seq<seq<byte>>, n: nat, j: nat)
    requires j <= n <= |pieces|
  {
    |After(pieces, n).served| == Complete(pieces, j) + (n - j)
  }

  lemma {:induction false} ServedSince(pieces: seq<seq<byte>>, n: nat)
    requires n <= |pieces|
    ensures exists j :: 0 <= j <= n && CaughtUpAt(pieces, n, j)
  {
    hide After, Complete;
    if n == 0 {
      NothingAtFirst(pieces);
      assert CaughtUpAt(pieces, 0, 0);
    } else {
      OneAtATime(pieces, n);
      if |After(pieces, n).served| == Complete(pieces, n) {
        assert CaughtUpAt(pieces, n, n);
      } else {
        ServedSince(pieces, n - 1);
        var j :| 0 <= j <= n - 1 && CaughtUpAt(pieces, n - 1, j);
        assert CaughtUpAt(pieces, n, j);
      }
    }
  }

  lemma NothingAtFirst(pieces: seq<seq<byte>>)
    ensures After(pieces, 0).served == [] && Complete(pieces, 0) == 0
  {
    NothingInNothing();
  }

  lemma NothingInNothing()
    ensures Requests(START, []) == []
  {
  }

  /** The messages keep up with the requests: in every stretch at the end there are at least as many messages as
      requests that became complete in it. */
  predicate KeepsUp(pieces: seq<seq<byte>>) {
    var n := |pieces|;
    forall j :: 0 <= j <= n ==> Complete(pieces, n) - Complete(pieces, j) <= n - j
  }

  /** Exactly when the way a stream was cut into messages does not change what is served: everything complete in it
      has been served if and only if the messages keep up. */
  lemma ServesAll(pieces: seq<seq<byte>>)
    ensures After(pieces, |pieces|).served == Requests(START, Received(pieces, |pieces|)) <==> KeepsUp(pieces)
  {
    hide After, Requests;
    var n := |pieces|;
    ServedInOrder(pieces, n);
    if KeepsUp(pieces) {
      ServedSince(pieces, n);
      var j :| 0 <= j <= n && CaughtUpAt(pieces, n, j);
      assert Complete(pieces, n) - Complete(pieces, j) <= n - j;
    } else {
      var j :| 0 <= j <= n && Complete(pieces, n) - Complete(pieces, j) > n - j;
      ServedAtMost(pieces, n, j);
    }
  }

  // ----- Two requests in one message -----

  lemma WholeIsServed(s: Session, bytes: seq<byte>, rest: seq<byte>)
    requires !s.refused && s.ctx == START && s.unread == []
    requires Parse(START, bytes).ctx.state.GotAll? && Parse(START, bytes).unread == []
    ensures Receive(s, bytes + rest)
            == s.(unread := rest, served := s.served + [Parse(START, bytes).ctx.request])
  {
    hide Parse;
    ParseResumes(START, bytes, rest);
    RequestTakesBytes(START, bytes);
    assert [] + (bytes + rest) == bytes + rest && [] + rest == rest;
  }

  /** The same bytes, any request twice, in one message and in two: the second request of the one message waits. */
  lemma CutMatters(m: Method, target: seq<byte>, v: Version, hs: seq<Header>, last: seq<byte>)
    requires IsMessage(m, target, v, hs, last)
    ensures var bytes := Message(m, target, v, hs, last, []);
            var req := Parse(START, bytes).ctx.request;
            && Received([bytes + bytes], 1) == Received([bytes, bytes], 2)
            && After([bytes + bytes], 1).served == [req] && After([bytes, bytes], 2).served == [req, req]
  {
    hide Message, Receive, Parse, IsMessage, HeadersOf;
    MessageIsParsed(m, target, v, hs, last, []);
    var bytes := Message(m, target, v, hs, last, []);
    var req := Parse(START, bytes).ctx.request;
    WholeIsServed(OPENED, bytes, bytes);
    WholeIsServed(OPENED, bytes, []);
    WholeIsServed(OPENED.(served := [req]), bytes, []);
    assert bytes + [] == bytes;
    OneMessage([bytes + bytes]);
    OneMessage([bytes, bytes]);
    assert After([bytes, bytes], 2) == Receive(After([bytes, bytes], 1), bytes);
    assert Received([bytes, bytes], 2) == Received([bytes, bytes], 1) + bytes;
  }

  lemma OneMessage(pieces: seq<seq<byte>>)
    requires pieces != []
    ensures After(pieces, 1) == Receive(OPENED, pieces[0]) && Received(pieces, 1) == pieces[0]
  {
    hide Receive;
    assert After(pieces, 0) == OPENED;
    assert [] + pieces[0] == pieces[0];
  }

  // ----- What is refused -----

  /** The bytes hold at least k whole requests, one after the other. */
  predicate Holds(bytes: seq<byte>, k: nat) {
    k == 0 || (Holds(bytes, k - 1) && Parse(START, Rest(bytes, k - 1)).ctx.state.GotAll?)
  }

  /** What follows the first k requests. */
  function Rest(bytes: seq<byte>, k: nat): seq<byte> {
    if k == 0 then bytes else Parse(START, Rest(bytes, k - 1)).unread
  }

  lemma {:induction false} RestGrows(bytes: seq<byte>, more: seq<byte>, k: nat)
    requires Holds(bytes, k)
    ensures Holds(bytes + more, k) && Rest(bytes + more, k) == Rest(bytes, k) + more
  {
    hide Parse;
    if k > 0 {
      RestGrows(bytes, more, k - 1);
      ParseResumes(START, Rest(bytes, k - 1), more);
      RequestTakesBytes(START, Rest(bytes, k - 1));
    }
  }

  /** A session is where parsing what follows the requests served would be. */
  predicate InPlace(s: Session, bytes: seq<byte>)
    requires Open(s)
  {
    && Holds(bytes, |s.served|)
    && var r := Parse(START, Rest(bytes, |s.served|));
       if s.refused then !r.ok else r == Parse(s.ctx, s.unread)
  }

  lemma ReceiveInPlace(s: Session, bytes: seq<byte>, piece: seq<byte>)
    requires Open(s) && InPlace(s, bytes)
    ensures InPlace(Receive(s, piece), bytes + piece)
    ensures Receive(s, piece).refused <==> !Parse(START, Rest(bytes + piece, |s.served|)).ok
  {
    hide Parse;
    var k := |s.served|;
    RestGrows(bytes, piece, k);
    ParseResumes(START, Rest(bytes, k), piece);
    if !s.refused {
      ParseResumes(s.ctx, s.unread, piece);
      RequestTakesBytes(s.ctx, s.unread + piece);
      var r := Parse(s.ctx, s.unread + piece);
      ParseResumes(s.ctx, s.unread + piece, []);
      assert r.unread + [] == r.unread && s.unread + piece + [] == s.unread + piece;
    }
  }

  lemma {:induction false} AlwaysInPlace(pieces: seq<seq<byte>>, n: nat)
    requires n <= |pieces|
    ensures InPlace(After(pieces, n), Received(pieces, n))
  {
    hide Parse;
    if n > 0 {
      hide InPlace, Receive;
      AlwaysInPlace(pieces, n - 1);
      ReceiveInPlace(After(pieces, n - 1), Received(pieces, n - 1), pieces[n - 1]);
    }
  }

  /** A connection is refused by a message if and only if what has been received holds, right after the requests
      served before it, a whole line that is no request line; and then for good, with nothing more served. */
  lemma RefusedExactly(pieces: seq<seq<byte>>, n: nat)
    requires n < |pieces|
    ensures var left := Rest(Received(pieces, n + 1), |After(pieces, n).served|);
            After(pieces, n + 1).refused <==>
              && FindCrlf(left).Some?
              && forall m, target, v :: !IsRequestLine(left[..FindCrlf(left).value], m, target, v)
    ensures After(pieces, n).refused ==>
              After(pieces, n + 1).refused && After(pieces, n + 1).served == After(pieces, n).served
  {
    hide InPlace, Parse, IsRequestLine, Rest, FindCrlf;
    AlwaysInPlace(pieces, n);
    ReceiveInPlace(After(pieces, n), Received(pieces, n), pieces[n]);
    RefusalIsExact(Rest(Received(pieces, n + 1), |After(pieces, n).served|));
  }

  // ----- The objects -----

  class Connection {
    const parser: Parser
    const inputBuffer: Buffer
    var served: seq<Request>
    var refused: bool

    ghost predicate Valid()
      reads this, parser, inputBuffer
    {
      && inputBuffer.Valid()
      && (refused || Parsing(parser.View()))
      && (parser.state.ExpectRequestLine? && !refused ==> parser.request.verb == Invalid)
    }

    ghost function View(): Session
      requires Valid()
      reads this, parser, inputBuffer, inputBuffer.buffer
    {
      Session(parser.View(), inputBuffer.Contents(), served, refused)
    }

    constructor ()
      ensures Valid() && View() == OPENED
      ensures fresh(parser) && fresh(inputBuffer) && fresh(inputBuffer.buffer)
    {
      parser := new Parser();
      inputBuffer := new Buffer();
      served, refused := [], false;
    }

    method OnMessage(piece: seq<byte>)
      requires Valid()
      modifies this, parser, inputBuffer, inputBuffer.buffer
      ensures Valid() && View() == Receive(old(View()), piece)
      ensures fresh(inputBuffer.buffer) || inputBuffer.buffer == old(inputBuffer.buffer)
    {
      hide Parse;
      inputBuffer.Append(piece);
      if refused { return; }
      LineStaysUnread(parser.View(), inputBuffer.Contents());
      RequestTakesBytes(parser.View(), inputBuffer.Contents());
      var ok := parser.ParseRequest(inputBuffer);
      if !ok {
        refused := true;
      }
      if parser.state.GotAll? {
        served := served + [parser.request];
        parser.Reset();
      }
    }
  }

  /** A connection and all its messages: exactly when everything complete in them has been served. */
  method Serve(pieces: seq<seq<byte>>) returns (conn: Connection)
    ensures conn.Valid() && conn.View() == After(pieces, |pieces|)
    ensures conn.served <= Requests(START, Received(pieces, |pieces|))
    ensures conn.served == Requests(START, Received(pieces, |pieces|)) <==> KeepsUp(pieces)
  {
    hide Requests, Received, Receive, KeepsUp;
    conn := new Connection();
    var i := 0;
    while i < |pieces|
      invariant 0 <= i <= |pieces| && conn.Valid() && conn.View() == After(pieces, i)
      invariant fresh(conn) && fresh(conn.parser) && fresh(conn.inputBuffer) && fresh(conn.inputBuffer.buffer)
    {
      conn.OnMessage(pieces[i]);
      i := i + 1;
    }
    ServedInOrder(pieces, |pieces|);
    ServesAll(pieces);
  }
}
