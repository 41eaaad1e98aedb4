/** networking/TcpConnection.cpp: ordered delivery under partial writes, and shutdown after draining. */
module TcpConnection {
  import opened Bytes

  datatype ConnState = Disconnected | Connecting | Connected | Disconnecting

  /** The fields of a connection that its loop-thread handlers update. readInterest and writeInterest are the
      channel's event mask; the two flags say whether the callbacks are set. */
  datatype Conn = Conn(
    state: ConnState,
    reading: bool,
    readInterest: bool,
    writeInterest: bool,
    output: seq<byte>,
    highWaterMark: nat,
    highWaterSet: bool,
    writeCompleteSet: bool)

  /** What write() answers: a count, EWOULDBLOCK, EPIPE or ECONNRESET, or any other error. */
  datatype WriteResult = Wrote(n: nat) | WouldBlock | Fault | OtherError

  /** A callback put in the loop's queue. */
  datatype Notice = WriteComplete | HighWater(bytes: nat)

  /** The effect of a handler: the new fields, the bytes the kernel took, what was queued, and whether the
      write side was shut down. */
  datatype Effect = Effect(conn: Conn, taken: seq<byte>, notice: Option<Notice>, shut: bool)

  /** Nothing is waiting, so a payload is offered to the kernel at once. */
  predicate Direct(c: Conn) {
    !c.writeInterest && c.output == []
  }

  /** How much of a payload the direct write takes. */
  function DirectCount(c: Conn, r: WriteResult): nat {
    if Direct(c) && r.Wrote? then r.n else 0
  }

  /** Keep what the kernel did not take, and ask to be told when it can be written. */
  function Keep(c: Conn, rest: seq<byte>): (Conn, Option<Notice>) {
    var total := |c.output| + |rest|;
    (c.(output := c.output + rest, writeInterest := true),
     if total >= c.highWaterMark && |c.output| < c.highWaterMark && c.highWaterSet then Some(HighWater(total))
     else None)
  }

  /** sendInLoop: write directly when nothing is waiting, keep what is left unless a fault dropped it. */
  function SendInLoop(c: Conn, data: seq<byte>, r: WriteResult): Effect
    requires r.Wrote? ==> r.n <= |data|
  {
    var n := DirectCount(c, r);
    if (Direct(c) && r.Fault?) || n == |data| then
      Effect(c, data[..n], if Direct(c) && r.Wrote? && c.writeCompleteSet then Some(WriteComplete) else None, false)
    else
      var (c', high) := Keep(c, data[n..]);
      Effect(c', data[..n], high, false)
  }

  /** handleWrite: hand over what the kernel takes; when drained, stop asking and finish a shutdown. */
  function HandleWrite(c: Conn, r: WriteResult): Effect
    requires r.Wrote? ==> r.n <= |c.output|
  {
    if !c.writeInterest || !r.Wrote? || r.n == 0 then Effect(c, [], None, false)
    else
      var c' := c.(output := c.output[r.n..]);
      if c'.output != [] then Effect(c', c.output[..r.n], None, false)
      else
        Effect(c'.(writeInterest := false), c.output[..r.n],
               if c.writeCompleteSet then Some(WriteComplete) else None, c.state.Disconnecting?)
  }

  function StartRead(c: Conn): Conn {
    if !c.reading || !c.readInterest then c.(readInterest := true, reading := true) else c
  }

  function StopRead(c: Conn): Conn {
    if c.reading || c.readInterest then c.(readInterest := false, reading := false) else c
  }

  function HandleClose(c: Conn): Conn {
    c.(state := Disconnected, readInterest := false, writeInterest := false)
  }

  // ----- A connection with its history -----

  /** A functor in the loop's queue for this connection. */
  datatype Functor = Notify(notice: Notice) | ShutdownInLoop | ForceCloseInLoop

  /** accepted: all bytes write() took; offered: all payloads but those lost to a fault, end to end;
      lost: the payloads a fault dropped; halfClosed: SHUT_WR has been issued. */
  datatype State = State(
    conn: Conn,
    queue: seq<Functor>,
    accepted: seq<byte>,
    offered: seq<byte>,
    lost: seq<seq<byte>>,
    halfClosed: bool)

  function Init(highWaterMark: nat, highWaterSet: bool, writeCompleteSet: bool): State {
    var conn := Conn(Connecting, true, false, false, [], highWaterMark, highWaterSet, writeCompleteSet);
    State(conn, [], [], [], [], false)
  }

  /** shutdown, forceClose and their kin may be called from another thread: then the loop-thread part is
      queued instead of run at once. */
  datatype Event =
    | Established
    | Send(data: seq<byte>, result: WriteResult)
    | Writable(result: WriteResult)
    | Shutdown(inLoop: bool)
    | ForceClose
    | ForceCloseWithDelay
    | RunFunctor
    | PeerClosed
    | StartReading
    | StopReading
    | SetWriteComplete(on: bool)
    | Destroyed

  /** The kernel: write takes at most what it is given, and fails with EPIPE once the side is shut. */
  predicate Possible(s: State, given: int, r: WriteResult) {
    && (r.Wrote? ==> r.n <= given)
    && (s.halfClosed && given > 0 ==> r.Fault?)
  }

  /** Callers do not send or start reading after the connection is down. A hang-up closes the connection whether
      or not it is reading, and a write event may come when the interest has just been turned off. The call of
      forceClose that forceCloseWithDelay schedules is a later ForceClose. */
  predicate Enabled(s: State, e: Event) {
    match e
    case Established => s.conn.state.Connecting?
    case Send(data, r) => !s.conn.state.Disconnected? && Possible(s, |data|, r)
    case Writable(r) => Possible(s, |s.conn.output|, r)
    case Shutdown(_) => true
    case ForceClose => true
    case ForceCloseWithDelay => true
    case RunFunctor => s.queue != []
    case PeerClosed => Up(s.conn)
    case StartReading => !s.conn.state.Disconnected?
    case StopReading => !s.conn.state.Disconnected?
    case SetWriteComplete(_) => true
    case Destroyed => s.conn.state.Connected? || (!s.conn.readInterest && !s.conn.writeInterest)
  }

  function Notified(notice: Option<Notice>): seq<Functor> {
    if notice.Some? then [Notify(notice.value)] else []
  }

  function Apply(s: State, x: Effect): State {
    s.(conn := x.conn, queue := s.queue + Notified(x.notice), accepted := s.accepted + x.taken,
       halfClosed := s.halfClosed || x.shut)
  }

  /** shutdownInLoop: SHUT_WR unless output is still waiting to be written. */
  function ShutWrite(s: State): State {
    s.(halfClosed := s.halfClosed || !s.conn.writeInterest)
  }

  predicate Up(c: Conn) {
    c.state.Connected? || c.state.Disconnecting?
  }

  function RunHead(s: State): State
    requires s.queue != []
  {
    var s0 := s.(queue := s.queue[1..]);
    match s.queue[0]
    case Notify(_) => s0
    case ShutdownInLoop => ShutWrite(s0)
    case ForceCloseInLoop => if Up(s.conn) then s0.(conn := HandleClose(s.conn)) else s0
  }

  /** The payload is dropped whole exactly when the direct write meets a fault. */
  predicate Faulted(c: Conn, r: WriteResult) {
    Direct(c) && r.Fault?
  }

  function Step(s: State, e: Event): State
    requires Enabled(s, e)
  {
    match e
    case Established => s.(conn := s.conn.(state := Connected, readInterest := true))
    case Send(data, r) =>
      var s' := Apply(s, SendInLoop(s.conn, data, r));
      if Faulted(s.conn, r) then s'.(lost := s.lost + [data]) else s'.(offered := s.offered + data)
    case Writable(r) => Apply(s, HandleWrite(s.conn, r))
    case Shutdown(inLoop) =>
      if !s.conn.state.Connected? then s
      else
        var s0 := s.(conn := s.conn.(state := Disconnecting));
        if inLoop then ShutWrite(s0) else s0.(queue := s.queue + [ShutdownInLoop])
    case ForceClose =>
      if Up(s.conn) then s.(conn := s.conn.(state := Disconnecting), queue := s.queue + [ForceCloseInLoop]) else s
    case ForceCloseWithDelay => if Up(s.conn) then s.(conn := s.conn.(state := Disconnecting)) else s
    case RunFunctor => RunHead(s)
    case PeerClosed => s.(conn := HandleClose(s.conn))
    case StartReading => s.(conn := StartRead(s.conn))
    case StopReading => s.(conn := StopRead(s.conn))
    case SetWriteComplete(on) => s.(conn := s.conn.(writeCompleteSet := on))
    case Destroyed => if s.conn.state.Connected? then s.(conn := HandleClose(s.conn)) else s
  }

  predicate Valid(s: State, es: seq<Event>)
    decreases |es|
  {
    es == [] || (Enabled(s, es[0]) && Valid(Step(s, es[0]), es[1..]))
  }

  function Run(s: State, es: seq<Event>): State
    requires Valid(s, es)
    decreases |es|
  {
    if es == [] then s else Run(Step(s, es[0]), es[1..])
  }

  // ----- What every step keeps -----

  /** Write interest is on exactly while output is waiting, until the connection is down. */
  predicate InterestMatches(c: Conn) {
    if c.state.Disconnected? then !c.writeInterest else (c.writeInterest <==> c.output != [])
  }

  predicate Inv(s: State) {
    && InterestMatches(s.conn)
    && s.accepted + s.conn.output == s.offered
    && (s.halfClosed && !s.conn.state.Disconnected? ==> s.conn.output == [])
    && (s.conn.state.Connected? || s.conn.state.Connecting? ==> !s.halfClosed && ShutdownInLoop !in s.queue)
  }

  lemma SendKeepsInv(s: State, e: Event)
    requires Inv(s) && e.Send? && Enabled(s, e)
    ensures Inv(Step(s, e))
  {
    var x := SendInLoop(s.conn, e.data, e.result);
    if Faulted(s.conn, e.result) {
      assert s.accepted + [] == s.accepted;
    } else {
      hide SendInLoop, Faulted, InterestMatches;
      SendKeepsBytes(s.conn, e.data, e.result);
      AppendedStream(s.accepted, s.conn.output, e.data, x.taken, x.conn.output);
    }
  }

  lemma AppendedStream(accepted: seq<byte>, output: seq<byte>, data: seq<byte>, taken: seq<byte>, kept: seq<byte>)
    requires taken + kept == output + data
    ensures (accepted + taken) + kept == (accepted + output) + data
  {
    assert (accepted + taken) + kept == accepted + (taken + kept);
    assert (accepted + output) + data == accepted + (output + data);
  }

  /** What goes straight to the kernel and what is kept are the waiting output followed by the payload. */
  lemma SendKeepsBytes(c: Conn, data: seq<byte>, r: WriteResult)
    requires r.Wrote? ==> r.n <= |data|
    requires InterestMatches(c) && !c.state.Disconnected? && !Faulted(c, r)
    ensures var x := SendInLoop(c, data, r);
            && x.taken + x.conn.output == c.output + data
            && x.conn.state == c.state && !x.shut
            && InterestMatches(x.conn)
            && (r.Fault? && c.output == [] ==> x.conn.output == [])
  {
    assert c.output == [] ==> Direct(c);
    hide InterestMatches;
    var x, n := SendInLoop(c, data, r), DirectCount(c, r);
    assert data[..n] + data[n..] == data;
    if n == |data| {
      assert x.taken == data;
    } else {
      assert c.output + data[n..] == if n == 0 then c.output + data else data[n..];
    }
    assert InterestMatches(x.conn) by { KeepMatches(c, data[n..]); }
  }

  lemma KeepMatches(c: Conn, rest: seq<byte>)
    requires InterestMatches(c) && !c.state.Disconnected?
    ensures rest != [] ==> InterestMatches(Keep(c, rest).0)
  {
  }

  /** What a write event hands over and what is left are the waiting output; a pending shutdown is carried out
      only when nothing is left. */
  lemma WriteKeepsBytes(c: Conn, r: WriteResult)
    requires r.Wrote? ==> r.n <= |c.output|
    requires InterestMatches(c)
    ensures var x := HandleWrite(c, r);
            && x.taken + x.conn.output == c.output
            && x.conn.state == c.state && InterestMatches(x.conn)
            && (x.shut ==> x.conn.output == [] && c.state.Disconnecting?)
  {
    if !c.writeInterest || !r.Wrote? || r.n == 0 {
      assert [] + c.output == c.output;
    } else {
      assert c.output[..r.n] + c.output[r.n..] == c.output;
    }
  }

  lemma WriteKeepsInv(s: State, e: Event)
    requires Inv(s) && e.Writable? && Enabled(s, e)
    ensures Inv(Step(s, e))
  {
    hide HandleWrite, InterestMatches;
    WriteKeepsBytes(s.conn, e.result);
    var x := HandleWrite(s.conn, e.result);
    assert s.accepted + x.taken + x.conn.output == s.accepted + (x.taken + x.conn.output);
    assert s.conn.output == [] ==> |x.taken| + |x.conn.output| == 0;
  }

  lemma StepKeepsInv(s: State, e: Event)
    requires Inv(s) && Enabled(s, e)
    ensures Inv(Step(s, e))
  {
    if e.Send? {
      SendKeepsInv(s, e);
    } else if e.Writable? {
      WriteKeepsInv(s, e);
    } else if e.RunFunctor? {
      assert s.queue == [s.queue[0]] + s.queue[1..];
    } else {
      hide SendInLoop, HandleWrite, RunHead;
    }
  }

  lemma {:induction false} RunKeepsInv(s: State, es: seq<Event>)
    requires Inv(s) && Valid(s, es)
    ensures Inv(Run(s, es))
    decreases |es|
  {
    hide Step, Enabled, Inv;
    if es != [] {
      StepKeepsInv(s, es[0]);
      RunKeepsInv(Step(s, es[0]), es[1..]);
    }
  }

  // ----- What that means -----

  /** The payloads of the sends of a run that met no fault, end to end. */
  function Payloads(s: State, es: seq<Event>): seq<byte>
    requires Valid(s, es)
    decreases |es|
  {
    if es == [] then [] else
      Payload(s, es[0]) + Payloads(Step(s, es[0]), es[1..])
  }

  function Payload(s: State, e: Event): seq<byte> {
    if e.Send? && !Faulted(s.conn, e.result) then e.data else []
  }

  /** In every run, whatever partial and refused writes occur: the bytes the kernel took, followed by the
      bytes still waiting, are the payloads sent, in order; and while the connection is up the channel asks
      for writability exactly when bytes are waiting, and its write side has been shut only with every byte
      handed over. */
  lemma DeliversInOrder(mark: nat, high: bool, complete: bool, es: seq<Event>)
    requires Valid(Init(mark, high, complete), es)
    ensures var s := Run(Init(mark, high, complete), es);
            && s.accepted + s.conn.output == Payloads(Init(mark, high, complete), es)
            && (!s.conn.state.Disconnected? ==> (s.conn.writeInterest <==> s.conn.output != []))
            && (s.halfClosed && !s.conn.state.Disconnected? ==> s.accepted == Payloads(Init(mark, high, complete), es))
  {
    var s := Init(mark, high, complete);
    RunKeepsInv(s, es);
    OfferedIsPayloads(s, es);
    assert [] + Payloads(s, es) == Payloads(s, es);
    assert Run(s, es).accepted + [] == Run(s, es).accepted;
  }

  lemma {:induction false} OfferedIsPayloads(s: State, es: seq<Event>)
    requires Valid(s, es)
    ensures Run(s, es).offered == s.offered + Payloads(s, es)
    decreases |es|
  {
    hide Step, Enabled, Payload;
    if es == [] {
      assert s.offered + [] == s.offered;
    } else {
      var s1 := Step(s, es[0]);
      StepOffers(s, es[0]);
      OfferedIsPayloads(s1, es[1..]);
      var now := Payload(s, es[0]);
      assert (s.offered + now) + Payloads(s1, es[1..]) == s.offered + (now + Payloads(s1, es[1..]));
    }
  }

  lemma StepOffers(s: State, e: Event)
    requires Enabled(s, e)
    ensures Step(s, e).offered == s.offered + Payload(s, e)
  {
  }

  /** What write() answered, when the step called it: at once if nothing waited, or for what waits. */
  function Answer(s: State, e: Event): nat {
    match e
    case Send(_, Wrote(n)) => if s.conn.output == [] then n else 0
    case Writable(Wrote(n)) => if s.conn.writeInterest then n else 0
    case _ => 0
  }

  function Answers(s: State, es: seq<Event>): nat
    requires Valid(s, es)
    decreases |es|
  {
    if es == [] then 0 else Answer(s, es[0]) + Answers(Step(s, es[0]), es[1..])
  }

  /** What is counted as handed over is what the kernel said it took: nothing is written twice or skipped. */
  lemma {:induction false} HandsOverWhatWasTaken(s: State, es: seq<Event>)
    requires Inv(s) && Valid(s, es)
    ensures |Run(s, es).accepted| == |s.accepted| + Answers(s, es)
    decreases |es|
  {
    if es != [] {
      StepKeepsInv(s, es[0]);
      StepAnswered(s, es[0]);
      hide Step, Enabled, Inv, Answer;
      HandsOverWhatWasTaken(Step(s, es[0]), es[1..]);
    }
  }

  lemma StepAnswered(s: State, e: Event)
    requires Inv(s) && Enabled(s, e)
    ensures |Step(s, e).accepted| == |s.accepted| + Answer(s, e)
  {
    assert !s.conn.state.Disconnected? ==> (Direct(s.conn) <==> s.conn.output == []);
    match e
    case Send(_, _) =>
    case Writable(_) =>
    case _ => hide SendInLoop, HandleWrite;
  }

  /** A shutdown asked for by another thread can reach the loop after the peer has closed: then SHUT_WR is
      issued although the five bytes were never written. */
  lemma LateShutdownLosesBytes()
    ensures var s0 := Init(10, false, false);
            var es := [Established, Send([1, 2, 3, 4, 5], WouldBlock), Shutdown(false), PeerClosed, RunFunctor];
            && Valid(s0, es)
            && Run(s0, es).halfClosed && Run(s0, es).accepted == [] && |Run(s0, es).conn.output| == 5
  {
    hide Valid, Run;
    var s0 := Init(10, false, false);
    var s1 := Step(s0, Established);
    var s2 := Step(s1, Send([1, 2, 3, 4, 5], WouldBlock));
    var s3 := Step(s2, Shutdown(false));
    var s4 := Step(s3, PeerClosed);
    var es4 := [RunFunctor] + [];
    var es3 := [PeerClosed] + es4;
    var es2 := [Shutdown(false)] + es3;
    var es1 := [Send([1, 2, 3, 4, 5], WouldBlock)] + es2;
    RunEmpty(Step(s4, RunFunctor));
    RunFirst(s4, RunFunctor, []);
    RunFirst(s3, PeerClosed, es4);
    RunFirst(s2, Shutdown(false), es3);
    RunFirst(s1, Send([1, 2, 3, 4, 5], WouldBlock), es2);
    RunFirst(s0, Established, es1);
    assert [Established] + es1
        == [Established, Send([1, 2, 3, 4, 5], WouldBlock), Shutdown(false), PeerClosed, RunFunctor];
  }

  predicate LosesBytes(s: State, es: seq<Event>) {
    Valid(s, es) && Run(s, es).halfClosed && Run(s, es).conn.output != []
  }

  /** A shutdown that was not put in the queue: once asked for, nothing is left to issue it late. */
  predicate Prompt(s: State) {
    && Inv(s)
    && (s.conn.state.Disconnecting? || s.conn.state.Disconnected?)
    && ShutdownInLoop !in s.queue
    && (s.halfClosed ==> s.conn.output == [])
  }

  lemma StepStaysPrompt(s: State, e: Event)
    requires Prompt(s) && Enabled(s, e)
    ensures Prompt(Step(s, e))
  {
    StepKeepsInv(s, e);
    hide Inv;
    assert InterestMatches(s.conn) by { InvParts(s); }
    if e.Send? {
      hide SendInLoop;
      SendAddsNoShutdown(s.conn, e.data, e.result);
      assert Inv(Step(s, e));
      InvParts(Step(s, e));
    }
  }

  lemma InvParts(s: State)
    requires Inv(s)
    ensures InterestMatches(s.conn) && (s.halfClosed && !s.conn.state.Disconnected? ==> s.conn.output == [])
  {
  }

  lemma SendAddsNoShutdown(c: Conn, data: seq<byte>, r: WriteResult)
    requires r.Wrote? ==> r.n <= |data|
    ensures var x := SendInLoop(c, data, r);
            x.conn.state == c.state && !x.shut && x.conn.reading == c.reading && x.conn.readInterest == c.readInterest
  {
  }

  lemma WriteKeepsReading(c: Conn, r: WriteResult)
    requires r.Wrote? ==> r.n <= |c.output|
    ensures var x := HandleWrite(c, r).conn;
            x.state == c.state && x.reading == c.reading && x.readInterest == c.readInterest
  {
  }

  lemma {:induction false} PromptLosesNothing(s: State, es: seq<Event>)
    requires Prompt(s)
    ensures !LosesBytes(s, es)
    decreases |es|
  {
    if Valid(s, es) && es != [] {
      hide Step, Enabled, Prompt;
      StepStaysPrompt(s, es[0]);
      PromptLosesNothing(Step(s, es[0]), es[1..]);
    }
  }

  lemma LosesFirst(s: State, e: Event, es: seq<Event>)
    requires Enabled(s, e) && LosesBytes(Step(s, e), es)
    ensures LosesBytes(s, [e] + es)
  {
    RunFirst(s, e, es);
  }

  /** With the connection down and bytes waiting, a shutdown still in the queue is issued all the same. */
  lemma {:induction false} LateShutdown(s: State)
    requires s.conn.state.Disconnected? && !s.conn.writeInterest && s.conn.output != []
    requires ShutdownInLoop in s.queue
    ensures exists es :: LosesBytes(s, es)
    decreases |s.queue|
  {
    var s1 := Step(s, RunFunctor);
    if s.queue[0] == ShutdownInLoop {
      RunEmpty(s1);
      assert LosesBytes(s1, []);
      LosesFirst(s, RunFunctor, []);
    } else {
      assert s.queue == [s.queue[0]] + s.queue[1..];
      LateShutdown(s1);
      var es :| LosesBytes(s1, es);
      LosesFirst(s, RunFunctor, es);
    }
  }

  lemma QueuedShutdownLoses(s: State)
    requires s.conn.state.Disconnecting? && !s.halfClosed && ShutdownInLoop in s.queue
    ensures exists es :: LosesBytes(s, es)
  {
    var send := Send([1], WouldBlock);
    var s1 := Step(s, send);
    KeptWhole(s, [1]);
    var s2 := Step(s1, PeerClosed);
    LateShutdown(s2);
    var es :| LosesBytes(s2, es);
    LosesFirst(s1, PeerClosed, es);
    LosesFirst(s, send, [PeerClosed] + es);
  }

  lemma KeptWhole(s: State, data: seq<byte>)
    requires Enabled(s, Send(data, WouldBlock)) && data != []
    ensures var s1 := Step(s, Send(data, WouldBlock));
            && s1.conn.output == s.conn.output + data && s1.conn.state == s.conn.state
            && s.queue <= s1.queue
  {
    assert data[0..] == data;
  }

  /** SHUT_WR has been issued with fewer than n bytes handed over. */
  predicate ShutsShort(s: State, es: seq<Event>, n: nat) {
    Valid(s, es) && Run(s, es).halfClosed && |Run(s, es).accepted| < n
  }

  lemma StreamStep(s: State, e: Event)
    requires Enabled(s, e)
    ensures |s.accepted| <= |Step(s, e).accepted| && |s.offered| <= |Step(s, e).offered|
  {
  }

  lemma {:induction false} StreamGrows(s: State, es: seq<Event>)
    requires Valid(s, es)
    ensures |s.accepted| <= |Run(s, es).accepted| && |s.offered| <= |Run(s, es).offered|
    decreases |es|
  {
    hide Step, Enabled;
    if es != [] {
      StreamStep(s, es[0]);
      StreamGrows(Step(s, es[0]), es[1..]);
    }
  }

  lemma PromptIsNotShort(s: State, es: seq<Event>, n: nat)
    requires Prompt(s) && n <= |s.offered|
    ensures !ShutsShort(s, es, n)
  {
    if Valid(s, es) {
      PromptLosesNothing(s, es);
      RunKeepsInv(s, es);
      StreamGrows(s, es);
    }
  }

  lemma ShutsFirst(s: State, e: Event, es: seq<Event>, n: nat)
    requires Enabled(s, e) && ShutsShort(Step(s, e), es, n)
    ensures ShutsShort(s, [e] + es, n)
  {
    RunFirst(s, e, es);
  }

  /** With the connection down, running what is queued issues the shutdown and hands nothing over. */
  lemma {:induction false} LateShutdownIsShort(s: State, n: nat)
    requires s.conn.state.Disconnected? && !s.conn.writeInterest && ShutdownInLoop in s.queue && |s.accepted| < n
    ensures exists es :: ShutsShort(s, es, n)
    decreases |s.queue|
  {
    var s1 := Step(s, RunFunctor);
    if s.queue[0] == ShutdownInLoop {
      RunEmpty(s1);
      assert ShutsShort(s1, [], n);
      ShutsFirst(s, RunFunctor, [], n);
    } else {
      assert s.queue == [s.queue[0]] + s.queue[1..];
      LateShutdownIsShort(s1, n);
      var es :| ShutsShort(s1, es, n);
      ShutsFirst(s, RunFunctor, es, n);
    }
  }

  /** Exactly when shutdown is safe, for a caller on a connected connection, in every reachable state. It can end
      with SHUT_WR issued over unsent bytes, later ones included, if and only if it is called from another
      thread; and over bytes sent before the call if and only if, besides, some of them are still waiting. */
  lemma ShutdownIsSafe(mark: nat, high: bool, complete: bool, es: seq<Event>, inLoop: bool)
    requires Valid(Init(mark, high, complete), es) && Run(Init(mark, high, complete), es).conn.state.Connected?
    ensures var s := Run(Init(mark, high, complete), es);
            && ((exists more :: LosesBytes(Step(s, Shutdown(inLoop)), more)) <==> !inLoop)
            && ((exists more :: ShutsShort(Step(s, Shutdown(inLoop)), more, |s.offered|))
                <==> !inLoop && s.conn.output != [])
  {
    RunKeepsInv(Init(mark, high, complete), es);
    hide Run, Valid, LosesBytes, ShutsShort;
    var s := Run(Init(mark, high, complete), es);
    var s1 := Step(s, Shutdown(inLoop));
    StepKeepsInv(s, Shutdown(inLoop));
    if inLoop {
      forall more ensures !LosesBytes(s1, more) && !ShutsShort(s1, more, |s.offered|) {
        PromptLosesNothing(s1, more);
        PromptIsNotShort(s1, more, |s.offered|);
      }
    } else {
      QueuedShutdownLoses(s1);
      QueuedShutdownIsShort(s1);
    }
  }

  lemma QueuedShutdownIsShort(s: State)
    requires Inv(s) && s.conn.state.Disconnecting? && ShutdownInLoop in s.queue
    ensures (exists es :: ShutsShort(s, es, |s.offered|)) <==> s.conn.output != []
  {
    if s.conn.output == [] {
      forall es ensures !ShutsShort(s, es, |s.offered|) {
        if Valid(s, es) { StreamGrows(s, es); }
      }
    } else {
      var s1 := Step(s, PeerClosed);
      LateShutdownIsShort(s1, |s.offered|);
      var es :| ShutsShort(s1, es, |s.offered|);
      ShutsFirst(s, PeerClosed, es, |s.offered|);
    }
  }

  /** A connection that is down stays down as long as nobody sends or starts reading on it: no interest comes back
      and no byte is taken. */
  lemma {:induction false} ClosedStaysClosed(s: State, es: seq<Event>)
    requires Inv(s) && s.conn.state.Disconnected? && !s.conn.readInterest && Valid(s, es)
    ensures var s' := Run(s, es);
            && s'.conn.state.Disconnected? && !s'.conn.readInterest && !s'.conn.writeInterest
            && s'.accepted == s.accepted && s'.conn.output == s.conn.output
    decreases |es|
  {
    if es != [] {
      StepKeepsInv(s, es[0]);
      ClosedStep(s, es[0]);
      hide Step, Enabled, Inv;
      ClosedStaysClosed(Step(s, es[0]), es[1..]);
    }
  }

  lemma ClosedStep(s: State, e: Event)
    requires Inv(s) && s.conn.state.Disconnected? && !s.conn.readInterest && Enabled(s, e)
    ensures var s' := Step(s, e);
            && s'.conn.state.Disconnected? && !s'.conn.readInterest
            && s'.accepted == s.accepted && s'.conn.output == s.conn.output
  {
  }

  /** The source only warns about a send on a connection that is down. Exactly when it has an effect all the same,
      handing bytes over or turning the write interest on again: with something to send, unless nothing was
      waiting and the write meets a fault. */
  lemma SendReopensClosed(c: Conn, data: seq<byte>, r: WriteResult)
    requires c.state.Disconnected? && !c.writeInterest && (r.Wrote? ==> r.n <= |data|)
    ensures var x := SendInLoop(c, data, r);
            x.taken != [] || x.conn.writeInterest <==> data != [] && !(c.output == [] && r.Fault?)
  {
  }

  // ----- What a request brings about -----

  /** The functors a run serves. */
  function Served(es: seq<Event>): nat {
    if es == [] then 0 else (if es[0].RunFunctor? then 1 else 0) + Served(es[1..])
  }

  /** The connection has been told to finish, and its write side is shut exactly when nothing is left to write. */
  predicate Settled(s: State) {
    && (s.conn.state.Disconnecting? || s.conn.state.Disconnected?)
    && (!s.conn.state.Disconnected? ==> (s.halfClosed <==> s.conn.output == []))
  }

  /** Settled, or due to be when the n-th functor in the queue has been served. */
  predicate Settling(s: State, n: nat) {
    && Inv(s)
    && if n == 0 then Settled(s)
       else s.conn.state != Connected && s.conn.state != Connecting && n <= |s.queue| && s.queue[n - 1].ShutdownInLoop?
  }

  lemma StepSettles(s: State, e: Event, n: nat)
    requires Settling(s, n) && Enabled(s, e)
    ensures Settling(Step(s, e), if e.RunFunctor? && n > 0 then n - 1 else n)
  {
    StepKeepsInv(s, e);
    if e.RunFunctor? {
    } else if e.Send? {
      SendSettles(s, e, n);
    } else if e.Writable? {
      WriteSettles(s, e, n);
    } else {
      hide SendInLoop, HandleWrite;
    }
  }

  lemma SendSettles(s: State, e: Event, n: nat)
    requires Settling(s, n) && e.Send? && Enabled(s, e) && Inv(Step(s, e))
    ensures Settling(Step(s, e), n)
  {
    SendAddsNoShutdown(s.conn, e.data, e.result);
    InvParts(s);
    if !Faulted(s.conn, e.result) { SendKeepsBytes(s.conn, e.data, e.result); }
    var x := SendInLoop(s.conn, e.data, e.result);
    assert s.conn.output != [] ==> |x.conn.output| > 0;
    assert s.conn.output == [] && s.halfClosed ==> x.conn.output == [];
  }

  lemma WriteSettles(s: State, e: Event, n: nat)
    requires Settling(s, n) && e.Writable? && Enabled(s, e) && Inv(Step(s, e))
    ensures Settling(Step(s, e), n)
  {
    InvParts(s);
    var x := HandleWrite(s.conn, e.result);
    assert s.conn.output != [] && x.conn.output == [] && s.conn.state.Disconnecting? ==> x.shut;
  }

  lemma {:induction false} RunSettles(s: State, es: seq<Event>, n: nat)
    requires Settling(s, n) && Valid(s, es) && Served(es) >= n
    ensures Settling(Run(s, es), 0)
    decreases |es|
  {
    hide Step, Enabled, Settling;
    if es != [] {
      StepSettles(s, es[0], n);
      RunSettles(Step(s, es[0]), es[1..], if es[0].RunFunctor? && n > 0 then n - 1 else n);
    }
  }

  /** A shutdown is carried out, neither early nor late: on any connected connection, at every moment from the call
      in the loop thread on, and from another thread once the functors queued up to the call have been served,
      SHUT_WR has been issued exactly when everything sent has been handed over, until the connection is down. */
  lemma ShutdownIsIssued(mark: nat, high: bool, complete: bool, es: seq<Event>, inLoop: bool, more: seq<Event>)
    requires Valid(Init(mark, high, complete), es) && Run(Init(mark, high, complete), es).conn.state.Connected?
    requires Valid(Step(Run(Init(mark, high, complete), es), Shutdown(inLoop)), more)
    requires inLoop || Served(more) > |Run(Init(mark, high, complete), es).queue|
    ensures var s := Run(Step(Run(Init(mark, high, complete), es), Shutdown(inLoop)), more);
            && (s.conn.state.Disconnecting? || s.conn.state.Disconnected?)
            && (!s.conn.state.Disconnected? ==> (s.halfClosed <==> s.conn.output == []))
  {
    RunKeepsInv(Init(mark, high, complete), es);
    hide Run, Valid;
    var s := Run(Init(mark, high, complete), es);
    StepKeepsInv(s, Shutdown(inLoop));
    RunSettles(Step(s, Shutdown(inLoop)), more, if inLoop then 0 else |s.queue| + 1);
  }

  /** Going down, or due to when the n-th functor in the queue has been served. */
  predicate Closing(s: State, n: nat) {
    if n == 0 then s.conn.state.Disconnected?
    else s.conn.state != Connecting && n <= |s.queue| && s.queue[n - 1].ForceCloseInLoop?
  }

  lemma StepCloses(s: State, e: Event, n: nat)
    requires Closing(s, n) && Enabled(s, e)
    ensures Closing(Step(s, e), if e.RunFunctor? && n > 0 then n - 1 else n)
  {
    if e.Send? {
      hide SendInLoop;
      SendAddsNoShutdown(s.conn, e.data, e.result);
    }
  }

  lemma {:induction false} RunCloses(s: State, es: seq<Event>, n: nat)
    requires Closing(s, n) && Valid(s, es) && Served(es) >= n
    ensures Run(s, es).conn.state.Disconnected?
    decreases |es|
  {
    if es != [] {
      hide Step, Enabled, Closing;
      StepCloses(s, es[0], n);
      RunCloses(Step(s, es[0]), es[1..], if es[0].RunFunctor? && n > 0 then n - 1 else n);
    }
  }

  /** forceClose closes: once the functors queued up to the call have been served the connection is down, and stays
      down; a hang-up closes it at once. */
  lemma ForceCloseCloses(s: State, e: Event, es: seq<Event>)
    requires Up(s.conn) && (e.ForceClose? || e.PeerClosed?)
    requires Valid(Step(s, e), es) && (e.ForceClose? ==> Served(es) > |s.queue|)
    ensures Run(Step(s, e), es).conn.state.Disconnected?
  {
    RunCloses(Step(s, e), es, if e.ForceClose? then |s.queue| + 1 else 0);
  }

  /** No request to end a connection is ever forgotten: it is not Connected again in any continuation. */
  lemma {:induction false} NeverConnectedAgain(s: State, e: Event, es: seq<Event>)
    requires Up(s.conn) && Enabled(s, e)
    requires s.conn.state.Connected? ==>
               e.Shutdown? || e.ForceClose? || e.ForceCloseWithDelay? || e.PeerClosed? || e.Destroyed?
    requires Valid(Step(s, e), es)
    ensures Run(Step(s, e), es).conn.state.Disconnecting? || Run(Step(s, e), es).conn.state.Disconnected?
    decreases |es|
  {
    var s1 := Step(s, e);
    assert s1.conn.state.Disconnecting? || s1.conn.state.Disconnected? by {
      if e.Send? {
        hide SendInLoop;
        SendAddsNoShutdown(s.conn, e.data, e.result);
      }
    }
    if es != [] {
      if s1.conn.state.Disconnected? {
        RunCloses(s1, es, 0);
      } else {
        hide Step, Enabled;
        NeverConnectedAgain(s1, es[0], es[1..]);
      }
    }
  }

  /** Calls that come too early or too late change nothing. */
  lemma IgnoredUnlessUp(s: State, e: Event)
    requires (e.Shutdown? && !s.conn.state.Connected?) || ((e.ForceClose? || e.ForceCloseWithDelay?) && !Up(s.conn))
    ensures Step(s, e) == s
  {
  }

  /** What a request about reading asks for: opens says whether becoming established is one. */
  function AskedBy(e: Event, on: bool, opens: bool): bool {
    if e.StartReading? then true else if e.StopReading? then false else on || (opens && e.Established?)
  }

  /** What the last request of a run asks for. */
  function Asked(es: seq<Event>, on: bool, opens: bool): bool {
    if es == [] then on else Asked(es[1..], AskedBy(es[0], on, opens), opens)
  }

  /** While up, the channel asks for readability as the last request said; once down, for nothing. */
  lemma {:induction false} ReadsAsAsked(s: State, es: seq<Event>)
    requires Inv(s) && Valid(s, es) && (s.conn.state.Disconnected? ==> !s.conn.readInterest)
    ensures var s' := Run(s, es);
            && (if s'.conn.state.Disconnected? then !s'.conn.readInterest && !s'.conn.writeInterest
                else s'.conn.readInterest == Asked(es, s.conn.readInterest, true))
            && s'.conn.reading == Asked(es, s.conn.reading, false)
    decreases |es|
  {
    if es != [] {
      var s1 := Step(s, es[0]);
      StepKeepsInv(s, es[0]);
      StepReads(s, es[0]);
      StepReading(s, es[0]);
      hide Step, Enabled;
      ReadsAsAsked(s1, es[1..]);
      if s1.conn.state.Disconnected? { RunCloses(s1, es[1..], 0); }
    }
  }

  lemma StepReads(s: State, e: Event)
    requires Enabled(s, e) && (s.conn.state.Disconnected? ==> !s.conn.readInterest)
    ensures var c := Step(s, e).conn;
            if c.state.Disconnected? then !c.readInterest else c.readInterest == AskedBy(e, s.conn.readInterest, true)
  {
    if e.Send? {
      hide SendInLoop;
      SendAddsNoShutdown(s.conn, e.data, e.result);
    } else if e.Writable? {
      hide HandleWrite;
      WriteKeepsReading(s.conn, e.result);
    } else {
      hide SendInLoop, HandleWrite;
    }
  }

  lemma StepReading(s: State, e: Event)
    requires Enabled(s, e)
    ensures Step(s, e).conn.reading == AskedBy(e, s.conn.reading, false)
  {
    if e.Send? {
      hide SendInLoop;
      SendAddsNoShutdown(s.conn, e.data, e.result);
    } else if e.Writable? {
      hide HandleWrite;
      WriteKeepsReading(s.conn, e.result);
    } else {
      hide SendInLoop, HandleWrite;
    }
  }

  /** The callbacks, told from the waiting output before and after: the high-water one is queued, with the number of
      bytes waiting, exactly when they reach the mark from below, and the write-complete one exactly when a write has
      left nothing waiting. */
  lemma NoticesAreExact(s: State, e: Event)
    requires Inv(s) && Enabled(s, e) && (e.Send? || e.Writable?)
    ensures var c, s' := s.conn, Step(s, e);
            var high := c.highWaterSet && |c.output| < c.highWaterMark <= |s'.conn.output|;
            var done := c.writeCompleteSet && s'.conn.output == []
                        && if e.Send? then e.result.Wrote? else c.output != [];
            && !(high && done)
            && s'.queue == s.queue + if high then [Notify(HighWater(|s'.conn.output|))]
                                     else if done then [Notify(WriteComplete)] else []
  {
    var c := s.conn;
    InvParts(s);
    if e.Send? {
      assert Direct(c) <==> c.output == [];
      var n := DirectCount(c, e.result);
      assert n == |e.data| ==> e.data[n..] == [];
    }
  }

  lemma RunEmpty(s: State)
    ensures Valid(s, []) && Run(s, []) == s
  {
  }

  lemma RunFirst(s: State, e: Event, es: seq<Event>)
    requires Enabled(s, e) && Valid(Step(s, e), es)
    ensures Valid(s, [e] + es) && Run(s, [e] + es) == Run(Step(s, e), es)
  {
    assert ([e] + es)[1..] == es;
  }

  // ----- The connection object -----

  class Connection {
    var state: ConnState
    var reading: bool
    var readInterest: bool
    var writeInterest: bool
    var outputBuffer: seq<byte>
    var highWaterMark: nat
    var highWaterSet: bool
    var writeCompleteSet: bool
    var queue: seq<Functor>
    ghost var accepted: seq<byte>
    ghost var offered: seq<byte>
    ghost var lost: seq<seq<byte>>
    ghost var halfClosed: bool

    ghost function Fields(): Conn
      reads this
    {
      Conn(state, reading, readInterest, writeInterest, outputBuffer, highWaterMark, highWaterSet, writeCompleteSet)
    }

    ghost function View(): State
      reads this
    {
      State(Fields(), queue, accepted, offered, lost, halfClosed)
    }

    constructor (highWaterMark: nat, highWaterSet: bool, writeCompleteSet: bool)
      ensures View() == Init(highWaterMark, highWaterSet, writeCompleteSet)
    {
      state, reading, readInterest, writeInterest, outputBuffer := Connecting, true, false, false, [];
      this.highWaterMark, this.highWaterSet, this.writeCompleteSet := highWaterMark, highWaterSet, writeCompleteSet;
      queue := [];
      accepted, offered, lost, halfClosed := [], [], [], false;
    }

    method ConnectEstablished()
      requires Enabled(View(), Established)
      modifies this
      ensures View() == Step(old(View()), Established)
    {
      state := Connected;
      readInterest := true;
    }

    method SendPayload(data: seq<byte>, result: WriteResult)
      requires Enabled(View(), Send(data, result))
      modifies this
      ensures View() == Step(old(View()), Send(data, result))
    {
      var nwrote, faultError := TryWrite(data, result);
      if faultError { lost := lost + [data]; } else { offered := offered + data; }
      if !faultError && |data| - nwrote > 0 { KeepRest(data[nwrote..]); }
    }

    /** The direct write, tried only when nothing is waiting. */
    method TryWrite(data: seq<byte>, result: WriteResult) returns (nwrote: nat, faultError: bool)
      requires result.Wrote? ==> result.n <= |data|
      modifies this`queue, this`accepted
      ensures nwrote == DirectCount(Fields(), result) && (faultError <==> Faulted(Fields(), result))
      ensures accepted == old(accepted) + data[..nwrote]
      ensures queue == old(queue) + if Direct(Fields()) && result == Wrote(|data|) && writeCompleteSet
                                    then [Notify(WriteComplete)] else []
    {
      nwrote, faultError := 0, false;
      if !writeInterest && outputBuffer == [] {
        match result
        case Wrote(n) =>
          nwrote := n;
          if |data| - n == 0 && writeCompleteSet {
            queue := queue + [Notify(WriteComplete)];
          }
        case Fault => faultError := true;
        case _ =>
      }
      accepted := accepted + data[..nwrote];
    }

    method KeepRest(rest: seq<byte>)
      modifies this
      ensures View() == old(View()).(conn := Keep(old(Fields()), rest).0,
                                     queue := old(queue) + Notified(Keep(old(Fields()), rest).1))
    {
      var oldLen := |outputBuffer|;
      if oldLen + |rest| >= highWaterMark && oldLen < highWaterMark && highWaterSet {
        queue := queue + [Notify(HighWater(oldLen + |rest|))];
      }
      outputBuffer := outputBuffer + rest;
      if !writeInterest { writeInterest := true; }
    }

    method WriteReady(result: WriteResult)
      requires Enabled(View(), Writable(result))
      modifies this
      ensures View() == Step(old(View()), Writable(result))
    {
      if writeInterest && result.Wrote? && result.n > 0 {
        accepted := accepted + outputBuffer[..result.n];
        outputBuffer := outputBuffer[result.n..];
        if outputBuffer == [] {
          writeInterest := false;
          if writeCompleteSet {
            queue := queue + [Notify(WriteComplete)];
          }
          if state == Disconnecting { ShutdownWrite(); }
        }
      }
    }

    /** shutdownInLoop. */
    method ShutdownWrite()
      modifies this`halfClosed
      ensures View() == ShutWrite(old(View()))
    {
      if !writeInterest { halfClosed := true; }
    }

    method RequestShutdown(inLoop: bool)
      modifies this
      ensures View() == Step(old(View()), Shutdown(inLoop))
    {
      if state == Connected {
        state := Disconnecting;
        if inLoop { ShutdownWrite(); } else { queue := queue + [ShutdownInLoop]; }
      }
    }

    method RequestClose()
      modifies this
      ensures View() == Step(old(View()), ForceClose)
    {
      if state == Connected || state == Disconnecting {
        state := Disconnecting;
        queue := queue + [ForceCloseInLoop];
      }
    }

    /** The timer that calls forceClose later is not part of the connection. */
    method RequestCloseLater()
      modifies this
      ensures View() == Step(old(View()), ForceCloseWithDelay)
    {
      if state == Connected || state == Disconnecting { state := Disconnecting; }
    }

    method Close()
      requires Up(Fields())
      modifies this
      ensures View() == old(View()).(conn := HandleClose(old(Fields())))
    {
      state := Disconnected;
      readInterest, writeInterest := false, false;
    }

    method RunNext()
      requires Enabled(View(), RunFunctor)
      modifies this
      ensures View() == Step(old(View()), RunFunctor)
    {
      var f := queue[0];
      queue := queue[1..];
      match f
      case Notify(_) =>
      case ShutdownInLoop => ShutdownWrite();
      case ForceCloseInLoop => if state == Connected || state == Disconnecting { Close(); }
    }

    method StartReadInLoop()
      requires Enabled(View(), StartReading)
      modifies this
      ensures View() == Step(old(View()), StartReading)
    {
      if !reading || !readInterest { readInterest, reading := true, true; }
    }

    method StopReadInLoop()
      requires Enabled(View(), StopReading)
      modifies this
      ensures View() == Step(old(View()), StopReading)
    {
      if reading || readInterest { readInterest, reading := false, false; }
    }

    method ConnectDestroyed()
      requires Enabled(View(), Destroyed)
      modifies this
      ensures View() == Step(old(View()), Destroyed)
    {
      if state == Connected {
        state := Disconnected;
        readInterest, writeInterest := false, false;
      }
      assert !readInterest && !writeInterest;
    }
  }
}
