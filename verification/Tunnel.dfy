/** The flow control of networking-examples/socks4a/tunnel.h: two connections on one loop, each of which
    pauses reading on the other while its own output is backed up. Both are up; the tunnel is not torn down. */
module Tunnel {
  import opened Bytes
  import opened TcpConnection

  const HIGH_WATER_MARK := 1024 * 1024

  datatype Side = Server | Client

  function Other(x: Side): Side {
    if x.Server? then Client else Server
  }

  /** A callback queued in the loop for one side's connection. */
  datatype Call = Call(side: Side, notice: Notice)

  datatype State = State(server: Conn, client: Conn, queue: seq<Call>)

  function Of(s: State, x: Side): Conn {
    if x.Server? then s.server else s.client
  }

  function With(s: State, x: Side, c: Conn): State {
    if x.Server? then s.(server := c) else s.(client := c)
  }

  /** Just after the client connection came up: nothing paused, no write-complete callback installed. */
  predicate Started(s: State) {
    && s.queue == []
    && forall x :: && Of(s, x).state.Connected?
                   && Of(s, x).readInterest && Of(s, x).reading
                   && Of(s, x).highWaterSet && Of(s, x).highWaterMark == HIGH_WATER_MARK
                   && !Of(s, x).writeCompleteSet
                   && InterestMatches(Of(s, x))
  }

  datatype Event =
    | Message(from: Side, data: seq<byte>, result: WriteResult)
    | Writable(side: Side, result: WriteResult)
    | RunCall

  predicate Enabled(s: State, e: Event) {
    match e
    case Message(from, data, r) => Of(s, from).readInterest && (r.Wrote? ==> r.n <= |data|)
    case Writable(side, r) => Of(s, side).writeInterest && (r.Wrote? ==> r.n <= |Of(s, side).output|)
    case RunCall => s.queue != []
  }

  function Calls(x: Side, notice: Option<Notice>): seq<Call> {
    if notice.Some? then [Call(x, notice.value)] else []
  }

  function Apply(s: State, x: Side, effect: Effect): State {
    With(s, x, effect.conn).(queue := s.queue + Calls(x, effect.notice))
  }

  /** onHighWaterMark: pause the other side, unless the output has drained meanwhile. */
  function OnHighWaterMark(s: State, x: Side): State {
    if Of(s, x).output == [] then s
    else
      var s1 := With(s, Other(x), StopRead(Of(s, Other(x))));
      With(s1, x, Of(s1, x).(writeCompleteSet := true))
  }

  /** onWriteComplete: resume the other side and take the callback out. */
  function OnWriteComplete(s: State, x: Side): State {
    var s1 := With(s, Other(x), StartRead(Of(s, Other(x))));
    With(s1, x, Of(s1, x).(writeCompleteSet := false))
  }

  function RunCallHead(s: State): State
    requires s.queue != []
  {
    var s0, call := s.(queue := s.queue[1..]), s.queue[0];
    match call.notice
    case HighWater(_) => OnHighWaterMark(s0, call.side)
    case WriteComplete => OnWriteComplete(s0, call.side)
  }

  function Step(s: State, e: Event): State
    requires Enabled(s, e)
  {
    match e
    case Message(from, data, r) => Apply(s, Other(from), SendInLoop(Of(s, Other(from)), data, r))
    case Writable(side, r) => Apply(s, side, HandleWrite(Of(s, side), r))
    case RunCall => RunCallHead(s)
  }

  predicate Valid(s: State, es: seq<Event>)
    decreases |es|
  {
    es == [] || (Enabled(s, es[0]) && Valid(Step(s, es[0]), es[1..]))
  }

  function Run(s: State, es: seq<Event>): State
    requires Valid(s, es)
    decreases |es|
  {
    if es == [] then s else Run(Step(s, es[0]), es[1..])
  }

  // ----- What every step keeps -----

  /** The other side's reading is paused only while this side will announce that it has drained. */
  predicate WillResume(s: State, x: Side) {
    !Of(s, Other(x)).readInterest ==>
      Of(s, x).writeCompleteSet && (Of(s, x).output != [] || Call(x, WriteComplete) in s.queue)
  }

  predicate Sound(c: Conn) {
    c.state.Connected? && (c.reading <==> c.readInterest) && InterestMatches(c)
  }

  predicate Inv(s: State) {
    Sound(s.server) && Sound(s.client) && WillResume(s, Server) && WillResume(s, Client)
  }

  /** A send leaves output waiting if any was waiting, and touches nothing else but the write interest. */
  lemma SendEffect(c: Conn, data: seq<byte>, r: WriteResult)
    requires Sound(c) && (r.Wrote? ==> r.n <= |data|)
    ensures var x := SendInLoop(c, data, r);
            && x.conn == c.(output := x.conn.output, writeInterest := x.conn.writeInterest)
            && Sound(x.conn)
            && (c.output != [] ==> x.conn.output != [])
  {
  }

  /** Draining the output announces it when the callback is installed. */
  lemma WriteEffect(c: Conn, r: WriteResult)
    requires Sound(c) && (r.Wrote? ==> r.n <= |c.output|)
    ensures var x := HandleWrite(c, r);
            && x.conn == c.(output := x.conn.output, writeInterest := x.conn.writeInterest)
            && Sound(x.conn)
            && (c.output != [] && x.conn.output == [] && c.writeCompleteSet ==> x.notice == Some(WriteComplete))
  {
  }

  /** An effect on side x that keeps its output waiting, or announces that it drained, keeps everything. */
  lemma ApplyKeepsInv(s: State, x: Side, effect: Effect)
    requires Inv(s) && Sound(effect.conn)
    requires effect.conn == Of(s, x).(output := effect.conn.output, writeInterest := effect.conn.writeInterest)
    requires Of(s, x).output != [] && effect.conn.output == [] && Of(s, x).writeCompleteSet
             ==> effect.notice == Some(WriteComplete)
    ensures Inv(Apply(s, x, effect))
  {
    hide Sound;
    var s' := Apply(s, x, effect);
    assert forall call :: call in s.queue ==> call in s'.queue;
    assert effect.notice == Some(WriteComplete) ==> s'.queue[|s.queue|] == Call(x, WriteComplete);
  }

  lemma CallKeepsInv(s: State)
    requires Inv(s) && s.queue != []
    ensures Inv(RunCallHead(s))
  {
    var call := s.queue[0];
    assert s.queue == [call] + s.queue[1..];
    match call.notice
    case HighWater(_) =>
    case WriteComplete =>
  }

  lemma StepKeepsInv(s: State, e: Event)
    requires Inv(s) && Enabled(s, e)
    ensures Inv(Step(s, e))
  {
    hide SendInLoop, HandleWrite, WillResume, RunCallHead, Apply;
    match e
    case Message(from, data, r) =>
      SendEffect(Of(s, Other(from)), data, r);
      ApplyKeepsInv(s, Other(from), SendInLoop(Of(s, Other(from)), data, r));
    case Writable(side, r) =>
      WriteEffect(Of(s, side), r);
      ApplyKeepsInv(s, side, HandleWrite(Of(s, side), r));
    case RunCall => CallKeepsInv(s);
  }

  lemma {:induction false} RunKeepsInv(s: State, es: seq<Event>)
    requires Inv(s) && Valid(s, es)
    ensures Inv(Run(s, es))
    decreases |es|
  {
    hide Step, Enabled, Inv;
    if es != [] {
      StepKeepsInv(s, es[0]);
      RunKeepsInv(Step(s, es[0]), es[1..]);
    }
  }

  // ----- What that means -----

  /** In every run, a side that is paused will be resumed: the opposite connection has the callback installed
      and either a write-complete already queued, or unsent output and write interest on. */
  lemma PausedWillResume(s: State, es: seq<Event>, x: Side)
    requires Started(s) && Valid(s, es)
    ensures var s' := Run(s, es);
            !Of(s', Other(x)).readInterest ==>
              && Of(s', x).writeCompleteSet
              && (Call(x, WriteComplete) in s'.queue || (Of(s', x).output != [] && Of(s', x).writeInterest))
  {
    assert Of(s, Server) == s.server && Of(s, Client) == s.client;
    RunKeepsInv(s, es);
  }

  predicate Suffix(a: seq<byte>, b: seq<byte>) {
    |a| <= |b| && b[|b| - |a|..] == a
  }

  lemma SuffixOfSuffix(a: seq<byte>, b: seq<byte>, c: seq<byte>)
    requires Suffix(a, b) && Suffix(b, c)
    ensures Suffix(a, c)
  {
    assert c[|c| - |a|..] == c[|c| - |b|..][|b| - |a|..];
  }

  /** No write-complete callback of side x runs. */
  predicate NoResume(s: State, es: seq<Event>, x: Side)
    requires Valid(s, es)
    decreases |es|
  {
    es == [] || (!Resumes(s, es[0], x) && NoResume(Step(s, es[0]), es[1..], x))
  }

  predicate Resumes(s: State, e: Event, x: Side) {
    e == RunCall && s.queue != [] && s.queue[0] == Call(x, WriteComplete)
  }

  lemma PausedStepDrains(s: State, e: Event, x: Side)
    requires Enabled(s, e) && !Resumes(s, e, x) && !Of(s, Other(x)).readInterest
    ensures !Of(Step(s, e), Other(x)).readInterest && Suffix(Of(Step(s, e), x).output, Of(s, x).output)
  {
    hide SendInLoop;
    match e
    case Message(from, data, r) => KeepsReading(Of(s, Other(from)), data, r);
    case Writable(side, r) =>
    case RunCall => CallDrainsNothing(s, x);
  }

  lemma CallDrainsNothing(s: State, x: Side)
    requires s.queue != [] && s.queue[0] != Call(x, WriteComplete) && !Of(s, Other(x)).readInterest
    ensures Of(RunCallHead(s), x).output == Of(s, x).output && !Of(RunCallHead(s), Other(x)).readInterest
  {
    hide OnHighWaterMark, OnWriteComplete;
    var s0, call := s.(queue := s.queue[1..]), s.queue[0];
    assert Of(s0, x) == Of(s, x) && Of(s0, Other(x)) == Of(s, Other(x));
    match call.notice
    case HighWater(_) => PausingOnlyPauses(s0, call.side, x);
    case WriteComplete =>
      assert call.side == Other(x);
      ResumingOnlyResumes(s0, call.side);
  }

  lemma PausingOnlyPauses(s: State, y: Side, x: Side)
    ensures Of(OnHighWaterMark(s, y), x).output == Of(s, x).output
    ensures !Of(s, Other(x)).readInterest ==> !Of(OnHighWaterMark(s, y), Other(x)).readInterest
  {
    assert y == x || y == Other(x);
  }

  lemma ResumingOnlyResumes(s: State, y: Side)
    ensures Of(OnWriteComplete(s, y), Other(y)).output == Of(s, Other(y)).output
    ensures Of(OnWriteComplete(s, y), y).readInterest == Of(s, y).readInterest
  {
  }

  lemma KeepsReading(c: Conn, data: seq<byte>, r: WriteResult)
    requires r.Wrote? ==> r.n <= |data|
    ensures SendInLoop(c, data, r).conn.readInterest == c.readInterest
  {
  }

  /** Back-pressure works: a paused side stays paused, and the opposite output only loses bytes from its front,
      until that side's write-complete callback runs. */
  lemma {:induction false} PausedOnlyDrains(s: State, es: seq<Event>, x: Side)
    requires Valid(s, es) && !Of(s, Other(x)).readInterest && NoResume(s, es, x)
    ensures !Of(Run(s, es), Other(x)).readInterest && Suffix(Of(Run(s, es), x).output, Of(s, x).output)
    decreases |es|
  {
    hide Step, Enabled, Suffix, Resumes;
    if es == [] {
      SuffixOfItself(Of(s, x).output);
    } else {
      var s1 := Step(s, es[0]);
      PausedStepDrains(s, es[0], x);
      PausedOnlyDrains(s1, es[1..], x);
      SuffixOfSuffix(Of(Run(s, es), x).output, Of(s1, x).output, Of(s, x).output);
    }
  }

  /** From the high-water callback of a side with output waiting until its write-complete callback, the other
      side is not read, so what is waiting never grows, whatever arrives, is written or is called meanwhile. */
  lemma HighWaterHolds(s: State, es: seq<Event>, x: Side)
    requires s.queue != [] && s.queue[0].side == x && s.queue[0].notice.HighWater? && Of(s, x).output != []
    requires Valid(Step(s, RunCall), es) && NoResume(Step(s, RunCall), es, x)
    ensures var s' := Run(Step(s, RunCall), es);
            !Of(s', Other(x)).readInterest && Suffix(Of(s', x).output, Of(s, x).output)
  {
    hide Run, Valid, NoResume, Suffix;
    PausedOnlyDrains(Step(s, RunCall), es, x);
  }

  lemma SuffixOfItself(a: seq<byte>)
    ensures Suffix(a, a)
  {
  }

  /** The state once everything now in the queue has run; callbacks queue nothing. */
  function RunAll(s: State): (s': State)
    ensures s'.queue == []
    decreases |s.queue|
  {
    if s.queue == [] then s else RunAll(RunCallHead(s))
  }

  /** The output of x has drained, and the other side reads or is about to be told to. */
  predicate Resuming(s: State, x: Side) {
    && Of(s, x).output == []
    && (Of(s, Other(x)).readInterest || Call(x, WriteComplete) in s.queue)
  }

  lemma CallKeepsResuming(s: State, x: Side)
    requires Resuming(s, x) && s.queue != []
    ensures Resuming(RunCallHead(s), x) && |RunCallHead(s).queue| == |s.queue| - 1
  {
    var call := s.queue[0];
    assert s.queue == [call] + s.queue[1..];
    match call.notice
    case HighWater(_) =>
    case WriteComplete =>
  }

  /** Once the output of a side has drained, running what is queued resumes the other side, whatever else the
      queue holds. */
  lemma {:induction false} DrainResumes(s: State, x: Side)
    requires Resuming(s, x)
    ensures Of(RunAll(s), Other(x)).readInterest
    decreases |s.queue|
  {
    hide RunCallHead;
    if s.queue != [] {
      CallKeepsResuming(s, x);
      DrainResumes(RunCallHead(s), x);
    }
  }

  function Drained(s: State, x: Side): State {
    Apply(s, x, HandleWrite(Of(s, x), Wrote(|Of(s, x).output|)))
  }

  lemma DrainedIsResuming(s: State, x: Side)
    requires Inv(s)
    ensures Resuming(Drained(s, x), x)
  {
    WriteEffect(Of(s, x), Wrote(|Of(s, x).output|));
    var effect := HandleWrite(Of(s, x), Wrote(|Of(s, x).output|));
    var s' := Drained(s, x);
    assert forall call :: call in s.queue ==> call in s'.queue;
    assert effect.notice == Some(WriteComplete) ==> s'.queue[|s.queue|] == Call(x, WriteComplete);
  }

  /** Back-pressure never sticks: from any reachable state, one write that takes all of a side's output and
      one round of the queue leave the other side reading. */
  lemma BackPressureNeverSticks(s: State, es: seq<Event>, x: Side)
    requires Started(s) && Valid(s, es)
    ensures Of(RunAll(Drained(Run(s, es), x)), Other(x)).readInterest
  {
    assert Of(s, Server) == s.server && Of(s, Client) == s.client;
    RunKeepsInv(s, es);
    DrainedIsResuming(Run(s, es), x);
    DrainResumes(Drained(Run(s, es), x), x);
  }

  // ----- Back-pressure engages -----

  predicate HighWaterQueued(s: State, x: Side) {
    exists i :: 0 <= i < |s.queue| && s.queue[i].side == x && s.queue[i].notice.HighWater?
  }

  /** The callback of x is installed exactly while the other side is paused; a write-complete of x is queued at
      most once, and only with the output drained and the callback installed; and an output that has reached the
      mark pauses the other side, or is about to. */
  predicate Engaged(s: State, x: Side) {
    && Of(s, x).highWaterSet && Of(s, x).highWaterMark == HIGH_WATER_MARK
    && (Of(s, x).writeCompleteSet <==> !Of(s, Other(x)).readInterest)
    && multiset(s.queue)[Call(x, WriteComplete)] <= 1
    && (Call(x, WriteComplete) in s.queue ==> Of(s, x).writeCompleteSet && Of(s, x).output == [])
    && (|Of(s, x).output| >= HIGH_WATER_MARK ==> !Of(s, Other(x)).readInterest || HighWaterQueued(s, x))
  }

  lemma SendCrossing(c: Conn, data: seq<byte>, r: WriteResult)
    requires (r.Wrote? ==> r.n <= |data|) && c.highWaterSet
    ensures var x := SendInLoop(c, data, r);
            && (x.notice == Some(WriteComplete) ==> c.writeCompleteSet)
            && (|x.conn.output| >= c.highWaterMark && |c.output| < c.highWaterMark ==>
                  x.notice.Some? && x.notice.value.HighWater?)
  {
  }

  lemma WriteDraining(c: Conn, r: WriteResult)
    requires (r.Wrote? ==> r.n <= |c.output|) && InterestMatches(c) && !c.state.Disconnected?
    ensures var x := HandleWrite(c, r);
            && |x.conn.output| <= |c.output|
            && (x.notice.Some? ==> x.notice == Some(WriteComplete) && c.writeCompleteSet
                                   && c.output != [] && x.conn.output == [])
  {
  }

  /** What an effect on side x may do: grow the output only while the other side is read, announce a drained
      output only from a waiting one, and announce the mark when it is crossed. */
  predicate Orderly(s: State, x: Side, effect: Effect) {
    && effect.conn == Of(s, x).(output := effect.conn.output, writeInterest := effect.conn.writeInterest)
    && (effect.notice == Some(WriteComplete) ==>
          Of(s, x).writeCompleteSet && Of(s, x).output != [] && effect.conn.output == [])
    && (Of(s, x).output == [] && effect.conn.output != [] ==> Of(s, Other(x)).readInterest)
    && (|effect.conn.output| >= HIGH_WATER_MARK && |Of(s, x).output| < HIGH_WATER_MARK ==>
          effect.notice.Some? && effect.notice.value.HighWater?)
  }

  lemma QueueGrows(s: State, x: Side, effect: Effect)
    ensures var s' := Apply(s, x, effect);
            && s.queue <= s'.queue
            && (forall y :: HighWaterQueued(s, y) ==> HighWaterQueued(s', y))
            && (effect.notice.Some? && effect.notice.value.HighWater? ==> HighWaterQueued(s', x))
            && (forall call :: call in s'.queue <==> call in s.queue || call in Calls(x, effect.notice))
            && multiset(s'.queue) == multiset(s.queue) + multiset(Calls(x, effect.notice))
  {
    var s' := Apply(s, x, effect);
    forall y | HighWaterQueued(s, y) ensures HighWaterQueued(s', y) {
      var i :| 0 <= i < |s.queue| && s.queue[i].side == y && s.queue[i].notice.HighWater?;
      assert s'.queue[i] == s.queue[i];
    }
    if effect.notice.Some? && effect.notice.value.HighWater? {
      assert s'.queue[|s.queue|] == Call(x, effect.notice.value);
    }
  }

  lemma ApplyEngages(s: State, x: Side, effect: Effect, y: Side)
    requires Engaged(s, y) && Engaged(s, x) && Orderly(s, x, effect)
    ensures Engaged(Apply(s, x, effect), y)
  {
    QueueGrows(s, x, effect);
    hide HighWaterQueued;
    assert y == x || y == Other(x);
    var s' := Apply(s, x, effect);
    assert Of(s', x) == effect.conn && Of(s', Other(x)) == Of(s, Other(x));
  }

  lemma MessageIsOrderly(s: State, from: Side, data: seq<byte>, r: WriteResult)
    requires Inv(s) && Engaged(s, Other(from)) && Enabled(s, Message(from, data, r))
    ensures Orderly(s, Other(from), SendInLoop(Of(s, Other(from)), data, r))
  {
    hide SendInLoop, WillResume;
    var c := Of(s, Other(from));
    SendEffect(c, data, r);
    SendCrossing(c, data, r);
    assert Other(Other(from)) == from;
  }

  lemma WriteIsOrderly(s: State, x: Side, r: WriteResult)
    requires Inv(s) && Engaged(s, x) && Enabled(s, Event.Writable(x, r))
    ensures Orderly(s, x, HandleWrite(Of(s, x), r))
  {
    hide HandleWrite, WillResume;
    WriteEffect(Of(s, x), r);
    WriteDraining(Of(s, x), r);
  }

  /** The queue without its first call. */
  lemma QueueTail(s: State, y: Side)
    requires s.queue != []
    ensures var s0, call := s.(queue := s.queue[1..]), s.queue[0];
            && multiset(s.queue) == multiset{call} + multiset(s0.queue)
            && (HighWaterQueued(s, y) ==> HighWaterQueued(s0, y) || (call.side == y && call.notice.HighWater?))
  {
    assert s.queue == [s.queue[0]] + s.queue[1..];
    if HighWaterQueued(s, y) {
      var i :| 0 <= i < |s.queue| && s.queue[i].side == y && s.queue[i].notice.HighWater?;
      if i > 0 { assert s.queue[1..][i - 1] == s.queue[i]; }
    }
  }

  lemma PauseEngages(s: State, y: Side)
    requires s.queue != [] && s.queue[0].notice.HighWater? && Engaged(s, y)
    ensures Engaged(RunCallHead(s), y)
  {
    QueueTail(s, y);
    hide HighWaterQueued;
    var s0, x := s.(queue := s.queue[1..]), s.queue[0].side;
    assert Call(y, WriteComplete) in s0.queue ==> Call(y, WriteComplete) in s.queue;
    assert y == x || y == Other(x);
    SameQueue(s0, OnHighWaterMark(s0, x), y);
  }

  lemma ResumeEngages(s: State, y: Side)
    requires s.queue != [] && s.queue[0].notice.WriteComplete? && Engaged(s, y)
    ensures Engaged(RunCallHead(s), y)
  {
    QueueTail(s, y);
    hide HighWaterQueued;
    var s0, x := s.(queue := s.queue[1..]), s.queue[0].side;
    assert s.queue[0] == Call(x, WriteComplete) && s.queue[0] in s.queue;
    assert Call(y, WriteComplete) in s0.queue ==> multiset(s0.queue)[Call(y, WriteComplete)] >= 1;
    assert y == x || y == Other(x);
    SameQueue(s0, OnWriteComplete(s0, x), y);
  }

  lemma SameQueue(s: State, s': State, y: Side)
    requires s'.queue == s.queue
    ensures HighWaterQueued(s', y) <==> HighWaterQueued(s, y)
  {
  }

  lemma StepEngages(s: State, e: Event, y: Side)
    requires Inv(s) && Engaged(s, Server) && Engaged(s, Client) && Enabled(s, e)
    ensures Engaged(Step(s, e), y)
  {
    hide Inv, Engaged, Orderly, Apply, RunCallHead, SendInLoop, HandleWrite;
    match e
    case Message(from, data, r) =>
      MessageIsOrderly(s, from, data, r);
      ApplyEngages(s, Other(from), SendInLoop(Of(s, Other(from)), data, r), y);
    case Writable(x, r) =>
      WriteIsOrderly(s, x, r);
      ApplyEngages(s, x, HandleWrite(Of(s, x), r), y);
    case RunCall =>
      if s.queue[0].notice.HighWater? { PauseEngages(s, y); } else { ResumeEngages(s, y); }
  }

  lemma {:induction false} RunEngages(s: State, es: seq<Event>)
    requires Inv(s) && Engaged(s, Server) && Engaged(s, Client) && Valid(s, es)
    ensures Engaged(Run(s, es), Server) && Engaged(Run(s, es), Client)
    decreases |es|
  {
    hide Inv, Engaged, Step, Enabled;
    if es != [] {
      StepKeepsInv(s, es[0]);
      StepEngages(s, es[0], Server);
      StepEngages(s, es[0], Client);
      RunEngages(Step(s, es[0]), es[1..]);
    }
  }

  /** Back-pressure engages: in every run started with both outputs below the mark, an output that has reached it
      has the other side paused, or the high-water callback that will pause it in the queue; and the other side
      is paused exactly while the write-complete callback is installed. */
  lemma BackPressureEngages(s: State, es: seq<Event>, x: Side)
    requires Started(s) && Valid(s, es)
    requires |s.server.output| < 1048576 && |s.client.output| < 1048576
    ensures var s' := Run(s, es);
            && (|Of(s', x).output| >= 1048576 ==>
                  !Of(s', Other(x)).readInterest || HighWaterQueued(s', x))
            && (Of(s', x).writeCompleteSet <==> !Of(s', Other(x)).readInterest)
  {
    assert Of(s, Server) == s.server && Of(s, Client) == s.client;
    RunEngages(s, es);
  }

  // ----- What goes through -----

  /** The bytes of a step that the kernel takes from side x. */
  function TakenBy(s: State, e: Event, x: Side): seq<byte>
    requires Enabled(s, e)
  {
    match e
    case Message(from, data, r) => if Other(from) == x then SendInLoop(Of(s, x), data, r).taken else []
    case Writable(side, r) => if side == x then HandleWrite(Of(s, x), r).taken else []
    case RunCall => []
  }

  /** The bytes of a step that are read on side x, unless the other side's write meets a fault. */
  function ReadOn(s: State, e: Event, x: Side): seq<byte> {
    if e.Message? && e.from == x && !Faulted(Of(s, Other(x)), e.result) then e.data else []
  }

  function Taken(s: State, es: seq<Event>, x: Side): seq<byte>
    requires Valid(s, es)
    decreases |es|
  {
    if es == [] then [] else TakenBy(s, es[0], x) + Taken(Step(s, es[0]), es[1..], x)
  }

  function Relayed(s: State, es: seq<Event>, x: Side): seq<byte>
    requires Valid(s, es)
    decreases |es|
  {
    if es == [] then [] else ReadOn(s, es[0], x) + Relayed(Step(s, es[0]), es[1..], x)
  }

  lemma StepRelays(s: State, e: Event, x: Side)
    requires Inv(s) && Enabled(s, e)
    ensures TakenBy(s, e, x) + Of(Step(s, e), x).output == Of(s, x).output + ReadOn(s, e, Other(x))
  {
    hide SendInLoop, HandleWrite, WillResume, InterestMatches, Faulted;
    match e
    case Message(from, data, r) =>
      assert Other(Other(x)) == x;
      if Other(from) == x {
        if Faulted(Of(s, x), r) { FaultDrops(Of(s, x), data, r); } else { SendKeepsBytes(Of(s, x), data, r); }
      }
    case Writable(side, r) =>
      if side == x { WriteKeepsBytes(Of(s, x), r); }
    case RunCall => CallKeepsOutput(s, x);
  }

  lemma FaultDrops(c: Conn, data: seq<byte>, r: WriteResult)
    requires Faulted(c, r)
    ensures SendInLoop(c, data, r).taken == [] && SendInLoop(c, data, r).conn == c
  {
  }

  lemma CallKeepsOutput(s: State, x: Side)
    requires s.queue != []
    ensures Of(RunCallHead(s), x).output == Of(s, x).output
  {
    assert s.queue[0].side == x || s.queue[0].side == Other(x);
  }

  /** The tunnel relays: in every run the bytes the kernel took from a side, followed by what still waits there, are
      what waited at the start followed by the bytes read on the other side, in order, none lost, repeated or
      crossed over, but for messages dropped whole by a fault. */
  lemma {:induction false} RelaysInOrder(s: State, es: seq<Event>, x: Side)
    requires Inv(s) && Valid(s, es)
    ensures Taken(s, es, x) + Of(Run(s, es), x).output == Of(s, x).output + Relayed(s, es, Other(x))
    decreases |es|
  {
    if es == [] {
      assert [] + Of(s, x).output == Of(s, x).output + [];
    } else {
      hide Step, Enabled, Inv, TakenBy, ReadOn;
      var s1 := Step(s, es[0]);
      StepKeepsInv(s, es[0]);
      StepRelays(s, es[0], x);
      RelaysInOrder(s1, es[1..], x);
      Chained(TakenBy(s, es[0], x), Of(s1, x).output, Of(s, x).output, ReadOn(s, es[0], Other(x)),
              Taken(s1, es[1..], x), Of(Run(s, es), x).output, Relayed(s1, es[1..], Other(x)));
    }
  }

  lemma Chained(taken: seq<byte>, mid: seq<byte>, start: seq<byte>, read: seq<byte>, later: seq<byte>,
                end: seq<byte>, more: seq<byte>)
    requires taken + mid == start + read && later + end == mid + more
    ensures (taken + later) + end == start + (read + more)
  {
    assert (taken + later) + end == taken + (later + end);
    assert taken + (mid + more) == (taken + mid) + more;
    assert (start + read) + more == start + (read + more);
  }

  // ----- The object -----

  class Tunnel {
    const serverConn: Connection
    const clientConn: Connection

    ghost predicate Up()
      reads serverConn, clientConn
    {
      serverConn != clientConn && serverConn.state.Connected? && clientConn.state.Connected?
    }

    /** The two connections, with what the loop has queued for them. */
    ghost function View(queue: seq<Call>): State
      reads serverConn, clientConn
    {
      State.State(serverConn.Fields(), clientConn.Fields(), queue)
    }

    constructor (serverConn: Connection, clientConn: Connection)
      ensures this.serverConn == serverConn && this.clientConn == clientConn
    {
      this.serverConn, this.clientConn := serverConn, clientConn;
    }

    method HighWaterMark(which: Side, ghost queue: seq<Call>)
      requires Up()
      modifies serverConn, clientConn
      ensures Up() && View(queue) == OnHighWaterMark(old(View(queue)), which)
    {
      if which == Server {
        if |serverConn.outputBuffer| > 0 {
          clientConn.StopReadInLoop();
          serverConn.writeCompleteSet := true;
        }
      } else {
        if |clientConn.outputBuffer| > 0 {
          serverConn.StopReadInLoop();
          clientConn.writeCompleteSet := true;
        }
      }
    }

    method WriteCompleted(which: Side, ghost queue: seq<Call>)
      requires Up()
      modifies serverConn, clientConn
      ensures Up() && View(queue) == OnWriteComplete(old(View(queue)), which)
    {
      if which == Server {
        clientConn.StartReadInLoop();
        serverConn.writeCompleteSet := false;
      } else {
        serverConn.StartReadInLoop();
        clientConn.writeCompleteSet := false;
      }
    }
  }
}
