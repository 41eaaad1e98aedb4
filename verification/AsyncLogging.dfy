/** utility/AsyncLogging.cpp: producers fill a current buffer, the logging thread swaps full ones out and
    writes them, and four buffers circulate between the two. A step is one critical section, or the logging
    thread's work on what it alone owns. */
module AsyncLogging {
  import opened Bytes

  /** The contents of a FixedBuffer<kLargeBuffer>. */
  type Chunk = seq<byte>

  const LARGE_BUFFER := 4000 * 1000
  const MAX_BUFFERS := 25

  /** What became of the buffers handed over, in stream order, with the notices put in the file. */
  datatype Record = Written(chunk: Chunk) | Discarded(chunk: Chunk) | DropNotice(count: nat)

  /** Where the logging thread is: at the loop head, asleep on the condition, or outside the critical section
      with buffers to write. */
  datatype Phase = Ready | Asleep | Writing

  /** None is a unique_ptr that holds nothing. */
  datatype State = State(
    current: Chunk,
    next: Option<Chunk>,
    buffers: seq<Chunk>,
    phase: Phase,
    newBuffer1: Option<Chunk>,
    newBuffer2: Option<Chunk>,
    toWrite: seq<Chunk>,
    records: seq<Record>,
    appended: seq<byte>)

  const INIT := State([], Some([]), [], Ready, Some([]), Some([]), [], [], [])

  /** FixedBuffer::append copies only what leaves room. */
  function Filled(chunk: Chunk, line: seq<byte>): Chunk {
    if LARGE_BUFFER - |chunk| > |line| then chunk + line else chunk
  }

  /** append: into the current buffer, or into the next one after queueing the current one. */
  function Append(s: State, line: seq<byte>): State {
    var s1 := s.(appended := if |line| < LARGE_BUFFER then s.appended + line else s.appended);
    if LARGE_BUFFER - |s.current| > |line| then s1.(current := Filled(s.current, line))
    else
      var spare := if s.next.Some? then s.next.value else [];
      s1.(buffers := s.buffers + [s.current], current := Filled(spare, line), next := None)
  }

  /** The logging thread's critical section, from the end of the wait on. */
  function Collect(s: State): State
    requires s.newBuffer1.Some?
  {
    var s1 := s.(toWrite := s.buffers + [s.current], buffers := [], current := s.newBuffer1.value,
                 newBuffer1 := None, phase := Writing);
    if s.next.None? then s1.(next := s.newBuffer2, newBuffer2 := None) else s1
  }

  function AsRecords(chunks: seq<Chunk>, written: bool): seq<Record> {
    seq(|chunks|, i requires 0 <= i < |chunks| => if written then Written(chunks[i]) else Discarded(chunks[i]))
  }

  /** What becomes of a batch: more than 25 buffers are cut to the first two. */
  function Disposed(batch: seq<Chunk>): seq<Record> {
    if |batch| > MAX_BUFFERS then
      [DropNotice(|batch| - 2)] + AsRecords(batch[..2], true) + AsRecords(batch[2..], false)
    else AsRecords(batch, true)
  }

  /** The rest of the loop body: drop, write, refill the spare buffers. */
  function WriteOut(s: State): State {
    s.(records := s.records + Disposed(s.toWrite), toWrite := [], phase := Ready,
       newBuffer1 := Some([]), newBuffer2 := Some([]))
  }

  datatype Event = AppendLine(line: seq<byte>) | Sleep | CollectBuffers | WriteBuffers

  /** The wait is entered only with nothing queued, and may end at any time. */
  predicate Enabled(s: State, e: Event) {
    match e
    case AppendLine(_) => true
    case Sleep => s.phase.Ready? && s.buffers == []
    case CollectBuffers => (s.phase.Asleep? || (s.phase.Ready? && s.buffers != [])) && s.newBuffer1.Some?
    case WriteBuffers => s.phase.Writing?
  }

  function Step(s: State, e: Event): State
    requires Enabled(s, e)
  {
    match e
    case AppendLine(line) => Append(s, line)
    case Sleep => s.(phase := Asleep)
    case CollectBuffers => Collect(s)
    case WriteBuffers => WriteOut(s)
  }

  predicate Valid(s: State, es: seq<Event>)
    decreases |es|
  {
    es == [] || (Enabled(s, es[0]) && Valid(Step(s, es[0]), es[1..]))
  }

  function Run(s: State, es: seq<Event>): State
    requires Valid(s, es)
    decreases |es|
  {
    if es == [] then s else Run(Step(s, es[0]), es[1..])
  }

  // ----- The stream -----

  function Joined(chunks: seq<Chunk>): seq<byte> {
    if chunks == [] then [] else Joined(chunks[..|chunks| - 1]) + chunks[|chunks| - 1]
  }

  function ChunkOf(r: Record): seq<byte> {
    if r.DropNotice? then [] else r.chunk
  }

  /** The stream bytes behind the records, written and discarded ones in order. */
  function Stream(records: seq<Record>): seq<byte> {
    if records == [] then [] else Stream(records[..|records| - 1]) + ChunkOf(records[|records| - 1])
  }

  lemma JoinedLast(init: seq<Chunk>, last: Chunk)
    ensures Joined(init + [last]) == Joined(init) + last && Joined([]) == []
  {
    assert (init + [last])[..|init|] == init;
  }

  lemma {:induction false} JoinedAppends(a: seq<Chunk>, b: seq<Chunk>)
    ensures Joined(a + b) == Joined(a) + Joined(b)
    decreases |b|
  {
    hide Joined;
    if b == [] {
      assert a + b == a;
      JoinedLast([], []);
    } else {
      var init, last := b[..|b| - 1], b[|b| - 1];
      assert b == init + [last] && a + b == (a + init) + [last];
      JoinedLast(a + init, last);
      JoinedLast(init, last);
      JoinedAppends(a, init);
      Associates(Joined(a), Joined(init), last);
    }
  }

  lemma Associates(a: seq<byte>, b: seq<byte>, c: seq<byte>)
    ensures (a + b) + c == a + (b + c)
  {
  }

  lemma StreamLast(init: seq<Record>, last: Record)
    ensures Stream(init + [last]) == Stream(init) + ChunkOf(last) && Stream([]) == []
  {
    assert (init + [last])[..|init|] == init;
  }

  lemma {:induction false} StreamAppends(a: seq<Record>, b: seq<Record>)
    ensures Stream(a + b) == Stream(a) + Stream(b)
    decreases |b|
  {
    hide Stream, ChunkOf;
    if b == [] {
      assert a + b == a;
      StreamLast([], DropNotice(0));
    } else {
      var init, last := b[..|b| - 1], b[|b| - 1];
      assert b == init + [last] && a + b == (a + init) + [last];
      StreamLast(a + init, last);
      StreamLast(init, last);
      StreamAppends(a, init);
      Associates(Stream(a), Stream(init), ChunkOf(last));
    }
  }

  lemma {:induction false} StreamOfRecords(chunks: seq<Chunk>, written: bool)
    ensures Stream(AsRecords(chunks, written)) == Joined(chunks)
    decreases |chunks|
  {
    if chunks != [] {
      var init := chunks[..|chunks| - 1];
      StreamOfRecords(init, written);
      assert AsRecords(chunks, written)[..|chunks| - 1] == AsRecords(init, written);
    }
  }

  lemma NoRecords()
    ensures AsRecords([], true) == [] == AsRecords([], false)
  {
  }

  lemma OneMoreRecord(batch: seq<Chunk>, i: nat)
    requires i < |batch|
    ensures AsRecords(batch[..i + 1], true) == AsRecords(batch[..i], true) + [Written(batch[i])]
  {
  }

  /** Disposing of a batch accounts for every byte of it, in order. */
  lemma DisposedStream(batch: seq<Chunk>)
    ensures Stream(Disposed(batch)) == Joined(batch)
  {
    if |batch| > MAX_BUFFERS {
      var notice, head, tail := [DropNotice(|batch| - 2)], AsRecords(batch[..2], true), AsRecords(batch[2..], false);
      StreamAppends(notice + head, tail);
      StreamAppends(notice, head);
      assert notice[..0] == [];
      assert Stream(notice) == [];
      StreamOfRecords(batch[..2], true);
      StreamOfRecords(batch[2..], false);
      JoinedAppends(batch[..2], batch[2..]);
      assert batch == batch[..2] + batch[2..];
    } else {
      StreamOfRecords(batch, true);
    }
  }

  // ----- What every step keeps -----

  /** The spares circulate: present and empty at the loop head; while writing, the batch can refill those that
      were given away. nextBuffer_ is absent exactly while something is queued. */
  predicate SparesReady(s: State) {
    && (s.next.Some? ==> s.next.value == [])
    && (s.next.None? <==> s.buffers != [])
    && (if s.phase.Writing? then
          && s.newBuffer1.None? && s.toWrite != []
          && (if s.newBuffer2.Some? then s.newBuffer2.value == [] else |s.toWrite| >= 2)
        else
          s.newBuffer1 == Some([]) && s.newBuffer2 == Some([]) && s.toWrite == [])
  }

  /** Records, batch, queue and current buffer hold exactly what was appended, in order. */
  predicate Conserved(s: State) {
    s.appended == Stream(s.records) + Joined(s.toWrite) + Joined(s.buffers) + s.current
  }

  predicate Inv(s: State) {
    SparesReady(s) && Conserved(s)
  }

  lemma AppendConserves(s: State, line: seq<byte>)
    requires Inv(s)
    ensures Conserved(Append(s, line))
  {
    hide Stream, Joined;
    var base := Stream(s.records) + Joined(s.toWrite);
    if LARGE_BUFFER - |s.current| > |line| {
      assert base + Joined(s.buffers) + (s.current + line) == base + Joined(s.buffers) + s.current + line;
    } else {
      JoinedAppends(s.buffers, [s.current]);
      JoinedOne(s.current);
      assert base + (Joined(s.buffers) + s.current) == s.appended;
      assert Filled([], line) == if |line| < LARGE_BUFFER then line else [];
      assert s.appended + [] == s.appended;
    }
  }

  lemma JoinedOne(chunk: Chunk)
    ensures Joined([chunk]) == chunk && Joined([]) == []
  {
    assert [chunk][..0] == [];
  }

  lemma CollectConserves(s: State)
    requires Inv(s) && Enabled(s, CollectBuffers)
    ensures Conserved(Collect(s))
  {
    hide Stream, Joined;
    JoinedAppends(s.buffers, [s.current]);
    JoinedOne(s.current);
    assert Stream(s.records) + [] + Joined(s.buffers) + s.current
        == Stream(s.records) + (Joined(s.buffers) + s.current) + [] + [];
  }

  lemma WriteOutConserves(s: State)
    requires Conserved(s)
    ensures Conserved(WriteOut(s))
  {
    hide Stream, Joined, Disposed;
    DisposedStream(s.toWrite);
    StreamAppends(s.records, Disposed(s.toWrite));
    JoinedOne([]);
    assert Stream(s.records) + Joined(s.toWrite) + [] == Stream(s.records) + Joined(s.toWrite);
  }

  lemma StepKeepsInv(s: State, e: Event)
    requires Inv(s) && Enabled(s, e)
    ensures Inv(Step(s, e))
  {
    hide Conserved;
    assert Conserved(Step(s, e)) by {
      match e
      case AppendLine(line) => AppendConserves(s, line);
      case CollectBuffers => CollectConserves(s);
      case WriteBuffers => WriteOutConserves(s);
      case Sleep => SleepConserves(s);
    }
  }

  lemma SleepConserves(s: State)
    requires Conserved(s)
    ensures Conserved(s.(phase := Asleep))
  {
  }

  lemma {:induction false} RunKeepsInv(s: State, es: seq<Event>)
    requires Inv(s) && Valid(s, es)
    ensures Inv(Run(s, es))
    decreases |es|
  {
    hide Step, Enabled, Inv;
    if es != [] {
      StepKeepsInv(s, es[0]);
      RunKeepsInv(Step(s, es[0]), es[1..]);
    }
  }

  // ----- What that means -----

  /** What an event adds to the stream: a line that fits a buffer; longer ones are dropped silently. */
  function LineOf(e: Event): seq<byte> {
    if e.AppendLine? && |e.line| < 4000000 then e.line else []
  }

  /** The lines of a run, end to end. */
  function Lines(es: seq<Event>): seq<byte> {
    if es == [] then [] else LineOf(es[0]) + Lines(es[1..])
  }

  lemma StepAppends(s: State, e: Event)
    requires Enabled(s, e)
    ensures Step(s, e).appended == s.appended + LineOf(e)
  {
  }

  lemma {:induction false} AppendedIsLines(s: State, es: seq<Event>)
    requires Valid(s, es)
    ensures Run(s, es).appended == s.appended + Lines(es)
    decreases |es|
  {
    hide Step, Enabled, LineOf;
    if es != [] {
      StepAppends(s, es[0]);
      AppendedIsLines(Step(s, es[0]), es[1..]);
      Associates(s.appended, LineOf(es[0]), Lines(es[1..]));
    }
  }

  /** In every interleaving, what was written or discarded, followed by the batch being written, the queue
      and the current buffer, is the stream of lines appended, in order; and at each loop head both spare
      buffers are there and empty, with nothing left to write. */
  lemma NothingGoesMissing(es: seq<Event>)
    requires Valid(INIT, es)
    ensures var s := Run(INIT, es);
            && Stream(s.records) + Joined(s.toWrite) + Joined(s.buffers) + s.current == Lines(es)
            && (!s.phase.Writing? ==> s.newBuffer1 == Some([]) && s.newBuffer2 == Some([]) && s.toWrite == [])
            && (s.next.None? <==> s.buffers != [])
  {
    assert Inv(INIT);
    RunKeepsInv(INIT, es);
    AppendedIsLines(INIT, es);
    assert [] + Lines(es) == Lines(es);
  }

  /** Room is left in the buffer. */
  predicate Fits(chunk: Chunk) {
    |chunk| < 4000000
  }

  predicate AllFit(s: State) {
    && Fits(s.current)
    && (forall i :: 0 <= i < |s.buffers| ==> Fits(s.buffers[i]))
    && (forall i :: 0 <= i < |s.toWrite| ==> Fits(s.toWrite[i]))
  }

  lemma StepFits(s: State, e: Event)
    requires SparesReady(s) && AllFit(s) && Enabled(s, e)
    ensures AllFit(Step(s, e))
    ensures e.AppendLine? ==>
              (|Step(s, e).buffers| == |s.buffers| + 1 <==> |s.current| + |e.line| >= 4000000)
  {
  }

  /** In every run no buffer is ever overfull, and a line makes the current one queued exactly when it would be. */
  lemma {:induction false} BuffersFit(s: State, es: seq<Event>, e: Event)
    requires Inv(s) && AllFit(s) && Valid(s, es) && Enabled(Run(s, es), e)
    ensures AllFit(Run(s, es))
    ensures e.AppendLine? ==>
              var t := Run(s, es); (|Step(t, e).buffers| == |t.buffers| + 1 <==> |t.current| + |e.line| >= 4000000)
    decreases |es|
  {
    if es == [] {
      StepFits(s, e);
    } else {
      StepFits(s, es[0]);
      StepKeepsInv(s, es[0]);
      hide Step, Enabled, Inv, AllFit;
      BuffersFit(Step(s, es[0]), es[1..], e);
    }
  }

  predicate HasDiscards(records: seq<Record>) {
    exists i :: 0 <= i < |records| && records[i].Discarded?
  }

  /** The bytes that reached the file, notices aside. */
  function FileBytes(records: seq<Record>): seq<byte> {
    if records == [] then [] else
      FileBytes(records[..|records| - 1])
      + (if records[|records| - 1].Written? then records[|records| - 1].chunk else [])
  }

  lemma {:induction false} NoDiscardsAllInFile(records: seq<Record>)
    requires !HasDiscards(records)
    ensures FileBytes(records) == Stream(records)
    decreases |records|
  {
    if records != [] {
      var init := records[..|records| - 1];
      assert !records[|records| - 1].Discarded?;
      forall i | 0 <= i < |init| ensures !init[i].Discarded? { assert init[i] == records[i]; }
      NoDiscardsAllInFile(init);
    }
  }

  /** The buffers that were thrown away, in order. */
  function Discards(records: seq<Record>): seq<Chunk> {
    if records == [] then [] else
      Discards(records[..|records| - 1])
      + (if records[|records| - 1].Discarded? then [records[|records| - 1].chunk] else [])
  }

  /** What a batch loses: with more than 25 buffers, all from the third on. */
  function LostOf(batch: seq<Chunk>): seq<Chunk> {
    if |batch| > 25 then batch[2..] else []
  }

  /** What the batches written in a run lose, in order. */
  function Lost(s: State, es: seq<Event>): seq<Chunk>
    requires Valid(s, es)
    decreases |es|
  {
    if es == [] then [] else (if es[0].WriteBuffers? then LostOf(s.toWrite) else []) + Lost(Step(s, es[0]), es[1..])
  }

  /** Somewhere in the run a batch of more than 25 buffers is written. */
  predicate Overflows(s: State, es: seq<Event>)
    requires Valid(s, es)
    decreases |es|
  {
    es != [] && ((es[0].WriteBuffers? && |s.toWrite| > 25) || Overflows(Step(s, es[0]), es[1..]))
  }

  /** Somewhere in the run the logging thread collects with 25 full buffers or more in the queue. */
  predicate FallsBehind(s: State, es: seq<Event>)
    requires Valid(s, es)
    decreases |es|
  {
    es != [] && ((es[0].CollectBuffers? && |s.buffers| >= 25) || FallsBehind(Step(s, es[0]), es[1..]))
  }

  lemma {:induction false} DiscardsAppend(a: seq<Record>, b: seq<Record>)
    ensures Discards(a + b) == Discards(a) + Discards(b)
    decreases |b|
  {
    if b == [] {
      assert a + b == a;
    } else {
      var init, last := b[..|b| - 1], b[|b| - 1];
      assert (a + b)[..|a + b| - 1] == a + init;
      DiscardsAppend(a, init);
    }
  }

  lemma {:induction false} DiscardsOfRecords(chunks: seq<Chunk>, written: bool)
    ensures Discards(AsRecords(chunks, written)) == if written then [] else chunks
    decreases |chunks|
  {
    if chunks != [] {
      var init := chunks[..|chunks| - 1];
      DiscardsOfRecords(init, written);
      assert AsRecords(chunks, written)[..|chunks| - 1] == AsRecords(init, written);
      assert chunks == init + [chunks[|chunks| - 1]];
    }
  }

  lemma DiscardsOfBatch(batch: seq<Chunk>)
    ensures Discards(Disposed(batch)) == LostOf(batch)
  {
    hide Discards, AsRecords;
    if |batch| > MAX_BUFFERS {
      var notice, head, tail := [DropNotice(|batch| - 2)], AsRecords(batch[..2], true), AsRecords(batch[2..], false);
      DiscardsAppend(notice + head, tail);
      DiscardsAppend(notice, head);
      NoticeIsNoDiscard(|batch| - 2);
      DiscardsOfRecords(batch[..2], true);
      DiscardsOfRecords(batch[2..], false);
      assert [] + [] + batch[2..] == batch[2..];
    } else {
      DiscardsOfRecords(batch, true);
    }
  }

  lemma NoticeIsNoDiscard(count: nat)
    ensures Discards([DropNotice(count)]) == []
  {
    assert [DropNotice(count)][..0] == [];
  }

  lemma StepDiscards(s: State, e: Event)
    requires Enabled(s, e)
    ensures Discards(Step(s, e).records) == Discards(s.records) + if e.WriteBuffers? then LostOf(s.toWrite) else []
  {
    hide Discards, Disposed;
    if e.WriteBuffers? {
      DiscardsOfBatch(s.toWrite);
      DiscardsAppend(s.records, Disposed(s.toWrite));
    } else {
      assert Discards(s.records) + [] == Discards(s.records);
    }
  }

  lemma {:induction false} RunDiscards(s: State, es: seq<Event>)
    requires Valid(s, es)
    ensures Discards(Run(s, es).records) == Discards(s.records) + Lost(s, es)
    decreases |es|
  {
    hide Discards, Step, Enabled, LostOf;
    if es == [] {
      assert Discards(s.records) + [] == Discards(s.records);
    } else {
      StepDiscards(s, es[0]);
      RunDiscards(Step(s, es[0]), es[1..]);
      var now := if es[0].WriteBuffers? then LostOf(s.toWrite) else [];
      assert Discards(s.records) + now + Lost(Step(s, es[0]), es[1..])
          == Discards(s.records) + (now + Lost(Step(s, es[0]), es[1..]));
    }
  }

  lemma {:induction false} LostIffOverflows(s: State, es: seq<Event>)
    requires Valid(s, es)
    ensures Lost(s, es) != [] <==> Overflows(s, es)
    decreases |es|
  {
    hide Step, Enabled;
    if es != [] {
      LostIffOverflows(Step(s, es[0]), es[1..]);
    }
  }

  lemma {:induction false} DiscardedIffDiscards(records: seq<Record>)
    ensures HasDiscards(records) <==> Discards(records) != []
    decreases |records|
  {
    if records != [] {
      var init, last := records[..|records| - 1], |records| - 1;
      DiscardedIffDiscards(init);
      if HasDiscards(init) {
        var i :| 0 <= i < |init| && init[i].Discarded?;
        assert records[i].Discarded?;
      }
      if HasDiscards(records) && !records[last].Discarded? {
        var i :| 0 <= i < |records| && records[i].Discarded?;
        assert init[i].Discarded?;
      }
    }
  }

  /** The number of buffers that the notices in the file say were dropped. */
  function Announced(records: seq<Record>): nat {
    if records == [] then 0 else
      Announced(records[..|records| - 1])
      + (if records[|records| - 1].DropNotice? then records[|records| - 1].count else 0)
  }

  lemma {:induction false} AnnouncedAppend(a: seq<Record>, b: seq<Record>)
    ensures Announced(a + b) == Announced(a) + Announced(b)
    decreases |b|
  {
    if b == [] {
      assert a + b == a;
    } else {
      var init := b[..|b| - 1];
      assert (a + b)[..|a + b| - 1] == a + init;
      AnnouncedAppend(a, init);
    }
  }

  lemma {:induction false} NothingAnnounced(chunks: seq<Chunk>, written: bool)
    ensures Announced(AsRecords(chunks, written)) == 0
    decreases |chunks|
  {
    if chunks != [] {
      NothingAnnounced(chunks[..|chunks| - 1], written);
      assert AsRecords(chunks, written)[..|chunks| - 1] == AsRecords(chunks[..|chunks| - 1], written);
    }
  }

  lemma AnnouncedOfBatch(batch: seq<Chunk>)
    ensures Announced(Disposed(batch)) == |LostOf(batch)|
  {
    hide AsRecords;
    if |batch| > MAX_BUFFERS {
      var notice, head, tail := [DropNotice(|batch| - 2)], AsRecords(batch[..2], true), AsRecords(batch[2..], false);
      AnnouncedAppend(notice + head, tail);
      AnnouncedAppend(notice, head);
      NothingAnnounced(batch[..2], true);
      NothingAnnounced(batch[2..], false);
      assert notice[..0] == [];
    } else {
      NothingAnnounced(batch, true);
    }
  }

  /** The notices tell the truth: in every run the buffers they announce as dropped are as many as were. */
  lemma {:induction false} NoticesTellTheLoss(s: State, es: seq<Event>)
    requires Valid(s, es) && Announced(s.records) == |Discards(s.records)|
    ensures Announced(Run(s, es).records) == |Discards(Run(s, es).records)|
    decreases |es|
  {
    if es != [] {
      hide Discards, Disposed, Announced, LostOf, Append, Collect;
      StepDiscards(s, es[0]);
      if es[0].WriteBuffers? {
        AnnouncedOfBatch(s.toWrite);
        AnnouncedAppend(s.records, Disposed(s.toWrite));
      } else {
        SameRecords(s, es[0]);
      }
      NoticesTellTheLoss(Step(s, es[0]), es[1..]);
    }
  }

  lemma SameRecords(s: State, e: Event)
    requires Enabled(s, e) && !e.WriteBuffers?
    ensures Step(s, e).records == s.records
  {
  }

  /** In every interleaving: buffers are lost if and only if a batch of more than 25 is written, and those lost
      are exactly the ones from the third on of each such batch, whole and in order; when that never happens,
      the file, followed by what is still on its way, is everything that was appended. */
  lemma DiscardsExactly(es: seq<Event>)
    requires Valid(INIT, es)
    ensures var s := Run(INIT, es);
            && (HasDiscards(s.records) <==> Overflows(INIT, es))
            && Discards(s.records) == Lost(INIT, es)
            && (!Overflows(INIT, es) ==>
                  FileBytes(s.records) + Joined(s.toWrite) + Joined(s.buffers) + s.current == Lines(es))
  {
    hide Run, Valid, Lines, Stream, Joined, FileBytes, HasDiscards, Lost, Overflows;
    var s := Run(INIT, es);
    NothingGoesMissing(es);
    RunDiscards(INIT, es);
    LostIffOverflows(INIT, es);
    DiscardedIffDiscards(s.records);
    assert Discards([]) == [];
    assert [] + Lost(INIT, es) == Lost(INIT, es);
    if !HasDiscards(s.records) { NoDiscardsAllInFile(s.records); }
  }

  lemma {:induction false} BehindFromHere(s: State, es: seq<Event>)
    requires Valid(s, es) && !Run(s, es).phase.Writing?
    ensures Overflows(s, es) <==> (s.phase.Writing? && |s.toWrite| > MAX_BUFFERS) || FallsBehind(s, es)
    decreases |es|
  {
    if es != [] {
      BehindFromHere(Step(s, es[0]), es[1..]);
      hide Overflows, FallsBehind;
      StepBacklog(s, es[0]);
    }
  }

  lemma StepBacklog(s: State, e: Event)
    requires Enabled(s, e)
    ensures var s' := Step(s, e);
            && (e.WriteBuffers? ==> s.phase.Writing? && !s'.phase.Writing?)
            && (e.CollectBuffers? ==> !s.phase.Writing? && s'.phase.Writing? && |s'.toWrite| == |s.buffers| + 1)
            && (e.AppendLine? || e.Sleep? ==> s'.toWrite == s.toWrite && (s'.phase.Writing? <==> s.phase.Writing?))
  {
  }

  /** So what the producers and the logging thread can watch decides: once every collected batch has been dealt
      with, buffers have been lost if and only if the thread once collected with 25 or more queued. */
  lemma LossMeansFallingBehind(es: seq<Event>)
    requires Valid(INIT, es) && !Run(INIT, es).phase.Writing?
    ensures HasDiscards(Run(INIT, es).records) <==> FallsBehind(INIT, es)
  {
    hide Run, Valid, HasDiscards, Overflows, FallsBehind, Lost, Lines, FileBytes, Stream, Joined;
    DiscardsExactly(es);
    BehindFromHere(INIT, es);
  }

  predicate Loses(s: State, es: seq<Event>) {
    Valid(s, es) && Overflows(s, es)
  }

  /** A line that leaves no room for another one in its buffer. */
  function LongLine(): seq<byte> {
    seq(LARGE_BUFFER - 1, _ => 0)
  }

  lemma LosesFirst(s: State, e: Event, es: seq<Event>)
    requires Enabled(s, e) && Loses(Step(s, e), es)
    ensures Loses(s, [e] + es)
  {
    assert ([e] + es)[1..] == es;
  }

  lemma LosesNow(s: State)
    requires s.phase.Ready? && s.newBuffer1.Some? && |s.buffers| >= MAX_BUFFERS
    ensures exists es :: Loses(s, es)
  {
    var s1 := Step(s, CollectBuffers);
    assert [WriteBuffers][1..] == [];
    assert Loses(s1, [WriteBuffers]);
    LosesFirst(s, CollectBuffers, [WriteBuffers]);
  }

  lemma {:induction false} LosesLater(s: State)
    requires s.phase.Ready? && s.newBuffer1.Some? && |s.current| == LARGE_BUFFER - 1
    requires s.next.Some? ==> s.next.value == []
    ensures exists es :: Loses(s, es)
    decreases MAX_BUFFERS - |s.buffers|
  {
    if |s.buffers| >= MAX_BUFFERS {
      LosesNow(s);
    } else {
      var s1 := Step(s, AppendLine(LongLine()));
      LosesLater(s1);
      var es :| Loses(s1, es);
      LosesFirst(s, AppendLine(LongLine()), es);
    }
  }

  /** It does happen: producers that fill buffers while the logging thread is slow lose some of them. */
  lemma SomeRunLoses()
    ensures exists es :: Loses(INIT, es)
  {
    var s1 := Step(INIT, AppendLine(LongLine()));
    LosesLater(s1);
    var es :| Loses(s1, es);
    LosesFirst(INIT, AppendLine(LongLine()), es);
  }

  // ----- The logger object -----

  class Logger {
    var currentBuffer: Chunk
    var nextBuffer: Option<Chunk>
    var buffers: seq<Chunk>
    var newBuffer1: Option<Chunk>
    var newBuffer2: Option<Chunk>
    var buffersToWrite: seq<Chunk>
    var output: seq<Record>
    ghost var phase: Phase
    ghost var appended: seq<byte>

    ghost function View(): State
      reads this
    {
      State(currentBuffer, nextBuffer, buffers, phase, newBuffer1, newBuffer2, buffersToWrite, output, appended)
    }

    constructor ()
      ensures View() == INIT
    {
      currentBuffer, nextBuffer, buffers, newBuffer1, newBuffer2 := [], Some([]), [], Some([]), Some([]);
      buffersToWrite, output, phase, appended := [], [], Ready, [];
    }

    /** The result says whether the logging thread is notified. */
    method AppendLogLine(line: seq<byte>) returns (notified: bool)
      modifies this
      ensures View() == Append(old(View()), line)
      ensures notified <==> |buffers| == |old(buffers)| + 1
    {
      if |line| < LARGE_BUFFER { appended := appended + line; }
      if LARGE_BUFFER - |currentBuffer| > |line| {
        currentBuffer := currentBuffer + line;
        return false;
      }
      buffers := buffers + [currentBuffer];
      if nextBuffer.Some? {
        currentBuffer, nextBuffer := nextBuffer.value, None;
      } else {
        currentBuffer := [];
      }
      currentBuffer := Filled(currentBuffer, line);
      notified := true;
    }

    method CollectCritical()
      requires Enabled(View(), CollectBuffers)
      modifies this
      ensures View() == Collect(old(View()))
    {
      buffers := buffers + [currentBuffer];
      currentBuffer, newBuffer1 := newBuffer1.value, None;
      buffersToWrite, buffers := buffers, [];
      if nextBuffer.None? {
        nextBuffer, newBuffer2 := newBuffer2, None;
      }
      phase := Writing;
    }

    /** The assertions on the refills hold, and both spares end up empty. */
    method WriteAndRefill()
      requires SparesReady(View()) && phase.Writing?
      modifies this
      ensures View() == WriteOut(old(View()))
    {
      assert buffersToWrite != [];
      WriteBatch();
      if |buffersToWrite| > 2 {
        buffersToWrite := buffersToWrite[..2];
      }
      if newBuffer1.None? {
        assert buffersToWrite != [];
        buffersToWrite := buffersToWrite[..|buffersToWrite| - 1];
        newBuffer1 := Some([]);
      }
      if newBuffer2.None? {
        assert buffersToWrite != [];
        buffersToWrite := buffersToWrite[..|buffersToWrite| - 1];
        newBuffer2 := Some([]);
      }
      buffersToWrite := [];
      phase := Ready;
    }

    /** Cuts an oversized batch and writes what is left; the discarded buffers are recorded for the proof. */
    method WriteBatch()
      modifies this`buffersToWrite, this`output
      ensures output == old(output) + Disposed(old(buffersToWrite))
      ensures buffersToWrite
              == if |old(buffersToWrite)| > MAX_BUFFERS then old(buffersToWrite)[..2] else old(buffersToWrite)
    {
      hide AsRecords;
      var batch, dropped := buffersToWrite, [];
      NoRecords();
      if |batch| > MAX_BUFFERS {
        output := output + [DropNotice(|batch| - 2)];
        batch, dropped := batch[..2], batch[2..];
      }
      ghost var before := output;
      for i := 0 to |batch|
        invariant output == before + AsRecords(batch[..i], true)
      {
        OneMoreRecord(batch, i);
        output := output + [Written(batch[i])];
      }
      assert batch[..|batch|] == batch;
      output := output + AsRecords(dropped, false);
      buffersToWrite := batch;
    }
  }
}
