/** networking/TimerQueue.cpp: two indexes over the pending timers, the life of each Timer object, and the
    kernel timer that must go off in time. Everything runs on the loop thread except the creation of a
    Timer; callbacks may add and cancel timers while a batch is being run. */
module TimerQueue {
  /** A Timer's address; an address may be used again once its Timer has been deleted. */
  type Addr = nat

  const FLOOR := 100

  /** delta: the interval in whole microseconds, as addTime truncates it. */
  datatype Timer = Timer(expiration: int, repeat: bool, delta: nat, sequence: nat)

  /** The key of timers_: std::pair compared by time, then by address. */
  datatype Entry = Entry(when: int, addr: Addr)

  datatype TimerId = TimerId(addr: Addr, sequence: nat)

  predicate Precedes(a: Entry, b: Entry) {
    a.when < b.when || (a.when == b.when && a.addr < b.addr)
  }

  /** The timerfd: armedAt is when timerfd_settime was called; it is readable from time at on. */
  datatype Kernel = Idle | Armed(at: int, armedAt: int)

  /** Firing: the callbacks of a batch taken at now are running, next is the one to come. Resetting: the
      entries of left are still to be restarted or deleted. */
  datatype Phase =
    | Quiet
    | Firing(now: int, expired: seq<Entry>, next: nat)
    | Resetting(now: int, left: seq<Entry>)

  datatype State = State(
    heap: map<Addr, Timer>,
    created: nat,
    waiting: set<Addr>,
    timers: set<Entry>,
    active: set<TimerId>,
    phase: Phase,
    clock: int,
    kernel: Kernel,
    ran: seq<nat>,
    freed: seq<nat>)

  function Init(clock: int): State {
    State(map[], 0, {}, {}, {}, Quiet, clock, Idle, [], [])
  }

  // ----- The ordered set -----

  predicate IsFirst(e: Entry, s: set<Entry>) {
    e in s && forall f :: f in s && f != e ==> Precedes(e, f)
  }

  lemma {:induction false} FirstExists(s: set<Entry>)
    requires s != {}
    ensures exists e :: IsFirst(e, s)
    decreases |s|
  {
    var x :| x in s;
    if s == {x} {
      assert IsFirst(x, s);
    } else {
      var rest := s - {x};
      assert s == {x} + rest;
      FirstExists(rest);
      var y :| IsFirst(y, rest);
      var e := if Precedes(x, y) then x else y;
      forall f | f in s && f != e ensures Precedes(e, f) {
        if f != x { assert f in rest; }
      }
      assert IsFirst(e, s);
    }
  }

  ghost function First(s: set<Entry>): (e: Entry)
    requires s != {}
    ensures IsFirst(e, s)
  {
    FirstExists(s);
    var e :| IsFirst(e, s);
    e
  }

  /** The elements of a set in order: what iterating over it yields. */
  ghost function Ordered(s: set<Entry>): seq<Entry>
    decreases |s|
  {
    if s == {} then [] else [First(s)] + Ordered(s - {First(s)})
  }

  lemma {:induction false} OrderedFacts(s: set<Entry>)
    ensures forall e :: e in Ordered(s) <==> e in s
    ensures forall i, j :: 0 <= i < j < |Ordered(s)| ==> Precedes(Ordered(s)[i], Ordered(s)[j])
    ensures |Ordered(s)| == |s|
    decreases |s|
  {
    if s != {} {
      hide First;
      var f := First(s);
      var rest := Ordered(s - {f});
      OrderedFacts(s - {f});
      assert Ordered(s) == [f] + rest;
      forall i | 0 <= i < |rest| ensures Precedes(f, rest[i]) {
        assert rest[i] in rest;
      }
      assert s == {f} + (s - {f});
    }
  }

  // ----- Steps -----

  function Max(a: int, b: int): int {
    if a < b then b else a
  }

  /** resetTimerfd: the relative time is at least 100 microseconds. */
  function Arm(s: State, when: int): State {
    s.(kernel := Armed(s.clock + Max(when - s.clock, FLOOR), s.clock))
  }

  /** insert: both indexes, and whether the earliest expiration changed. */
  function Insert(s: State, addr: Addr): State
    requires addr in s.heap
  {
    var t := s.heap[addr];
    s.(timers := s.timers + {Entry(t.expiration, addr)}, active := s.active + {TimerId(addr, t.sequence)})
  }

  ghost predicate EarliestChanges(s: State, when: int) {
    s.timers == {} || when < First(s.timers).when
  }

  ghost function AddTimerInLoop(s: State, addr: Addr): State
    requires addr in s.heap
  {
    var when := s.heap[addr].expiration;
    var s' := Insert(s, addr).(waiting := s.waiting - {addr});
    if EarliestChanges(s, when) then Arm(s', when) else s'
  }

  function Cancel(s: State, id: TimerId): State {
    if id in s.active && id.addr in s.heap then
      s.(timers := s.timers - {Entry(s.heap[id.addr].expiration, id.addr)},
         active := s.active - {id},
         heap := s.heap - {id.addr},
         freed := s.freed + [s.heap[id.addr].sequence])
    else s
  }

  function DueBy(timers: set<Entry>, now: int): set<Entry> {
    set e | e in timers && e.when <= now
  }

  function Due(s: State, now: int): set<Entry> {
    DueBy(s.timers, now)
  }

  /** The keys in activeTimers_ of the given entries. */
  function Ids(s: State, es: set<Entry>): set<TimerId> {
    set e | e in es && e.addr in s.heap :: TimerId(e.addr, s.heap[e.addr].sequence)
  }

  /** The start of handleRead: read the timerfd and take out what is due (getExpired). */
  ghost function Fire(s: State): State {
    var due := Due(s, s.clock);
    s.(kernel := if s.kernel.Armed? && s.clock < s.kernel.at then s.kernel else Idle,
       timers := s.timers - due,
       active := s.active - Ids(s, due),
       phase := Firing(s.clock, Ordered(due), 0))
  }

  /** One round of reset's loop: restart and insert, or delete. */
  function ResetOne(s: State): State
    requires s.phase.Resetting? && s.phase.left != [] && s.phase.left[0].addr in s.heap
  {
    var addr, now := s.phase.left[0].addr, s.phase.now;
    var t := s.heap[addr];
    var s0 := s.(phase := Resetting(now, s.phase.left[1..]));
    if t.repeat then Insert(s0.(heap := s.heap[addr := t.(expiration := now + t.delta)]), addr)
    else s0.(heap := s.heap - {addr}, freed := s.freed + [t.sequence])
  }

  /** The end of reset: arm the timerfd for the earliest timer, if its expiration is valid. */
  ghost function Rearm(s: State): State {
    var s0 := s.(phase := Quiet);
    if s.timers != {} && First(s.timers).when > 0 then Arm(s0, First(s.timers).when) else s0
  }

  datatype Event =
    | New(addr: Addr, when: int, repeat: bool, delta: nat)
    | Add(addr: Addr)
    | CancelId(id: TimerId)
    | Tick(dt: nat)
    | HandleRead
    | RunNext
    | EndCallbacks
    | ResetNext
    | EndReset

  predicate Enabled(s: State, e: Event) {
    match e
    case New(addr, _, _, _) => addr !in s.heap
    case Add(addr) => addr in s.waiting && addr in s.heap && !s.phase.Resetting?
    case CancelId(_) => !s.phase.Resetting?
    case Tick(_) => true
    case HandleRead => s.phase.Quiet?
    case RunNext => s.phase.Firing? && s.phase.next < |s.phase.expired| && s.phase.expired[s.phase.next].addr in s.heap
    case EndCallbacks => s.phase.Firing? && s.phase.next == |s.phase.expired|
    case ResetNext => s.phase.Resetting? && s.phase.left != [] && s.phase.left[0].addr in s.heap
    case EndReset => s.phase.Resetting? && s.phase.left == []
  }

  ghost function Step(s: State, e: Event): State
    requires Enabled(s, e)
  {
    match e
    case New(addr, when, repeat, delta) =>
      s.(heap := s.heap[addr := Timer(when, repeat, delta, s.created + 1)],
         created := s.created + 1, waiting := s.waiting + {addr})
    case Add(addr) => AddTimerInLoop(s, addr)
    case CancelId(id) => Cancel(s, id)
    case Tick(dt) => s.(clock := s.clock + dt)
    case HandleRead => Fire(s)
    case RunNext =>
      s.(ran := s.ran + [s.heap[s.phase.expired[s.phase.next].addr].sequence],
         phase := s.phase.(next := s.phase.next + 1))
    case EndCallbacks => s.(phase := Resetting(s.phase.now, s.phase.expired))
    case ResetNext => ResetOne(s)
    case EndReset => Rearm(s)
  }

  ghost predicate Valid(s: State, es: seq<Event>)
    decreases |es|
  {
    es == [] || (Enabled(s, es[0]) && Valid(Step(s, es[0]), es[1..]))
  }

  ghost function Run(s: State, es: seq<Event>): State
    requires Valid(s, es)
    decreases |es|
  {
    if es == [] then s else Run(Step(s, es[0]), es[1..])
  }

  // ----- The indexes and the lives of timers -----

  /** The batch entries whose timers are in neither index. */
  function Batch(s: State): seq<Entry> {
    match s.phase
    case Quiet => []
    case Firing(_, expired, _) => expired
    case Resetting(_, left) => left
  }

  predicate InBatch(s: State, addr: Addr) {
    exists i :: 0 <= i < |Batch(s)| && Batch(s)[i].addr == addr
  }

  /** timers_ and activeTimers_ hold the same timers, each under its current expiration. */
  predicate IndexesAgree(s: State) {
    && (forall e :: e in s.timers ==>
          && e.addr in s.heap && s.heap[e.addr].expiration == e.when
          && TimerId(e.addr, s.heap[e.addr].sequence) in s.active)
    && (forall id :: id in s.active ==>
          && id.addr in s.heap && s.heap[id.addr].sequence == id.sequence
          && Entry(s.heap[id.addr].expiration, id.addr) in s.timers)
  }

  predicate Queued(s: State, addr: Addr) {
    addr in s.heap && Entry(s.heap[addr].expiration, addr) in s.timers
  }

  /** Every live timer is in exactly one place: handed over but not added, queued, or in the batch. */
  predicate PlacedOnce(s: State) {
    && (forall a :: a in s.waiting ==> a in s.heap && !Queued(s, a) && !InBatch(s, a))
    && (forall i :: 0 <= i < |Batch(s)| ==> Batch(s)[i].addr in s.heap && !Queued(s, Batch(s)[i].addr))
    && (forall i, j :: 0 <= i < j < |Batch(s)| ==> Batch(s)[i].addr != Batch(s)[j].addr)
    && (forall a :: a in s.heap ==> a in s.waiting || Queued(s, a) || InBatch(s, a))
  }

  /** Sequence numbers are never given twice, and a number is freed at most once. */
  predicate NumbersUnique(s: State) {
    && (forall a :: a in s.heap ==> s.heap[a].sequence <= s.created && s.heap[a].sequence !in s.freed)
    && (forall a, b :: a in s.heap && b in s.heap && s.heap[a].sequence == s.heap[b].sequence ==> a == b)
    && (forall i :: 0 <= i < |s.freed| ==> s.freed[i] <= s.created)
    && (forall i, j :: 0 <= i < j < |s.freed| ==> s.freed[i] != s.freed[j])
  }

  predicate Inv(s: State) {
    IndexesAgree(s) && PlacedOnce(s) && NumbersUnique(s)
  }

  lemma NewKeepsInv(s: State, e: Event)
    requires Inv(s) && e.New? && Enabled(s, e)
    ensures Inv(Step(s, e))
  {
    var s' := Step(s, e);
    assert Batch(s') == Batch(s);
    assert forall a :: a in s.heap ==> a != e.addr && s'.heap[a] == s.heap[a];
    assert forall a :: a in s.heap ==> (Queued(s', a) <==> Queued(s, a));
    assert forall a :: InBatch(s', a) <==> InBatch(s, a);
  }

  lemma AddKeepsInv(s: State, e: Event)
    requires Inv(s) && e.Add? && Enabled(s, e)
    ensures Inv(Step(s, e))
  {
    AddKeepsPlaces(s, e);
    hide PlacedOnce, EarliestChanges, Arm;
    assert s.heap[e.addr].expiration == Entry(s.heap[e.addr].expiration, e.addr).when;
  }

  lemma AddKeepsPlaces(s: State, e: Event)
    requires Inv(s) && e.Add? && Enabled(s, e)
    ensures PlacedOnce(Step(s, e))
  {
    hide IndexesAgree, NumbersUnique, EarliestChanges, Arm;
    var s' := Step(s, e);
    AddChangesTimers(s, e);
    assert forall a :: a != e.addr ==> (Queued(s', a) <==> Queued(s, a));
    assert Queued(s', e.addr);
    assert forall a :: InBatch(s', a) <==> InBatch(s, a);
    assert !InBatch(s, e.addr);
    assert forall i :: 0 <= i < |Batch(s)| ==> InBatch(s, Batch(s)[i].addr);
  }

  lemma AddChangesTimers(s: State, e: Event)
    requires e.Add? && Enabled(s, e)
    ensures var s' := Step(s, e);
            && s'.timers == s.timers + {Entry(s.heap[e.addr].expiration, e.addr)}
            && s'.heap == s.heap && s'.waiting == s.waiting - {e.addr} && Batch(s') == Batch(s)
  {
  }

  lemma CancelKeepsInv(s: State, id: TimerId)
    requires Inv(s)
    ensures Inv(Cancel(s, id))
  {
    var s' := Cancel(s, id);
    if id in s.active {
      assert Queued(s, id.addr);
      assert Batch(s') == Batch(s);
      assert forall a :: a != id.addr ==> (Queued(s', a) <==> Queued(s, a));
      assert forall a :: InBatch(s', a) <==> InBatch(s, a);
      forall i | 0 <= i < |Batch(s)| ensures Batch(s)[i].addr != id.addr {}
    }
  }

  lemma FireIndexes(s: State)
    requires Inv(s)
    ensures IndexesAgree(Fire(s)) && NumbersUnique(Fire(s))
  {
  }

  lemma FireBatch(s: State, a: Addr)
    requires Inv(s) && s.phase.Quiet?
    ensures InBatch(Fire(s), a) <==> Queued(s, a) && !Queued(Fire(s), a)
  {
    var s', due := Fire(s), Due(s, s.clock);
    OrderedFacts(due);
    if Queued(s, a) && !Queued(s', a) {
      var e := Entry(s.heap[a].expiration, a);
      assert e in Ordered(due);
      var i :| 0 <= i < |Ordered(due)| && Ordered(due)[i] == e;
      assert Batch(s')[i].addr == a;
    }
    if InBatch(s', a) {
      var i :| 0 <= i < |Batch(s')| && Batch(s')[i].addr == a;
      assert Batch(s')[i] in due;
    }
  }

  lemma FireBatchApart(s: State)
    requires Inv(s) && s.phase.Quiet?
    ensures var batch := Batch(Fire(s));
            && (forall i :: 0 <= i < |batch| ==> batch[i].addr in s.heap && InBatch(Fire(s), batch[i].addr))
            && (forall i, j :: 0 <= i < j < |batch| ==> batch[i].addr != batch[j].addr)
  {
    var batch, due := Batch(Fire(s)), Due(s, s.clock);
    OrderedFacts(due);
    forall i | 0 <= i < |batch| ensures batch[i] in due {}
  }

  lemma FirePlaces(s: State)
    requires Inv(s) && s.phase.Quiet?
    ensures PlacedOnce(Fire(s))
  {
    hide Ordered, IndexesAgree, NumbersUnique, InBatch, Queued, Due, Ids;
    var s' := Fire(s);
    FireBatchApart(s);
    forall a ensures InBatch(s', a) <==> Queued(s, a) && !Queued(s', a) {
      FireBatch(s, a);
    }
    forall a ensures Queued(s', a) ==> Queued(s, a) { StillQueued(s, a); }
    forall a ensures !InBatch(s, a) { NothingInBatch(s, a); }
  }

  lemma StillQueued(s: State, a: Addr)
    ensures Queued(Fire(s), a) ==> Queued(s, a)
  {
  }

  lemma NothingInBatch(s: State, a: Addr)
    requires s.phase.Quiet?
    ensures !InBatch(s, a)
  {
  }

  lemma FireKeepsInv(s: State)
    requires Inv(s) && s.phase.Quiet?
    ensures Inv(Fire(s))
  {
    FireIndexes(s);
    FirePlaces(s);
  }

  /** Taking the first entry off the batch leaves the other addresses where they were. */
  lemma ResetOneBatch(s: State, a: Addr)
    requires Inv(s) && Enabled(s, ResetNext)
    requires a != s.phase.left[0].addr
    ensures InBatch(ResetOne(s), a) <==> InBatch(s, a)
    ensures Queued(ResetOne(s), a) <==> Queued(s, a)
  {
    var s', left := ResetOne(s), s.phase.left;
    if InBatch(s, a) {
      var i :| 0 <= i < |left| && left[i].addr == a;
      assert Batch(s')[i - 1].addr == a;
    }
    if InBatch(s', a) {
      var i :| 0 <= i < |left| - 1 && left[1..][i].addr == a;
      assert Batch(s)[i + 1].addr == a;
    }
  }

  lemma ResetOnePlaces(s: State)
    requires Inv(s) && Enabled(s, ResetNext)
    ensures PlacedOnce(ResetOne(s))
  {
    var s', addr := ResetOne(s), s.phase.left[0].addr;
    assert Batch(s)[0].addr == addr && InBatch(s, addr);
    forall i | 0 <= i < |Batch(s')| ensures Batch(s')[i] == Batch(s)[i + 1] && Batch(s')[i].addr != addr {
      assert Batch(s)[i + 1].addr != Batch(s)[0].addr;
    }
    assert !InBatch(s', addr);
    forall a | a != addr ensures (InBatch(s', a) <==> InBatch(s, a)) && (Queued(s', a) <==> Queued(s, a)) {
      ResetOneBatch(s, a);
    }
    assert addr in s'.heap ==> Queued(s', addr);
    hide ResetOne, Queued, InBatch;
  }

  lemma ResetOneKeepsInv(s: State)
    requires Inv(s) && Enabled(s, ResetNext)
    ensures Inv(ResetOne(s))
  {
    ResetOnePlaces(s);
    ResetOneIndexes(s);
    ResetOneNumbers(s);
  }

  lemma ResetOneIndexes(s: State)
    requires Inv(s) && Enabled(s, ResetNext)
    ensures IndexesAgree(ResetOne(s))
  {
    assert Batch(s)[0] == s.phase.left[0];
  }

  lemma ResetOneNumbers(s: State)
    requires Inv(s) && Enabled(s, ResetNext)
    ensures NumbersUnique(ResetOne(s))
  {
  }

  lemma BatchMoveKeepsInv(s: State, s': State)
    requires Inv(s) && Batch(s') == Batch(s)
    requires s'.heap == s.heap && s'.timers == s.timers && s'.active == s.active && s'.waiting == s.waiting
    requires s'.created == s.created && s'.freed == s.freed
    ensures Inv(s')
  {
    assert forall a :: InBatch(s', a) <==> InBatch(s, a);
    assert forall a :: Queued(s', a) <==> Queued(s, a);
  }

  lemma StepKeepsInv(s: State, e: Event)
    requires Inv(s) && Enabled(s, e)
    ensures Inv(Step(s, e))
  {
    hide Inv, Cancel, Fire, ResetOne, AddTimerInLoop;
    match e
    case New(_, _, _, _) => NewKeepsInv(s, e);
    case Add(_) => AddKeepsInv(s, e);
    case CancelId(id) => CancelKeepsInv(s, id);
    case HandleRead => FireKeepsInv(s);
    case ResetNext => ResetOneKeepsInv(s);
    case _ => BatchMoveKeepsInv(s, Step(s, e));
  }

  lemma {:induction false} RunKeepsInv(s: State, es: seq<Event>)
    requires Inv(s) && Valid(s, es)
    ensures Inv(Run(s, es))
    decreases |es|
  {
    hide Inv, Step, Enabled;
    if es != [] {
      StepKeepsInv(s, es[0]);
      RunKeepsInv(Step(s, es[0]), es[1..]);
    }
  }

  // ----- What that means -----

  /** In every run, callbacks that add and cancel included: the two indexes hold the same timers, each under
      its current expiration, they have the same size, and no timer has been freed twice. */
  lemma IndexesAlwaysAgree(clock: int, es: seq<Event>)
    requires Valid(Init(clock), es)
    ensures var s := Run(Init(clock), es);
            && IndexesAgree(s)
            && |s.timers| == |s.active|
            && (forall i, j :: 0 <= i < j < |s.freed| ==> s.freed[i] != s.freed[j])
            && (forall a :: a in s.heap ==> s.heap[a].sequence !in s.freed)
  {
    assert Inv(Init(clock));
    RunKeepsInv(Init(clock), es);
    SameSize(Run(Init(clock), es));
  }

  lemma {:induction false} SameSize(s: State)
    requires IndexesAgree(s)
    ensures |s.timers| == |s.active|
    decreases |s.timers|
  {
    if s.timers == {} {
      assert s.active == {};
    } else {
      var e :| e in s.timers;
      var id := TimerId(e.addr, s.heap[e.addr].sequence);
      assert Entry(s.heap[id.addr].expiration, id.addr) == e;
      SameSize(s.(timers := s.timers - {e}, active := s.active - {id}));
    }
  }

  /** Cancelling acts on a timer that is queued under exactly that identity and on nothing else: the id of a
      deleted timer does nothing, even when its address is in use again. */
  lemma CancelIsExact(s: State, id: TimerId)
    requires Inv(s)
    ensures Cancel(s, id) != s <==> Queued(s, id.addr) && s.heap[id.addr].sequence == id.sequence
    ensures id.sequence in s.freed ==> Cancel(s, id) == s
    ensures Cancel(s, id) != s ==>
              && Cancel(s, id).freed == s.freed + [id.sequence]
              && Cancel(s, id).heap == s.heap - {id.addr}
              && Cancel(s, id).timers == s.timers - {Entry(s.heap[id.addr].expiration, id.addr)}
  {
    if Cancel(s, id) != s {
      assert id in s.active;
    }
    if Queued(s, id.addr) && s.heap[id.addr].sequence == id.sequence {
      assert TimerId(id.addr, s.heap[id.addr].sequence) in s.active;
      assert |Cancel(s, id).freed| == |s.freed| + 1;
    }
  }

  /** A deleted timer is never run again, whatever follows. */
  lemma {:induction false} FreedNeverRuns(s: State, es: seq<Event>, number: nat)
    requires Inv(s) && Valid(s, es) && number in s.freed
    ensures s.ran <= Run(s, es).ran && number !in Run(s, es).ran[|s.ran|..]
    ensures number in Run(s, es).freed
    decreases |es|
  {
    if es != [] {
      var s1 := Step(s, es[0]);
      StepKeepsInv(s, es[0]);
      assert s.ran <= s1.ran && number !in s1.ran[|s.ran|..] && number in s1.freed by {
        OneStepRuns(s, es[0], number);
      }
      FreedNeverRuns(s1, es[1..], number);
      var ran := Run(s, es).ran;
      assert ran[|s.ran|..] == s1.ran[|s.ran|..] + ran[|s1.ran|..];
    }
  }

  lemma OneStepRuns(s: State, e: Event, number: nat)
    requires Inv(s) && Enabled(s, e) && number in s.freed
    ensures var s1 := Step(s, e);
            && s.ran <= s1.ran && number !in s1.ran[|s.ran|..] && number in s1.freed
  {
  }

  /** A queued timer that is cancelled is never run again. */
  lemma CancelledNeverRuns(s: State, id: TimerId, es: seq<Event>)
    requires Inv(s) && id in s.active && Enabled(s, CancelId(id)) && Valid(Step(s, CancelId(id)), es)
    ensures var ran := Run(Step(s, CancelId(id)), es).ran; s.ran <= ran && id.sequence !in ran[|s.ran|..]
  {
    StepKeepsInv(s, CancelId(id));
    FreedNeverRuns(Step(s, CancelId(id)), es, id.sequence);
  }

  /** The sequence numbers of the first k timers of a batch. */
  function Numbers(heap: map<Addr, Timer>, batch: seq<Entry>, k: nat): seq<nat>
    requires k <= |batch| && forall i :: 0 <= i < |batch| ==> batch[i].addr in heap
  {
    if k == 0 then [] else Numbers(heap, batch, k - 1) + [heap[batch[k - 1].addr].sequence]
  }

  /** The timers of the batch taken at s0 are alive, and exactly the leading ones have run since. */
  ghost predicate MidBatch(s0: State, s: State) {
    var batch := Batch(Fire(s0));
    && s.phase.Firing? && s.phase.expired == batch && s.phase.next <= |batch|
    && (forall i :: 0 <= i < |batch| ==> batch[i].addr in s0.heap && SameTimer(s0, s, batch[i].addr))
    && s.ran == s0.ran + Numbers(s0.heap, batch, s.phase.next)
  }

  predicate SameTimer(s0: State, s: State, addr: Addr)
    requires addr in s0.heap
  {
    addr in s.heap && s.heap[addr].sequence == s0.heap[addr].sequence
  }

  lemma BatchSurvives(s: State, e: Event, i: nat)
    requires Inv(s) && s.phase.Firing? && Enabled(s, e) && i < |Batch(s)|
    ensures Batch(s)[i].addr in s.heap && SameTimer(s, Step(s, e), Batch(s)[i].addr)
  {
    assert InBatch(s, Batch(s)[i].addr);
  }

  lemma MidBatchStep(s0: State, s: State, e: Event)
    requires Inv(s) && MidBatch(s0, s) && Enabled(s, e) && e != EndCallbacks
    ensures MidBatch(s0, Step(s, e))
  {
    var batch := Batch(Fire(s0));
    hide Fire, Inv, Cancel, AddTimerInLoop, Numbers;
    forall i | 0 <= i < |batch| ensures SameTimer(s0, Step(s, e), batch[i].addr) {
      BatchSurvives(s, e, i);
    }
    if e != RunNext { QuietAboutRuns(s, e); }
    NextNumber(s0.heap, batch, s.phase.next);
  }

  lemma QuietAboutRuns(s: State, e: Event)
    requires s.phase.Firing? && Enabled(s, e) && e != EndCallbacks && e != RunNext
    ensures Step(s, e).phase == s.phase && Step(s, e).ran == s.ran
  {
  }

  lemma NextNumber(heap: map<Addr, Timer>, batch: seq<Entry>, k: nat)
    requires forall i :: 0 <= i < |batch| ==> batch[i].addr in heap
    ensures k < |batch| ==> Numbers(heap, batch, k + 1) == Numbers(heap, batch, k) + [heap[batch[k].addr].sequence]
  {
  }

  lemma {:induction false} MidBatchRun(s0: State, s: State, es: seq<Event>)
    requires Inv(s) && MidBatch(s0, s) && Valid(s, es) && EndCallbacks !in es
    ensures MidBatch(s0, Run(s, es))
    decreases |es|
  {
    hide Step, Enabled, Inv, MidBatch;
    if es != [] {
      StepKeepsInv(s, es[0]);
      MidBatchStep(s0, s, es[0]);
      MidBatchRun(s0, Step(s, es[0]), es[1..]);
    }
  }

  /** Every due timer runs exactly once, in order, before the batch is reset, whatever its callbacks add or
      cancel: at any point the leading timers of the batch have run, and the next one can. */
  lemma DueTimersRun(s: State, es: seq<Event>)
    requires Inv(s) && s.phase.Quiet? && Valid(Fire(s), es) && EndCallbacks !in es
    ensures var batch, s' := Batch(Fire(s)), Run(Fire(s), es);
            && s'.phase.Firing? && s'.phase.next <= |batch|
            && (forall i :: 0 <= i < |batch| ==> batch[i].addr in s.heap)
            && s'.ran == s.ran + Numbers(s.heap, batch, s'.phase.next)
            && (Enabled(s', RunNext) <==> s'.phase.next < |batch|)
            && (Enabled(s', EndCallbacks) <==> s'.phase.next == |batch|)
  {
    FireKeepsInv(s);
    FireBatchApart(s);
    assert s.ran + [] == s.ran;
    assert MidBatch(s, Fire(s));
    MidBatchRun(s, Fire(s), es);
  }

  /** getExpired takes out exactly the timers due by now, in order of time and address. */
  lemma FireTakesTheDue(s: State)
    requires Inv(s) && s.phase.Quiet?
    ensures var s' := Fire(s);
            && s'.phase.Firing? && s'.phase.now == s.clock
            && (forall e :: e in s'.phase.expired <==> e in s.timers && e.when <= s.clock)
            && (forall i, j :: 0 <= i < j < |s'.phase.expired| ==> Precedes(s'.phase.expired[i], s'.phase.expired[j]))
            && (forall e :: e in s'.timers <==> e in s.timers && e.when > s.clock)
            && IndexesAgree(s')
  {
    OrderedFacts(Due(s, s.clock));
    FireKeepsInv(s);
  }

  // ----- The kernel timer goes off in time -----

  /** The timerfd is, or will be, readable by the time e is due, or within the floor of when it was set. */
  predicate Covers(s: State, e: Entry) {
    s.kernel.Armed? && s.kernel.armedAt <= s.clock && s.kernel.at <= Max(e.when, s.kernel.armedAt + FLOOR)
  }

  /** Outside handleRead every queued timer is covered. Inside it, those with an invalid expiration are:
      they can only have been added by a callback, and reset will not arm the timerfd for them. */
  predicate Timely(s: State) {
    && s.clock > 0
    && (s.phase.Firing? ==> s.phase.now > 0)
    && (s.phase.Resetting? ==> s.phase.now > 0)
    && forall e :: e in s.timers && (s.phase.Quiet? || e.when <= 0) ==> Covers(s, e)
  }

  lemma AddIsTimely(s: State, addr: Addr)
    requires Timely(s) && addr in s.heap
    ensures Timely(AddTimerInLoop(s, addr))
  {
    var when := s.heap[addr].expiration;
    var s' := AddTimerInLoop(s, addr);
    forall e | e in s'.timers && (s'.phase.Quiet? || e.when <= 0) ensures Covers(s', e) {
      if EarliestChanges(s, when) {
        if e in s.timers && e != First(s.timers) { assert Precedes(First(s.timers), e); }
      } else {
        var f := First(s.timers);
        if e !in s.timers { assert f in s.timers && Covers(s, f); }
      }
    }
  }

  lemma RearmIsTimely(s: State)
    requires Timely(s) && !s.phase.Quiet?
    ensures Timely(Rearm(s))
  {
    if s.timers != {} {
      var f := First(s.timers);
      forall e | e in s.timers ensures Covers(Rearm(s), e) {
        if e != f { assert Precedes(f, e); }
        if f.when <= 0 { assert Covers(s, f); }
      }
    }
  }

  lemma StepIsTimely(s: State, e: Event)
    requires Timely(s) && Enabled(s, e)
    ensures Timely(Step(s, e))
  {
    match e
    case Add(addr) => AddIsTimely(s, addr);
    case EndReset => RearmIsTimely(s);
    case _ =>
  }

  lemma {:induction false} RunIsTimely(s: State, es: seq<Event>)
    requires Timely(s) && Valid(s, es)
    ensures Timely(Run(s, es))
    decreases |es|
  {
    hide Timely, Step, Enabled;
    if es != [] {
      StepIsTimely(s, es[0]);
      RunIsTimely(Step(s, es[0]), es[1..]);
    }
  }

  /** Outside handleRead, whenever timers are queued the timerfd is armed, or has already gone off, no later
      than the earliest of them, up to the 100-microsecond floor, although cancelling never sets it again
      and inserting does so only for a new earliest. */
  lemma AlarmIsInTime(clock: int, es: seq<Event>)
    requires clock > 0 && Valid(Init(clock), es)
    ensures var s := Run(Init(clock), es);
            s.phase.Quiet? && s.timers != {} ==> Covers(s, First(s.timers))
  {
    assert Timely(Init(clock));
    RunIsTimely(Init(clock), es);
  }

  // ----- The queue object -----

  /** The leading entry of the set leads the part of it that is due, if there is one. */
  lemma LeadingEntry(timers: set<Entry>, now: int, e: Entry)
    requires IsFirst(e, timers) && exists f :: f in timers && f.when <= now
    ensures e in DueBy(timers, now)
    ensures Ordered(DueBy(timers, now)) == [e] + Ordered(DueBy(timers - {e}, now))
  {
    var due := DueBy(timers, now);
    assert e in due && IsFirst(e, due);
    assert First(due) == e;
    assert DueBy(timers - {e}, now) == due - {e};
  }

  lemma NextReset(s: State)
    requires Inv(s) && s.phase.Resetting? && s.phase.left != []
    ensures s.phase.left[0].addr in s.heap
    ensures Inv(ResetOne(s)) && AfterResets(ResetOne(s)) == AfterResets(s)
  {
    assert Batch(s)[0].addr in s.heap;
    ResetOneKeepsInv(s);
  }

  /** The state once every entry left in the batch has been restarted or deleted. */
  ghost function AfterResets(s: State): (s': State)
    requires Inv(s) && s.phase.Resetting?
    ensures Inv(s') && s'.phase == Resetting(s.phase.now, [])
    decreases if s.phase.Resetting? then |s.phase.left| else 0
  {
    if s.phase.left == [] then s else
      assert Batch(s)[0].addr in s.heap;
      ResetOneKeepsInv(s);
      AfterResets(ResetOne(s))
  }

  class Queue {
    var heap: map<Addr, Timer>
    var numCreated: nat
    var timers: set<Entry>
    var activeTimers: set<TimerId>
    var timerfd: Kernel
    ghost var waiting: set<Addr>
    ghost var phase: Phase
    ghost var clock: int
    ghost var ran: seq<nat>
    ghost var freed: seq<nat>

    ghost function View(): State
      reads this
    {
      State(heap, numCreated, waiting, timers, activeTimers, phase, clock, timerfd, ran, freed)
    }

    constructor (ghost clock: int)
      ensures View() == Init(clock)
    {
      heap, numCreated, timers, activeTimers, timerfd := map[], 0, {}, {}, Idle;
      waiting, phase, this.clock, ran, freed := {}, Quiet, clock, [], [];
    }

    /** addTimer, up to handing the Timer to the loop thread. */
    method NewTimer(addr: Addr, when: int, repeat: bool, delta: nat) returns (id: TimerId)
      requires Enabled(View(), New(addr, when, repeat, delta))
      modifies this
      ensures View() == Step(old(View()), New(addr, when, repeat, delta))
      ensures addr in heap && id == TimerId(addr, heap[addr].sequence)
    {
      numCreated := numCreated + 1;
      heap := heap[addr := Timer(when, repeat, delta, numCreated)];
      waiting := waiting + {addr};
      id := TimerId(addr, numCreated);
    }

    method ResetTimerfd(when: int, now: int)
      requires now == clock
      modifies this`timerfd
      ensures View() == Arm(old(View()), when)
    {
      var microseconds := when - now;
      if microseconds < FLOOR { microseconds := FLOOR; }
      timerfd := Armed(now + microseconds, now);
    }

    /** Both assertions of insert hold: the timer is in neither index yet. */
    method InsertTimer(addr: Addr) returns (earliestChanged: bool)
      requires addr in heap && IndexesAgree(View()) && !Queued(View(), addr)
      modifies this`timers, this`activeTimers
      ensures View() == Insert(old(View()), addr)
      ensures earliestChanged <==> EarliestChanges(old(View()), heap[addr].expiration)
    {
      var when := heap[addr].expiration;
      earliestChanged := forall e :: e in timers ==> when < e.when;
      assert earliestChanged <==> EarliestChanges(View(), when);
      assert Entry(when, addr) !in timers && TimerId(addr, heap[addr].sequence) !in activeTimers;
      timers := timers + {Entry(when, addr)};
      activeTimers := activeTimers + {TimerId(addr, heap[addr].sequence)};
    }

    method AddTimer(addr: Addr, now: int)
      requires Inv(View()) && Enabled(View(), Add(addr)) && now == clock
      modifies this
      ensures View() == Step(old(View()), Add(addr))
    {
      var earliestChanged := InsertTimer(addr);
      waiting := waiting - {addr};
      if earliestChanged {
        ResetTimerfd(heap[addr].expiration, now);
      }
    }

    /** The erase finds its entry: n == 1. */
    method CancelTimer(id: TimerId)
      requires Inv(View()) && Enabled(View(), CancelId(id))
      modifies this
      ensures View() == Step(old(View()), CancelId(id))
    {
      if id in activeTimers {
        var e := Entry(heap[id.addr].expiration, id.addr);
        assert e in timers;
        timers := timers - {e};
        freed := freed + [heap[id.addr].sequence];
        heap := heap - {id.addr};
        activeTimers := activeTimers - {id};
      }
    }

    /** Takes the leading entries out of timers_ one by one while they are due. */
    method TakeDue(now: int) returns (expired: seq<Entry>)
      modifies this`timers
      ensures expired == Ordered(Due(old(View()), now))
      ensures timers == old(timers) - Due(old(View()), now)
    {
      ghost var all, due := timers, DueBy(timers, now);
      expired := [];
      while exists e :: e in timers && e.when <= now
        invariant timers <= all && all - timers <= due
        invariant expired + Ordered(DueBy(timers, now)) == Ordered(due)
        decreases |timers|
      {
        FirstExists(timers);
        var e: Entry :| IsFirst(e, timers);
        LeadingEntry(timers, now, e);
        expired := expired + [e];
        timers := timers - {e};
      }
      assert DueBy(timers, now) == {};
    }

    /** getExpired: the entries due, taken out of both indexes. */
    method GetExpired(now: int) returns (expired: seq<Entry>)
      requires Inv(View())
      modifies this`timers, this`activeTimers
      ensures expired == Ordered(Due(old(View()), now))
      ensures timers == old(timers) - Due(old(View()), now)
      ensures activeTimers == old(activeTimers) - Ids(old(View()), Due(old(View()), now))
    {
      ghost var due := Due(View(), now);
      OrderedFacts(due);
      expired := TakeDue(now);
      forall i | 0 <= i < |expired| ensures expired[i].addr in heap { assert expired[i] in due; }
      EraseKeys(expired);
      assert (set e | e in expired) == due;
    }

    method BeginHandleRead(now: int) returns (expired: seq<Entry>)
      requires Inv(View()) && Enabled(View(), HandleRead) && now == clock
      modifies this
      ensures View() == Step(old(View()), HandleRead) && expired == Batch(View())
    {
      if timerfd.Armed? && timerfd.at <= now { timerfd := Idle; }
      expired := GetExpired(now);
      phase := Firing(now, expired, 0);
    }

    /** reset: restart or delete every timer of the batch, then arm the timerfd for the earliest left. */
    method Reset(expired: seq<Entry>, now: int, later: int)
      requires Inv(View()) && phase == Resetting(now, expired) && later == clock
      modifies this
      ensures View() == Rearm(AfterResets(old(View())))
    {
      hide Inv, ResetOne, First;
      for i := 0 to |expired|
        invariant Inv(View()) && phase == Resetting(now, expired[i..]) && clock == later
        invariant AfterResets(View()) == AfterResets(old(View()))
      {
        ghost var s := View();
        NextReset(s);
        RestartOrDelete(expired[i].addr, now, expired[i..]);
        assert expired[i..][1..] == expired[i + 1..];
      }
      RearmTimerfd(later);
    }

    method RearmTimerfd(later: int)
      requires later == clock
      modifies this
      ensures View() == Rearm(old(View()))
    {
      phase := Quiet;
      if timers != {} {
        FirstExists(timers);
        var first: Entry :| IsFirst(first, timers);
        if first.when > 0 { ResetTimerfd(first.when, later); }
      }
    }

    method RestartOrDelete(addr: Addr, now: int, ghost left: seq<Entry>)
      requires Inv(View()) && phase == Resetting(now, left) && left != [] && left[0].addr == addr && addr in heap
      modifies this
      ensures View() == ResetOne(old(View())) && clock == old(clock) && phase == Resetting(now, left[1..])
    {
      var t := heap[addr];
      assert Batch(View())[0].addr == addr;
      phase := Resetting(now, left[1..]);
      if t.repeat {
        heap := heap[addr := t.(expiration := now + t.delta)];
        var _ := InsertTimer(addr);
      } else {
        heap := heap - {addr};
        freed := freed + [t.sequence];
      }
    }

    method EraseKeys(expired: seq<Entry>)
      requires forall i :: 0 <= i < |expired| ==> expired[i].addr in heap
      modifies this`activeTimers
      ensures activeTimers == old(activeTimers) - Ids(View(), set e | e in expired)
    {
      for i := 0 to |expired|
        invariant activeTimers == old(activeTimers) - Ids(View(), set e | e in expired[..i])
      {
        var id := TimerId(expired[i].addr, heap[expired[i].addr].sequence);
        assert expired[..i + 1] == expired[..i] + [expired[i]];
        activeTimers := activeTimers - {id};
      }
      assert expired[..|expired|] == expired;
    }
  }
}
