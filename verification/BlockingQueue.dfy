/** The monitor shared by BoundedBlockingQueue and ThreadPool: a queue under one mutex with two condition
    variables. A step is one hold of the mutex, from taking it (on entry or on return from a wait) to giving
    it up (by waiting or by leaving). */
module BlockingQueue {
  import opened Bytes

  type Thread = nat
  type Item = int

  // ----- Condition variables -----

  /** The threads inside wait(): still asleep, or woken and waiting for the mutex. */
  datatype Waiters = Waiters(sleeping: set<Thread>, woken: set<Thread>)

  const NOBODY := Waiters({}, {})

  function All(w: Waiters): set<Thread> {
    w.sleeping + w.woken
  }

  predicate Apart(w: Waiters) {
    w.sleeping !! w.woken
  }

  function Sleep(w: Waiters, t: Thread): Waiters {
    Waiters(w.sleeping + {t}, w.woken)
  }

  function Wake(w: Waiters, ts: set<Thread>): Waiters {
    Waiters(w.sleeping - ts, w.woken + ts)
  }

  function Resume(w: Waiters, t: Thread): Waiters {
    Waiters(w.sleeping, w.woken - {t})
  }

  /** pthread_cond_signal wakes at least one of the sleepers, if there are any. */
  predicate SignalWakes(w: Waiters, woken: set<Thread>) {
    woken <= w.sleeping && (w.sleeping != {} ==> woken != {})
  }

  lemma SleepFacts(w: Waiters, t: Thread)
    requires Apart(w) && t !in All(w)
    ensures Apart(Sleep(w, t)) && All(Sleep(w, t)) == All(w) + {t}
  {
  }

  lemma WakeFacts(w: Waiters, ts: set<Thread>)
    requires Apart(w) && ts <= w.sleeping
    ensures Apart(Wake(w, ts)) && All(Wake(w, ts)) == All(w)
    ensures |Wake(w, ts).woken| == |w.woken| + |ts|
    ensures ts != {} ==> |ts| >= 1
    ensures Wake(w, ts).sleeping != {} ==> w.sleeping != {}
  {
    if t :| t in ts {
      assert ts == {t} + (ts - {t});
    }
  }

  lemma ResumeFacts(w: Waiters, t: Thread)
    requires Apart(w) && t in w.woken
    ensures Apart(Resume(w, t)) && All(Resume(w, t)) == All(w) - {t}
    ensures |w.woken| == |Resume(w, t).woken| + 1
  {
  }

  // ----- The monitor -----

  /** bound: None is a queue without limit. argument holds the argument of every thread inside put. */
  datatype State = State(
    bound: Option<nat>,
    running: bool,
    queue: seq<Item>,
    argument: map<Thread, Item>,
    putters: Waiters,
    takers: Waiters,
    accepted: seq<Item>,
    taken: seq<Item>)

  function Init(bound: Option<nat>): State {
    State(bound, true, [], map[], NOBODY, NOBODY, [], [])
  }

  predicate Full(s: State) {
    s.bound.Some? && |s.queue| >= s.bound.value
  }

  /** One hold of the mutex by thread t inside put(x): wait when full, give up when stopped, else push and
      signal notEmpty, which wakes the given takers. */
  function PutPass(s: State, t: Thread, x: Item, woken: set<Thread>): State {
    if Full(s) && s.running then s.(putters := Sleep(s.putters, t), argument := s.argument[t := x])
    else if !s.running then s
    else s.(queue := s.queue + [x], accepted := s.accepted + [x], takers := Wake(s.takers, woken))
  }

  /** One hold of the mutex by thread t inside take(): wait when empty, unless stopped, else pop and signal
      notFull, which wakes the given putters. */
  function TakePass(s: State, t: Thread, woken: set<Thread>): State {
    if s.queue == [] then
      if s.running then s.(takers := Sleep(s.takers, t)) else s
    else
      s.(queue := s.queue[1..], taken := s.taken + [s.queue[0]], putters := Wake(s.putters, woken))
  }

  /** Again: a thread returns from wait and tests its condition again. Stray: a spurious wake-up. */
  datatype Event =
    | Put(t: Thread, x: Item, woken: set<Thread>)
    | PutAgain(t: Thread, woken: set<Thread>)
    | Take(t: Thread, woken: set<Thread>)
    | TakeAgain(t: Thread, woken: set<Thread>)
    | StrayPutter(t: Thread)
    | StrayTaker(t: Thread)
    | Stop

  predicate Idle(s: State, t: Thread) {
    t !in All(s.putters) && t !in All(s.takers)
  }

  predicate Enabled(s: State, e: Event) {
    match e
    case Put(t, x, woken) => Idle(s, t) && SignalWakes(s.takers, woken)
    case PutAgain(t, woken) => t in s.putters.woken && t in s.argument && SignalWakes(s.takers, woken)
    case Take(t, woken) => Idle(s, t) && SignalWakes(s.putters, woken)
    case TakeAgain(t, woken) => t in s.takers.woken && SignalWakes(s.putters, woken)
    case StrayPutter(t) => t in s.putters.sleeping
    case StrayTaker(t) => t in s.takers.sleeping
    case Stop => true
  }

  function Step(s: State, e: Event): State
    requires Enabled(s, e)
  {
    match e
    case Put(t, x, woken) => PutPass(s, t, x, woken)
    case PutAgain(t, woken) => PutPass(s.(putters := Resume(s.putters, t)), t, s.argument[t], woken)
    case Take(t, woken) => TakePass(s, t, woken)
    case TakeAgain(t, woken) => TakePass(s.(takers := Resume(s.takers, t)), t, woken)
    case StrayPutter(t) => s.(putters := Wake(s.putters, {t}))
    case StrayTaker(t) => s.(takers := Wake(s.takers, {t}))
    case Stop =>
      s.(running := false,
         putters := Wake(s.putters, s.putters.sleeping),
         takers := Wake(s.takers, s.takers.sleeping))
  }

  predicate Valid(s: State, es: seq<Event>)
    decreases |es|
  {
    es == [] || (Enabled(s, es[0]) && Valid(Step(s, es[0]), es[1..]))
  }

  /** The state after a run: any interleaving of any number of threads. */
  function Run(s: State, es: seq<Event>): State
    requires Valid(s, es)
    decreases |es|
  {
    if es == [] then s else Run(Step(s, es[0]), es[1..])
  }

  // ----- What every step keeps -----

  predicate Placed(s: State) {
    && Apart(s.putters) && Apart(s.takers)
    && All(s.putters) !! All(s.takers)
    && All(s.putters) <= s.argument.Keys
  }

  /** While a taker sleeps, every queued element is spoken for by a woken taker that has not resumed, or by
      one of the k takers that hold the mutex. */
  predicate TakersInformed(s: State, k: nat) {
    s.takers.sleeping != {} ==> s.running && |s.queue| <= |s.takers.woken| + k
  }

  /** While a putter sleeps, every free slot is spoken for by a woken putter that has not resumed, or by one
      of the k putters that hold the mutex. */
  predicate PuttersInformed(s: State, k: nat) {
    s.putters.sleeping != {} ==> s.running && s.bound.Some? && s.bound.value - |s.queue| <= |s.putters.woken| + k
  }

  predicate InOrder(s: State) {
    && (s.bound.Some? ==> |s.queue| <= s.bound.value)
    && s.accepted == s.taken + s.queue
  }

  predicate Inv(s: State) {
    Placed(s) && TakersInformed(s, 0) && PuttersInformed(s, 0) && InOrder(s)
  }

  lemma PutPassKeepsInv(s: State, t: Thread, x: Item, woken: set<Thread>)
    requires Placed(s) && TakersInformed(s, 0) && PuttersInformed(s, 1) && InOrder(s)
    requires Idle(s, t) && SignalWakes(s.takers, woken)
    ensures Inv(PutPass(s, t, x, woken))
  {
    hide All, Apart, Wake;
    if Full(s) && s.running {
      PutterSleeps(s, t, x);
    } else if s.running {
      WakeFacts(s.takers, woken);
      var s' := PutPass(s, t, x, woken);
      assert s'.accepted == s'.taken + s'.queue;
    }
  }

  lemma PutterSleeps(s: State, t: Thread, x: Item)
    requires Placed(s) && TakersInformed(s, 0) && InOrder(s) && Idle(s, t) && Full(s) && s.running
    ensures Inv(PutPass(s, t, x, {}))
  {
    hide All, Apart;
    SleepFacts(s.putters, t);
    assert s.argument[t := x].Keys == s.argument.Keys + {t};
  }

  lemma TakePassKeepsInv(s: State, t: Thread, woken: set<Thread>)
    requires Placed(s) && TakersInformed(s, 1) && PuttersInformed(s, 0) && InOrder(s)
    requires Idle(s, t) && SignalWakes(s.putters, woken)
    ensures Inv(TakePass(s, t, woken))
  {
    hide All, Apart, Wake;
    SleepFacts(s.takers, t);
    WakeFacts(s.putters, woken);
    var s' := TakePass(s, t, woken);
    if s.queue != [] {
      assert s.queue == [s.queue[0]] + s.queue[1..];
      assert s'.taken + s'.queue == s.taken + s.queue;
    }
  }

  lemma StepKeepsInv(s: State, e: Event)
    requires Inv(s) && Enabled(s, e)
    ensures Inv(Step(s, e))
  {
    hide All, Apart, Wake, Resume, PutPass, TakePass;
    match e
    case Put(t, x, woken) => PutPassKeepsInv(s, t, x, woken);
    case PutAgain(t, woken) => PutAgainKeepsInv(s, t, woken);
    case Take(t, woken) => TakePassKeepsInv(s, t, woken);
    case TakeAgain(t, woken) => TakeAgainKeepsInv(s, t, woken);
    case StrayPutter(t) => WakeFacts(s.putters, {t});
    case StrayTaker(t) => WakeFacts(s.takers, {t});
    case Stop => StopKeepsInv(s);
  }

  lemma PutAgainKeepsInv(s: State, t: Thread, woken: set<Thread>)
    requires Inv(s) && Enabled(s, PutAgain(t, woken))
    ensures Inv(Step(s, PutAgain(t, woken)))
  {
    hide Apart, PutPass;
    ResumeFacts(s.putters, t);
    PutPassKeepsInv(s.(putters := Resume(s.putters, t)), t, s.argument[t], woken);
  }

  lemma TakeAgainKeepsInv(s: State, t: Thread, woken: set<Thread>)
    requires Inv(s) && Enabled(s, TakeAgain(t, woken))
    ensures Inv(Step(s, TakeAgain(t, woken)))
  {
    hide Apart, TakePass;
    ResumeFacts(s.takers, t);
    TakePassKeepsInv(s.(takers := Resume(s.takers, t)), t, woken);
  }

  lemma StopKeepsInv(s: State)
    requires Inv(s)
    ensures Inv(Step(s, Stop))
  {
    WakeFacts(s.putters, s.putters.sleeping);
    WakeFacts(s.takers, s.takers.sleeping);
  }

  lemma {:induction false} RunKeepsInv(s: State, es: seq<Event>)
    requires Inv(s) && Valid(s, es)
    ensures Inv(Run(s, es)) && Run(s, es).bound == s.bound
    decreases |es|
  {
    hide Inv;
    if es != [] {
      StepKeepsInv(s, es[0]);
      RunKeepsInv(Step(s, es[0]), es[1..]);
    }
  }

  // ----- What that means -----

  /** No lost wake-up in any run: a sleeping taker with work queued, or a sleeping putter with room, means
      that woken threads of the same kind are on their way, one for each element or free slot; values leave
      in the order they were accepted, and the bound is kept. */
  lemma NoLostWakeUp(bound: Option<nat>, es: seq<Event>)
    requires Valid(Init(bound), es)
    ensures var s := Run(Init(bound), es);
            && (s.takers.sleeping != {} ==> |s.queue| <= |s.takers.woken|)
            && (s.putters.sleeping != {} ==> bound.Some? && bound.value - |s.queue| <= |s.putters.woken|)
            && (bound.Some? ==> |s.queue| <= bound.value)
            && s.accepted == s.taken + s.queue
  {
    RunKeepsInv(Init(bound), es);
  }

  lemma SomebodyIsOnTheWay(s: State)
    requires Inv(s) && s.bound != Some(0) && s.takers.sleeping != {} && s.putters.sleeping != {}
    ensures s.takers.woken != {} || s.putters.woken != {}
  {
    hide Placed;
  }

  /** Takers and putters never all sleep at once, in any run, when the capacity is not zero. */
  lemma NeverBothAsleep(bound: Option<nat>, es: seq<Event>)
    requires Valid(Init(bound), es)
    requires bound != Some(0)
    ensures var s := Run(Init(bound), es);
            s.takers.sleeping != {} && s.putters.sleeping != {} ==> s.takers.woken != {} || s.putters.woken != {}
  {
    RunKeepsInv(Init(bound), es);
    hide Run, Valid, Inv;
    var s := Run(Init(bound), es);
    if s.takers.sleeping != {} && s.putters.sleeping != {} { SomebodyIsOnTheWay(s); }
  }

  /** With capacity zero a putter and a taker fall asleep together for good. */
  lemma ZeroCapacityDeadlocks(x: Item)
    ensures var es := [Put(1, x, {}), Take(2, {1})];
            && Valid(Init(Some(0)), es)
            && var s := Run(Init(Some(0)), es);
               s.putters == Waiters({1}, {}) && s.takers == Waiters({2}, {})
  {
    var s0 := Init(Some(0));
    var e0, e1 := Put(1, x, {}), Take(2, {1});
    var s1 := Step(s0, e0);
    assert Enabled(s1, e1);
    assert [e0, e1][1..] == [e1] && [e1][1..] == [];
    var s2 := Step(s1, e1);
    assert Valid(s2, []) && Run(s2, []) == s2;
    assert Valid(s1, [e1]) && Run(s1, [e1]) == s2;
    assert Run(s0, [e0, e1]) == s2;
  }

  /** Once stop has run, nobody sleeps and nobody goes to sleep again, and nothing more is accepted. */
  lemma {:induction false} AfterStop(s: State, es: seq<Event>)
    requires Inv(s) && !s.running && Valid(s, es)
    ensures var s' := Run(s, es);
            && !s'.running
            && s'.takers.sleeping == {} && s'.putters.sleeping == {}
            && s'.accepted == s.accepted
            && s.taken <= s'.taken
    decreases |es|
  {
    if es != [] {
      StepKeepsInv(s, es[0]);
      AfterStop(Step(s, es[0]), es[1..]);
    }
  }

  /** In every run: from a stop on nobody sleeps, and nothing is accepted that was not accepted before it. */
  lemma StopIsFinal(bound: Option<nat>, es: seq<Event>, more: seq<Event>)
    requires Valid(Init(bound), es) && Valid(Step(Run(Init(bound), es), Stop), more)
    ensures var s, s' := Run(Init(bound), es), Run(Step(Run(Init(bound), es), Stop), more);
            s'.takers.sleeping == {} && s'.putters.sleeping == {} && s'.accepted == s.accepted
  {
    RunKeepsInv(Init(bound), es);
    var s := Run(Init(bound), es);
    StepKeepsInv(s, Stop);
    AfterStop(Step(s, Stop), more);
  }

  // ----- What the calls achieve -----

  /** The calls of put so far, by thread, with their arguments. */
  function Called(e: Event, calls: map<Thread, Item>): map<Thread, Item> {
    if e.Put? then calls[e.t := e.x] else calls
  }

  /** The argument of a call of put that returns in this step. */
  function ReturnedPut(s: State, e: Event, calls: map<Thread, Item>): seq<Item>
    requires Enabled(s, e)
  {
    if (e.Put? || e.PutAgain?) && e.t !in All(Step(s, e).putters) && e.t in calls then [calls[e.t]] else []
  }

  /** The arguments of the calls of put that return in a run, in the order of their return. */
  function ReturnedPuts(s: State, es: seq<Event>, calls: map<Thread, Item>): seq<Item>
    requires Valid(s, es)
    decreases |es|
  {
    if es == [] then [] else
      var calls' := Called(es[0], calls);
      ReturnedPut(s, es[0], calls') + ReturnedPuts(Step(s, es[0]), es[1..], calls')
  }

  /** The threads inside put are there with the arguments they called it with. */
  predicate Arguments(s: State, calls: map<Thread, Item>) {
    forall t :: t in All(s.putters) ==> t in calls && t in s.argument && s.argument[t] == calls[t]
  }

  lemma PutStep(s: State, e: Event, calls: map<Thread, Item>)
    requires Inv(s) && s.running && Enabled(s, e) && e != Stop && Arguments(s, calls)
    ensures var s' := Step(s, e);
            && s'.running && Arguments(s', Called(e, calls))
            && s'.accepted == s.accepted + ReturnedPut(s, e, Called(e, calls))
  {
    hide Inv, TakePass;
    assert s.accepted + [] == s.accepted;
    if e.Put? {
      PutReturns(s, e.t, e.x, e.woken, Called(e, calls));
    } else if e.PutAgain? {
      PlacedOf(s);
      assert All(Resume(s.putters, e.t)) == All(s.putters) - {e.t};
      PutReturns(s.(putters := Resume(s.putters, e.t)), e.t, calls[e.t], e.woken, calls);
    } else {
      hide PutPass;
      ElsewhereStays(s, e);
    }
  }

  lemma PlacedOf(s: State)
    requires Inv(s)
    ensures Placed(s)
  {
  }

  lemma PutReturns(s: State, t: Thread, x: Item, woken: set<Thread>, calls: map<Thread, Item>)
    requires s.running && t !in All(s.putters) && t in calls && calls[t] == x && Arguments(s, calls)
    ensures var s' := PutPass(s, t, x, woken);
            && s'.running && Arguments(s', calls)
            && s'.accepted == s.accepted + if t !in All(s'.putters) then [x] else []
  {
    assert s.accepted + [] == s.accepted;
  }

  lemma ElsewhereStays(s: State, e: Event)
    requires s.running && Enabled(s, e) && e != Stop && !e.Put? && !e.PutAgain?
    ensures var s' := Step(s, e);
            && s'.running && s'.accepted == s.accepted && s'.argument == s.argument
            && All(s'.putters) == All(s.putters)
  {
    if (e.Take? || e.TakeAgain?) && s.queue != [] { assert e.woken <= s.putters.sleeping; }
  }

  /** Every put that returns has put its argument in, once, and nothing else gets in: in every run without a stop,
      what is accepted is the arguments of the calls that have returned, in the order of their return. */
  lemma {:induction false} PutsAreAccepted(s: State, es: seq<Event>, calls: map<Thread, Item>)
    requires Inv(s) && s.running && Valid(s, es) && Stop !in es && Arguments(s, calls)
    ensures Run(s, es).accepted == s.accepted + ReturnedPuts(s, es, calls)
    decreases |es|
  {
    hide Inv, Step, Enabled, Arguments, ReturnedPut, Called;
    if es == [] {
      assert s.accepted + [] == s.accepted;
    } else {
      assert es[0] in es && Stop !in es[1..];
      var s1, calls' := Step(s, es[0]), Called(es[0], calls);
      StepKeepsInv(s, es[0]);
      PutStep(s, es[0], calls);
      PutsAreAccepted(s1, es[1..], calls');
      Associates(s.accepted, ReturnedPut(s, es[0], calls'), ReturnedPuts(s1, es[1..], calls'));
    }
  }

  lemma Associates(a: seq<Item>, b: seq<Item>, c: seq<Item>)
    ensures (a + b) + c == a + (b + c)
  {
  }

  predicate ReturnedTake(s: State, e: Event)
    requires Enabled(s, e)
  {
    (e.Take? || e.TakeAgain?) && e.t !in All(Step(s, e).takers)
  }

  /** The number of calls of take that return in a run. */
  function ReturnedTakes(s: State, es: seq<Event>): nat
    requires Valid(s, es)
    decreases |es|
  {
    if es == [] then 0 else (if ReturnedTake(s, es[0]) then 1 else 0) + ReturnedTakes(Step(s, es[0]), es[1..])
  }

  lemma TakeStep(s: State, e: Event)
    requires Inv(s) && s.running && Enabled(s, e) && e != Stop
    ensures Step(s, e).running && |Step(s, e).taken| == |s.taken| + if ReturnedTake(s, e) then 1 else 0
  {
  }

  /** In every run without a stop, each take that returns has taken one element, and no other call has. */
  lemma {:induction false} TakesReturnElements(s: State, es: seq<Event>)
    requires Inv(s) && s.running && Valid(s, es) && Stop !in es
    ensures |Run(s, es).taken| == |s.taken| + ReturnedTakes(s, es)
    decreases |es|
  {
    if es != [] {
      assert es[0] in es && Stop !in es[1..];
      StepKeepsInv(s, es[0]);
      TakeStep(s, es[0]);
      hide Inv, Step, Enabled, ReturnedTake;
      TakesReturnElements(Step(s, es[0]), es[1..]);
    }
  }

  /** The passes through take in a run. */
  function TakePasses(es: seq<Event>): nat {
    if es == [] then 0 else (if es[0].Take? || es[0].TakeAgain? then 1 else 0) + TakePasses(es[1..])
  }

  /** What n passes leave: the elements taken, and those still queued. */
  function Drained(taken: seq<Item>, queue: seq<Item>, n: nat): (seq<Item>, seq<Item>) {
    var k := if n < |queue| then n else |queue|;
    (taken + queue[..k], queue[k..])
  }

  /** After a stop the queue is drained: each pass through take gets an element as long as there are any. */
  lemma {:induction false} DrainedAfterStop(s: State, es: seq<Event>)
    requires !s.running && Valid(s, es)
    ensures (Run(s, es).taken, Run(s, es).queue) == Drained(s.taken, s.queue, TakePasses(es))
    decreases |es|
  {
    hide Step, Enabled, Drained;
    if es == [] {
      DrainedFirst(s.taken, s.queue, 0);
    } else {
      StoppedStep(s, es[0]);
      DrainedAfterStop(Step(s, es[0]), es[1..]);
      DrainedFirst(s.taken, s.queue, TakePasses(es[1..]));
    }
  }

  lemma StoppedStep(s: State, e: Event)
    requires !s.running && Enabled(s, e)
    ensures var s' := Step(s, e);
            && !s'.running
            && if (e.Take? || e.TakeAgain?) && s.queue != []
               then s'.queue == s.queue[1..] && s'.taken == s.taken + [s.queue[0]]
               else s'.queue == s.queue && s'.taken == s.taken
  {
  }

  lemma DrainedFirst(taken: seq<Item>, queue: seq<Item>, n: nat)
    ensures Drained(taken, queue, 0) == (taken, queue)
    ensures if queue == [] then Drained(taken, queue, n) == Drained(taken, queue, n + 1)
            else Drained(taken, queue, n + 1) == Drained(taken + [queue[0]], queue[1..], n)
  {
    assert taken + queue[..0] == taken && queue[0..] == queue;
    if queue != [] {
      var k := if n < |queue| - 1 then n else |queue| - 1;
      assert queue[1..][k..] == queue[k + 1..];
      assert taken + [queue[0]] + queue[1..][..k] == taken + queue[..k + 1];
    }
  }

  // ----- The two classes as the source writes them -----

  /** utility/BoundedBlockingQueue.h: one pass of the wait loop of put or take per call. */
  class BoundedBlockingQueue {
    const capacity: nat
    var queue: seq<Item>
    ghost var argument: map<Thread, Item>
    ghost var putters: Waiters
    ghost var takers: Waiters
    ghost var accepted: seq<Item>
    ghost var taken: seq<Item>

    ghost function View(): State
      reads this
    {
      State(Some(capacity), true, queue, argument, putters, takers, accepted, taken)
    }

    constructor (maxSize: nat)
      ensures View() == Init(Some(maxSize))
    {
      capacity, queue := maxSize, [];
      argument, putters, takers, accepted, taken := map[], NOBODY, NOBODY, [], [];
    }

    method Put(t: Thread, x: Item, ghost woken: set<Thread>) returns (done: bool)
      modifies this
      ensures View() == PutPass(old(View()), t, x, woken)
      ensures done <==> !Full(old(View()))
    {
      if |queue| >= capacity {
        putters, argument := Sleep(putters, t), argument[t := x];
        return false;
      }
      queue := queue + [x];
      accepted, takers := accepted + [x], Wake(takers, woken);
      done := true;
    }

    method Take(t: Thread, ghost woken: set<Thread>) returns (front: Option<Item>)
      modifies this
      ensures View() == TakePass(old(View()), t, woken)
      ensures front == if old(queue) == [] then None else Some(old(queue)[0])
    {
      if queue == [] {
        takers := Sleep(takers, t);
        return None;
      }
      front := Some(queue[0]);
      taken, putters := taken + [queue[0]], Wake(putters, woken);
      queue := queue[1..];
    }
  }

  datatype RunResult = Waits | Refused | Queued

  datatype TakeResult = Sleeps | NoTask | Task(task: Item)

  /** utility/ThreadPool.cpp with its worker threads started; maxQueueSize 0 means no limit. */
  class ThreadPool {
    const maxQueueSize: nat
    var running: bool
    var queue: seq<Item>
    ghost var argument: map<Thread, Item>
    ghost var putters: Waiters
    ghost var takers: Waiters
    ghost var accepted: seq<Item>
    ghost var taken: seq<Item>

    ghost function View(): State
      reads this
    {
      State(if maxQueueSize > 0 then Some(maxQueueSize) else None,
            running, queue, argument, putters, takers, accepted, taken)
    }

    constructor Started(maxQueueSize: nat)
      ensures View() == Init(if maxQueueSize > 0 then Some(maxQueueSize) else None)
    {
      this.maxQueueSize, running, queue := maxQueueSize, true, [];
      argument, putters, takers, accepted, taken := map[], NOBODY, NOBODY, [], [];
    }

    predicate IsFull()
      reads this
    {
      maxQueueSize > 0 && |queue| >= maxQueueSize
    }

    method Run(t: Thread, task: Item, ghost woken: set<Thread>) returns (r: RunResult)
      modifies this
      ensures View() == PutPass(old(View()), t, task, woken)
      ensures r == if !old(running) then Refused else if Full(old(View())) then Waits else Queued
    {
      if IsFull() && running {
        putters, argument := Sleep(putters, t), argument[t := task];
        return Waits;
      }
      if !running { return Refused; }
      queue := queue + [task];
      accepted, takers := accepted + [task], Wake(takers, woken);
      r := Queued;
    }

    /** notFull is signalled only when there is a limit; without one nobody waits on it. */
    method Take(t: Thread, ghost woken: set<Thread>) returns (r: TakeResult)
      requires Inv(View()) && woken <= putters.sleeping
      modifies this
      ensures View() == TakePass(old(View()), t, woken)
      ensures r == if old(queue) != [] then Task(old(queue)[0]) else if old(running) then Sleeps else NoTask
    {
      if queue == [] && running {
        takers := Sleep(takers, t);
        return Sleeps;
      }
      r := NoTask;
      if queue != [] {
        r := Task(queue[0]);
        taken := taken + [queue[0]];
        queue := queue[1..];
        if maxQueueSize > 0 {
          putters := Wake(putters, woken);
        }
      }
    }

    /** Everyone who was waiting is woken, and nobody is asleep. */
    method Stop()
      requires Inv(View())
      modifies this
      ensures Inv(View()) && !running && takers.sleeping == {} && putters.sleeping == {}
      ensures All(takers) == old(All(takers)) && All(putters) == old(All(putters))
      ensures View() == old(View()).(running := false,
                                     putters := Wake(old(putters), old(putters.sleeping)),
                                     takers := Wake(old(takers), old(takers.sleeping)))
    {
      StopKeepsInv(View());
      WakeFacts(takers, takers.sleeping);
      WakeFacts(putters, putters.sleeping);
      running := false;
      takers := Wake(takers, takers.sleeping);
      putters := Wake(putters, putters.sleeping);
    }
  }
}
