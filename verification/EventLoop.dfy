/** The wake-up protocol of networking/EventLoop.cpp: posting threads, the loop thread and the eventfd,
    interleaved step by step. */
module EventLoop {
  import opened Bytes

  type Thread = nat
  type Functor = int

  /** The eventfd counter never exceeds this; a write that would overflow it fails and changes nothing. */
  const MAX_COUNTER := 0xFFFF_FFFF_FFFF_FFFE

  /** Where the loop thread is. Outside: it has not called loop() yet. Handling: running event callbacks, with or
      without the wake-up channel still to come. Entering: callingPendingFunctors_ is set and the queue not yet
      swapped. */
  datatype Pc = Outside | Checking | Polling | Handling(wakeActive: bool) | Entering | Running | Stopped

  /** owing: the other threads between their push (or quit) and their wake-up; loopOwes: the loop thread is.
      posted and executed record all functors queued and all functors run. */
  datatype State = State(
    pc: Pc,
    quit: bool,
    calling: bool,
    pending: seq<Functor>,
    batch: seq<Functor>,
    counter: nat,
    owing: set<Thread>,
    loopOwes: bool,
    posted: seq<Functor>,
    executed: seq<Functor>)

  /** loop() has just been entered, with whatever was queued before. */
  predicate Started(s: State) {
    && s.pc == Checking && !s.quit && !s.calling && !s.loopOwes
    && s.batch == [] && s.executed == [] && s.posted == s.pending
  }

  /** A new loop object: its thread has not called loop() yet. */
  const CREATED := State(Outside, false, false, [], [], 0, {}, false, [], [])

  datatype Event =
    | Enter
    | Push(t: Thread, f: Functor)
    | SetQuit(t: Thread)
    | Wakeup(t: Thread)
    | Check
    | PollReturns(wakeActive: bool)
    | LoopPush(f: Functor)
    | LoopQuit
    | LoopWakeup
    | HandleRead
    | EndHandling
    | Swap
    | RunOne
    | EndBatch

  /** The loop thread may queue functors and quit: in its callbacks, and before it calls loop(). */
  predicate InCallback(s: State) {
    (s.pc.Outside? || s.pc.Handling? || s.pc.Running?) && !s.loopOwes
  }

  /** poll may report any subset of the ready channels, and may return with none. */
  predicate Enabled(s: State, e: Event) {
    match e
    case Enter => s.pc.Outside?
    case Push(t, _) => t !in s.owing
    case SetQuit(t) => t !in s.owing
    case Wakeup(t) => t in s.owing
    case Check => s.pc.Checking?
    case PollReturns(wakeActive) => s.pc.Polling? && (wakeActive ==> s.counter > 0)
    case LoopPush(_) => InCallback(s)
    case LoopQuit => InCallback(s)
    case LoopWakeup => s.loopOwes
    case HandleRead => s.pc == Handling(true)
    case EndHandling => s.pc == Handling(false)
    case Swap => s.pc.Entering?
    case RunOne => s.pc.Running? && !s.loopOwes && s.batch != []
    case EndBatch => s.pc.Running? && !s.loopOwes && s.batch == []
  }

  function Woken(counter: nat): nat {
    if counter < MAX_COUNTER then counter + 1 else counter
  }

  function Step(s: State, e: Event): State
    requires Enabled(s, e)
  {
    match e
    // loop() forgets a quit that was asked for before it.
    case Enter => s.(pc := Checking, quit := false)
    case Push(t, f) => s.(pending := s.pending + [f], posted := s.posted + [f], owing := s.owing + {t})
    case SetQuit(t) => s.(quit := true, owing := s.owing + {t})
    case Wakeup(t) => s.(counter := Woken(s.counter), owing := s.owing - {t})
    case Check => s.(pc := if s.quit then Stopped else Polling)
    case PollReturns(wakeActive) => s.(pc := Handling(wakeActive))
    // The loop thread wakes itself only while pending functors are being called.
    case LoopPush(f) => s.(pending := s.pending + [f], posted := s.posted + [f], loopOwes := s.calling)
    case LoopQuit => s.(quit := true)
    case LoopWakeup => s.(counter := Woken(s.counter), loopOwes := false)
    case HandleRead => s.(pc := Handling(false), counter := 0)
    case EndHandling => s.(pc := Entering, calling := true)
    case Swap => s.(pc := Running, batch := s.pending, pending := [])
    case RunOne => s.(batch := s.batch[1..], executed := s.executed + [s.batch[0]])
    case EndBatch => s.(pc := Checking, calling := false)
  }

  predicate Valid(s: State, es: seq<Event>)
    decreases |es|
  {
    es == [] || (Enabled(s, es[0]) && Valid(Step(s, es[0]), es[1..]))
  }

  function Run(s: State, es: seq<Event>): State
    requires Valid(s, es)
    decreases |es|
  {
    if es == [] then s else Run(Step(s, es[0]), es[1..])
  }

  // ----- What every step keeps -----

  /** The eventfd is readable, or a write to it is on its way. */
  predicate Alarmed(s: State) {
    s.counter > 0 || s.owing != {} || s.loopOwes
  }

  /** Everything posted has been executed, is in the current batch or is queued, in this order. */
  predicate Conserved(s: State) {
    s.posted == s.executed + s.batch + s.pending
  }

  predicate Awake(s: State) {
    && !s.pc.Outside?
    && (s.calling <==> s.pc.Entering? || s.pc.Running?)
    && (s.loopOwes ==> s.pc.Running?)
    && (s.batch != [] ==> s.pc.Running?)
    && (s.pc == Handling(true) ==> s.counter > 0)
    && (s.pending != [] && (s.pc.Checking? || s.pc.Polling? || s.pc.Running?) ==> Alarmed(s))
    && (s.quit && s.pc.Polling? ==> Alarmed(s))
  }

  predicate Inv(s: State) {
    Awake(s) && Conserved(s)
  }

  lemma StepConserves(s: State, e: Event)
    requires Inv(s) && Enabled(s, e)
    ensures Conserved(Step(s, e))
  {
    var s' := Step(s, e);
    match e
    case RunOne =>
      assert s.batch == [s.batch[0]] + s.batch[1..];
      assert s'.executed + s'.batch == s.executed + s.batch;
    case Swap =>
      assert s.batch == [];
      assert s'.executed + s'.batch + s'.pending == s.executed + s.pending;
    case Push(_, f) =>
      assert s'.executed + s'.batch + s'.pending == s.executed + s.batch + s.pending + [f];
    case LoopPush(f) =>
      assert s'.executed + s'.batch + s'.pending == s.executed + s.batch + s.pending + [f];
    case _ =>
  }

  lemma StepKeepsAwake(s: State, e: Event)
    requires Awake(s) && Enabled(s, e)
    ensures Awake(Step(s, e))
  {
    match e
    case Push(t, _) => assert t in Step(s, e).owing;
    case SetQuit(t) => assert t in Step(s, e).owing;
    case _ =>
  }

  lemma StepKeepsInv(s: State, e: Event)
    requires Inv(s) && Enabled(s, e)
    ensures Inv(Step(s, e))
  {
    hide Step, Enabled;
    StepConserves(s, e);
    StepKeepsAwake(s, e);
  }

  lemma {:induction false} RunKeepsInv(s: State, es: seq<Event>)
    requires Inv(s) && Valid(s, es)
    ensures Inv(Run(s, es))
    decreases |es|
  {
    if es != [] {
      StepKeepsInv(s, es[0]);
      RunKeepsInv(Step(s, es[0]), es[1..]);
    }
  }

  // ----- What that means -----

  /** The loop is blocked in poll although a functor is queued or a quit was asked for, and nothing is going
      to make the eventfd readable. */
  predicate Stuck(s: State) {
    s.pc.Polling? && (s.pending != [] || s.quit) && s.counter == 0 && s.owing == {}
  }

  predicate GetsStuck(s: State, es: seq<Event>) {
    Valid(s, es) && Stuck(Run(s, es))
  }

  /** No run leaves the loop stuck, if and only if what was queued before loop() was announced. */
  lemma NeverStuck(s: State)
    requires Started(s)
    ensures (exists es :: GetsStuck(s, es)) <==> s.pending != [] && !Alarmed(s)
  {
    if s.pending == [] || Alarmed(s) {
      forall es ensures !GetsStuck(s, es) {
        if Valid(s, es) { RunKeepsInv(s, es); }
      }
    } else {
      SilentStartGetsStuck(s);
      assert GetsStuck(s, [Check]);
    }
  }

  lemma SilentStartGetsStuck(s: State)
    requires Started(s) && s.pending != [] && !Alarmed(s)
    ensures Valid(s, [Check]) && Stuck(Run(s, [Check]))
  {
    var s' := Step(s, Check);
    assert [Check][1..] == [] && Valid(s', []) && Run(s', []) == s';
    assert Valid(s, [Check]) && Run(s, [Check]) == s';
  }

  /** Such a start from a new loop: its own thread queues a functor, enters the loop and waits. */
  lemma QueuedBeforeLoopWaits(f: Functor)
    ensures var es := [LoopPush(f), Enter, Check];
            Valid(CREATED, es) && GetsStuck(CREATED, es) && Run(CREATED, es).pending == [f]
  {
    hide Valid, Run;
    var s1 := Step(CREATED, LoopPush(f));
    var s2 := Step(s1, Enter);
    var es2 := [Check] + [];
    var es1 := [Enter] + es2;
    RunFirst(s2, Check, []);
    RunFirst(s1, Enter, es2);
    RunFirst(CREATED, LoopPush(f), es1);
    assert [LoopPush(f)] + es1 == [LoopPush(f), Enter, Check];
  }

  lemma RunFirst(s: State, e: Event, es: seq<Event>)
    requires Enabled(s, e)
    ensures es == [] ==> Valid(Step(s, e), es) && Run(Step(s, e), es) == Step(s, e)
    ensures Valid(Step(s, e), es) ==> Valid(s, [e] + es) && Run(s, [e] + es) == Run(Step(s, e), es)
  {
    assert ([e] + es)[1..] == es;
  }

  /** In every run the functors executed, followed by the current batch and the queue, are exactly those
      posted, in posting order: each runs at most once and none is overtaken or lost. */
  lemma InPostingOrder(s: State, es: seq<Event>)
    requires Started(s) && (s.pending == [] || Alarmed(s)) && Valid(s, es)
    ensures var s' := Run(s, es);
            && s'.posted == s'.executed + s'.batch + s'.pending
            && s'.executed <= s'.posted
            && s.posted <= s'.posted
  {
    hide Run, Valid, Alarmed;
    assert Inv(s);
    RunKeepsInv(s, es);
    PostedGrows(s, es);
    var s' := Run(s, es);
    assert s'.posted == s'.executed + (s'.batch + s'.pending);
  }

  lemma {:induction false} PostedGrows(s: State, es: seq<Event>)
    requires Valid(s, es)
    ensures s.posted <= Run(s, es).posted
    decreases |es|
  {
    if es != [] {
      PostedGrows(Step(s, es[0]), es[1..]);
    }
  }

  lemma OnlySwapRefills(s: State, e: Event)
    requires Enabled(s, e) && e != Swap
    ensures Step(s, e).executed + Step(s, e).batch == s.executed + s.batch
  {
    if e == RunOne { assert s.batch == [s.batch[0]] + s.batch[1..]; }
  }

  /** A batch that has been swapped out is run to its end before the loop looks at quit again. */
  lemma {:induction false} BatchIsServed(s: State, es: seq<Event>)
    requires Inv(s) && Valid(s, es) && Swap !in es
    ensures var s' := Run(s, es);
            && s'.executed + s'.batch == s.executed + s.batch
            && (!s'.pc.Running? ==> s'.executed == s.executed + s.batch)
    decreases |es|
  {
    hide Step, Enabled, Conserved;
    if es == [] {
      assert s.batch != [] ==> s.pc.Running?;
    } else {
      assert es[0] in es && Swap !in es[1..];
      OnlySwapRefills(s, es[0]);
      StepKeepsInv(s, es[0]);
      BatchIsServed(Step(s, es[0]), es[1..]);
    }
  }

  /** Every functor queued when the queue is swapped has run, in order, once the loop leaves that batch. */
  lemma QueuedIsExecuted(s: State, es: seq<Event>)
    requires Inv(s) && s.pc.Entering? && Valid(Step(s, Swap), es) && Swap !in es
    requires !Run(Step(s, Swap), es).pc.Running?
    ensures Run(Step(s, Swap), es).executed == s.posted
  {
    StepKeepsInv(s, Swap);
    BatchIsServed(Step(s, Swap), es);
  }

  /** At the head of the loop no batch is left. */
  lemma NothingHalfDone(s: State)
    requires Inv(s) && s.pc.Checking?
    ensures s.batch == [] && s.posted == s.executed + s.pending
  {
    assert s.executed + [] == s.executed;
  }

  // ----- Quitting -----

  lemma {:induction false} QuitSurvives(s: State, es: seq<Event>)
    requires s.quit && !s.pc.Outside? && Valid(s, es)
    ensures Run(s, es).quit && !Run(s, es).pc.Outside?
    decreases |es|
  {
    if es != [] {
      QuitSurvives(Step(s, es[0]), es[1..]);
    }
  }

  predicate Forgets(s: State, es: seq<Event>) {
    Valid(s, es) && !Run(s, es).quit
  }

  /** quit(), called by the loop thread or by another. */
  predicate AsksToQuit(e: Event) {
    e.LoopQuit? || e.SetQuit?
  }

  /** A quit, whichever thread asks for it, can be forgotten if and only if the loop has not been entered. */
  lemma QuitIsKept(s: State, q: Event)
    requires AsksToQuit(q) && Enabled(s, q)
    ensures (forall es :: !Forgets(Step(s, q), es)) <==> !s.pc.Outside?
  {
    var s1 := Step(s, q);
    if s.pc.Outside? {
      var s2 := Step(s1, Enter);
      assert [Enter][1..] == [] && Valid(s2, []) && Run(s2, []) == s2;
      assert Forgets(s1, [Enter]);
    } else {
      forall es ensures !Forgets(s1, es) {
        if Valid(s1, es) { QuitSurvives(s1, es); }
      }
    }
  }

  lemma {:induction false} StoppedStays(s: State, es: seq<Event>)
    requires s.pc.Stopped? && Valid(s, es)
    ensures Run(s, es).pc.Stopped?
    decreases |es|
  {
    if es != [] {
      StoppedStays(Step(s, es[0]), es[1..]);
    }
  }

  /** A quit that is kept is honoured: the loop stops for good the next time it looks. */
  lemma {:induction false} QuitIsHonoured(s: State, es: seq<Event>)
    requires s.quit && !s.pc.Outside? && Valid(s, es) && Check in es
    ensures Run(s, es).pc.Stopped?
    decreases |es|
  {
    if es[0] == Check {
      StoppedStays(Step(s, Check), es[1..]);
    } else {
      QuitSurvives(Step(s, es[0]), []);
      QuitIsHonoured(Step(s, es[0]), es[1..]);
    }
  }

  lemma {:induction false} QuitInsideStops(s: State, es: seq<Event>, j: nat, k: nat)
    requires !s.pc.Outside? && Valid(s, es) && j < k < |es| && AsksToQuit(es[j]) && es[k] == Check
    ensures Run(s, es).pc.Stopped?
    decreases |es|
  {
    if j == 0 {
      assert es[k] == es[1..][k - 1];
      QuitIsHonoured(Step(s, es[0]), es[1..]);
    } else {
      QuitInsideStops(Step(s, es[0]), es[1..], j - 1, k - 1);
    }
  }

  /** quit() ends the loop: every run that enters it, has any thread ask to quit after that, and looks at the flag
      after that, ends with the loop stopped. */
  lemma {:induction false} QuitStopsTheLoop(s: State, es: seq<Event>, i: nat, j: nat, k: nat)
    requires Valid(s, es) && i < j < k < |es| && es[i] == Enter && AsksToQuit(es[j]) && es[k] == Check
    ensures Run(s, es).pc.Stopped?
    decreases |es|
  {
    if i == 0 {
      QuitInsideStops(Step(s, es[0]), es[1..], j - 1, k - 1);
    } else {
      QuitStopsTheLoop(Step(s, es[0]), es[1..], i - 1, j - 1, k - 1);
    }
  }

  /** And nothing else does: a loop that stops was asked to. */
  lemma {:induction false} StopsOnlyWhenAsked(s: State, es: seq<Event>)
    requires Valid(s, es) && !s.quit && !s.pc.Stopped? && Run(s, es).pc.Stopped?
    ensures exists j :: 0 <= j < |es| && AsksToQuit(es[j])
    decreases |es|
  {
    if AsksToQuit(es[0]) {
    } else {
      StopsOnlyWhenAsked(Step(s, es[0]), es[1..]);
      var j :| 0 <= j < |es[1..]| && AsksToQuit(es[1..][j]);
      assert AsksToQuit(es[j + 1]);
    }
  }

  // ----- The eventfd -----

  /** The wake-ups written in a run. */
  function Wakes(es: seq<Event>): nat {
    if es == [] then 0 else (if es[0].Wakeup? || es[0].LoopWakeup? then 1 else 0) + Wakes(es[1..])
  }

  lemma {:induction false} WakeupsAdd(s: State, es: seq<Event>)
    requires Valid(s, es) && s.counter <= 18446744073709551614 && HandleRead !in es
    ensures Run(s, es).counter == Capped(s.counter + Wakes(es))
    decreases |es|
  {
    if es != [] {
      assert es[0] in es && HandleRead !in es[1..];
      WakeupsAdd(Step(s, es[0]), es[1..]);
    }
  }

  function Capped(n: nat): nat {
    if n < 18446744073709551614 then n else 18446744073709551614
  }

  /** The eventfd holds the number of wake-ups written since it was last read, up to two less than 2 to the 64. */
  lemma {:induction false} EventfdCounts(s: State, es: seq<Event>, i: nat)
    requires Valid(s, es) && i < |es| && es[i] == HandleRead && HandleRead !in es[i + 1..]
    ensures Run(s, es).counter == Capped(Wakes(es[i + 1..]))
    decreases |es|
  {
    if i == 0 {
      WakeupsAdd(Step(s, es[0]), es[1..]);
    } else {
      assert es[1..][i..] == es[i + 1..];
      EventfdCounts(Step(s, es[0]), es[1..], i - 1);
    }
  }

  // ----- What happens while the loop thread is at one place -----

  /** A step of another thread, or of a callback. */
  predicate IsMeanwhile(e: Event) {
    e.Push? || e.SetQuit? || e.Wakeup? || e.LoopPush? || e.LoopQuit? || e.LoopWakeup?
  }

  predicate Meanwhile(s: State, es: seq<Event>) {
    Valid(s, es) && forall i :: 0 <= i < |es| ==> IsMeanwhile(es[i])
  }

  /** The functors queued by a sequence of steps. */
  function Posts(es: seq<Event>): seq<Functor> {
    if es == [] then [] else PostOf(es[0]) + Posts(es[1..])
  }

  function PostOf(e: Event): seq<Functor> {
    if e.Push? || e.LoopPush? then [e.f] else []
  }

  lemma MeanwhileStep(s: State, e: Event)
    requires Enabled(s, e) && IsMeanwhile(e)
    ensures var s' := Step(s, e);
            && s'.pc == s.pc && s'.calling == s.calling && s'.batch == s.batch && s'.executed == s.executed
            && s'.pending == s.pending + PostOf(e) && s'.posted == s.posted + PostOf(e)
  {
  }

  lemma {:induction false} MeanwhileFacts(s: State, es: seq<Event>)
    requires Meanwhile(s, es)
    ensures var s' := Run(s, es);
            && s'.pc == s.pc && s'.calling == s.calling && s'.batch == s.batch && s'.executed == s.executed
            && s'.pending == s.pending + Posts(es) && s'.posted == s.posted + Posts(es)
    decreases |es|
  {
    if es == [] {
      assert s.pending + [] == s.pending && s.posted + [] == s.posted;
    } else {
      hide Step, Enabled, IsMeanwhile, PostOf;
      var now, later := PostOf(es[0]), Posts(es[1..]);
      MeanwhileStep(s, es[0]);
      MeanwhileFacts(Step(s, es[0]), es[1..]);
      assert s.pending + now + later == s.pending + (now + later);
      assert s.posted + now + later == s.posted + (now + later);
    }
  }

  /** What happens during the i-th callback; nothing beyond the end of the script. */
  function At(script: seq<seq<Event>>, i: nat): seq<Event> {
    if i < |script| then script[i] else []
  }

  /** The functors queued during the first n callbacks. */
  function PostsDuring(script: seq<seq<Event>>, n: nat): seq<Functor> {
    if n == 0 then [] else PostsDuring(script, n - 1) + Posts(At(script, n - 1))
  }

  /** The script can happen: from s, in the i-th callback, with n functors of the batch left. */
  predicate CanServe(s: State, script: seq<seq<Event>>, i: nat, n: nat)
    decreases n
  {
    && s.pc.Running? && !s.loopOwes && |s.batch| == n
    && (n > 0 ==>
          var s1 := Step(s, RunOne);
          Meanwhile(s1, At(script, i)) && CanServe(Run(s1, At(script, i)), script, i + 1, n - 1))
  }

  /** Where serving the rest of the batch leads. */
  function Served(s: State, script: seq<seq<Event>>, i: nat, n: nat): (r: State)
    requires CanServe(s, script, i, n)
    ensures r.pc.Running? && !r.loopOwes && r.batch == []
    decreases n
  {
    if n == 0 then s else Served(Run(Step(s, RunOne), At(script, i)), script, i + 1, n - 1)
  }

  predicate CanDoPending(s: State, before: seq<Event>, during: seq<seq<Event>>) {
    && s.pc == Handling(false) && Enabled(s, EndHandling)
    && Meanwhile(Step(s, EndHandling), before)
    && var s1 := Run(Step(s, EndHandling), before);
       s1.pc.Entering? && CanServe(Step(s1, Swap), during, 0, |s1.pending|)
  }

  function DonePending(s: State, before: seq<Event>, during: seq<seq<Event>>): State
    requires CanDoPending(s, before, during)
  {
    var s1 := Run(Step(s, EndHandling), before);
    Step(Served(Step(s1, Swap), during, 0, |s1.pending|), EndBatch)
  }

  /** One pass of loop(): what happens while it polls, whether poll reports the wake-up channel, what the event
      callbacks do before and after the wake-up channel is read, and what happens while functors are run. */
  datatype Round = Round(
    polling: seq<Event>, wakeActive: bool, handling: seq<Event>, after: seq<Event>,
    before: seq<Event>, during: seq<seq<Event>>)

  function Polled(s: State, r: Round): State
    requires s.pc.Checking? && Meanwhile(Step(s, Check), r.polling)
  {
    Run(Step(s, Check), r.polling)
  }

  predicate CanPoll(s: State, r: Round) {
    && s.pc.Checking? && !s.quit
    && Meanwhile(Step(s, Check), r.polling)
    && Enabled(Polled(s, r), PollReturns(r.wakeActive))
    && Meanwhile(Step(Polled(s, r), PollReturns(r.wakeActive)), r.handling)
  }

  /** The loop thread in its event callbacks, just before or without the wake-up channel. */
  function Handled(s: State, r: Round): State
    requires CanPoll(s, r)
  {
    Run(Step(Polled(s, r), PollReturns(r.wakeActive)), r.handling)
  }

  predicate CanRead(s: State, r: Round) {
    && CanPoll(s, r)
    && (r.wakeActive ==> Enabled(Handled(s, r), HandleRead))
    && Meanwhile(if r.wakeActive then Step(Handled(s, r), HandleRead) else Handled(s, r), r.after)
  }

  function Read(s: State, r: Round): State
    requires CanRead(s, r)
  {
    Run(if r.wakeActive then Step(Handled(s, r), HandleRead) else Handled(s, r), r.after)
  }

  predicate CanRound(s: State, r: Round) {
    CanRead(s, r) && CanDoPending(Read(s, r), r.before, r.during)
  }

  function AfterRound(s: State, r: Round): State
    requires CanRound(s, r)
  {
    DonePending(Read(s, r), r.before, r.during)
  }

  /** The passes can happen one after the other, as long as nobody asks to quit. */
  predicate CanLoop(s: State, rounds: seq<Round>)
    decreases |rounds|
  {
    rounds == [] || s.quit || (CanRound(s, rounds[0]) && CanLoop(AfterRound(s, rounds[0]), rounds[1..]))
  }

  // ----- The loop object -----

  /** A thread id, or None for the loop thread itself: isInLoopThread(). */
  type Caller = Option<Thread>

  class Loop {
    var quit: bool
    var callingPendingFunctors: bool
    var pendingFunctors: seq<Functor>
    var functors: seq<Functor>
    var eventfd: nat
    ghost var pc: Pc
    ghost var owing: set<Thread>
    ghost var loopOwes: bool
    ghost var posted: seq<Functor>
    ghost var executed: seq<Functor>

    ghost function View(): State
      reads this
    {
      State(pc, quit, callingPendingFunctors, pendingFunctors, functors, eventfd, owing, loopOwes, posted, executed)
    }

    constructor ()
      ensures View() == CREATED
    {
      quit, callingPendingFunctors := false, false;
      pendingFunctors, functors, eventfd := [], [], 0;
      pc, owing, loopOwes, posted, executed := Outside, {}, false, [], [];
    }

    /** The critical section of queueInLoop; the result says whether a wake-up must follow. */
    method QueueInLoop(caller: Caller, f: Functor) returns (mustWake: bool)
      requires Enabled(View(), if caller.Some? then Push(caller.value, f) else LoopPush(f))
      modifies this
      ensures View() == Step(old(View()), if caller.Some? then Push(caller.value, f) else LoopPush(f))
      ensures mustWake <==> caller.Some? || old(callingPendingFunctors)
    {
      pendingFunctors := pendingFunctors + [f];
      posted := posted + [f];
      mustWake := caller.Some? || callingPendingFunctors;
      if caller.Some? { owing := owing + {caller.value}; } else { loopOwes := callingPendingFunctors; }
    }

    method Quit(caller: Caller) returns (mustWake: bool)
      requires Enabled(View(), if caller.Some? then SetQuit(caller.value) else LoopQuit)
      modifies this
      ensures View() == Step(old(View()), if caller.Some? then SetQuit(caller.value) else LoopQuit)
      ensures mustWake <==> caller.Some?
    {
      quit := true;
      mustWake := caller.Some?;
      if caller.Some? { owing := owing + {caller.value}; }
    }

    method WriteWakeup(caller: Caller)
      requires Enabled(View(), if caller.Some? then Wakeup(caller.value) else LoopWakeup)
      modifies this
      ensures View() == Step(old(View()), if caller.Some? then Wakeup(caller.value) else LoopWakeup)
    {
      if eventfd < MAX_COUNTER { eventfd := eventfd + 1; }
      if caller.Some? { owing := owing - {caller.value}; } else { loopOwes := false; }
    }

    /** The steps of other threads and of callbacks, one after the other. */
    method Others(es: seq<Event>)
      requires Meanwhile(View(), es)
      modifies this
      ensures View() == Run(old(View()), es)
    {
      var i := 0;
      while i < |es|
        invariant 0 <= i <= |es|
        invariant Meanwhile(View(), es[i..]) && Run(View(), es[i..]) == Run(old(View()), es)
      {
        assert es[i..][1..] == es[i + 1..] && IsMeanwhile(es[i]);
        Perform(es[i]);
        i := i + 1;
      }
    }

    method Perform(e: Event)
      requires IsMeanwhile(e) && Enabled(View(), e)
      modifies this
      ensures View() == Step(old(View()), e)
    {
      match e
      case Push(t, f) => var _ := QueueInLoop(Some(t), f);
      case LoopPush(f) => var _ := QueueInLoop(None, f);
      case SetQuit(t) => var _ := Quit(Some(t));
      case LoopQuit => var _ := Quit(None);
      case Wakeup(t) => WriteWakeup(Some(t));
      case LoopWakeup => WriteWakeup(None);
    }

    /** doPendingFunctors: before is what happens until the swap, during what happens while each functor runs.
        Exactly the functors queued at the swap are executed, in order, and exactly what was queued meanwhile is
        left in the queue. */
    method DoPendingFunctors(before: seq<Event>, during: seq<seq<Event>>)
      requires Inv(View()) && CanDoPending(View(), before, during)
      modifies this
      ensures Inv(View()) && pc.Checking? && !callingPendingFunctors && functors == []
      ensures executed == old(executed) + (old(pendingFunctors) + Posts(before)) == old(posted) + Posts(before)
      ensures pendingFunctors == PostsDuring(during, |old(pendingFunctors) + Posts(before)|)
      ensures posted == old(posted) + Posts(before) + pendingFunctors
      ensures View() == DonePending(old(View()), before, during)
    {
      hide Inv, Run, Posts, PostsDuring, Meanwhile, CanServe, Served;
      BeginPending(before);
      StepKeepsInv(View(), Swap);
      functors, pendingFunctors := pendingFunctors, [];
      pc := Running;
      ServeBatch(during);
      StepKeepsInv(View(), EndBatch);
      callingPendingFunctors := false;
      pc := Checking;
    }

    method BeginPending(before: seq<Event>)
      requires Inv(View()) && Enabled(View(), EndHandling) && Meanwhile(Step(View(), EndHandling), before)
      modifies this
      ensures Inv(View()) && View() == Run(Step(old(View()), EndHandling), before)
      ensures pc.Entering? && executed == old(executed) && functors == old(functors)
      ensures pendingFunctors == old(pendingFunctors) + Posts(before) && posted == old(posted) + Posts(before)
      ensures posted == executed + pendingFunctors
    {
      assert posted == executed + pendingFunctors by { assert functors == []; }
      StepKeepsInv(View(), EndHandling);
      callingPendingFunctors := true;
      pc := Entering;
      RunKeepsInv(View(), before);
      MeanwhileFacts(View(), before);
      hide Inv, Run, Meanwhile, Posts;
      Others(before);
      assert posted == executed + (old(pendingFunctors) + Posts(before));
    }

    /** The loop over the batch. */
    method ServeBatch(during: seq<seq<Event>>)
      requires Inv(View()) && pendingFunctors == [] && CanServe(View(), during, 0, |functors|)
      modifies this
      ensures Inv(View()) && pc.Running? && !loopOwes && functors == []
      ensures executed == old(executed) + old(functors)
      ensures pendingFunctors == PostsDuring(during, |old(functors)|)
      ensures posted == old(posted) + pendingFunctors
      ensures View() == Served(old(View()), during, 0, |old(functors)|)
    {
      hide Inv, Run, Meanwhile, Posts, Step;
      var i := 0;
      assert posted == old(posted) + [];
      while functors != []
        invariant 0 <= i && i + |functors| == |old(functors)|
        invariant Inv(View()) && CanServe(View(), during, i, |functors|)
        invariant Served(View(), during, i, |functors|) == Served(old(View()), during, 0, |old(functors)|)
        invariant executed + functors == old(executed) + old(functors)
        invariant pendingFunctors == PostsDuring(during, i) && posted == old(posted) + pendingFunctors
        decreases |functors|
      {
        ServeNext(At(during, i));
        assert posted == old(posted) + (PostsDuring(during, i) + Posts(At(during, i)));
        i := i + 1;
      }
    }

    /** One functor of the batch. */
    method ServeNext(script: seq<Event>)
      requires Inv(View()) && Enabled(View(), RunOne) && Meanwhile(Step(View(), RunOne), script)
      modifies this
      ensures Inv(View()) && View() == Run(Step(old(View()), RunOne), script)
      ensures functors == old(functors)[1..] && executed == old(executed) + [old(functors)[0]]
      ensures executed + functors == old(executed) + old(functors)
      ensures pendingFunctors == old(pendingFunctors) + Posts(script) && posted == old(posted) + Posts(script)
    {
      StepKeepsInv(View(), RunOne);
      assert functors == [functors[0]] + functors[1..];
      executed := executed + [functors[0]];
      functors := functors[1..];
      RunKeepsInv(View(), script);
      MeanwhileFacts(View(), script);
      hide Inv, Run, Meanwhile, Posts;
      Others(script);
    }

    /** The loop condition; poll is entered when it holds. */
    method CheckQuit() returns (goOn: bool)
      requires Enabled(View(), Check)
      modifies this`pc
      ensures View() == Step(old(View()), Check)
      ensures goOn <==> pc.Polling?
    {
      goOn := !quit;
      pc := if quit then Stopped else Polling;
    }

    /** The wake-up channel's read callback: the read always finds something and resets the eventfd. */
    method ReadWakeup() returns (value: nat)
      requires Inv(View()) && Enabled(View(), HandleRead)
      modifies this
      ensures View() == Step(old(View()), HandleRead)
      ensures value == old(eventfd) > 0
    {
      value := eventfd;
      eventfd := 0;
      pc := Handling(false);
    }

    /** loop(), as long as the script says what happens: every pass runs everything that was queued when it began,
        and the loop ends exactly when it finds the quit flag set at its head. */
    method RunLoop(rounds: seq<Round>) returns (passes: nat)
      requires Enabled(View(), Enter) && !callingPendingFunctors && !loopOwes && functors == []
      requires posted == executed + pendingFunctors && (pendingFunctors == [] || Alarmed(View()))
      requires CanLoop(Step(View(), Enter), rounds)
      modifies this
      ensures Inv(View()) && passes <= |rounds| && posted == executed + pendingFunctors
      ensures passes > 0 ==> old(posted) <= executed
      ensures passes < |rounds| ==> quit && pc.Stopped?
      ensures passes == |rounds| ==> pc.Checking?
    {
      hide Inv, CanLoop, Alarmed, Step;
      EnterLoop();
      passes := RunRounds(rounds);
      if passes < |rounds| {
        Stop();
      }
    }

    /** The loop condition found the quit flag. */
    method Stop()
      requires Inv(View()) && pc.Checking? && quit
      modifies this`pc
      ensures Inv(View()) && pc.Stopped?
    {
      StepKeepsInv(View(), Check);
      var goOn := CheckQuit();
    }

    method EnterLoop()
      requires Enabled(View(), Enter) && !callingPendingFunctors && !loopOwes && functors == []
      requires posted == executed + pendingFunctors && (pendingFunctors == [] || Alarmed(View()))
      modifies this`quit, this`pc
      ensures Inv(View()) && View() == Step(old(View()), Enter) && pc.Checking?
    {
      quit, pc := false, Checking;
    }

    method RunRounds(rounds: seq<Round>) returns (passes: nat)
      requires pc.Checking? && Inv(View()) && CanLoop(View(), rounds)
      modifies this
      ensures Inv(View()) && pc.Checking? && passes <= |rounds| && posted == executed + pendingFunctors
      ensures passes > 0 ==> old(posted) <= executed
      ensures passes < |rounds| ==> quit
    {
      hide Inv, CanRound, AfterRound, Step;
      NothingHalfDone(View());
      passes := 0;
      while passes < |rounds| && !quit
        invariant passes <= |rounds| && pc.Checking? && Inv(View()) && CanLoop(View(), rounds[passes..])
        invariant posted == executed + pendingFunctors && old(posted) <= posted
        invariant passes > 0 ==> old(posted) <= executed
      {
        assert rounds[passes..][1..] == rounds[passes + 1..];
        LoopRound(rounds[passes]);
        passes := passes + 1;
      }
    }

    /** One pass of the while loop of loop(): everything queued when the pass began has run when it ends, and
        nothing is left half done. */
    method LoopRound(r: Round)
      requires Inv(View()) && CanRound(View(), r)
      modifies this
      ensures Inv(View()) && pc.Checking? && functors == []
      ensures old(posted) <= executed && posted == executed + pendingFunctors
      ensures View() == AfterRound(old(View()), r)
    {
      hide Inv, Read, CanRead, CanDoPending, DonePending, Posts, PostsDuring;
      PollAndHandle(r);
      DoPendingFunctors(r.before, r.during);
    }

    /** poll and the event callbacks of one pass. */
    method PollAndHandle(r: Round)
      requires Inv(View()) && CanRead(View(), r)
      modifies this
      ensures Inv(View()) && View() == Read(old(View()), r)
      ensures old(posted) <= posted
    {
      StepKeepsInv(View(), Check);
      PostedGrows(Step(View(), Check), r.polling);
      RunKeepsInv(Step(View(), Check), r.polling);
      var goOn := CheckQuit();
      Others(r.polling);
      ghost var polled := View();
      StepKeepsInv(polled, PollReturns(r.wakeActive));
      PostedGrows(Step(polled, PollReturns(r.wakeActive)), r.handling);
      RunKeepsInv(Step(polled, PollReturns(r.wakeActive)), r.handling);
      pc := Handling(r.wakeActive);
      Others(r.handling);
      if r.wakeActive {
        StepKeepsInv(View(), HandleRead);
        var _ := ReadWakeup();
      }
      PostedGrows(View(), r.after);
      RunKeepsInv(View(), r.after);
      Others(r.after);
    }
  }
}
