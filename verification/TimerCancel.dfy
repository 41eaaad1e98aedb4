/** What cancelling a timer achieves in networking/TimerQueue.cpp: exactly which timers some continuation can
    still run, and so exactly when a cancelled one can run again. */
module TimerCancel {
  import opened TimerQueue

  // ----- What can still run -----

  /** The step runs the callback of timer number n. */
  predicate Runs(s: State, e: Event, n: nat)
    requires Enabled(s, e)
  {
    e.RunNext? && s.heap[s.phase.expired[s.phase.next].addr].sequence == n
  }

  ghost predicate RunsIn(s: State, es: seq<Event>, n: nat)
    decreases |es|
  {
    es != [] && Enabled(s, es[0]) && Valid(s, es) && (Runs(s, es[0], n) || RunsIn(Step(s, es[0]), es[1..], n))
  }

  ghost predicate CanRun(s: State, n: nat) {
    exists es :: RunsIn(s, es, n)
  }

  /** The timer is in the batch being run and its turn has not come. */
  predicate Ahead(s: State, a: Addr) {
    s.phase.Firing? && exists i :: s.phase.next <= i < |s.phase.expired| && s.phase.expired[i].addr == a
  }

  /** The timer is handed over, queued, still to run in its batch, or to be restarted after it. */
  predicate ToCome(s: State, a: Addr)
    requires a in s.heap
  {
    a in s.waiting || Queued(s, a) || Ahead(s, a) || (InBatch(s, a) && s.heap[a].repeat)
  }

  predicate Carries(s: State, a: Addr, n: nat) {
    a in s.heap && s.heap[a].sequence == n && ToCome(s, a)
  }

  /** The number is not given out yet, or its timer is still to come. */
  ghost predicate Alive(s: State, n: nat) {
    n > s.created || exists a :: Carries(s, a, n)
  }

  // ----- What is alive can run -----

  lemma CanFirst(s: State, e: Event, n: nat)
    requires Enabled(s, e) && CanRun(Step(s, e), n)
    ensures CanRun(s, n)
  {
    hide Step, Enabled, Runs;
    var es :| RunsIn(Step(s, e), es, n);
    assert ([e] + es)[1..] == es;
    assert RunsIn(s, [e] + es, n);
  }

  lemma CanNow(s: State, n: nat)
    requires Enabled(s, RunNext) && Runs(s, RunNext, n)
    ensures CanRun(s, n)
  {
    assert [RunNext][1..] == [] && Valid(Step(s, RunNext), []);
    assert RunsIn(s, [RunNext], n);
  }

  lemma BatchIsLive(s: State, i: nat)
    requires Inv(s) && i < |Batch(s)|
    ensures Batch(s)[i].addr in s.heap
  {
  }

  lemma {:induction false} AheadRuns(s: State, i: nat, n: nat)
    requires Inv(s) && s.phase.Firing? && s.phase.next <= i < |s.phase.expired|
    requires s.phase.expired[i].addr in s.heap && s.heap[s.phase.expired[i].addr].sequence == n
    ensures CanRun(s, n)
    decreases i - s.phase.next
  {
    BatchIsLive(s, s.phase.next);
    hide Inv, CanRun;
    if i == s.phase.next {
      CanNow(s, n);
    } else {
      StepKeepsInv(s, RunNext);
      AheadRuns(Step(s, RunNext), i, n);
      CanFirst(s, RunNext, n);
    }
  }

  lemma DueRuns(s: State, a: Addr, n: nat)
    requires Inv(s) && s.phase.Quiet? && Queued(s, a) && s.heap[a].sequence == n && s.heap[a].expiration <= s.clock
    ensures CanRun(s, n)
  {
    FireTakesTheDue(s);
    FireKeepsInv(s);
    hide Inv, CanRun;
    var s1 := Step(s, HandleRead);
    var e := Entry(s.heap[a].expiration, a);
    assert e in s1.phase.expired;
    var i :| 0 <= i < |s1.phase.expired| && s1.phase.expired[i] == e;
    AheadRuns(s1, i, n);
    CanFirst(s, HandleRead, n);
  }

  lemma QueuedRuns(s: State, a: Addr, n: nat)
    requires Inv(s) && s.phase.Quiet? && Queued(s, a) && s.heap[a].sequence == n
    ensures CanRun(s, n)
  {
    hide Inv, CanRun;
    if s.heap[a].expiration <= s.clock {
      DueRuns(s, a, n);
    } else {
      var tick := Tick(s.heap[a].expiration - s.clock);
      StepKeepsInv(s, tick);
      DueRuns(Step(s, tick), a, n);
      CanFirst(s, tick, n);
    }
  }

  lemma QuietRuns(s: State, a: Addr, n: nat)
    requires Inv(s) && s.phase.Quiet? && Carries(s, a, n)
    ensures CanRun(s, n)
  {
    if a in s.waiting {
      StepKeepsInv(s, Add(a));
      AddChangesTimers(s, Add(a));
      hide Inv, CanRun, Step;
      assert Step(s, Add(a)).phase.Quiet? by { AddKeepsPhase(s, a); }
      QueuedRuns(Step(s, Add(a)), a, n);
      CanFirst(s, Add(a), n);
    } else {
      QueuedRuns(s, a, n);
    }
  }

  lemma AddKeepsPhase(s: State, a: Addr)
    requires Enabled(s, Add(a))
    ensures Step(s, Add(a)).phase == s.phase
  {
  }

  /** A round of reset keeps what is to come. */
  lemma ResetCarries(s: State, a: Addr, n: nat)
    requires Inv(s) && s.phase.Resetting? && s.phase.left != [] && Carries(s, a, n)
    ensures Enabled(s, ResetNext) && Carries(Step(s, ResetNext), a, n)
  {
    BatchIsLive(s, 0);
    assert Batch(s)[0].addr == s.phase.left[0].addr;
    if a == s.phase.left[0].addr {
      assert InBatch(s, a);
    } else {
      ResetOneBatch(s, a);
    }
  }

  lemma {:induction false} ResettingRuns(s: State, a: Addr, n: nat)
    requires Inv(s) && s.phase.Resetting? && Carries(s, a, n)
    ensures CanRun(s, n)
    decreases |s.phase.left|
  {
    hide CanRun;
    if s.phase.left == [] {
      StepKeepsInv(s, EndReset);
      EndResetCarries(s, a, n);
      hide Inv, Carries;
      QuietRuns(Step(s, EndReset), a, n);
      CanFirst(s, EndReset, n);
    } else {
      ResetCarries(s, a, n);
      StepKeepsInv(s, ResetNext);
      hide Inv, Carries;
      ResettingRuns(Step(s, ResetNext), a, n);
      CanFirst(s, ResetNext, n);
    }
  }

  lemma EndResetCarries(s: State, a: Addr, n: nat)
    requires s.phase.Resetting? && s.phase.left == [] && Carries(s, a, n)
    ensures Carries(Step(s, EndReset), a, n) && Step(s, EndReset).phase.Quiet?
  {
  }

  lemma {:induction false} FiringRuns(s: State, a: Addr, n: nat)
    requires Inv(s) && s.phase.Firing? && s.phase.next <= |s.phase.expired| && Carries(s, a, n)
    ensures CanRun(s, n)
    decreases |s.phase.expired| - s.phase.next
  {
    hide CanRun;
    if Ahead(s, a) {
      var i :| s.phase.next <= i < |s.phase.expired| && s.phase.expired[i].addr == a;
      AheadRuns(s, i, n);
    } else if s.phase.next < |s.phase.expired| {
      BatchIsLive(s, s.phase.next);
      StepKeepsInv(s, RunNext);
      RunNextCarries(s, a, n);
      hide Inv, Carries;
      FiringRuns(Step(s, RunNext), a, n);
      CanFirst(s, RunNext, n);
    } else {
      StepKeepsInv(s, EndCallbacks);
      EndCallbacksCarries(s, a, n);
      hide Inv, Carries;
      ResettingRuns(Step(s, EndCallbacks), a, n);
      CanFirst(s, EndCallbacks, n);
    }
  }

  lemma RunNextCarries(s: State, a: Addr, n: nat)
    requires Enabled(s, RunNext) && Carries(s, a, n) && !Ahead(s, a)
    ensures Carries(Step(s, RunNext), a, n)
  {
    assert Batch(Step(s, RunNext)) == Batch(s);
  }

  lemma EndCallbacksCarries(s: State, a: Addr, n: nat)
    requires Enabled(s, EndCallbacks) && Carries(s, a, n) && !Ahead(s, a)
    ensures Carries(Step(s, EndCallbacks), a, n)
  {
    assert Batch(Step(s, EndCallbacks)) == Batch(s);
  }

  /** The next callback to run is within the batch, or one past it. */
  predicate InStep(s: State) {
    s.phase.Firing? ==> s.phase.next <= |s.phase.expired|
  }

  lemma CarriedRuns(s: State, a: Addr, n: nat)
    requires Inv(s) && InStep(s) && Carries(s, a, n)
    ensures CanRun(s, n)
  {
    hide Inv, Carries, CanRun;
    match s.phase
    case Quiet => QuietRuns(s, a, n);
    case Firing(_, _, _) => FiringRuns(s, a, n);
    case Resetting(_, _) => ResettingRuns(s, a, n);
  }

  lemma {:induction false} FreshAddress(used: set<Addr>) returns (a: Addr)
    ensures forall b :: b in used ==> b < a
    decreases |used|
  {
    if used == {} {
      a := 0;
    } else {
      var x :| x in used;
      a := FreshAddress(used - {x});
      a := if x < a then a else x + 1;
      assert forall b :: b in used ==> b == x || b in used - {x};
    }
  }

  lemma {:induction false} NewRuns(s: State, n: nat)
    requires Inv(s) && InStep(s) && n > s.created
    ensures CanRun(s, n)
    decreases n - s.created
  {
    hide CanRun;
    var a := FreshAddress(s.heap.Keys);
    var e := New(a, 0, false, 0);
    StepKeepsInv(s, e);
    var s1 := Step(s, e);
    if n == s1.created {
      assert Carries(s1, a, n);
      hide Inv, Carries;
      CarriedRuns(s1, a, n);
    } else {
      hide Inv, Carries;
      NewRuns(s1, n);
    }
    CanFirst(s, e, n);
  }

  // ----- What is not alive never runs -----

  lemma RunIsAlive(s: State, e: Event, n: nat)
    requires Enabled(s, e) && Runs(s, e, n)
    ensures Alive(s, n)
  {
    var a := s.phase.expired[s.phase.next].addr;
    assert Ahead(s, a);
    assert Carries(s, a, n);
  }

  /** What is to come after a step was to come before it, or has just been made. */
  lemma CarriedBefore(s: State, e: Event, a: Addr, n: nat)
    requires Inv(s) && Enabled(s, e) && Carries(Step(s, e), a, n)
    ensures Alive(s, n)
  {
    match e
    case New(addr, _, _, _) => NewBefore(s, e, a, n);
    case Add(addr) => AddBefore(s, e, a, n);
    case CancelId(id) => CancelBefore(s, id, a, n);
    case Tick(_) => SameBatchBefore(s, e, a, n);
    case HandleRead => FireBefore(s, a, n);
    case RunNext => SameBatchBefore(s, e, a, n);
    case EndCallbacks => SameBatchBefore(s, e, a, n);
    case ResetNext => ResetBefore(s, a, n);
    case EndReset => assert Carries(s, a, n) by { EndResetBefore(s, a, n); }
  }

  lemma NewBefore(s: State, e: Event, a: Addr, n: nat)
    requires Inv(s) && e.New? && Enabled(s, e) && Carries(Step(s, e), a, n)
    ensures Alive(s, n)
  {
    var s1 := Step(s, e);
    if a != e.addr {
      assert Batch(s1) == Batch(s);
      assert InBatch(s1, a) <==> InBatch(s, a);
      assert Ahead(s1, a) <==> Ahead(s, a);
      assert Carries(s, a, n);
    }
  }

  lemma AddBefore(s: State, e: Event, a: Addr, n: nat)
    requires Inv(s) && e.Add? && Enabled(s, e) && Carries(Step(s, e), a, n)
    ensures Alive(s, n)
  {
    AddChangesTimers(s, e);
    AddKeepsPhase(s, e.addr);
    hide Step;
    assert InBatch(Step(s, e), a) <==> InBatch(s, a);
    assert Ahead(Step(s, e), a) <==> Ahead(s, a);
    assert Carries(s, a, n);
  }

  lemma CancelBefore(s: State, id: TimerId, a: Addr, n: nat)
    requires Inv(s) && Carries(Cancel(s, id), a, n)
    ensures Alive(s, n)
  {
    var s1 := Cancel(s, id);
    assert Batch(s1) == Batch(s);
    assert InBatch(s1, a) <==> InBatch(s, a);
    assert Ahead(s1, a) <==> Ahead(s, a);
    assert Carries(s, a, n);
  }

  lemma SameBatchBefore(s: State, e: Event, a: Addr, n: nat)
    requires Inv(s) && (e.Tick? || e.RunNext? || e.EndCallbacks?) && Enabled(s, e) && Carries(Step(s, e), a, n)
    ensures Alive(s, n)
  {
    var s1 := Step(s, e);
    assert Batch(s1) == Batch(s);
    assert InBatch(s1, a) <==> InBatch(s, a);
    assert Ahead(s1, a) ==> Ahead(s, a);
    assert Carries(s, a, n);
  }

  lemma FireBefore(s: State, a: Addr, n: nat)
    requires Inv(s) && s.phase.Quiet? && Carries(Fire(s), a, n)
    ensures Alive(s, n)
  {
    var s1 := Fire(s);
    FireBatch(s, a);
    StillQueued(s, a);
    if Ahead(s1, a) {
      var i :| s1.phase.next <= i < |s1.phase.expired| && s1.phase.expired[i].addr == a;
      assert Batch(s1)[i].addr == a;
      assert InBatch(s1, a);
    }
    assert Carries(s, a, n);
  }

  lemma ResetBefore(s: State, a: Addr, n: nat)
    requires Inv(s) && Enabled(s, ResetNext) && Carries(ResetOne(s), a, n)
    ensures Alive(s, n)
  {
    if a == s.phase.left[0].addr {
      assert Batch(s)[0].addr == a;
      assert InBatch(s, a);
      assert a !in s.waiting;
    } else {
      ResetOneBatch(s, a);
    }
    assert Carries(s, a, n);
  }

  lemma EndResetBefore(s: State, a: Addr, n: nat)
    requires Enabled(s, EndReset) && Carries(Step(s, EndReset), a, n)
    ensures Carries(s, a, n)
  {
  }

  lemma AliveBefore(s: State, e: Event, n: nat)
    requires Inv(s) && Enabled(s, e) && Alive(Step(s, e), n)
    ensures Alive(s, n)
  {
    if n > s.created {
    } else {
      CreatedGrows(s, e);
      hide Step;
      var a :| Carries(Step(s, e), a, n);
      CarriedBefore(s, e, a, n);
    }
  }

  lemma CreatedGrows(s: State, e: Event)
    requires Enabled(s, e)
    ensures s.created <= Step(s, e).created
  {
  }

  lemma {:induction false} OnlyAliveRuns(s: State, es: seq<Event>, n: nat)
    requires Inv(s) && RunsIn(s, es, n)
    ensures Alive(s, n)
    decreases |es|
  {
    hide Inv, Step, Alive, Runs, Enabled;
    StepKeepsInv(s, es[0]);
    if Runs(s, es[0], n) {
      RunIsAlive(s, es[0], n);
    } else {
      OnlyAliveRuns(Step(s, es[0]), es[1..], n);
      AliveBefore(s, es[0], n);
    }
  }

  // ----- What that means for cancelling -----

  /** Some continuation runs timer number n if and only if the number is not given out yet, or its timer is
      handed over, queued, still to run in its batch, or a repeating one of the batch. */
  lemma WhatCanRun(s: State, n: nat)
    requires Inv(s) && InStep(s)
    ensures CanRun(s, n) <==> Alive(s, n)
  {
    if CanRun(s, n) {
      var es :| RunsIn(s, es, n);
      OnlyAliveRuns(s, es, n);
    }
    if Alive(s, n) {
      hide Inv, Carries, CanRun;
      if n > s.created {
        NewRuns(s, n);
      } else {
        var a :| Carries(s, a, n);
        CarriedRuns(s, a, n);
      }
    }
  }

  /** A timer that cancel does not find in the index: handed over but not added yet, or in the batch. */
  predicate Missed(s: State, id: TimerId) {
    && id.addr in s.heap && s.heap[id.addr].sequence == id.sequence
    && (id.addr in s.waiting || Ahead(s, id.addr) || (InBatch(s, id.addr) && s.heap[id.addr].repeat))
  }

  /** The id is the one addTimer returned: its number, while in use, belongs to its address. */
  predicate Genuine(s: State, id: TimerId) {
    forall a :: a in s.heap && s.heap[a].sequence == id.sequence ==> a == id.addr
  }

  /** After cancelling, some continuation still runs the timer if and only if it was to come and not in the
      index; for a genuine id that is exactly a number not given out yet, a timer still being handed over, one
      of the batch whose callback is to come, or a repeating one of the batch. */
  lemma CancelledCanRun(s: State, id: TimerId)
    requires Inv(s) && InStep(s) && Enabled(s, CancelId(id))
    ensures CanRun(Step(s, CancelId(id)), id.sequence) <==> Alive(s, id.sequence) && id !in s.active
    ensures Genuine(s, id) ==>
              (CanRun(Step(s, CancelId(id)), id.sequence) <==> id.sequence > s.created || Missed(s, id))
  {
    var s1 := Step(s, CancelId(id));
    StepKeepsInv(s, CancelId(id));
    assert InStep(s1);
    WhatCanRun(s1, id.sequence);
    CancelIsExact(s, id);
    if id in s.active {
      GoneForGood(s, id);
    } else {
      assert s1 == s;
      MissedIsAlive(s, id);
    }
  }

  lemma GoneForGood(s: State, id: TimerId)
    requires Inv(s) && id in s.active
    ensures !Alive(Cancel(s, id), id.sequence)
    ensures id.sequence <= s.created && !Missed(s, id)
  {
    var s1 := Cancel(s, id);
    assert Queued(s, id.addr) && s.heap[id.addr].sequence == id.sequence;
    forall a ensures !Carries(s1, a, id.sequence) {
      if a in s1.heap { assert a != id.addr; }
    }
    assert forall i :: 0 <= i < |Batch(s)| ==> Batch(s)[i].addr != id.addr;
    assert !InBatch(s, id.addr) && id.addr !in s.waiting;
    assert Ahead(s, id.addr) ==> InBatch(s, id.addr) by { AheadIsInBatch(s, id.addr); }
  }

  lemma AheadIsInBatch(s: State, a: Addr)
    ensures Ahead(s, a) ==> InBatch(s, a)
  {
    if Ahead(s, a) {
      var i :| s.phase.next <= i < |s.phase.expired| && s.phase.expired[i].addr == a;
      assert Batch(s)[i].addr == a;
    }
  }

  lemma MissedIsAlive(s: State, id: TimerId)
    requires Inv(s) && id !in s.active
    ensures Genuine(s, id) ==> (Alive(s, id.sequence) <==> id.sequence > s.created || Missed(s, id))
  {
    assert Queued(s, id.addr) ==> TimerId(id.addr, s.heap[id.addr].sequence) in s.active;
    if Missed(s, id) { assert Carries(s, id.addr, id.sequence); }
    if Genuine(s, id) && Alive(s, id.sequence) && id.sequence <= s.created {
      var a :| Carries(s, a, id.sequence);
      assert a == id.addr;
    }
  }

  lemma {:induction false} ReachableInStep(s: State, es: seq<Event>)
    requires InStep(s) && Valid(s, es)
    ensures InStep(Run(s, es))
    decreases |es|
  {
    if es != [] {
      StaysInStep(s, es[0]);
      hide Step, Enabled, InStep;
      ReachableInStep(Step(s, es[0]), es[1..]);
    }
  }

  lemma StaysInStep(s: State, e: Event)
    requires InStep(s) && Enabled(s, e)
    ensures InStep(Step(s, e))
  {
  }

  /** In every run: what was said of cancelling holds of each state a queue can be in. */
  lemma CancellingIsExact(clock: int, es: seq<Event>, id: TimerId)
    requires Valid(Init(clock), es) && Enabled(Run(Init(clock), es), CancelId(id))
    ensures var s := Run(Init(clock), es);
            && (CanRun(Step(s, CancelId(id)), id.sequence) <==> Alive(s, id.sequence) && id !in s.active)
            && (Genuine(s, id) ==>
                  (CanRun(Step(s, CancelId(id)), id.sequence) <==> id.sequence > s.created || Missed(s, id)))
  {
    RunKeepsInv(Init(clock), es);
    ReachableInStep(Init(clock), es);
    hide Run, Valid, Inv, InStep, CanRun;
    CancelledCanRun(Run(Init(clock), es), id);
  }

  /** The state in which the callback of a repeating timer, the only one, has just been started. */
  lemma SelfCancelState() returns (s: State)
    ensures var es := [New(1, 10, true, 5), Add(1), Tick(10), HandleRead, RunNext];
            Valid(Init(0), es) && Run(Init(0), es) == s
    ensures s.ran == [1] && s.phase == Firing(10, [Entry(10, 1)], 1) && s.active == {}
    ensures s.heap == map[1 := Timer(10, true, 5, 1)]
  {
    hide Valid, Run;
    var s0 := Init(0);
    var s1 := Step(s0, New(1, 10, true, 5));
    var s2 := Step(s1, Add(1));
    var s3 := Step(s2, Tick(10));
    var s4 := Step(s3, HandleRead);
    AloneInOrder(Entry(10, 1));
    assert s3.timers == {Entry(10, 1)};
    assert Due(s3, 10) == {Entry(10, 1)};
    assert s4.phase.expired == [Entry(10, 1)];
    s := Step(s4, RunNext);
    assert s.active == {} by { assert Ids(s3, Due(s3, 10)) == {TimerId(1, 1)}; }
    var es4 := [RunNext] + [];
    var es3 := [HandleRead] + es4;
    var es2 := [Tick(10)] + es3;
    var es1 := [Add(1)] + es2;
    RunFirst(s4, RunNext, []);
    RunFirst(s3, HandleRead, es4);
    RunFirst(s2, Tick(10), es3);
    RunFirst(s1, Add(1), es2);
    RunFirst(s0, New(1, 10, true, 5), es1);
    assert [New(1, 10, true, 5)] + es1 == [New(1, 10, true, 5), Add(1), Tick(10), HandleRead, RunNext];
  }

  lemma AloneInOrder(e: Entry)
    ensures Ordered({e}) == [e]
  {
    assert First({e}) == e;
    assert {e} - {e} == {};
  }

  lemma RunFirst(s: State, e: Event, es: seq<Event>)
    requires Enabled(s, e)
    ensures es == [] ==> Valid(Step(s, e), es) && Run(Step(s, e), es) == Step(s, e)
    ensures Valid(Step(s, e), es) ==> Valid(s, [e] + es) && Run(s, [e] + es) == Run(Step(s, e), es)
  {
    assert ([e] + es)[1..] == es;
  }

  /** A repeating timer that cancels itself in its own callback can run again. */
  lemma SelfCancelRunsAgain()
    ensures var es := [New(1, 10, true, 5), Add(1), Tick(10), HandleRead, RunNext];
            && Valid(Init(0), es)
            && var s := Run(Init(0), es);
               s.ran == [1] && Enabled(s, CancelId(TimerId(1, 1))) && CanRun(Step(s, CancelId(TimerId(1, 1))), 1)
  {
    var s := SelfCancelState();
    var es := [New(1, 10, true, 5), Add(1), Tick(10), HandleRead, RunNext];
    CancellingIsExact(0, es, TimerId(1, 1));
    hide Run, Valid, CanRun;
    assert Batch(s)[0].addr == 1;
    assert InBatch(s, 1);
    assert Carries(s, 1, 1);
  }
}
