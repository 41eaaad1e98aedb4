/** When the timers of networking/TimerQueue.cpp run: each in the first batch taken once it is due, a repeating one
    again its interval after the batch it ran in. */
module TimerSchedule {
  import opened TimerQueue
  import opened TimerCancel

  // ----- What a timer that is to run at a time looks like -----

  /** Waiting for its time: handed over, queued, or in a batch that was taken in time. */
  predicate Awaits(s: State, a: Addr, when: int)
    requires a in s.heap
  {
    && s.heap[a].expiration == when
    && (a in s.waiting || Queued(s, a) || (Ahead(s, a) && s.phase.now >= when))
  }

  /** A repeating timer whose callback in the current batch is over. */
  predicate Served(s: State, a: Addr, when: int)
    requires a in s.heap
  {
    InBatch(s, a) && !Ahead(s, a) && s.heap[a].repeat && s.phase.now + s.heap[a].delta == when
  }

  /** Timer number n, at address a, is to run when its time comes. */
  predicate Pending(s: State, a: Addr, n: nat, when: int) {
    a in s.heap && s.heap[a].sequence == n && (Awaits(s, a, when) || Served(s, a, when))
  }

  /** The batch taken now would hold timer number n. */
  ghost predicate Takes(s: State, a: Addr, n: nat) {
    InBatch(Fire(s), a) && a in s.heap && s.heap[a].sequence == n
  }

  /** The run does not run timer number n. */
  ghost predicate NotRunIn(s: State, es: seq<Event>, n: nat)
    requires Valid(s, es)
  {
    s.ran <= Run(s, es).ran && n !in Run(s, es).ran[|s.ran|..]
  }

  // ----- Every step keeps it so, until the timer runs or is deleted -----

  /** The step leaves a timer, the batch and the callback that is next as they were. */
  lemma ElsewherePends(s: State, s': State, a: Addr, n: nat, when: int)
    requires Pending(s, a, n, when) && a in s'.heap && s'.heap[a] == s.heap[a] && s'.phase == s.phase
    requires (a in s.waiting ==> a in s'.waiting || Queued(s', a)) && (Queued(s, a) ==> Queued(s', a))
    ensures Pending(s', a, n, when)
  {
    assert Batch(s') == Batch(s);
    assert InBatch(s', a) <==> InBatch(s, a);
    assert Ahead(s', a) <==> Ahead(s, a);
  }

  lemma CancelPends(s: State, id: TimerId, a: Addr, n: nat, when: int)
    requires Inv(s) && Pending(s, a, n, when)
    ensures Pending(Cancel(s, id), a, n, when) || n in Cancel(s, id).freed
  {
    hide Pending;
    assert a in s.heap && s.heap[a].sequence == n by { assert Pending(s, a, n, when); PendingIsLive(s, a, n, when); }
    var s' := Cancel(s, id);
    if id in s.active && id.addr == a {
      assert s.heap[a].sequence in s'.freed;
    } else {
      ElsewherePends(s, s', a, n, when);
    }
  }

  lemma PendingIsLive(s: State, a: Addr, n: nat, when: int)
    requires Pending(s, a, n, when)
    ensures a in s.heap && s.heap[a].sequence == n
  {
  }

  lemma FirePends(s: State, a: Addr, n: nat, when: int)
    requires Inv(s) && s.phase.Quiet? && Pending(s, a, n, when)
    ensures Pending(Fire(s), a, n, when)
  {
    NothingInBatch(s, a);
    var s', e := Fire(s), Entry(when, a);
    if Queued(s, a) && a !in s.waiting && when <= s.clock {
      FireTakesTheDue(s);
      assert e in s'.phase.expired;
      var i :| 0 <= i < |s'.phase.expired| && s'.phase.expired[i] == e;
      assert Ahead(s', a);
    }
  }

  lemma RunNextPends(s: State, a: Addr, n: nat, when: int)
    requires Enabled(s, RunNext) && Pending(s, a, n, when)
    ensures Pending(Step(s, RunNext), a, n, when) || (Runs(s, RunNext, n) && s.phase.now >= when)
  {
    var s' := Step(s, RunNext);
    assert Batch(s') == Batch(s);
    if Ahead(s, a) {
      var i :| s.phase.next <= i < |s.phase.expired| && s.phase.expired[i].addr == a;
      if i > s.phase.next { assert s'.phase.expired[i].addr == a; }
    }
  }

  lemma EndCallbacksPends(s: State, a: Addr, n: nat, when: int)
    requires Enabled(s, EndCallbacks) && Pending(s, a, n, when)
    ensures Pending(Step(s, EndCallbacks), a, n, when)
  {
    assert Batch(Step(s, EndCallbacks)) == Batch(s);
    assert !Ahead(s, a);
  }

  lemma ResetPends(s: State, a: Addr, n: nat, when: int)
    requires Inv(s) && Enabled(s, ResetNext) && Pending(s, a, n, when)
    ensures Pending(ResetOne(s), a, n, when)
  {
    if a == s.phase.left[0].addr {
      assert Batch(s)[0].addr == a;
      assert InBatch(s, a);
    } else {
      ResetOneBatch(s, a);
    }
  }

  lemma EndResetPends(s: State, a: Addr, n: nat, when: int)
    requires Enabled(s, EndReset) && Pending(s, a, n, when)
    ensures Pending(Step(s, EndReset), a, n, when)
  {
  }

  /** Only running it or deleting it ends the wait of a timer, and it is not run before its time. */
  lemma StepPends(s: State, e: Event, a: Addr, n: nat, when: int)
    requires Inv(s) && Enabled(s, e) && Pending(s, a, n, when)
    ensures var s' := Step(s, e);
            Pending(s', a, n, when) || n in s'.freed || (e.RunNext? && Runs(s, e, n) && s.phase.now >= when)
  {
    PendingIsLive(s, a, n, when);
    hide Pending, Inv;
    match e
    case New(_, _, _, _) => ElsewherePends(s, Step(s, e), a, n, when);
    case Add(addr) =>
      AddChangesTimers(s, e);
      AddKeepsPhase(s, addr);
      ElsewherePends(s, Step(s, e), a, n, when);
    case CancelId(id) => CancelPends(s, id, a, n, when);
    case Tick(_) => ElsewherePends(s, Step(s, e), a, n, when);
    case HandleRead => FirePends(s, a, n, when);
    case RunNext => RunNextPends(s, a, n, when);
    case EndCallbacks => EndCallbacksPends(s, a, n, when);
    case ResetNext => ResetPends(s, a, n, when);
    case EndReset => EndResetPends(s, a, n, when);
  }

  lemma StepRan(s: State, e: Event)
    requires Enabled(s, e)
    ensures s.ran <= Step(s, e).ran
    ensures e.RunNext? ==> Step(s, e).ran == s.ran + [s.heap[s.phase.expired[s.phase.next].addr].sequence]
  {
  }

  lemma {:induction false} RanGrows(s: State, es: seq<Event>)
    requires Valid(s, es)
    ensures s.ran <= Run(s, es).ran
    decreases |es|
  {
    hide Step, Enabled;
    if es != [] {
      StepRan(s, es[0]);
      RanGrows(Step(s, es[0]), es[1..]);
    }
  }

  lemma {:induction false} RunPends(s: State, es: seq<Event>, a: Addr, n: nat, when: int)
    requires Inv(s) && Valid(s, es) && Pending(s, a, n, when)
    requires NotRunIn(s, es, n)
    ensures Pending(Run(s, es), a, n, when) || n in Run(s, es).freed
    decreases |es|
  {
    if es != [] {
      var s1 := Step(s, es[0]);
      StepKeepsInv(s, es[0]);
      StepPends(s, es[0], a, n, when);
      StepRan(s, es[0]);
      RanGrows(s1, es[1..]);
      hide Inv, Step, Enabled, Pending;
      var ran := Run(s1, es[1..]).ran;
      assert ran[|s.ran|..] == s1.ran[|s.ran|..] + ran[|s1.ran|..];
      if n in s1.freed {
        FreedNeverRuns(s1, es[1..], n);
      } else {
        assert !(es[0].RunNext? && Runs(s, es[0], n));
        RunPends(s1, es[1..], a, n, when);
      }
    }
  }

  // ----- What that means -----

  /** A timer that is to run at a time, in any continuation up to its next run: a batch holds it exactly when it was
      added and its time has come, unless it was deleted; and when it runs, it is in a batch taken at or after that
      time. */
  lemma RunsWhenDue(s: State, es: seq<Event>, a: Addr, n: nat, when: int)
    requires Inv(s) && Valid(s, es) && Pending(s, a, n, when)
    requires NotRunIn(s, es, n)
    ensures var t := Run(s, es);
            && (t.phase.Quiet? ==> (Takes(t, a, n) <==> n !in t.freed && a !in t.waiting && when <= t.clock))
            && (Enabled(t, RunNext) && Runs(t, RunNext, n) ==> t.phase.now >= when)
  {
    var t := Run(s, es);
    RunKeepsInv(s, es);
    RunPends(s, es, a, n, when);
    hide Run, Valid;
    if n in t.freed {
      assert !Takes(t, a, n);
      assert Enabled(t, RunNext) ==> !Runs(t, RunNext, n);
    } else {
      if t.phase.Quiet? { TakenWhenDue(t, a, n, when); }
      if Enabled(t, RunNext) && Runs(t, RunNext, n) { RunInTime(t, a, n, when); }
    }
  }

  lemma TakenWhenDue(t: State, a: Addr, n: nat, when: int)
    requires Inv(t) && t.phase.Quiet? && Pending(t, a, n, when)
    ensures Takes(t, a, n) <==> a !in t.waiting && when <= t.clock
  {
    NothingInBatch(t, a);
    FireBatch(t, a);
    FireTakesTheDue(t);
  }

  lemma RunInTime(t: State, a: Addr, n: nat, when: int)
    requires Inv(t) && Pending(t, a, n, when) && Enabled(t, RunNext) && Runs(t, RunNext, n)
    ensures t.phase.now >= when
  {
    var b := t.phase.expired[t.phase.next].addr;
    assert Batch(t)[t.phase.next].addr == b;
    assert InBatch(t, b) && Ahead(t, b);
    assert a == b;
  }

  /** A timer keeps its number, its interval and whether it repeats for as long as it lives. */
  lemma {:induction false} TimerIsKept(s: State, es: seq<Event>, a: Addr)
    requires Inv(s) && Valid(s, es) && a in s.heap
    ensures var t := Run(s, es);
            || s.heap[a].sequence in t.freed
            || (a in t.heap && t.heap[a] == s.heap[a].(expiration := t.heap[a].expiration))
    decreases |es|
  {
    if es != [] {
      var s1 := Step(s, es[0]);
      StepKeepsInv(s, es[0]);
      KeptByStep(s, es[0], a);
      if s.heap[a].sequence in s1.freed {
        FreedNeverRuns(s1, es[1..], s.heap[a].sequence);
      } else {
        hide Inv, Step, Enabled;
        TimerIsKept(s1, es[1..], a);
      }
    }
  }

  lemma KeptByStep(s: State, e: Event, a: Addr)
    requires Enabled(s, e) && a in s.heap
    ensures var t := Step(s, e);
            || s.heap[a].sequence in t.freed
            || (a in t.heap && t.heap[a] == s.heap[a].(expiration := t.heap[a].expiration))
  {
  }

  /** A new timer, in every run: until it first runs it is taken by exactly those batches at or after the time it was
      made for, once added and unless cancelled; and it first runs in a batch taken at or after that time. */
  lemma FirstRun(s: State, a: Addr, when: int, repeat: bool, delta: nat, es: seq<Event>)
    requires Inv(s) && Enabled(s, New(a, when, repeat, delta)) && Valid(Step(s, New(a, when, repeat, delta)), es)
    requires NotRunIn(Step(s, New(a, when, repeat, delta)), es, s.created + 1)
    ensures var n, t := s.created + 1, Run(Step(s, New(a, when, repeat, delta)), es);
            && (t.phase.Quiet? ==> (Takes(t, a, n) <==> n !in t.freed && a !in t.waiting && when <= t.clock))
            && (Enabled(t, RunNext) && Runs(t, RunNext, n) ==> t.phase.now >= when)
  {
    var e := New(a, when, repeat, delta);
    StepKeepsInv(s, e);
    assert Pending(Step(s, e), a, s.created + 1, when);
    RunsWhenDue(Step(s, e), es, a, s.created + 1, when);
  }

  lemma JustRun(s: State, a: Addr, n: nat)
    requires Inv(s) && Enabled(s, RunNext) && Runs(s, RunNext, n) && a in s.heap && s.heap[a].sequence == n
    ensures s.heap[a].repeat ==> Pending(Step(s, RunNext), a, n, s.phase.now + s.heap[a].delta)
  {
    var s1, b := Step(s, RunNext), s.phase.expired[s.phase.next].addr;
    assert Batch(s)[s.phase.next].addr == b && Batch(s1)[s.phase.next].addr == b;
    assert InBatch(s1, b) && a == b;
    assert !Ahead(s1, a);
  }

  /** A repeating timer, in every run: after each run, in a batch taken at some time, it is taken again by exactly
      those batches at or after that time plus the interval it was made with, unless cancelled, and so runs next in
      the first of them. */
  lemma NextRun(s: State, a: Addr, when: int, delta: nat, es: seq<Event>, more: seq<Event>)
    requires Inv(s) && Enabled(s, New(a, when, true, delta)) && Valid(Step(s, New(a, when, true, delta)), es)
    requires Enabled(Run(Step(s, New(a, when, true, delta)), es), RunNext)
    requires Runs(Run(Step(s, New(a, when, true, delta)), es), RunNext, s.created + 1)
    requires Valid(Step(Run(Step(s, New(a, when, true, delta)), es), RunNext), more)
    requires NotRunIn(Step(Run(Step(s, New(a, when, true, delta)), es), RunNext), more, s.created + 1)
    ensures var n, u := s.created + 1, Run(Step(s, New(a, when, true, delta)), es);
            var t := Run(Step(u, RunNext), more);
            && (t.phase.Quiet? ==>
                  (Takes(t, a, n) <==> n !in t.freed && a !in t.waiting && u.phase.now + delta <= t.clock))
            && (Enabled(t, RunNext) && Runs(t, RunNext, n) ==> t.phase.now >= u.phase.now + delta)
  {
    hide Run, Valid, Inv, Runs, Pending, Takes, NotRunIn;
    MadeWith(s, a, when, true, delta, es);
    var u := Run(Step(s, New(a, when, true, delta)), es);
    RunnerIsLive(u, s.created + 1);
    JustRun(u, a, s.created + 1);
    StepKeepsInv(u, RunNext);
    RunsWhenDue(Step(u, RunNext), more, a, s.created + 1, u.phase.now + delta);
  }

  lemma MadeWith(s: State, a: Addr, when: int, repeat: bool, delta: nat, es: seq<Event>)
    requires Inv(s) && Enabled(s, New(a, when, repeat, delta)) && Valid(Step(s, New(a, when, repeat, delta)), es)
    ensures var u := Run(Step(s, New(a, when, repeat, delta)), es);
            && Inv(u)
            && (s.created + 1 !in u.freed ==>
                  && a in u.heap && u.heap[a].sequence == s.created + 1
                  && u.heap[a].repeat == repeat && u.heap[a].delta == delta)
  {
    var s1 := Step(s, New(a, when, repeat, delta));
    StepKeepsInv(s, New(a, when, repeat, delta));
    hide Run, Valid, Inv;
    RunKeepsInv(s1, es);
    TimerIsKept(s1, es, a);
  }

  lemma RunnerIsLive(s: State, n: nat)
    requires Inv(s) && Enabled(s, RunNext) && Runs(s, RunNext, n)
    ensures n !in s.freed
  {
  }

  // ----- The kernel timer is set for the earliest -----

  /** Whenever the timerfd is set, it is for the earliest timer queued, or 100 microseconds ahead if that is later: by
      a timer that is added before all others, or at the end of a batch for an expiration that is valid. It is
      otherwise left alone, but for going off when it is read. */
  lemma AlarmIsExact(s: State, e: Event)
    requires Inv(s) && Enabled(s, e) && Step(s, e).kernel != s.kernel
    ensures var s' := Step(s, e);
            if s'.kernel.Idle? then e.HandleRead? && s.kernel.Armed? && s.kernel.at <= s.clock
            else
              && s'.timers != {} && s'.kernel.armedAt == s.clock
              && var when := First(s'.timers).when;
                 && s'.kernel.at == (if when < s.clock + 100 then s.clock + 100 else when)
                 && (e.Add? || (e.EndReset? && when > 0))
                 && (e.Add? ==> forall f :: f in s.timers ==> s.heap[e.addr].expiration < f.when)
  {
    var s' := Step(s, e);
    if e.Add? {
      var mine := Entry(s.heap[e.addr].expiration, e.addr);
      assert mine in s'.timers;
      assert forall f :: f in s'.timers && f != mine ==> f in s.timers;
      assert forall f :: f in s.timers ==> f == First(s.timers) || Precedes(First(s.timers), f);
    }
  }
}
