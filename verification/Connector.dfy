/** networking/Connector.cpp: an active connection attempt as a state machine in its event loop. */
module Connector {

  const INIT_RETRY_DELAY_MS := 500
  const MAX_RETRY_DELAY_MS := 30 * 1000

  datatype States = Disconnected | Connecting | Connected

  /** The channel: none, known to the poller, or removed from it and waiting for its deferred reset. */
  datatype Chan = NoChannel | Registered(fd: nat) | Removed(fd: nat)

  datatype Functor = ResetFunctor | StopFunctor | StartFunctor

  /** What connect(2) left in errno. */
  datatype Errno =
    | Success | EINPROGRESS | EINTR | EISCONN
    | EAGAIN | EADDRINUSE | EADDRNOTAVAIL | ECONNREFUSED | ENETUNREACH
    | EACCES | EPERM | EAFNOSUPPORT | EALREADY | EBADF | EFAULT | ENOTSOCK
    | OtherErrno(code: int)

  predicate IsInProgress(e: Errno) {
    e.Success? || e.EINPROGRESS? || e.EINTR? || e.EISCONN?
  }

  predicate IsRetryable(e: Errno) {
    e.EAGAIN? || e.EADDRINUSE? || e.EADDRNOTAVAIL? || e.ECONNREFUSED? || e.ENETUNREACH?
  }

  /** Sockets are numbered in the order of their creation. closed and handed record every release, waits the
      retry delays since the construction or the last restart; failed says that an assertion of the source did
      not hold. */
  datatype State = State(
    st: States, connect: bool, chan: Chan, pending: seq<Functor>, timers: nat, delay: int,
    created: nat, closed: seq<nat>, handed: seq<nat>, waits: seq<int>, failed: bool)

  function Initial(): State {
    State(Disconnected, false, NoChannel, [], 0, INIT_RETRY_DELAY_MS, 0, [], [], [], false)
  }

  // ----- The operations -----

  function Min(a: int, b: int): int {
    if a < b then a else b
  }

  function Retry(s: State, fd: nat): State {
    var s1 := s.(closed := s.closed + [fd], st := Disconnected);
    if s.connect then
      s1.(timers := s.timers + 1, waits := s.waits + [s.delay], delay := Min(s.delay * 2, MAX_RETRY_DELAY_MS))
    else s1
  }

  function Connect(s: State, e: Errno): State {
    var fd, s1 := s.created, s.(created := s.created + 1);
    if IsInProgress(e) then
      if s.chan.NoChannel? then s1.(st := Connecting, chan := Registered(fd)) else s1.(failed := true)
    else if IsRetryable(e) then Retry(s1, fd)
    else s1.(closed := s.closed + [fd])
  }

  function StartInLoop(s: State, e: Errno): State {
    if s.st != Disconnected then s.(failed := true)
    else if s.connect then Connect(s, e)
    else s
  }

  function RemoveChannel(s: State): State
    requires s.chan.Registered?
  {
    s.(chan := Removed(s.chan.fd), pending := s.pending + [ResetFunctor])
  }

  function GiveUp(s: State): State {
    if s.st != Connecting then s
    else if s.chan.Registered? then Retry(RemoveChannel(s), s.chan.fd)
    else s.(failed := true)
  }

  function HandleWrite(s: State, soError: bool, selfConnect: bool): State {
    if s.st == Connecting then
      if !s.chan.Registered? then s.(failed := true)
      else
        var fd, s1 := s.chan.fd, RemoveChannel(s);
        if soError || selfConnect then Retry(s1, fd)
        else if s.connect then s1.(st := Connected, handed := s.handed + [fd])
        else s1.(st := Connected, closed := s.closed + [fd])
    else s.(failed := s.st != Disconnected)
  }

  /** The channel's event: the error callback first, then the write callback. */
  function HandleEvent(s: State, error: bool, write: bool, soError: bool, selfConnect: bool): State {
    var s1 := if error then GiveUp(s) else s;
    if write then HandleWrite(s1, soError, selfConnect) else s1
  }

  /** The outcome matters only to a start. */
  function RunFunctor(s: State, e: Errno): State
    requires s.pending != []
  {
    var s1 := s.(pending := s.pending[1..]);
    match s.pending[0]
    case ResetFunctor => s1.(chan := NoChannel)
    case StopFunctor => GiveUp(s1)
    case StartFunctor => StartInLoop(s1, e)
  }

  // ----- Runs -----

  /** Start is a call in the loop thread; QueuedStart is one from another thread, whose startInLoop is queued. */
  datatype Event =
    | Start(outcome: Errno)
    | QueuedStart
    | Restart(again: Errno)
    | Stop
    | TimerFires(result: Errno)
    | Ready(error: bool, write: bool, soError: bool, selfConnect: bool)
    | FunctorRuns(served: Errno)

  predicate Enabled(s: State, e: Event) {
    && !s.failed
    && match e
       case Start(_) => true
       case QueuedStart => true
       case Restart(_) => true
       case Stop => true
       case TimerFires(_) => s.timers > 0
       case Ready(_, _, _, _) => s.chan.Registered?
       case FunctorRuns(_) => s.pending != []
  }

  function Step(s: State, e: Event): State
    requires Enabled(s, e)
  {
    match e
    case Start(errno) => StartInLoop(s.(connect := true), errno)
    case QueuedStart => s.(connect := true, pending := s.pending + [StartFunctor])
    case Restart(errno) =>
      StartInLoop(s.(st := Disconnected, delay := INIT_RETRY_DELAY_MS, waits := [], connect := true), errno)
    case Stop => s.(connect := false, pending := s.pending + [StopFunctor])
    case TimerFires(errno) => StartInLoop(s.(timers := s.timers - 1), errno)
    case Ready(error, write, soError, self) => HandleEvent(s, error, write, soError, self)
    case FunctorRuns(errno) => RunFunctor(s, errno)
  }

  /** No attempt is under way, none is scheduled or queued, and the last channel is gone. */
  predicate CanStart(s: State) {
    s.st == Disconnected && CanRestart(s)
  }

  predicate CanRestart(s: State) {
    s.chan.NoChannel? && s.timers == 0 && StartFunctor !in s.pending
  }

  /** The same for a start that is queued, but for the channel: a reset that is pending runs before it. */
  predicate CanQueueStart(s: State) {
    s.st == Disconnected && s.timers == 0 && StartFunctor !in s.pending
  }

  /** A new attempt is wanted while the channel of the last one still waits for its deferred reset. A retry timer
      lasts half a second or more, so it finds this only when the loop was that slow in running its functors. */
  predicate Late(s: State) {
    s.connect && ResetFunctor in s.pending
  }

  /** start and restart are called only when idle, and a retry timer does not overtake the reset. */
  predicate WellUsed(s: State, e: Event) {
    && (e.Start? ==> CanStart(s)) && (e.QueuedStart? ==> CanQueueStart(s)) && (e.Restart? ==> CanRestart(s))
    && (e.TimerFires? ==> !Late(s))
  }

  predicate Valid(s: State, es: seq<Event>)
    decreases |es|
  {
    es == [] || (Enabled(s, es[0]) && WellUsed(s, es[0]) && Valid(Step(s, es[0]), es[1..]))
  }

  /** What a loop that is not late does by itself, and stop: no further call of start or restart. */
  predicate Undisturbed(s: State, es: seq<Event>)
    decreases |es|
  {
    es == [] ||
    (Enabled(s, es[0]) && WellUsed(s, es[0]) && !Asks(es[0]) && Undisturbed(Step(s, es[0]), es[1..]))
  }

  predicate Asks(e: Event) {
    e.Start? || e.QueuedStart? || e.Restart?
  }

  function Run(s: State, es: seq<Event>): State
    requires Valid(s, es) || Undisturbed(s, es)
    decreases |es|
  {
    if es == [] then s else Run(Step(s, es[0]), es[1..])
  }

  // ----- The invariant -----

  function Pow2(k: nat): nat {
    if k == 0 then 1 else 2 * Pow2(k - 1)
  }

  /** The delay before retry number k. */
  function Backoff(k: nat): int {
    Min(INIT_RETRY_DELAY_MS * Pow2(k), MAX_RETRY_DELAY_MS)
  }

  function Held(c: Chan): multiset<nat> {
    if c.Registered? then multiset{c.fd} else multiset{}
  }

  /** Each of the first n sockets once. */
  function Each(n: nat): multiset<nat> {
    if n == 0 then multiset{} else Each(n - 1) + multiset{n - 1}
  }

  predicate Ledger(s: State) {
    multiset(s.closed) + multiset(s.handed) + Held(s.chan) == Each(s.created)
  }

  predicate BackedOff(s: State) {
    && (forall i :: 0 <= i < |s.waits| ==> s.waits[i] == Backoff(i))
    && s.delay == Backoff(|s.waits|)
  }

  predicate Control(s: State) {
    && !s.failed
    && (s.st == Connecting <==> s.chan.Registered?)
    && multiset(s.pending)[ResetFunctor] == (if s.chan.Removed? then 1 else 0)
    && s.timers <= 1
    && (s.timers == 1 ==> s.st == Disconnected)
    && (!s.connect && s.st == Connecting ==> StopFunctor in s.pending)
    && multiset(s.pending)[StartFunctor] <= 1
    && (StartFunctor in s.pending ==> s.st == Disconnected && s.timers == 0 && ResetFirst(s.pending))
  }

  /** No reset is queued behind a start. */
  predicate ResetFirst(q: seq<Functor>) {
    forall i, j :: 0 <= i < j < |q| && q[i] == StartFunctor ==> q[j] != ResetFunctor
  }

  predicate Inv(s: State) {
    Control(s) && Ledger(s) && BackedOff(s)
  }

  lemma InitialInv()
    ensures Inv(Initial())
  {
  }

  lemma NextBackoff(k: nat)
    ensures Min(Backoff(k) * 2, MAX_RETRY_DELAY_MS) == Backoff(k + 1)
  {
  }

  // ----- Every step keeps the invariant -----

  lemma RetryKeeps(s: State, fd: nat)
    requires BackedOff(s)
    ensures BackedOff(Retry(s, fd))
  {
    hide Backoff;
    NextBackoff(|s.waits|);
  }

  lemma ConnectKeeps(s: State, e: Errno)
    requires Inv(s) && s.connect && CanStart(s)
    ensures Inv(Connect(s, e))
  {
    hide IsInProgress, IsRetryable, BackedOff, Ledger;
    var s1, t := s.(created := s.created + 1), Connect(s, e);
    BackOffOnly(s, s1);
    BackOffOnly(s, t);
    RetryKeeps(s1, s.created);
    LedgerGrows(s, t);
  }

  lemma BackOffOnly(s: State, t: State)
    requires BackedOff(s)
    ensures t.waits == s.waits && t.delay == s.delay ==> BackedOff(t)
  {
  }

  lemma LedgerGrows(s: State, t: State)
    requires Ledger(s) && s.chan.NoChannel? && t.created == s.created + 1 && t.handed == s.handed
    requires || (t.chan == s.chan && t.closed == s.closed + [s.created])
             || (t.chan == Registered(s.created) && t.closed == s.closed)
    ensures Ledger(t)
  {
    assert Each(s.created + 1) == Each(s.created) + multiset{s.created};
  }

  lemma GiveUpKeeps(s: State)
    requires Control(s.(pending := [StopFunctor] + s.pending)) && Ledger(s) && BackedOff(s)
    ensures Inv(GiveUp(s))
  {
    hide Backoff, Each;
    var q := [StopFunctor] + s.pending;
    assert multiset(q) == multiset{StopFunctor} + multiset(s.pending);
    assert forall f :: f in s.pending ==> f in q;
    ResetFirstTail(q);
    assert q[1..] == s.pending;
    if s.st == Connecting {
      RetryKeeps(RemoveChannel(s), s.chan.fd);
    }
  }

  lemma ResetFirstTail(q: seq<Functor>)
    requires q != []
    ensures ResetFirst(q) ==> ResetFirst(q[1..])
  {
  }

  lemma HandleWriteKeeps(s: State, soError: bool, selfConnect: bool)
    requires Inv(s) && (s.chan.Registered? || s.st == Disconnected)
    ensures Inv(HandleWrite(s, soError, selfConnect))
  {
    hide Backoff, Each;
    if s.st == Connecting {
      RetryKeeps(RemoveChannel(s), s.chan.fd);
    }
  }

  lemma ErrorKeeps(s: State)
    requires Inv(s) && s.chan.Registered?
    ensures Inv(GiveUp(s)) && GiveUp(s).st == Disconnected
  {
    hide Backoff, Each;
    RetryKeeps(RemoveChannel(s), s.chan.fd);
  }

  lemma FunctorKeeps(s: State, e: Errno)
    requires Inv(s) && s.pending != []
    ensures Inv(RunFunctor(s, e))
  {
    hide Backoff, Each;
    var rest := s.pending[1..];
    assert s.pending == [s.pending[0]] + rest;
    assert multiset(s.pending) == multiset{s.pending[0]} + multiset(rest);
    match s.pending[0]
    case ResetFunctor => assert ResetFirst(s.pending) ==> ResetFirst(rest);
    case StopFunctor =>
      hide GiveUp;
      GiveUpKeeps(s.(pending := rest));
    case StartFunctor => StartFunctorKeeps(s, e);
  }

  lemma StartFunctorKeeps(s: State, e: Errno)
    requires Inv(s) && s.pending != [] && s.pending[0] == StartFunctor
    ensures Inv(RunFunctor(s, e))
  {
    hide Backoff, Each, Ledger, Connect;
    var s1 := s.(pending := s.pending[1..]);
    assert s.pending == [s.pending[0]] + s1.pending;
    assert multiset(s.pending) == multiset{StartFunctor} + multiset(s1.pending);
    assert ResetFunctor !in s1.pending by {
      assert forall j :: 0 < j < |s.pending| ==> s.pending[j] != ResetFunctor;
    }
    assert ResetFunctor !in s.pending;
    LedgerOnly(s, s1);
    if s.connect { ConnectKeeps(s1, e); }
  }

  lemma QueuedStartKeeps(s: State)
    requires Inv(s) && CanQueueStart(s)
    ensures Inv(s.(connect := true, pending := s.pending + [StartFunctor]))
  {
    hide Backoff, Each;
  }

  lemma StopKeeps(s: State)
    requires Inv(s)
    ensures Inv(Step(s, Stop))
  {
    hide Backoff, Each;
  }

  lemma StepKeepsInv(s: State, e: Event)
    requires Inv(s) && Enabled(s, e) && WellUsed(s, e)
    ensures Inv(Step(s, e))
  {
    hide Connect, GiveUp, HandleWrite, RunFunctor, Ledger, Each;
    match e
    case Start(errno) =>
      LedgerOnly(s, s.(connect := true));
      ConnectKeeps(s.(connect := true), errno);
    case QueuedStart =>
      QueuedStartKeeps(s);
    case Restart(errno) =>
      var s1 := s.(st := Disconnected, delay := INIT_RETRY_DELAY_MS, waits := [], connect := true);
      LedgerOnly(s, s1);
      ConnectKeeps(s1, errno);
    case Stop =>
      StopKeeps(s);
    case TimerFires(errno) =>
      var s1 := s.(timers := s.timers - 1);
      LedgerOnly(s, s1);
      if s.connect { ConnectKeeps(s1, errno); }
    case Ready(error, write, soError, self) =>
      ErrorKeeps(s);
      if write { HandleWriteKeeps(if error then GiveUp(s) else s, soError, self); }
    case FunctorRuns(errno) =>
      FunctorKeeps(s, errno);
  }

  lemma LedgerOnly(s: State, t: State)
    requires Ledger(s) && t.closed == s.closed && t.handed == s.handed && t.chan == s.chan && t.created == s.created
    ensures Ledger(t)
  {
  }

  lemma {:induction false} RunKeepsInv(s: State, es: seq<Event>)
    requires Inv(s) && Valid(s, es)
    ensures Inv(Run(s, es))
    decreases |es|
  {
    hide Step, Enabled, WellUsed, Inv;
    if es != [] {
      StepKeepsInv(s, es[0]);
      RunKeepsInv(Step(s, es[0]), es[1..]);
    }
  }

  // ----- What that means -----

  lemma {:induction false} EachIsOnce(n: nat, fd: nat)
    ensures Each(n)[fd] == if fd < n then 1 else 0
  {
    if n > 0 { EachIsOnce(n - 1, fd); }
  }

  /** In every well-used run no assertion of the source fails, and every socket ever created is in exactly one
      place: still being connected, closed once, or handed over once. */
  lemma EverySocketOnce(es: seq<Event>, fd: nat)
    requires Valid(Initial(), es) && fd < Run(Initial(), es).created
    ensures var s := Run(Initial(), es);
            && !s.failed
            && multiset(s.closed)[fd] + multiset(s.handed)[fd] + (if s.chan == Registered(fd) then 1 else 0) == 1
            && (s.chan.Registered? <==> s.st == Connecting)
  {
    InitialInv();
    RunKeepsInv(Initial(), es);
    hide Run, Valid;
    var s := Run(Initial(), es);
    EachIsOnce(s.created, fd);
    assert (multiset(s.closed) + multiset(s.handed) + Held(s.chan))[fd] == 1;
  }

  /** In every well-used run the next step hands a socket over if and only if the attempt under way becomes
      writable without an error, is no self-connect and is still wanted; then it is that attempt's socket. */
  lemma HandoverIsExact(es: seq<Event>, e: Event)
    requires Valid(Initial(), es) && Enabled(Run(Initial(), es), e) && WellUsed(Run(Initial(), es), e)
    ensures var s, s' := Run(Initial(), es), Step(Run(Initial(), es), e);
            && (s'.handed != s.handed <==> e == Ready(false, true, false, false) && s.connect)
            && (s'.handed != s.handed ==>
                  s.chan.Registered? && s'.handed == s.handed + [s.chan.fd] && s'.st == Connected)
  {
    InitialInv();
    RunKeepsInv(Initial(), es);
    hide Run, Valid, Step, Enabled, Inv;
    HandoverOfStep(Run(Initial(), es), e);
  }

  lemma HandoverOfStep(s: State, e: Event)
    requires Inv(s) && Enabled(s, e)
    ensures var s' := Step(s, e);
            && (s'.handed != s.handed <==> e == Ready(false, true, false, false) && s.connect)
            && (s'.handed != s.handed ==>
                  s.chan.Registered? && s'.handed == s.handed + [s.chan.fd] && s'.st == Connected)
  {
    hide Connect, GiveUp, HandleWrite, Ledger, BackedOff;
    match e
    case Start(errno) => QuietSteps(s.(connect := true), errno);
    case Restart(errno) =>
      QuietSteps(s.(st := Disconnected, delay := INIT_RETRY_DELAY_MS, waits := [], connect := true), errno);
    case Stop =>
    case TimerFires(errno) => QuietSteps(s.(timers := s.timers - 1), errno);
    case Ready(error, write, soError, self) =>
      QuietSteps(s, Success);
      WriteHandsOver(if error then GiveUp(s) else s, soError, self);
    case QueuedStart =>
    case FunctorRuns(errno) => QuietSteps(s.(pending := s.pending[1..]), errno);
  }

  lemma QuietSteps(s: State, e: Errno)
    ensures Connect(s, e).handed == s.handed && GiveUp(s).handed == s.handed
    ensures s.chan.Registered? ==> GiveUp(s).st != Connecting
  {
  }

  lemma WriteHandsOver(s: State, soError: bool, selfConnect: bool)
    ensures var s' := HandleWrite(s, soError, selfConnect);
            if s.st == Connecting && s.chan.Registered? && !soError && !selfConnect && s.connect
            then s'.handed == s.handed + [s.chan.fd] && s'.handed != s.handed && s'.st == Connected
            else s'.handed == s.handed
  {
    assert forall fd :: |s.handed + [fd]| == |s.handed| + 1;
  }

  /** The waits since the last restart double from half a second and stay at thirty seconds. */
  lemma RetriesBackOff(es: seq<Event>, k: nat)
    requires Valid(Initial(), es) && k < |Run(Initial(), es).waits|
    ensures Run(Initial(), es).waits[k] == if k < 6 then 500 * Pow2(k) else 30000
  {
    InitialInv();
    RunKeepsInv(Initial(), es);
    hide Run, Valid;
    if k >= 6 { Pow2Grows(k); }
    assert Pow2(5) == 32 by { assert Pow2(2) == 4; assert Pow2(4) == 16; }
    if k < 6 { Pow2Below(k); }
  }

  lemma {:induction false} Pow2Grows(k: nat)
    requires k >= 6
    ensures Pow2(k) >= 64
  {
    if k == 6 {
      assert Pow2(2) == 4;
      assert Pow2(4) == 16;
    } else {
      Pow2Grows(k - 1);
    }
  }

  lemma {:induction false} Pow2Below(k: nat)
    requires k < 6
    ensures Pow2(k) <= 32
  {
    assert Pow2(2) == 4;
    assert Pow2(4) == 16;
    assert k == 0 || k == 1 || k == 2 || k == 3 || k == 4 || k == 5;
  }

  // ----- When an attempt is made, and what becomes of it -----

  /** The step calls connect(2): start and restart at once; a retry timer or a queued start if still wanted. */
  predicate Tries(s: State, e: Event)
    requires Enabled(s, e)
  {
    || e.Start? || e.Restart? || (e.TimerFires? && s.connect)
    || (e.FunctorRuns? && s.connect && s.pending[0] == StartFunctor)
  }

  function Answer(e: Event): Errno {
    match e
    case Start(errno) => errno
    case Restart(errno) => errno
    case TimerFires(errno) => errno
    case FunctorRuns(errno) => errno
    case _ => Success
  }

  /** The step gives the attempt under way up: on an error, on a self-connect, or when a stop is served. */
  predicate GivesUp(s: State, e: Event)
    requires Enabled(s, e)
  {
    || (e.Ready? && (e.error || (e.write && (e.soError || e.selfConnect))))
    || (e.FunctorRuns? && s.pending[0] == StopFunctor && s.st == Connecting)
  }

  /** The errors that are worth another attempt. */
  const RETRYABLE := {EAGAIN, EADDRINUSE, EADDRNOTAVAIL, ECONNREFUSED, ENETUNREACH}

  /** The attempt of this step, or the one under way, has failed in a way worth another, and is still wanted. */
  predicate WaitsAgain(s: State, e: Event)
    requires Enabled(s, e)
  {
    && (s.connect || e.Start? || e.Restart?)
    && ((Tries(s, e) && Answer(e) in RETRYABLE) || GivesUp(s, e))
  }

  /** A retry is scheduled exactly when an attempt fails retryably while it is wanted; restarting forgets the waits
      before it, so the back-off begins again. */
  lemma RetryIsExact(s: State, e: Event)
    requires Inv(s) && Enabled(s, e) && WellUsed(s, e)
    ensures var s' := Step(s, e);
            && s'.timers == s.timers - (if e.TimerFires? then 1 else 0) + (if WaitsAgain(s, e) then 1 else 0)
            && |s'.waits| == (if e.Restart? then 0 else |s.waits|) + (if WaitsAgain(s, e) then 1 else 0)
  {
    hide Ledger, BackedOff;
    if e.FunctorRuns? { StartFinds(s); }
  }

  /** A socket is created exactly when a step tries; it is then being connected, or closed at once, as connect(2)
      answered: in progress, worth another attempt, or hopeless. */
  lemma AttemptIsExact(s: State, e: Event)
    requires Inv(s) && Enabled(s, e) && WellUsed(s, e)
    ensures var s', errno := Step(s, e), Answer(e);
            && s'.created == s.created + (if Tries(s, e) then 1 else 0)
            && (Tries(s, e) ==>
                  if errno in {Success, EINPROGRESS, EINTR, EISCONN}
                  then s'.st == Connecting && s'.chan == Registered(s.created) && s'.closed == s.closed
                  else s'.st == Disconnected && s'.chan.NoChannel? && s'.closed == s.closed + [s.created])
  {
    hide Ledger, BackedOff;
    if e.FunctorRuns? { StartFinds(s); }
  }

  /** Whether a connection is wanted, by the last call of start, restart or stop. */
  function LastWish(es: seq<Event>, wanted: bool): bool
    decreases |es|
  {
    if es == [] then wanted else LastWish(es[1..], if es[0].Stop? then false else wanted || Asks(es[0]))
  }

  lemma {:induction false} WantedAsAsked(s: State, es: seq<Event>)
    requires Valid(s, es)
    ensures Run(s, es).connect == LastWish(es, s.connect)
    decreases |es|
  {
    if es != [] {
      assert Step(s, es[0]).connect == if es[0].Stop? then false else s.connect || Asks(es[0]);
      hide Step, Enabled, WellUsed;
      WantedAsAsked(Step(s, es[0]), es[1..]);
    }
  }

  // ----- After a stop -----

  lemma {:induction false} NothingUnwanted(s: State, es: seq<Event>)
    requires !s.connect && Undisturbed(s, es)
    ensures var t := Run(s, es);
            !t.connect && t.created == s.created && t.handed == s.handed && t.waits == s.waits
    decreases |es|
  {
    if es != [] {
      NothingUnwanted(Step(s, es[0]), es[1..]);
    }
  }

  /** After a call of stop nothing more is created, handed over or scheduled, whatever the loop goes on to do. */
  lemma NothingAfterStop(s: State, es: seq<Event>)
    requires Enabled(s, Stop) && Undisturbed(Step(s, Stop), es)
    ensures var t := Run(Step(s, Stop), es);
            !t.connect && t.created == s.created && t.handed == s.handed && t.waits == s.waits
  {
    NothingUnwanted(Step(s, Stop), es);
  }

  lemma {:induction false} UndisturbedKeepsInv(s: State, es: seq<Event>)
    requires Inv(s) && Undisturbed(s, es)
    ensures Inv(Run(s, es))
    decreases |es|
  {
    if es != [] {
      hide Step, Inv, Enabled, WellUsed;
      StepKeepsInv(s, es[0]);
      UndisturbedKeepsInv(Step(s, es[0]), es[1..]);
    }
  }

  /** A stop cleans up: in every continuation of the call, once the queued functors have run, no attempt is under way,
      every socket is closed or handed over, and the destructor's assertion that there is no channel holds. */
  lemma StoppedIsClean(es: seq<Event>, more: seq<Event>)
    requires Valid(Initial(), es) && Enabled(Run(Initial(), es), Stop)
    requires Undisturbed(Step(Run(Initial(), es), Stop), more)
    requires Run(Step(Run(Initial(), es), Stop), more).pending == []
    ensures var s := Run(Step(Run(Initial(), es), Stop), more);
            && s.st != Connecting && s.chan.NoChannel?
            && multiset(s.closed) + multiset(s.handed) == Each(s.created)
  {
    InitialInv();
    RunKeepsInv(Initial(), es);
    var s0 := Run(Initial(), es);
    hide Run, Valid, Undisturbed, Each, BackedOff;
    NothingAfterStop(s0, more);
    StepKeepsInv(s0, Stop);
    UndisturbedKeepsInv(Step(s0, Stop), more);
    var s := Run(Step(s0, Stop), more);
    assert multiset(s.pending)[ResetFunctor] == 0;
    assert multiset(s.closed) + multiset(s.handed) + multiset{} == multiset(s.closed) + multiset(s.handed);
  }

  // ----- Exactly when start and restart may be called -----

  ghost predicate Fails(s: State, e: Event, es: seq<Event>)
    requires Enabled(s, e)
  {
    FailsLater(Step(s, e), es)
  }

  predicate FailsLater(s: State, es: seq<Event>) {
    Undisturbed(s, es) && Run(s, es).failed
  }

  lemma FailsFirst(s: State, e: Event, es: seq<Event>)
    requires Enabled(s, e) && WellUsed(s, e) && !Asks(e) && FailsLater(Step(s, e), es)
    ensures FailsLater(s, [e] + es)
  {
    assert ([e] + es)[1..] == es;
  }

  lemma FailsNow(s: State, e: Event)
    requires Enabled(s, e) && WellUsed(s, e) && !Asks(e) && Step(s, e).failed
    ensures FailsLater(s, [e])
  {
    assert FailsLater(Step(s, e), []);
    FailsFirst(s, e, []);
    assert [e] + [] == [e];
  }

  lemma {:induction false} UndisturbedNeverFails(s: State, es: seq<Event>)
    requires Inv(s) && Undisturbed(s, es)
    ensures !Run(s, es).failed
    decreases |es|
  {
    if es != [] {
      hide Step;
      StepKeepsInv(s, es[0]);
      UndisturbedNeverFails(Step(s, es[0]), es[1..]);
    }
  }

  /** A call of start in the loop thread can lead to a failed assertion exactly when an attempt is under way, one is
      scheduled or queued, or the last channel is still there: stop in between does not help. */
  lemma StartIsSafe(s: State)
    requires Inv(s)
    ensures (forall errno, es :: !Fails(s, Start(errno), es)) <==> CanStart(s)
  {
    if CanStart(s) {
      forall errno, es ensures !Fails(s, Start(errno), es) {
        StepKeepsInv(s, Start(errno));
        if Undisturbed(Step(s, Start(errno)), es) {
          UndisturbedNeverFails(Step(s, Start(errno)), es);
        }
      }
    } else {
      UnsafeStart(s, Start(Success));
      var es :| Fails(s, Start(Success), es);
    }
  }

  /** The same for restart, which does not look at the state it starts from. */
  lemma RestartIsSafe(s: State)
    requires Inv(s)
    ensures (forall errno, es :: !Fails(s, Restart(errno), es)) <==> CanRestart(s)
  {
    if CanRestart(s) {
      forall errno, es ensures !Fails(s, Restart(errno), es) {
        StepKeepsInv(s, Restart(errno));
        if Undisturbed(Step(s, Restart(errno)), es) {
          UndisturbedNeverFails(Step(s, Restart(errno)), es);
        }
      }
    } else {
      UnsafeStart(s, Restart(Success));
      var es :| Fails(s, Restart(Success), es);
    }
  }

  /** The same for start in another thread: a channel that waits for its reset does no harm then. */
  lemma QueuedStartIsSafe(s: State)
    requires Inv(s)
    ensures (forall es :: !Fails(s, QueuedStart, es)) <==> CanQueueStart(s)
  {
    if CanQueueStart(s) {
      forall es ensures !Fails(s, QueuedStart, es) {
        StepKeepsInv(s, QueuedStart);
        if Undisturbed(Step(s, QueuedStart), es) {
          UndisturbedNeverFails(Step(s, QueuedStart), es);
        }
      }
    } else {
      UnsafeQueuedStart(s);
      var es :| FailsLater(Step(s, QueuedStart), es);
      assert Fails(s, QueuedStart, es);
    }
  }

  /** The same for a retry timer that fires: it can lead to a failed assertion exactly when it is late. */
  lemma TimerIsSafe(s: State)
    requires Inv(s) && s.timers > 0
    ensures (forall errno, es :: !Fails(s, TimerFires(errno), es)) <==> !Late(s)
  {
    if Late(s) {
      assert s.chan.Removed?;
      assert Step(s, TimerFires(Success)).failed;
      assert Fails(s, TimerFires(Success), []);
    } else {
      forall errno, es ensures !Fails(s, TimerFires(errno), es) {
        StepKeepsInv(s, TimerFires(errno));
        if Undisturbed(Step(s, TimerFires(errno)), es) {
          UndisturbedNeverFails(Step(s, TimerFires(errno)), es);
        }
      }
    }
  }

  lemma RunFirst(s: State, e: Event, es: seq<Event>)
    requires Enabled(s, e) && WellUsed(s, e)
    ensures es == [] ==> Valid(Step(s, e), es) && Run(Step(s, e), es) == Step(s, e)
    ensures Valid(Step(s, e), es) ==> Valid(s, [e] + es) && Run(s, [e] + es) == Run(Step(s, e), es)
  {
    assert ([e] + es)[1..] == es;
  }

  /** A state in which start is not safe: refused, a retry scheduled, stopped and served. */
  lemma StartAfterStopFails()
    ensures var es := [Start(ECONNREFUSED), Stop, FunctorRuns(Success)];
            && Valid(Initial(), es)
            && exists errno, more :: Fails(Run(Initial(), es), Start(errno), more)
  {
    var s0 := Initial();
    var s1 := Step(s0, Start(ECONNREFUSED));
    var s2 := Step(s1, Stop);
    var s3 := Step(s2, FunctorRuns(Success));
    assert !CanStart(s3) && s3.st == Disconnected && s3.chan.NoChannel?;
    var es2 := [FunctorRuns(Success)] + [];
    var es1 := [Stop] + es2;
    RunFirst(s2, FunctorRuns(Success), []);
    RunFirst(s1, Stop, es2);
    RunFirst(s0, Start(ECONNREFUSED), es1);
    var es := [Start(ECONNREFUSED), Stop, FunctorRuns(Success)];
    assert [Start(ECONNREFUSED)] + es1 == es;
    InitialInv();
    RunKeepsInv(s0, es);
    hide Valid, Run, Inv, Fails;
    StartIsSafe(s3);
  }

  /** A late retry timer: a stop still queued from before gives up the new attempt, and the timer set then fires
      before the channel is reset. */
  lemma LateTimerFails()
    ensures var es := [Stop, Start(EINPROGRESS), FunctorRuns(Success)];
            && Valid(Initial(), es)
            && var s := Run(Initial(), es);
               Late(s) && Enabled(s, TimerFires(EINPROGRESS)) && Step(s, TimerFires(EINPROGRESS)).failed
  {
    hide Valid, Run;
    var s0 := Initial();
    var s1 := Step(s0, Stop);
    var s2 := Step(s1, Start(EINPROGRESS));
    var s3 := Step(s2, FunctorRuns(Success));
    assert s2.pending == [StopFunctor] && s2.pending[1..] == [];
    assert s3.pending[0] == ResetFunctor;
    var es2 := [FunctorRuns(Success)] + [];
    var es1 := [Start(EINPROGRESS)] + es2;
    RunFirst(s2, FunctorRuns(Success), []);
    RunFirst(s1, Start(EINPROGRESS), es2);
    RunFirst(s0, Stop, es1);
    assert [Stop] + es1 == [Stop, Start(EINPROGRESS), FunctorRuns(Success)];
  }

  // ----- Why the other calls are unsafe -----

  /** Some stops, and then a start. */
  predicate StartComesFirst(q: seq<Functor>) {
    q != [] && (q[0] == StartFunctor || (q[0] == StopFunctor && StartComesFirst(q[1..])))
  }

  lemma {:induction false} StillFirst(q: seq<Functor>, f: Functor)
    requires StartComesFirst(q)
    ensures StartComesFirst(q + [f])
    decreases |q|
  {
    if q[0] != StartFunctor {
      assert (q + [f])[1..] == q[1..] + [f];
      StillFirst(q[1..], f);
    }
  }

  lemma {:induction false} FirstAtLast(q: seq<Functor>)
    requires ResetFunctor !in q
    ensures StartComesFirst(q + [StartFunctor])
    decreases |q|
  {
    if q != [] && q[0] != StartFunctor {
      assert q[0] in q && (q + [StartFunctor])[1..] == q[1..] + [StartFunctor];
      FirstAtLast(q[1..]);
    }
  }

  /** The queued start will find an attempt, a connection or a channel in its way. */
  predicate Doomed(s: State) {
    && !s.failed && s.connect && (s.st == Connecting <==> s.chan.Registered?) && StartFunctor in s.pending
    && (s.st == Connected || (!s.chan.NoChannel? && StartComesFirst(s.pending)))
  }

  lemma DoomedStep(s: State)
    requires Doomed(s)
    ensures s.pending[0] == StartFunctor ==> Step(s, FunctorRuns(Success)).failed
    ensures s.pending[0] != StartFunctor ==> Doomed(Step(s, FunctorRuns(Success)))
    ensures s.pending[0] != StartFunctor ==>
              var s1 := Step(s, FunctorRuns(Success));
              |s1.pending| < |s.pending| || (|s1.pending| == |s.pending| && s.st == Connecting && s1.st == Disconnected)
  {
    assert s.pending == [s.pending[0]] + s.pending[1..];
    if s.pending[0] == StopFunctor && s.st == Connecting { StillFirst(s.pending[1..], ResetFunctor); }
  }

  lemma {:induction false} DoomedFails(s: State)
    requires Doomed(s)
    ensures exists es :: FailsLater(s, es)
    decreases if s.st == Connecting then 1 else 0, |s.pending|
  {
    DoomedStep(s);
    var run := FunctorRuns(Success);
    if s.pending[0] == StartFunctor {
      FailsNow(s, run);
    } else {
      var s1 := Step(s, run);
      DoomedConnecting(s);
      DoomedFails(s1);
      var es :| FailsLater(s1, es);
      FailsFirst(s, run, es);
    }
  }

  lemma DoomedConnecting(s: State)
    requires Doomed(s) && s.pending[0] != StartFunctor
    ensures Step(s, FunctorRuns(Success)).st == Connecting ==> s.st == Connecting
    ensures s.st == Connecting && Step(s, FunctorRuns(Success)).st == Connecting ==>
              |Step(s, FunctorRuns(Success)).pending| < |s.pending|
  {
  }

  /** The channel waits for its reset exactly when one is queued, once, in q. */
  predicate ResetIn(s: State, q: seq<Functor>) {
    !s.chan.Registered? && multiset(q)[ResetFunctor] == (if s.chan.Removed? then 1 else 0)
  }

  /** What the first functor does while nothing is under way. */
  lemma IdleStep(s: State, q: seq<Functor>)
    requires !s.failed && s.st == Disconnected && s.pending == q + [StartFunctor]
    requires q != [] && q[0] != StartFunctor && ResetIn(s, q)
    ensures var s1 := Step(s, FunctorRuns(Success));
            && s1 == s.(pending := q[1..] + [StartFunctor], chan := s1.chan) && ResetIn(s1, q[1..])
  {
    assert s.pending[1..] == q[1..] + [StartFunctor];
    assert multiset(q) == multiset{q[0]} + multiset(q[1..]) by { assert q == [q[0]] + q[1..]; }
  }

  /** A retry is scheduled as well: it will find the attempt of the queued start. */
  lemma {:induction false} TimerFindsAttempt(s: State, q: seq<Functor>)
    requires !s.failed && s.connect && s.st == Disconnected && s.timers == 1 && s.pending == q + [StartFunctor]
    requires StartFunctor !in q && ResetIn(s, q)
    ensures exists es :: FailsLater(s, es)
    decreases |q|
  {
    var run := FunctorRuns(Success);
    var s1 := Step(s, run);
    if q == [] {
      assert s1.st == Connecting && s1.timers == 1 && s1.pending == [];
      FailsNow(s1, TimerFires(Success));
      FailsFirst(s, run, [TimerFires(Success)]);
    } else {
      assert q[0] in q;
      IdleStep(s, q);
      TimerFindsAttempt(s1, q[1..]);
      var es :| FailsLater(s1, es);
      FailsFirst(s, run, es);
    }
  }

  /** Another start is queued before: the second will find the attempt of the first. */
  lemma {:induction false} SecondFindsAttempt(s: State, q: seq<Functor>)
    requires !s.failed && s.connect && s.st == Disconnected && s.pending == q + [StartFunctor]
    requires StartFunctor in q && ResetFirst(q) && ResetIn(s, q)
    ensures exists es :: FailsLater(s, es)
    decreases |q|
  {
    var run := FunctorRuns(Success);
    var s1 := Step(s, run);
    assert q == [q[0]] + q[1..];
    if q[0] == StartFunctor {
      assert forall j :: 0 < j < |q| ==> q[j] != ResetFunctor;
      assert ResetFunctor !in q[1..] && ResetFunctor !in q;
      assert s.chan.NoChannel?;
      assert s.pending[1..] == q[1..] + [StartFunctor];
      FirstAtLast(q[1..]);
      assert s1.pending[|q| - 1] == StartFunctor;
      DoomedFails(s1);
    } else {
      IdleStep(s, q);
      assert ResetFirst(q[1..]);
      SecondFindsAttempt(s1, q[1..]);
    }
    var es :| FailsLater(s1, es);
    FailsFirst(s, run, es);
  }

  lemma UnsafeQueuedStart(s: State)
    requires Inv(s) && !CanQueueStart(s)
    ensures exists es :: FailsLater(Step(s, QueuedStart), es)
  {
    hide Ledger, BackedOff, FailsLater;
    var s1 := Step(s, QueuedStart);
    assert s1.pending[|s.pending|] == StartFunctor;
    if s.st != Disconnected {
      if s.st == Connecting {
        assert multiset(s.pending)[ResetFunctor] == 0;
        FirstAtLast(s.pending);
      }
      DoomedFails(s1);
    } else if StartFunctor in s.pending {
      SecondFindsAttempt(s1, s.pending);
    } else {
      TimerFindsAttempt(s1, s.pending);
    }
  }

  lemma UnsafeStart(s: State, e: Event)
    requires Inv(s)
    requires (e == Start(Success) && !CanStart(s)) || (e == Restart(Success) && !CanRestart(s))
    ensures exists es :: Fails(s, e, es)
  {
    hide Ledger, BackedOff;
    var s1 := Step(s, e);
    if s1.failed {
      assert Fails(s, e, []);
    } else if s.timers > 0 {
      assert s1.st == Connecting && s1.timers == 1 && ResetFunctor !in s1.pending;
      FailsNow(s1, TimerFires(Success));
      assert Fails(s, e, [TimerFires(Success)]);
    } else {
      assert s1.st == Connecting && s1.pending == s.pending && StartFunctor in s.pending;
      OnlyStopsBefore(s.pending);
      DoomedFails(s1);
      var es :| FailsLater(s1, es);
      assert Fails(s, e, es);
    }
  }

  lemma {:induction false} OnlyStopsBefore(q: seq<Functor>)
    requires StartFunctor in q && multiset(q)[ResetFunctor] == 0
    ensures StartComesFirst(q)
    decreases |q|
  {
    assert q == [q[0]] + q[1..] && multiset(q) == multiset{q[0]} + multiset(q[1..]);
    if q[0] != StartFunctor { OnlyStopsBefore(q[1..]); }
  }

  // ----- The object -----

  class Connector {
    var state: States
    var connect: bool
    var channel: Chan
    var retryDelayMs: int
    var pendingFunctors: seq<Functor>
    var timers: nat
    var sockets: nat
    ghost var closed: seq<nat>
    ghost var handed: seq<nat>
    ghost var waits: seq<int>

    ghost function View(): State
      reads this
    {
      State(state, connect, channel, pendingFunctors, timers, retryDelayMs, sockets, closed, handed, waits, false)
    }

    constructor ()
      ensures View() == Initial()
    {
      state, connect, channel, retryDelayMs := Disconnected, false, NoChannel, INIT_RETRY_DELAY_MS;
      pendingFunctors, timers, sockets := [], 0, 0;
      closed, handed, waits := [], [], [];
    }

    method RetryLater(fd: nat)
      modifies this
      ensures View() == Retry(old(View()), fd)
    {
      closed := closed + [fd];
      state := Disconnected;
      if connect {
        timers := timers + 1;
        waits := waits + [retryDelayMs];
        retryDelayMs := Min(retryDelayMs * 2, MAX_RETRY_DELAY_MS);
      }
    }

    /** connect(): the source asserts that there is no channel when the attempt is in progress. */
    method Attempt(errno: Errno)
      requires IsInProgress(errno) ==> channel.NoChannel?
      modifies this
      ensures View() == Connect(old(View()), errno)
    {
      var sockfd := sockets;
      sockets := sockets + 1;
      if IsInProgress(errno) {
        state, channel := Connecting, Registered(sockfd);
      } else if IsRetryable(errno) {
        RetryLater(sockfd);
      } else {
        closed := closed + [sockfd];
      }
    }

    method StartLoop(errno: Errno)
      requires state == Disconnected
      requires connect && IsInProgress(errno) ==> channel.NoChannel?
      modifies this
      ensures View() == StartInLoop(old(View()), errno)
    {
      if connect { Attempt(errno); }
    }

    method StartConnecting(errno: Errno)
      requires CanStart(View())
      modifies this
      ensures View() == Step(old(View()), Start(errno))
    {
      connect := true;
      StartLoop(errno);
    }

    /** start in another thread: the flag is set at the call, the rest is queued. */
    method StartFromOtherThread()
      requires Inv(View()) && CanQueueStart(View())
      modifies this
      ensures Inv(View()) && View() == Step(old(View()), QueuedStart)
    {
      StepKeepsInv(View(), QueuedStart);
      hide Inv;
      connect, pendingFunctors := true, pendingFunctors + [StartFunctor];
    }

    method RestartConnecting(errno: Errno)
      requires CanRestart(View())
      modifies this
      ensures View() == Step(old(View()), Restart(errno))
    {
      state, retryDelayMs, waits, connect := Disconnected, INIT_RETRY_DELAY_MS, [], true;
      StartLoop(errno);
    }

    method StopConnecting()
      modifies this
      ensures View() == Step(old(View()), Stop)
    {
      connect, pendingFunctors := false, pendingFunctors + [StopFunctor];
    }

    method RemoveAndResetChannel() returns (fd: nat)
      requires channel.Registered?
      modifies this
      ensures View() == RemoveChannel(old(View())) && fd == old(channel.fd)
    {
      fd := channel.fd;
      channel, pendingFunctors := Removed(fd), pendingFunctors + [ResetFunctor];
    }

    /** The common body of stopInLoop and handleError. */
    method Abandon()
      requires state == Connecting ==> channel.Registered?
      modifies this
      ensures View() == GiveUp(old(View()))
    {
      if state == Connecting {
        var fd := RemoveAndResetChannel();
        RetryLater(fd);
      }
    }

    method WriteReady(soError: bool, selfConnect: bool)
      requires (state == Connecting && channel.Registered?) || state == Disconnected
      modifies this
      ensures View() == HandleWrite(old(View()), soError, selfConnect)
    {
      if state == Connecting {
        var fd := RemoveAndResetChannel();
        if soError {
          RetryLater(fd);
        } else if selfConnect {
          RetryLater(fd);
        } else {
          state := Connected;
          if connect { handed := handed + [fd]; } else { closed := closed + [fd]; }
        }
      }
    }

    method ChannelReady(error: bool, write: bool, soError: bool, selfConnect: bool)
      requires Inv(View()) && channel.Registered?
      modifies this
      ensures View() == Step(old(View()), Ready(error, write, soError, selfConnect))
    {
      hide Ledger, BackedOff;
      if error { Abandon(); }
      if write { WriteReady(soError, selfConnect); }
    }

    method TimerExpired(errno: Errno)
      requires Inv(View()) && timers > 0 && !Late(View())
      modifies this
      ensures View() == Step(old(View()), TimerFires(errno))
    {
      hide Ledger, BackedOff;
      timers := timers - 1;
      StartLoop(errno);
    }

    method NextFunctor(errno: Errno)
      requires Inv(View()) && pendingFunctors != []
      modifies this
      ensures Inv(View()) && View() == Step(old(View()), FunctorRuns(errno))
    {
      StepKeepsInv(View(), FunctorRuns(errno));
      StartFinds(View());
      hide Inv;
      var f := pendingFunctors[0];
      pendingFunctors := pendingFunctors[1..];
      match f
      case ResetFunctor => channel := NoChannel;
      case StopFunctor => Abandon();
      case StartFunctor => StartLoop(errno);
    }
  }

  /** What the functors find when they run. */
  lemma StartFinds(s: State)
    requires Inv(s) && s.pending != []
    ensures s.st == Connecting ==> s.chan.Registered?
    ensures s.pending[0] == StartFunctor ==> s.st == Disconnected && s.chan.NoChannel?
  {
    if s.pending[0] == StartFunctor {
      assert forall j :: 0 < j < |s.pending| ==> s.pending[j] != ResetFunctor;
      assert ResetFunctor !in s.pending;
    }
  }
}
