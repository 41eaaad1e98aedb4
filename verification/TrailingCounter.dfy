/** utility/MinuteHourCounter.h: counts over the last buckets of time, kept as a sliding queue with a running
    total, against the full history of what was added. */
module TrailingCounter {
  import opened CivilDate

  // ----- The queue -----

  datatype Conveyor = Conveyor(maxItems: int, q: seq<int>, total: int)

  function Sum(s: seq<int>): int {
    if s == [] then 0 else s[0] + Sum(s[1..])
  }

  function Zeros(n: int): seq<int> {
    if n <= 0 then [] else seq(n, _ => 0)
  }

  /** The newest items of s, at most max of them. */
  function Newest(s: seq<int>, max: int): seq<int>
    requires max >= 0
  {
    if |s| > max then s[|s| - max..] else s
  }

  function Shift(c: Conveyor, n: int): Conveyor
    requires c.maxItems >= 0
  {
    if n >= c.maxItems then c.(q := [], total := 0)
    else
      var longer := c.q + Zeros(n);
      var kept := Newest(longer, c.maxItems);
      c.(q := kept, total := c.total - Sum(longer[..|longer| - |kept|]))
  }

  /** With fewer than two slots the queue could still be empty after the shift, and the source's back() would
      have no item to return. */
  function AddToBack(c: Conveyor, count: int): Conveyor
    requires c.maxItems >= 2
  {
    var c1 := if c.q == [] then Shift(c, 1) else c;
    c1.(q := c1.q[|c1.q| - 1 := c1.q[|c1.q| - 1] + count], total := c1.total + count)
  }

  // ----- The counter -----

  datatype Counter = Counter(buckets: Conveyor, secs: int, last: int)

  function Bucket(secs: int, time: int): int
    requires secs > 0
  {
    TruncDiv(time, secs)
  }

  function Update(c: Counter, now: int): Counter
    requires c.secs > 0 && c.buckets.maxItems >= 2
  {
    c.(buckets := Shift(c.buckets, Bucket(c.secs, now) - Bucket(c.secs, c.last)), last := now)
  }

  function Add(c: Counter, count: int, now: int): Counter
    requires c.secs > 0 && c.buckets.maxItems >= 2
  {
    var c1 := Update(c, now);
    c1.(buckets := AddToBack(c1.buckets, count))
  }

  datatype Op = AddOp(count: int, time: int) | Query(time: int)

  function Apply(c: Counter, op: Op): Counter
    requires c.secs > 0 && c.buckets.maxItems >= 2
  {
    match op
    case AddOp(count, time) => Add(c, count, time)
    case Query(time) => Update(c, time)
  }

  /** The counter after the first n operations. */
  function Run(c: Counter, ops: seq<Op>, n: nat): (r: Counter)
    requires c.secs > 0 && c.buckets.maxItems >= 2 && n <= |ops|
    ensures r.secs == c.secs && r.buckets.maxItems == c.buckets.maxItems
  {
    if n == 0 then c else Apply(Run(c, ops, n - 1), ops[n - 1])
  }

  /** Time does not go back, and starts at the epoch or later. */
  predicate InTimeOrder(ops: seq<Op>) {
    && (forall i :: 0 <= i < |ops| ==> ops[i].time >= 0)
    && (forall i, j :: 0 <= i < j < |ops| ==> ops[i].time <= ops[j].time)
  }

  /** A new counter: the constructor leaves the time of the last update uninitialised, so it is arbitrary. */
  function NewCounter(maxItems: int, secs: int, last: int): Counter {
    Counter(Conveyor(maxItems, [], 0), secs, last)
  }

  // ----- The history -----

  /** The sum of everything added in one bucket of time by the first n operations. */
  function InBucket(ops: seq<Op>, n: nat, secs: int, bucket: int): int
    requires secs > 0 && n <= |ops|
  {
    if n == 0 then 0 else
      var op := ops[n - 1];
      InBucket(ops, n - 1, secs, bucket) + (if op.AddOp? && Bucket(secs, op.time) == bucket then op.count else 0)
  }

  /** The sum of everything they added in the span of buckets, width of them, that ends with the given one. */
  function InWindow(ops: seq<Op>, n: nat, secs: int, bucket: int, width: nat): int
    requires secs > 0 && n <= |ops|
  {
    if n == 0 then 0 else
      var op := ops[n - 1];
      InWindow(ops, n - 1, secs, bucket, width)
      + (if op.AddOp? && bucket - width < Bucket(secs, op.time) <= bucket then op.count else 0)
  }

  lemma {:induction false} WindowGrows(ops: seq<Op>, n: nat, secs: int, bucket: int, width: nat)
    requires secs > 0 && n <= |ops|
    ensures InWindow(ops, n, secs, bucket, width + 1)
            == InWindow(ops, n, secs, bucket, width) + InBucket(ops, n, secs, bucket - width)
    ensures InWindow(ops, n, secs, bucket, 0) == 0
  {
    hide Bucket;
    if n > 0 { WindowGrows(ops, n - 1, secs, bucket, width); }
  }

  // ----- The invariant -----

  /** The item k places from the back; nothing beyond the front. */
  function FromBack(q: seq<int>, k: nat): int {
    if k < |q| then q[|q| - 1 - k] else 0
  }

  function Total(q: seq<int>, n: nat): int {
    if n == 0 then 0 else Total(q, n - 1) + FromBack(q, n - 1)
  }

  lemma {:induction false} SumSplits(a: seq<int>, b: seq<int>)
    ensures Sum(a + b) == Sum(a) + Sum(b)
    decreases |a|
  {
    if a == [] {
      assert a + b == b;
    } else {
      assert (a + b)[1..] == a[1..] + b;
      SumSplits(a[1..], b);
    }
  }

  lemma {:induction false} TotalOfTail(q: seq<int>, n: nat)
    requires q != [] && n < |q|
    ensures Total(q, n) == Total(q[1..], n)
  {
    if n > 0 { TotalOfTail(q, n - 1); }
  }

  lemma {:induction false} TotalIsSum(q: seq<int>, n: nat)
    requires n >= |q|
    ensures Total(q, n) == Sum(q)
    decreases n, |q|
  {
    if n > |q| {
      TotalIsSum(q, n - 1);
    } else if n > 0 {
      TotalOfTail(q, n - 1);
      TotalIsSum(q[1..], n - 1);
    }
  }

  /** The queue agrees with the history: each of the last buckets of time has its item, and the total is the
      sum of the items. */
  predicate Agrees(c: Counter, ops: seq<Op>, n: nat)
    requires n <= |ops|
  {
    && c.secs > 0 && c.buckets.maxItems >= 2
    && |c.buckets.q| <= c.buckets.maxItems
    && c.buckets.total == Sum(c.buckets.q)
    && (forall i :: 0 <= i < n ==> Bucket(c.secs, ops[i].time) <= Bucket(c.secs, c.last))
    && (forall k :: 0 <= k < c.buckets.maxItems ==>
          InBucket(ops, n, c.secs, Bucket(c.secs, c.last) - k) == FromBack(c.buckets.q, k))
  }

  /** A shift moves every item n places away from the back and brings in zeros. */
  lemma ShiftMoves(c: Conveyor, n: int, k: nat)
    requires c.maxItems >= 2 && |c.q| <= c.maxItems && k < c.maxItems
    ensures FromBack(Shift(c, n).q, k) == if n <= 0 then FromBack(c.q, k) else if k < n then 0 else FromBack(c.q, k - n)
    ensures |Shift(c, n).q| <= c.maxItems
  {
  }

  lemma ShiftKeepsTotal(c: Conveyor, n: int)
    requires c.maxItems >= 2 && c.total == Sum(c.q)
    ensures Shift(c, n).total == Sum(Shift(c, n).q)
  {
    if n < c.maxItems {
      var longer := c.q + Zeros(n);
      var kept := Newest(longer, c.maxItems);
      SumSplits(c.q, Zeros(n));
      SumOfZeros(n);
      SumSplits(longer[..|longer| - |kept|], kept);
      assert longer == longer[..|longer| - |kept|] + kept;
    }
  }

  lemma SumOfOne(x: int)
    ensures Sum([x]) == x
  {
    assert [x][1..] == [];
  }

  lemma {:induction false} SumOfZeros(n: int)
    ensures Sum(Zeros(n)) == 0
    decreases if n < 0 then 0 else n
  {
    if n > 0 {
      assert Zeros(n)[1..] == Zeros(n - 1);
      SumOfZeros(n - 1);
    }
  }

  /** Nothing has been added in a bucket later than all operations. */
  lemma {:induction false} NothingYet(ops: seq<Op>, n: nat, secs: int, bucket: int)
    requires secs > 0 && n <= |ops| && forall i :: 0 <= i < n ==> Bucket(secs, ops[i].time) < bucket
    ensures InBucket(ops, n, secs, bucket) == 0
  {
    hide Bucket;
    if n > 0 { NothingYet(ops, n - 1, secs, bucket); }
  }

  lemma UpdateAgrees(c: Counter, ops: seq<Op>, n: nat, now: int)
    requires n <= |ops| && Agrees(c, ops, n)
    requires n == 0 || Bucket(c.secs, c.last) <= Bucket(c.secs, now)
    ensures Agrees(Update(c, now), ops, n)
  {
    hide Bucket, Shift, Sum, InBucket;
    var c', secs := Update(c, now), c.secs;
    var gone := Bucket(secs, now) - Bucket(secs, c.last);
    ShiftKeepsTotal(c.buckets, gone);
    ShiftKeepsMax(c.buckets, gone);
    ShiftMoves(c.buckets, gone, 0);
    forall k | 0 <= k < c.buckets.maxItems
      ensures InBucket(ops, n, secs, Bucket(secs, now) - k) == FromBack(c'.buckets.q, k)
    {
      ShiftMoves(c.buckets, gone, k);
      if n == 0 {
        EmptyHistory(ops, secs, Bucket(secs, now) - k);
        forall j | 0 <= j < c.buckets.maxItems ensures FromBack(c.buckets.q, j) == 0 {
          EmptyHistory(ops, secs, Bucket(secs, c.last) - j);
        }
      } else if k < gone {
        NothingYet(ops, n, secs, Bucket(secs, now) - k);
      } else {
        assert Bucket(secs, now) - k == Bucket(secs, c.last) - (k - gone);
      }
    }
  }

  lemma ShiftKeepsMax(c: Conveyor, n: int)
    requires c.maxItems >= 0
    ensures Shift(c, n).maxItems == c.maxItems
  {
  }

  lemma EmptyHistory(ops: seq<Op>, secs: int, bucket: int)
    requires secs > 0
    ensures InBucket(ops, 0, secs, bucket) == 0
  {
  }

  lemma AddToLastAdds(q: seq<int>, count: int)
    requires q != []
    ensures Sum(q[|q| - 1 := q[|q| - 1] + count]) == Sum(q) + count
  {
    hide Sum;
    var init, last := q[..|q| - 1], q[|q| - 1];
    assert q == init + [last] && q[|q| - 1 := last + count] == init + [last + count];
    SumSplits(init, [last]);
    SumSplits(init, [last + count]);
    SumOfOne(last);
    SumOfOne(last + count);
  }

  /** A queue made non-empty before the addition: it holds the same items, seen from the back. */
  lemma ShiftOfEmpty(c: Conveyor)
    requires c.maxItems >= 2 && c.q == [] && c.total == 0
    ensures Shift(c, 1) == c.(q := [0])
  {
  }

  lemma AddToBackAdds(c: Conveyor, count: int, k: nat)
    requires c.maxItems >= 2 && |c.q| <= c.maxItems && c.total == Sum(c.q)
    ensures var c' := AddToBack(c, count);
            && |c'.q| <= c.maxItems && c'.maxItems == c.maxItems
            && c'.total == Sum(c'.q)
            && FromBack(c'.q, k) == FromBack(c.q, k) + (if k == 0 then count else 0)
  {
    hide Sum, Shift;
    var c1 := c;
    if c.q == [] {
      SumOfZeros(0);
      ShiftOfEmpty(c);
      SumOfOne(0);
      c1 := Shift(c, 1);
    }
    AddToLastAdds(c1.q, count);
  }

  lemma RecordAdd(c: Counter, ops: seq<Op>, n: nat)
    requires n < |ops| && Agrees(c, ops, n) && ops[n].AddOp? && ops[n].time == c.last
    ensures Agrees(c.(buckets := AddToBack(c.buckets, ops[n].count)), ops, n + 1)
  {
    hide Bucket, AddToBack, Sum;
    var c' := c.(buckets := AddToBack(c.buckets, ops[n].count));
    AddToBackAdds(c.buckets, ops[n].count, 0);
    forall k | 0 <= k < c.buckets.maxItems
      ensures InBucket(ops, n + 1, c.secs, Bucket(c.secs, c.last) - k) == FromBack(c'.buckets.q, k)
    {
      AddToBackAdds(c.buckets, ops[n].count, k);
    }
  }

  lemma RecordQuery(c: Counter, ops: seq<Op>, n: nat)
    requires n < |ops| && Agrees(c, ops, n) && ops[n].Query? && ops[n].time == c.last
    ensures Agrees(c, ops, n + 1)
  {
    hide Bucket, Sum;
  }

  /** Every operation keeps the counter in agreement with the history. */
  lemma ApplyAgrees(c: Counter, ops: seq<Op>, n: nat)
    requires n < |ops| && Agrees(c, ops, n) && ops[n].time >= 0
    requires n == 0 || 0 <= c.last <= ops[n].time
    ensures Agrees(Apply(c, ops[n]), ops, n + 1) && Apply(c, ops[n]).last == ops[n].time
  {
    hide Bucket, Shift, AddToBack, Sum, InBucket;
    assert c.secs > 0;
    if n != 0 { BucketsInOrder(c.secs, c.last, ops[n].time); }
    UpdateAgrees(c, ops, n, ops[n].time);
    var updated := Update(c, ops[n].time);
    match ops[n]
    case AddOp(count, time) => RecordAdd(updated, ops, n);
    case Query(time) => RecordQuery(updated, ops, n);
  }

  lemma EmptyAgrees(c: Counter, ops: seq<Op>)
    requires c.secs > 0 && c.buckets.maxItems >= 2 && c.buckets.q == [] && c.buckets.total == 0
    ensures Agrees(c, ops, 0)
  {
    hide Bucket;
    assert c.buckets.total == Sum([]);
  }

  lemma {:induction false} RunAgrees(c: Counter, ops: seq<Op>, n: nat)
    requires c.secs > 0 && c.buckets.maxItems >= 2 && c.buckets.q == [] && c.buckets.total == 0
    requires InTimeOrder(ops) && n <= |ops|
    ensures Agrees(Run(c, ops, n), ops, n)
    ensures n > 0 ==> Run(c, ops, n).last == ops[n - 1].time
  {
    hide Agrees, Apply;
    if n == 0 {
      EmptyAgrees(c, ops);
    } else {
      RunAgrees(c, ops, n - 1);
      ApplyAgrees(Run(c, ops, n - 1), ops, n - 1);
    }
  }

  lemma BucketsInOrder(secs: int, a: int, b: int)
    requires secs > 0 && 0 <= a <= b
    ensures Bucket(secs, a) <= Bucket(secs, b)
  {
    QuotientsInOrder(a, b, secs);
  }

  lemma {:induction false} QuotientsInOrder(a: int, b: int, d: int)
    requires d > 0 && 0 <= a <= b
    ensures a / d <= b / d
  {
    var q, p := b / d, a / d;
    assert a == d * p + a % d && b == d * q + b % d;
    assert d * (p - q) < d;
    assert p - q >= 1 ==> d * (p - q) >= d;
  }

  // ----- What that means -----

  lemma {:induction false} TotalIsWindow(c: Counter, ops: seq<Op>, n: nat, width: nat)
    requires n <= |ops| && Agrees(c, ops, n) && width <= c.buckets.maxItems
    ensures Total(c.buckets.q, width) == InWindow(ops, n, c.secs, Bucket(c.secs, c.last), width)
  {
    hide Bucket, Sum, InBucket, InWindow;
    WindowGrows(ops, n, c.secs, Bucket(c.secs, c.last), if width == 0 then 0 else width - 1);
    if width > 0 { TotalIsWindow(c, ops, n, width - 1); }
  }

  /** For every sequence of adds and queries in time order, from whatever the uninitialised update time holds:
      a query then sees the sum of everything added in the last maxItems buckets of the full history. */
  lemma TrailingCountIsExact(maxItems: int, secs: int, garbage: int, ops: seq<Op>, now: int)
    requires maxItems >= 2 && secs > 0
    requires InTimeOrder(ops) && now >= 0 && (ops != [] ==> ops[|ops| - 1].time <= now)
    ensures Update(Run(NewCounter(maxItems, secs, garbage), ops, |ops|), now).buckets.total
            == InWindow(ops, |ops|, secs, Bucket(secs, now), maxItems)
  {
    hide Run, Bucket, Sum, InWindow, InBucket, Shift;
    var c := NewCounter(maxItems, secs, garbage);
    RunAgrees(c, ops, |ops|);
    var before := Run(c, ops, |ops|);
    if ops != [] { BucketsInOrder(secs, before.last, now); }
    UpdateAgrees(before, ops, |ops|, now);
    ShiftKeepsMax(before.buckets, Bucket(secs, now) - Bucket(secs, before.last));
    var after := Update(before, now);
    TotalIsWindow(after, ops, |ops|, maxItems);
    TotalIsSum(after.buckets.q, maxItems);
  }

  /** The window in seconds: an addition is counted exactly while its age is at most n - 1 whole buckets and
      the part of the current bucket that has gone by. With buckets of one second that is an age below n; with
      longer ones the count lags the promised span by up to a bucket. */
  lemma WindowInSeconds(secs: int, n: nat, time: int, now: int)
    requires secs > 0 && n >= 1 && 0 <= time <= now
    ensures Bucket(secs, now) - n < Bucket(secs, time) <= Bucket(secs, now)
            <==> now - time <= secs * (n - 1) + now % secs
  {
    BucketsInOrder(secs, time, now);
    var start := secs * (Bucket(secs, now) - n + 1);
    assert now == secs * (now / secs) + now % secs;
    assert start == secs * (now / secs) - secs * (n - 1);
    AtLeastQuotient(time, secs, now / secs - n + 1);
  }

  /** The sum of what the first n operations added at most age seconds ago. */
  function Within(ops: seq<Op>, n: nat, now: int, age: int): int
    requires n <= |ops|
  {
    if n == 0 then 0 else
      var op := ops[n - 1];
      Within(ops, n - 1, now, age) + (if op.AddOp? && now - op.time <= age then op.count else 0)
  }

  /** How far back a query at the given time sees. */
  function Reach(secs: int, width: int, now: int): int
    requires secs > 0
  {
    secs * (width - 1) + now % secs
  }

  lemma {:induction false} WindowIsWithin(ops: seq<Op>, n: nat, secs: int, width: nat, now: int)
    requires secs > 0 && width >= 1 && n <= |ops| && forall i :: 0 <= i < n ==> 0 <= ops[i].time <= now
    ensures InWindow(ops, n, secs, Bucket(secs, now), width) == Within(ops, n, now, Reach(secs, width, now))
  {
    hide Bucket;
    if n > 0 {
      WindowIsWithin(ops, n - 1, secs, width, now);
      WindowInSeconds(secs, width, ops[n - 1].time, now);
    }
  }

  /** The count a query returns, in seconds: everything added no longer ago than it reaches. */
  lemma TrailingCountInSeconds(maxItems: int, secs: int, garbage: int, ops: seq<Op>, now: int)
    requires maxItems >= 2 && secs > 0
    requires InTimeOrder(ops) && now >= 0 && (ops != [] ==> ops[|ops| - 1].time <= now)
    ensures Update(Run(NewCounter(maxItems, secs, garbage), ops, |ops|), now).buckets.total
            == Within(ops, |ops|, now, Reach(secs, maxItems, now))
  {
    hide Run, Update, Bucket, InWindow, Within, Reach;
    TrailingCountIsExact(maxItems, secs, garbage, ops, now);
    assert forall i :: 0 <= i < |ops| ==> 0 <= ops[i].time <= now;
    WindowIsWithin(ops, |ops|, secs, maxItems, now);
  }

  /** Something was added by the first n operations whose age lies beyond the reach but within the promise. */
  predicate Overlooks(ops: seq<Op>, n: nat, now: int, reach: int, promise: int)
    requires n <= |ops|
  {
    exists i :: 0 <= i < n && ops[i].AddOp? && ops[i].count > 0 && reach < now - ops[i].time <= promise
  }

  lemma {:induction false} OverlookedIsMissing(ops: seq<Op>, n: nat, now: int, reach: int, promise: int)
    requires n <= |ops| && reach <= promise && forall i :: 0 <= i < n && ops[i].AddOp? ==> ops[i].count >= 0
    ensures Within(ops, n, now, reach) <= Within(ops, n, now, promise)
    ensures Within(ops, n, now, reach) == Within(ops, n, now, promise) <==> !Overlooks(ops, n, now, reach, promise)
  {
    if n > 0 {
      OverlookedIsMissing(ops, n - 1, now, reach, promise);
      var op := ops[n - 1];
      if Overlooks(ops, n - 1, now, reach, promise) {
        var i :| 0 <= i < n - 1 && ops[i].AddOp? && ops[i].count > 0 && reach < now - ops[i].time <= promise;
        assert Overlooks(ops, n, now, reach, promise);
      }
    }
  }

  /** Exactly when the count is the one promised, over the last secs * maxItems seconds (3600 for the hour): when
      nothing was added in the part of that span that lies beyond the reach. */
  lemma PromiseIsKept(maxItems: int, secs: int, garbage: int, ops: seq<Op>, now: int)
    requires maxItems >= 2 && secs > 0
    requires InTimeOrder(ops) && now >= 0 && (ops != [] ==> ops[|ops| - 1].time <= now)
    requires forall i :: 0 <= i < |ops| && ops[i].AddOp? ==> ops[i].count >= 0
    ensures Update(Run(NewCounter(maxItems, secs, garbage), ops, |ops|), now).buckets.total
            == Within(ops, |ops|, now, secs * maxItems - 1)
            <==> !Overlooks(ops, |ops|, now, Reach(secs, maxItems, now), secs * maxItems - 1)
  {
    ReachIsShort(secs, maxItems, now);
    hide Run, Update, Within, Reach, Overlooks, InTimeOrder;
    TrailingCountInSeconds(maxItems, secs, garbage, ops, now);
    OverlookedIsMissing(ops, |ops|, now, Reach(secs, maxItems, now), secs * maxItems - 1);
  }

  lemma ReachIsShort(secs: int, width: int, now: int)
    requires secs > 0
    ensures Reach(secs, width, now) <= secs * width - 1
    ensures Reach(secs, width, now) == secs * width - 1 <==> now % secs == secs - 1
  {
    assert secs * (width - 1) == secs * width - secs;
  }

  predicate KeepsPromise(maxItems: int, secs: int, garbage: int, ops: seq<Op>, now: int)
    requires maxItems >= 2 && secs > 0
  {
    Update(Run(NewCounter(maxItems, secs, garbage), ops, |ops|), now).buckets.total
    == Within(ops, |ops|, now, secs * maxItems - 1)
  }

  predicate History(ops: seq<Op>, now: int) {
    && InTimeOrder(ops) && (ops != [] ==> ops[|ops| - 1].time <= now)
    && forall i :: 0 <= i < |ops| && ops[i].AddOp? ==> ops[i].count >= 0
  }

  /** So the promise is kept for every history exactly in the last second of a bucket: always with buckets of one
      second, and in one second out of sixty for the hour. */
  lemma PromiseHoldsAt(maxItems: int, secs: int, garbage: int, now: int)
    requires maxItems >= 2 && secs > 0 && now >= secs * maxItems
    ensures (forall ops :: History(ops, now) ==> KeepsPromise(maxItems, secs, garbage, ops, now))
            <==> now % secs == secs - 1
  {
    ReachIsShort(secs, maxItems, now);
    var reach := Reach(secs, maxItems, now);
    assert now >= 0 by { assert secs * maxItems >= 0; }
    hide KeepsPromise, Reach;
    if now % secs == secs - 1 {
      forall ops | History(ops, now) ensures KeepsPromise(maxItems, secs, garbage, ops, now) {
        PromiseOf(maxItems, secs, garbage, ops, now);
      }
    } else {
      var ops := [AddOp(1, now - reach - 1)];
      assert History(ops, now) by { assert reach >= 0 by { ReachIsLong(secs, maxItems, now); } }
      PromiseOf(maxItems, secs, garbage, ops, now);
      assert ops[0].AddOp? && ops[0].count > 0 && now - ops[0].time == reach + 1;
      assert Overlooks(ops, |ops|, now, reach, secs * maxItems - 1);
      assert !KeepsPromise(maxItems, secs, garbage, ops, now);
    }
  }

  lemma ReachIsLong(secs: int, width: int, now: int)
    requires secs > 0 && width >= 1
    ensures Reach(secs, width, now) >= 0
  {
    assert secs * (width - 1) >= 0;
  }

  lemma PromiseOf(maxItems: int, secs: int, garbage: int, ops: seq<Op>, now: int)
    requires maxItems >= 2 && secs > 0 && now >= 0 && History(ops, now)
    ensures KeepsPromise(maxItems, secs, garbage, ops, now)
            <==> !Overlooks(ops, |ops|, now, Reach(secs, maxItems, now), secs * maxItems - 1)
  {
    hide Overlooks, Reach, Run, Update, Within;
    PromiseIsKept(maxItems, secs, garbage, ops, now);
  }

  lemma {:induction false} AtLeastQuotient(a: int, d: int, q: int)
    requires d > 0
    ensures a / d >= q <==> a >= d * q
  {
    var p := a / d;
    assert a == d * p + a % d;
    assert d * (q - p) == d * q - d * p;
    assert q - p >= 1 ==> d * (q - p) >= d;
    assert q - p <= 0 ==> d * (q - p) <= 0;
  }

  // ----- The objects -----

  class ConveyorQueue {
    const maxItems: int
    var q: seq<int>
    var totalSum: int

    ghost function View(): Conveyor
      reads this
    {
      Conveyor(maxItems, q, totalSum)
    }

    constructor (maxItems: int)
      ensures View() == Conveyor(maxItems, [], 0)
    {
      this.maxItems, q, totalSum := maxItems, [], 0;
    }

    /** The first loop of shift: a zero for each bucket that has gone by. */
    method PushZeros(count: int)
      modifies this
      ensures q == old(q) + Zeros(count) && totalSum == old(totalSum)
    {
      var left := count;
      while left > 0
        invariant count <= 0 ==> left == count
        invariant count > 0 ==> 0 <= left <= count
        invariant q == old(q) + Zeros(count - left) && totalSum == old(totalSum)
      {
        assert Zeros(count - left) + [0] == Zeros(count - left + 1);
        q := q + [0];
        left := left - 1;
      }
    }

    /** The second loop of shift: what no longer fits leaves at the front and is taken off the total. */
    method DropOldest()
      requires maxItems >= 0
      modifies this
      ensures q == Newest(old(q), maxItems)
      ensures totalSum == old(totalSum) - Sum(old(q)[..|old(q)| - |q|])
    {
      hide Sum;
      ghost var all := q;
      SumOfZeros(0);
      while |q| > maxItems
        invariant |q| <= |all| && q == all[|all| - |q|..]
        invariant |q| >= |Newest(all, maxItems)|
        invariant totalSum == old(totalSum) - Sum(all[..|all| - |q|])
        decreases |q|
      {
        ghost var gone := |all| - |q|;
        assert all[..gone + 1] == all[..gone] + [q[0]];
        SumSplits(all[..gone], [q[0]]);
        SumOfOne(q[0]);
        totalSum := totalSum - q[0];
        q := q[1..];
      }
    }

    method ShiftBy(numShifted: int)
      requires maxItems >= 0
      modifies this
      ensures View() == Shift(old(View()), numShifted)
    {
      hide Sum, Newest, Zeros;
      if numShifted >= maxItems {
        q, totalSum := [], 0;
        return;
      }
      PushZeros(numShifted);
      DropOldest();
    }

    method AddBack(count: int)
      requires maxItems >= 2
      modifies this
      ensures View() == AddToBack(old(View()), count)
    {
      if q == [] { ShiftBy(1); }
      q := q[|q| - 1 := q[|q| - 1] + count];
      totalSum := totalSum + count;
    }
  }

  class TrailingBucketCounter {
    const buckets: ConveyorQueue
    const secsPerBucket: int
    var lastUpdateTime: int

    ghost predicate Valid() {
      secsPerBucket > 0 && buckets.maxItems >= 2
    }

    ghost function View(): Counter
      reads this, buckets
    {
      Counter(buckets.View(), secsPerBucket, lastUpdateTime)
    }

    /** The source leaves lastUpdateTime uninitialised; the caller's garbage stands for whatever it holds. */
    constructor (numBuckets: int, secsPerBucket: int, garbage: int)
      requires numBuckets >= 2 && secsPerBucket > 0
      ensures Valid() && fresh(buckets) && View() == NewCounter(numBuckets, secsPerBucket, garbage)
    {
      buckets := new ConveyorQueue(numBuckets);
      this.secsPerBucket, lastUpdateTime := secsPerBucket, garbage;
    }

    method UpdateTo(now: int)
      requires Valid()
      modifies this, buckets
      ensures View() == Update(old(View()), now)
    {
      var current := TruncDiv(now, secsPerBucket);
      var last := TruncDiv(lastUpdateTime, secsPerBucket);
      buckets.ShiftBy(current - last);
      lastUpdateTime := now;
    }

    method AddCount(count: int, now: int)
      requires Valid()
      modifies this, buckets
      ensures View() == Add(old(View()), count, now)
    {
      UpdateTo(now);
      buckets.AddBack(count);
    }

    method TrailingCount(now: int) returns (total: int)
      requires Valid()
      modifies this, buckets
      ensures View() == Update(old(View()), now) && total == View().buckets.total
    {
      UpdateTo(now);
      total := buckets.totalSum;
    }
  }

  class MinuteHourCounter {
    const minuteCounts: TrailingBucketCounter
    const hourCounts: TrailingBucketCounter

    ghost predicate Valid() {
      && minuteCounts.Valid() && hourCounts.Valid()
      && minuteCounts != hourCounts && minuteCounts.buckets != hourCounts.buckets
    }

    constructor (garbage1: int, garbage2: int)
      ensures Valid()
      ensures minuteCounts.View() == NewCounter(60, 1, garbage1)
      ensures hourCounts.View() == NewCounter(60, 60, garbage2)
    {
      minuteCounts := new TrailingBucketCounter(60, 1, garbage1);
      hourCounts := new TrailingBucketCounter(60, 60, garbage2);
    }

    /** One reading of the clock serves both counters. */
    method AddNow(count: int, now: int)
      requires Valid()
      modifies minuteCounts, minuteCounts.buckets, hourCounts, hourCounts.buckets
      ensures minuteCounts.View() == Add(old(minuteCounts.View()), count, now)
      ensures hourCounts.View() == Add(old(hourCounts.View()), count, now)
    {
      minuteCounts.AddCount(count, now);
      hourCounts.AddCount(count, now);
    }
  }
}
