/** Conversion between UTC and local time through a transition table (utility/TimeZone.cpp). */
module TimeZone {
  import opened CivilDate

  datatype Transition = Transition(utctime: int, localtime: int, localtimeIdx: nat)

  datatype LocalTime = LocalTime(utcOffset: int, isDst: bool, desigIdx: int)

  datatype Data = Data(transitions: seq<Transition>, localtimes: seq<LocalTime>)

  /** What addTransition and addLocalTime build: indices in range, local times in step with offsets. */
  predicate WellFormed(d: Data) {
    && |d.localtimes| > 0
    && forall i :: 0 <= i < |d.transitions| ==>
         && d.transitions[i].localtimeIdx < |d.localtimes|
         && d.transitions[i].localtime
            == d.transitions[i].utctime + d.localtimes[d.transitions[i].localtimeIdx].utcOffset
  }

  /** std::upper_bound on a sorted range: the first position holding something greater than the key. */
  function UpperBound(keys: seq<int>, key: int): (r: nat)
    ensures r <= |keys|
    ensures r < |keys| ==> key < keys[r]
    ensures forall i :: 0 <= i < r ==> keys[i] <= key
  {
    if |keys| == 0 || key < keys[0] then 0 else 1 + UpperBound(keys[1..], key)
  }

  function UtcTimes(d: Data): (ts: seq<int>)
    ensures |ts| == |d.transitions| && forall i :: 0 <= i < |ts| ==> ts[i] == d.transitions[i].utctime
  {
    seq(|d.transitions|, i requires 0 <= i < |d.transitions| => d.transitions[i].utctime)
  }

  function LocalTimes(d: Data): (ts: seq<int>)
    ensures |ts| == |d.transitions| && forall i :: 0 <= i < |ts| ==> ts[i] == d.transitions[i].localtime
  {
    seq(|d.transitions|, i requires 0 <= i < |d.transitions| => d.transitions[i].localtime)
  }

  // ----- Data::findLocalTime, both overloads -----

  function FindByUtc(d: Data, utcTime: int): LocalTime
    requires WellFormed(d)
  {
    var n := |d.transitions|;
    if n == 0 || utcTime < d.transitions[0].utctime then d.localtimes[0]
    else
      var r := UpperBound(UtcTimes(d), utcTime);
      if r != n then d.localtimes[d.transitions[r - 1].localtimeIdx]
      else d.localtimes[d.transitions[n - 1].localtimeIdx]
  }

  /** The branch the local-time search takes, with the offsets it would return before and after. */
  datatype Branch =
    | BeforeFirst
    | AfterLast
    | Skip(prior: LocalTime, post: LocalTime)
    | Repeat(prior: LocalTime, post: LocalTime)
    | Unique(only: LocalTime)

  function BranchOf(d: Data, localtime: int): Branch
    requires WellFormed(d)
  {
    var ts, n := d.transitions, |d.transitions|;
    if n == 0 || localtime < ts[0].localtime then BeforeFirst
    else
      var r := UpperBound(LocalTimes(d), localtime);
      if r == n then AfterLast
      else
        var prior := d.localtimes[ts[r - 1].localtimeIdx];
        var priorSecond := ts[r].utctime - 1 + prior.utcOffset;
        if priorSecond < localtime then Skip(prior, d.localtimes[ts[r].localtimeIdx])
        else
          var k := r - 1;
          var here := d.localtimes[ts[k].localtimeIdx];
          // At the first row the two values of the row below are kept, as in the source.
          var prior' := if k != 0 then d.localtimes[ts[k - 1].localtimeIdx] else prior;
          var priorSecond' := if k != 0 then ts[k].utctime - 1 + prior'.utcOffset else priorSecond;
          if localtime <= priorSecond' then Repeat(prior', here) else Unique(here)
  }

  function FindByLocal(d: Data, localtime: int, postTransition: bool): LocalTime
    requires WellFormed(d)
  {
    match BranchOf(d, localtime)
    case BeforeFirst => d.localtimes[0]
    case AfterLast =>
      if |d.transitions| == 0 then d.localtimes[0]
      else d.localtimes[d.transitions[|d.transitions| - 1].localtimeIdx]
    case Skip(prior, post) => if postTransition then post else prior
    case Repeat(prior, post) => if postTransition then post else prior
    case Unique(only) => only
  }

  // ----- toLocalTime and fromLocalTime -----

  function ToLocalTime(d: Data, seconds: int): DateTime
    requires WellFormed(d)
  {
    BreakTime(seconds + FindByUtc(d, seconds).utcOffset)
  }

  function FromLocalTime(d: Data, localtime: DateTime, postTransition: bool): int
    requires WellFormed(d)
  {
    FromUtcTime(localtime) - FindByLocal(d, FromUtcTime(localtime), postTransition).utcOffset
  }

  // ----- The table seen as segments of constant offset -----

  function Abs(x: int): int {
    if x < 0 then -x else x
  }

  /** The offset in force after row i; row -1 stands for the time before the first row. */
  function Offset(d: Data, i: int): int
    requires WellFormed(d) && -1 <= i < |d.transitions|
  {
    if i == -1 then d.localtimes[0].utcOffset else d.localtimes[d.transitions[i].localtimeIdx].utcOffset
  }

  /** Adjacent rows are further apart than the sum of the two offset changes. */
  predicate WellSeparated(d: Data)
    requires WellFormed(d)
  {
    forall i :: 0 < i < |d.transitions| ==> SeparatedAt(d, i)
  }

  predicate SeparatedAt(d: Data, i: int)
    requires WellFormed(d) && 0 < i < |d.transitions|
  {
    d.transitions[i].utctime - d.transitions[i - 1].utctime
    > Abs(Offset(d, i - 1) - Offset(d, i - 2)) + Abs(Offset(d, i) - Offset(d, i - 1))
  }

  /** Row i lies at or before t, and row i + 1 after it. */
  predicate InSegment(d: Data, i: int, t: int)
    requires WellFormed(d)
  {
    && -1 <= i < |d.transitions|
    && (i >= 0 ==> d.transitions[i].utctime <= t)
    && (i + 1 < |d.transitions| ==> t < d.transitions[i + 1].utctime)
  }

  /** The local second that the UTC second t shows as. */
  function Shown(d: Data, t: int): int
    requires WellFormed(d)
  {
    t + FindByUtc(d, t).utcOffset
  }

  /** The UTC second a local second is resolved to. */
  function Resolved(d: Data, local: int, postTransition: bool): int
    requires WellFormed(d)
  {
    local - FindByLocal(d, local, postTransition).utcOffset
  }

  /** t is shown once before row i and its local second is shown again after it. */
  predicate FirstCopy(d: Data, i: int, t: int)
    requires WellFormed(d) && 0 <= i < |d.transitions|
  {
    d.transitions[i].localtime - Offset(d, i - 1) <= t < d.transitions[i].utctime
  }

  /** t comes after row i and its local second was already shown before it. */
  predicate SecondCopy(d: Data, i: int, t: int)
    requires WellFormed(d) && 0 <= i < |d.transitions|
  {
    d.transitions[i].utctime <= t < d.transitions[i].utctime + Offset(d, i - 1) - Offset(d, i)
  }

  lemma {:induction false} RowsIncrease(d: Data, i: int, j: int)
    requires WellFormed(d) && WellSeparated(d)
    requires 0 <= i < j < |d.transitions|
    ensures d.transitions[i].utctime < d.transitions[j].utctime
    ensures d.transitions[i].localtime < d.transitions[j].localtime
    decreases j - i
  {
    assert SeparatedAt(d, j);
    if i < j - 1 {
      RowsIncrease(d, i, j - 1);
    }
  }

  lemma SegmentExists(d: Data, t: int) returns (k: int)
    requires WellFormed(d) && WellSeparated(d)
    ensures InSegment(d, k, t)
    ensures FindByUtc(d, t).utcOffset == Offset(d, k)
  {
    k := UpperBound(UtcTimes(d), t) - 1;
  }

  lemma SegmentOffset(d: Data, k: int, t: int)
    requires WellFormed(d) && WellSeparated(d)
    requires InSegment(d, k, t)
    ensures FindByUtc(d, t).utcOffset == Offset(d, k)
  {
    var k' := SegmentExists(d, t);
    if k' < k {
      if k' + 1 < k { RowsIncrease(d, k' + 1, k); }
    } else if k < k' {
      if k + 1 < k' { RowsIncrease(d, k + 1, k'); }
    }
  }

  /** toLocalTime shows a second as that second plus the offset in force after the last row at or before it. */
  lemma ShownByOffset(d: Data, k: int, t: int)
    requires WellFormed(d) && WellSeparated(d) && InSegment(d, k, t) && InSecondRange(t + Offset(d, k))
    ensures ValidDateTime(ToLocalTime(d, t)) && FromUtcTime(ToLocalTime(d, t)) == t + Offset(d, k)
  {
    hide FindByUtc, BreakTime, FromUtcTime, ValidDateTime, WellSeparated;
    SegmentOffset(d, k, t);
    SecondsRoundTrip(t + Offset(d, k));
  }

  /** The local-time search stops at row r exactly when the local second lies between rows r - 1 and r. */
  lemma LocalRow(d: Data, local: int, r: int)
    requires WellFormed(d) && WellSeparated(d)
    requires 0 <= r <= |d.transitions|
    requires r > 0 ==> d.transitions[r - 1].localtime <= local
    requires r < |d.transitions| ==> local < d.transitions[r].localtime
    ensures UpperBound(LocalTimes(d), local) == r
  {
    var r' := UpperBound(LocalTimes(d), local);
    if r' < r {
      if r' < r - 1 { RowsIncrease(d, r', r - 1); }
    } else if r < r' {
      if r < r' - 1 { RowsIncrease(d, r, r' - 1); }
    }
  }

  /** The offset the local-time search returns, told from the row where it stops. At the first row the
      repeat test is made against the row below, so that row never yields the offset before it. */
  function OffsetAtRow(d: Data, local: int, r: int, postTransition: bool): int
    requires WellFormed(d) && 0 <= r <= |d.transitions|
  {
    if r == 0 || r == |d.transitions| then Offset(d, r - 1)
    else if d.transitions[r].utctime - 1 + Offset(d, r - 1) < local then
      if postTransition then Offset(d, r) else Offset(d, r - 1)
    else if r == 1 || postTransition then Offset(d, r - 1)
    else if local <= d.transitions[r - 1].utctime - 1 + Offset(d, r - 2) then Offset(d, r - 2)
    else Offset(d, r - 1)
  }

  lemma SearchOffset(d: Data, local: int, r: int, postTransition: bool)
    requires WellFormed(d)
    requires UpperBound(LocalTimes(d), local) == r
    ensures FindByLocal(d, local, postTransition).utcOffset == OffsetAtRow(d, local, r, postTransition)
  {
  }

  // ----- Round trip, exactly -----

  /** The row at which the image of a second of segment k is searched: k + 1, or one further in a first copy. */
  function RowOfImage(d: Data, k: int, t: int): int
    requires WellFormed(d) && InSegment(d, k, t)
  {
    if k + 1 < |d.transitions| && FirstCopy(d, k + 1, t) then k + 2 else k + 1
  }

  lemma ImageRow(d: Data, k: int, t: int)
    requires WellFormed(d) && WellSeparated(d)
    requires InSegment(d, k, t)
    ensures UpperBound(LocalTimes(d), t + Offset(d, k)) == RowOfImage(d, k, t)
  {
    var local := t + Offset(d, k);
    var n := |d.transitions|;
    if k + 1 < n && FirstCopy(d, k + 1, t) {
      if k + 2 < n { assert SeparatedAt(d, k + 2); }
      LocalRow(d, local, k + 2);
    } else {
      LocalRow(d, local, k + 1);
    }
  }

  lemma RoundTripByOffset(d: Data, k: int, t: int, postTransition: bool)
    requires WellFormed(d) && WellSeparated(d)
    requires InSegment(d, k, t)
    ensures Resolved(d, Shown(d, t), postTransition) == t
       <==> OffsetAtRow(d, t + Offset(d, k), RowOfImage(d, k, t), postTransition) == Offset(d, k)
  {
    hide FindByUtc, FindByLocal, FirstCopy, Offset, OffsetAtRow;
    SegmentOffset(d, k, t);
    ImageRow(d, k, t);
    SearchOffset(d, Shown(d, t), RowOfImage(d, k, t), postTransition);
  }

  lemma NearbyRows(d: Data, k: int)
    requires WellFormed(d) && WellSeparated(d) && -1 <= k < |d.transitions|
    ensures 0 < k ==> SeparatedAt(d, k)
    ensures 0 < k + 1 < |d.transitions| ==> SeparatedAt(d, k + 1)
    ensures k + 2 < |d.transitions| ==> SeparatedAt(d, k + 2)
  {
  }

  lemma RoundTripInSegment(d: Data, k: int, t: int)
    requires WellFormed(d) && WellSeparated(d)
    requires InSegment(d, k, t)
    ensures Resolved(d, Shown(d, t), true) == t <==> !(k + 1 < |d.transitions| && FirstCopy(d, k + 1, t))
    ensures Resolved(d, Shown(d, t), false) == t <==>
            && !(0 < k < |d.transitions| - 1 && SecondCopy(d, k, t))
            && !(k + 1 < |d.transitions| && (k + 1 == 0 || k + 1 == |d.transitions| - 1) && FirstCopy(d, k + 1, t))
  {
    hide Resolved, Shown, WellSeparated;
    RoundTripByOffset(d, k, t, true);
    RoundTripByOffset(d, k, t, false);
    NearbyRows(d, k);
  }

  lemma FirstCopySegment(d: Data, i: int, k: int, t: int)
    requires WellFormed(d) && WellSeparated(d)
    requires InSegment(d, k, t) && 0 <= i < |d.transitions| && FirstCopy(d, i, t)
    ensures i == k + 1
  {
    if 0 < i { assert SeparatedAt(d, i); }
    if i < k { RowsIncrease(d, i, k); }
    if k + 1 < i - 1 { RowsIncrease(d, k + 1, i - 1); }
  }

  lemma SecondCopySegment(d: Data, i: int, k: int, t: int)
    requires WellFormed(d) && WellSeparated(d)
    requires InSegment(d, k, t) && 0 <= i < |d.transitions| && SecondCopy(d, i, t)
    ensures i == k
  {
    if i + 1 < |d.transitions| { assert SeparatedAt(d, i + 1); }
    if k + 1 < i { RowsIncrease(d, k + 1, i); }
    if i + 1 < k { RowsIncrease(d, i + 1, k); }
  }

  /** For every UTC second: when converting to local time and back returns it, for each flag and for
      either of them. Only the first copies at the first and the last row are lost to both. */
  lemma RoundTrip(d: Data, t: int)
    requires WellFormed(d) && WellSeparated(d)
    requires InSecondRange(Shown(d, t))
    ensures FromLocalTime(d, ToLocalTime(d, t), true) == t <==>
            !exists i :: 0 <= i < |d.transitions| && FirstCopy(d, i, t)
    ensures FromLocalTime(d, ToLocalTime(d, t), false) == t <==>
            && !LostAtAnEnd(d, t)
            && !exists i :: 0 < i < |d.transitions| - 1 && SecondCopy(d, i, t)
    ensures (exists post :: FromLocalTime(d, ToLocalTime(d, t), post) == t) <==> !LostAtAnEnd(d, t)
  {
    hide *;
    BackFromDateTime(d, t, true);
    BackFromDateTime(d, t, false);
    RoundTripOfSeconds(d, t);
  }

  lemma BackFromDateTime(d: Data, t: int, postTransition: bool)
    requires WellFormed(d)
    requires InSecondRange(Shown(d, t))
    ensures FromLocalTime(d, ToLocalTime(d, t), postTransition) == Resolved(d, Shown(d, t), postTransition)
  {
    hide FindByLocal, FindByUtc, BreakTime, FromUtcTime;
    SecondsRoundTrip(Shown(d, t));
  }

  lemma RoundTripOfSeconds(d: Data, t: int)
    requires WellFormed(d) && WellSeparated(d)
    ensures Resolved(d, Shown(d, t), true) == t <==> !exists i :: 0 <= i < |d.transitions| && FirstCopy(d, i, t)
    ensures Resolved(d, Shown(d, t), false) == t <==>
            && !LostAtAnEnd(d, t)
            && !exists i :: 0 < i < |d.transitions| - 1 && SecondCopy(d, i, t)
    ensures Resolved(d, Shown(d, t), true) == t || Resolved(d, Shown(d, t), false) == t <==> !LostAtAnEnd(d, t)
  {
    var k := SegmentExists(d, t);
    RoundTripInSegment(d, k, t);
    var n := |d.transitions|;
    hide Resolved, Shown, FindByLocal, FindByUtc, FirstCopy, SecondCopy, WellSeparated;
    forall i | 0 <= i < n && FirstCopy(d, i, t) ensures i == k + 1 { FirstCopySegment(d, i, k, t); }
    forall i | 0 <= i < n && SecondCopy(d, i, t) ensures i == k { SecondCopySegment(d, i, k, t); }
    if 0 <= k < n - 1 { NotBothCopies(d, k, t); }
  }

  /** The UTC seconds no flag recovers: first copies at the first or the last row. */
  predicate LostAtAnEnd(d: Data, t: int)
    requires WellFormed(d)
  {
    |d.transitions| > 0 && (FirstCopy(d, 0, t) || FirstCopy(d, |d.transitions| - 1, t))
  }

  /** A fold at the last row, an hour back at second 100000: of the two seconds shown alike the earlier one comes
      back as the later one, whatever the flag. */
  lemma LastFoldLoses()
    ensures var d := Data([Transition(10000, 13600, 0), Transition(100000, 100000, 1)],
                          [LocalTime(3600, true, 0), LocalTime(0, false, 4)]);
            && WellFormed(d) && WellSeparated(d) && InSecondRange(Shown(d, 99000))
            && FromLocalTime(d, ToLocalTime(d, 99000), false) != 99000
            && FromLocalTime(d, ToLocalTime(d, 99000), true) != 99000
  {
    var d := Data([Transition(10000, 13600, 0), Transition(100000, 100000, 1)],
                  [LocalTime(3600, true, 0), LocalTime(0, false, 4)]);
    LosesOneOf(d, 1, 99000);
  }

  /** The same fold at the first of two rows. */
  lemma FirstFoldLoses()
    ensures var d := Data([Transition(10000, 10000, 1), Transition(100000, 103600, 0)],
                          [LocalTime(3600, true, 0), LocalTime(0, false, 4)]);
            && WellFormed(d) && WellSeparated(d) && InSecondRange(Shown(d, 9000))
            && FromLocalTime(d, ToLocalTime(d, 9000), false) != 9000
            && FromLocalTime(d, ToLocalTime(d, 9000), true) != 9000
  {
    var d := Data([Transition(10000, 10000, 1), Transition(100000, 103600, 0)],
                  [LocalTime(3600, true, 0), LocalTime(0, false, 4)]);
    LosesOneOf(d, 0, 9000);
  }

  lemma LosesOneOf(d: Data, i: int, t: int)
    requires WellFormed(d) && |d.transitions| == 2 && SeparatedAt(d, 1) && 0 <= i < 2 && FirstCopy(d, i, t)
    requires |d.localtimes| == 2 && d.localtimes[0].utcOffset == 3600 && d.localtimes[1].utcOffset == 0
    requires 0 <= t <= 100000
    ensures WellSeparated(d) && InSecondRange(Shown(d, t))
    ensures FromLocalTime(d, ToLocalTime(d, t), false) != t && FromLocalTime(d, ToLocalTime(d, t), true) != t
  {
    assert forall k :: 0 < k < 2 ==> SeparatedAt(d, k);
    assert 0 <= Shown(d, t) <= 103600;
    assert LostAtAnEnd(d, t);
    hide FromLocalTime, ToLocalTime, LostAtAnEnd, Shown;
    RoundTrip(d, t);
  }

  lemma NotBothCopies(d: Data, k: int, t: int)
    requires WellFormed(d) && WellSeparated(d)
    requires 0 <= k < |d.transitions| - 1
    ensures !(SecondCopy(d, k, t) && FirstCopy(d, k + 1, t))
  {
    assert SeparatedAt(d, k + 1);
  }

  /** The two copies of a repeated local second are the offset change apart. */
  lemma CopiesAreShownAlike(d: Data, i: int, t: int)
    requires WellFormed(d) && WellSeparated(d)
    requires 0 <= i < |d.transitions|
    ensures var later := t + Offset(d, i - 1) - Offset(d, i);
            && (FirstCopy(d, i, t) <==> SecondCopy(d, i, later))
            && (FirstCopy(d, i, t) ==> t < later && Shown(d, t) == Shown(d, later))
  {
    hide FindByUtc, WellSeparated;
    NearbyRows(d, i - 1);
    if FirstCopy(d, i, t) {
      SegmentOffset(d, i - 1, t);
      SegmentOffset(d, i, t + Offset(d, i - 1) - Offset(d, i));
    }
  }

  /** When no other UTC second is shown alike, both flags return the second. */
  lemma UniqueTimeComesBack(d: Data, t: int, postTransition: bool)
    requires WellFormed(d) && WellSeparated(d)
    requires InSecondRange(Shown(d, t))
    requires forall t' :: Shown(d, t') == Shown(d, t) ==> t' == t
    ensures FromLocalTime(d, ToLocalTime(d, t), postTransition) == t
  {
    hide FindByUtc, FindByLocal, FirstCopy, SecondCopy, FromLocalTime, ToLocalTime, InSecondRange;
    BackFromDateTime(d, t, postTransition);
    RoundTripOfSeconds(d, t);
    forall i | 0 <= i < |d.transitions| ensures !FirstCopy(d, i, t) && !SecondCopy(d, i, t) {
      CopiesAreShownAlike(d, i, t);
      CopiesAreShownAlike(d, i, t - Offset(d, i - 1) + Offset(d, i));
    }
  }

  // ----- Gaps, folds and unique local times -----

  /** t is the second that row r - 1's offset gives for the local second, and row r has not come yet. */
  predicate ShownInRow(d: Data, r: int, local: int, t: int)
    requires WellFormed(d) && 0 <= r <= |d.transitions|
  {
    && t == local - Offset(d, r - 1)
    && (r == |d.transitions| || local < d.transitions[r].utctime + Offset(d, r - 1))
  }

  lemma ShownHasRow(d: Data, local: int, t: int)
    requires WellFormed(d) && WellSeparated(d)
    requires Shown(d, t) == local
    ensures var r: int := UpperBound(LocalTimes(d), local);
            ShownInRow(d, r, local, t) || (r >= 1 && ShownInRow(d, r - 1, local, t))
  {
    hide FindByUtc, WellSeparated, UpperBound, LocalTimes, WellFormed;
    var k := SegmentExists(d, t);
    ImageRow(d, k, t);
  }

  lemma RowIsShown(d: Data, local: int, r: int, t: int)
    requires WellFormed(d) && WellSeparated(d)
    requires 0 <= r <= |d.transitions| && ShownInRow(d, r, local, t)
    requires UpperBound(LocalTimes(d), local) in {r, r + 1}
    ensures Shown(d, t) == local
  {
    var u: int := UpperBound(LocalTimes(d), local);
    if 0 < r < |d.transitions| { assert SeparatedAt(d, r); }
    if r > 0 { assert d.transitions[r - 1].utctime <= t; }
    assert InSegment(d, r - 1, t);
    SegmentOffset(d, r - 1, t);
  }

  /** The UTC seconds shown as a local second: at most one in each of the two segments around it. */
  lemma Preimages(d: Data, local: int, t: int)
    requires WellFormed(d) && WellSeparated(d)
    ensures var r: int := UpperBound(LocalTimes(d), local);
            Shown(d, t) == local <==> ShownInRow(d, r, local, t) || (r >= 1 && ShownInRow(d, r - 1, local, t))
  {
    hide Shown, ShownInRow;
    var r: int := UpperBound(LocalTimes(d), local);
    if Shown(d, t) == local {
      ShownHasRow(d, local, t);
    } else if ShownInRow(d, r, local, t) {
      RowIsShown(d, local, r, t);
    } else if r >= 1 && ShownInRow(d, r - 1, local, t) {
      RowIsShown(d, local, r - 1, t);
    }
  }

  /** Between the second row and the last, the branch taken counts the UTC seconds shown as the local
      second: none in a skip, two in a repeat (earliest for false, latest for true), else one. */
  lemma BranchCountsPreimages(d: Data, local: int)
    requires WellFormed(d) && WellSeparated(d)
    requires |d.transitions| >= 2
    requires d.transitions[1].localtime <= local < d.transitions[|d.transitions| - 1].localtime
    ensures match BranchOf(d, local)
            case Skip(_, _) =>
              && (forall t :: Shown(d, t) != local)
              && Resolved(d, local, true) < Resolved(d, local, false)
            case Repeat(_, _) =>
              && Resolved(d, local, false) < Resolved(d, local, true)
              && forall t :: Shown(d, t) == local <==> t == Resolved(d, local, false) || t == Resolved(d, local, true)
            case Unique(_) =>
              && Resolved(d, local, false) == Resolved(d, local, true)
              && forall t :: Shown(d, t) == local <==> t == Resolved(d, local, true)
            case _ => false
  {
    hide BranchOf, Resolved, Shown, WellSeparated, LocalTimes, UpperBound;
    var r: int := UpperBound(LocalTimes(d), local);
    assert r >= 2 by { if r < 2 { RowsIncreaseWeakly(d, r, 1); } }
    BranchAtRow(d, local, r);
    NearbyRows(d, r - 1);
    forall t ensures Shown(d, t) == local <==> ShownInRow(d, r, local, t) || ShownInRow(d, r - 1, local, t) {
      Preimages(d, local, t);
    }
  }

  lemma BranchAtRow(d: Data, local: int, r: int)
    requires WellFormed(d)
    requires UpperBound(LocalTimes(d), local) == r && 2 <= r < |d.transitions|
    requires d.transitions[0].localtime <= local
    ensures var ts := d.transitions;
            if ts[r].utctime + Offset(d, r - 1) <= local then
              && BranchOf(d, local).Skip?
              && Resolved(d, local, false) == local - Offset(d, r - 1)
              && Resolved(d, local, true) == local - Offset(d, r)
            else if local < ts[r - 1].utctime + Offset(d, r - 2) then
              && BranchOf(d, local).Repeat?
              && Resolved(d, local, false) == local - Offset(d, r - 2)
              && Resolved(d, local, true) == local - Offset(d, r - 1)
            else
              && BranchOf(d, local).Unique?
              && Resolved(d, local, false) == Resolved(d, local, true) == local - Offset(d, r - 1)
  {
  }

  lemma RowsIncreaseWeakly(d: Data, i: int, j: int)
    requires WellFormed(d) && WellSeparated(d)
    requires 0 <= i <= j < |d.transitions|
    ensures d.transitions[i].localtime <= d.transitions[j].localtime
  {
    if i < j { RowsIncrease(d, i, j); }
  }

  /** Before the second row every local second that is shown takes the repeat branch, with one offset for
      both flags: the answer is the second after the first row. */
  lemma FirstRowHasNoPrior(d: Data, local: int)
    requires WellFormed(d) && WellSeparated(d)
    requires |d.transitions| >= 2
    requires d.transitions[0].localtime <= local < d.transitions[1].localtime
    ensures BranchOf(d, local).Repeat? <==> exists t :: Shown(d, t) == local
    ensures BranchOf(d, local).Repeat? ==>
              && BranchOf(d, local).prior == BranchOf(d, local).post
              && Shown(d, Resolved(d, local, false)) == local
              && d.transitions[0].utctime <= Resolved(d, local, false)
    ensures BranchOf(d, local).Repeat? || BranchOf(d, local).Skip?
    ensures BranchOf(d, local).Skip? ==> Resolved(d, local, true) < Resolved(d, local, false)
  {
    hide BranchOf, Resolved, Shown, UpperBound, LocalTimes;
    LocalRow(d, local, 1);
    BranchAtFirstRow(d, local);
    assert SeparatedAt(d, 1);
    Preimages(d, local, local - Offset(d, 0));
    if t :| Shown(d, t) == local {
      Preimages(d, local, t);
    }
  }

  lemma BranchAtFirstRow(d: Data, local: int)
    requires WellFormed(d) && |d.transitions| >= 2
    requires UpperBound(LocalTimes(d), local) == 1 && d.transitions[0].localtime <= local
    ensures if d.transitions[1].utctime + Offset(d, 0) <= local then
              && BranchOf(d, local).Skip?
              && Resolved(d, local, true) == local - Offset(d, 1)
              && Resolved(d, local, false) == local - Offset(d, 0)
            else
              && BranchOf(d, local).Repeat? && BranchOf(d, local).prior == BranchOf(d, local).post
              && Resolved(d, local, false) == local - Offset(d, 0)
  {
  }
}
