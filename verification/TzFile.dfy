/** The reader of TZif zone files (utility/TimeZone.cpp), and the encoding it inverts:
    sections 3.1 and 3.2 of RFC 8536. */
module TzFile {
  import opened Bytes
  import TimeZone

  const HEADER_SIZE := 20
  const COUNTS_SIZE := 24
  const MAGIC: seq<byte> := [0x54, 0x5A, 0x69, 0x66]
  const VERSION_2: byte := 0x32

  // ----- Reading, on the bytes that are left -----

  function Take(s: seq<byte>, n: int): Option<(seq<byte>, seq<byte>)> {
    if 0 <= n <= |s| then Some((s[..n], s[n..])) else None
  }

  function TakeInt(s: seq<byte>, size: nat): Option<(int, seq<byte>)>
    requires size >= 1
  {
    var (head, rest) :- Take(s, size);
    Some((Decode(head), rest))
  }

  function TakeByte(s: seq<byte>): Option<(byte, seq<byte>)> {
    if |s| > 0 then Some((s[0], s[1..])) else None
  }

  function TakeInts(s: seq<byte>, n: nat, size: nat): Option<(seq<int>, seq<byte>)>
    requires size >= 1
  {
    if n == 0 then Some(([], s)) else
      var (x, rest) :- TakeInt(s, size);
      var (xs, rest') :- TakeInts(rest, n - 1, size);
      Some(([x] + xs, rest'))
  }

  function TakeBytes(s: seq<byte>, n: nat): Option<(seq<byte>, seq<byte>)> {
    if n == 0 then Some(([], s)) else
      var (x, rest) :- TakeByte(s);
      var (xs, rest') :- TakeBytes(rest, n - 1);
      Some(([x] + xs, rest'))
  }

  function TakeLocalTime(s: seq<byte>): Option<(TimeZone.LocalTime, seq<byte>)> {
    var (offset, s1) :- TakeInt(s, 4);
    var (isDst, s2) :- TakeByte(s1);
    var (idx, s3) :- TakeByte(s2);
    Some((TimeZone.LocalTime(offset, isDst != 0, idx), s3))
  }

  function TakeLocalTimes(s: seq<byte>, n: nat): Option<(seq<TimeZone.LocalTime>, seq<byte>)> {
    if n == 0 then Some(([], s)) else
      var (x, rest) :- TakeLocalTime(s);
      var (xs, rest') :- TakeLocalTimes(rest, n - 1);
      Some(([x] + xs, rest'))
  }

  datatype Counts = Counts(isutcnt: int, isstdcnt: int, leapcnt: int, timecnt: int, typecnt: int, charcnt: int)

  function TakeCounts(s: seq<byte>): Option<(Counts, seq<byte>)> {
    var (xs, rest) :- TakeInts(s, 6, 4);
    Some((CountsOf(xs), rest))
  }

  function CountsOf(xs: seq<int>): Counts {
    if |xs| != 6 then Counts(0, 0, 0, 0, 0, 0) else Counts(xs[0], xs[1], xs[2], xs[3], xs[4], xs[5])
  }

  predicate TypesInRange(types: seq<byte>, localtimes: seq<TimeZone.LocalTime>) {
    forall i :: 0 <= i < |types| ==> types[i] < |localtimes|
  }

  function Row(time: int, localtimeIdx: nat, localtimes: seq<TimeZone.LocalTime>): TimeZone.Transition
    requires localtimeIdx < |localtimes|
  {
    TimeZone.Transition(time, time + localtimes[localtimeIdx].utcOffset, localtimeIdx)
  }

  /** One row for every time, with the offset of its type record. */
  function Rows(times: seq<int>, types: seq<byte>, localtimes: seq<TimeZone.LocalTime>): seq<TimeZone.Transition>
    requires |times| == |types| && TypesInRange(types, localtimes)
  {
    seq(|times|, i requires 0 <= i < |times| => Row(times[i], types[i], localtimes))
  }

  /** addTransition for every row: out_of_range when a type index has no record. */
  function Transitions(times: seq<int>, types: seq<byte>, localtimes: seq<TimeZone.LocalTime>)
    : Option<seq<TimeZone.Transition>>
    requires |times| == |types|
  {
    if TypesInRange(types, localtimes) then Some(Rows(times, types, localtimes)) else None
  }

  datatype Zone = Zone(data: TimeZone.Data, abbreviation: seq<byte>, tzstring: seq<byte>)

  lemma {:induction false} TakeIntsLength(s: seq<byte>, n: nat, size: nat)
    requires size >= 1
    ensures TakeInts(s, n, size).Some? ==> |TakeInts(s, n, size).value.0| == n
  {
    if n > 0 && TakeInt(s, size).Some? {
      TakeIntsLength(TakeInt(s, size).value.1, n - 1, size);
    }
  }

  lemma {:induction false} TakeBytesLength(s: seq<byte>, n: nat)
    ensures TakeBytes(s, n).Some? ==> |TakeBytes(s, n).value.0| == n
  {
    if n > 0 && |s| > 0 {
      TakeBytesLength(s[1..], n - 1);
    }
  }

  /** readDataBlock. A negative count fails: reserve throws for rows and types. */
  function Block(s: seq<byte>, v1: bool): Option<Zone> {
    var (c, s0) :- TakeCounts(s);
    if c.leapcnt != 0 || (c.isutcnt != 0 && c.isutcnt != c.typecnt) || (c.isstdcnt != 0 && c.isstdcnt != c.typecnt)
    then None
    else if c.timecnt < 0 || c.typecnt < 0 || c.charcnt < 0 then None
    else BlockBody(s0, c, v1)
  }

  /** The transition table of a block: times, their types and the type records. */
  function TakeTable(s: seq<byte>, c: Counts, v1: bool): Option<(TimeZone.Data, seq<byte>)>
    requires c.timecnt >= 0 && c.typecnt >= 0
  {
    var size := if v1 then 4 else 8;
    var (times, s1) :- TakeInts(s, c.timecnt, size);
    var (types, s2) :- TakeBytes(s1, c.timecnt);
    var (localtimes, s3) :- TakeLocalTimes(s2, c.typecnt);
    TakeIntsLength(s, c.timecnt, size);
    TakeBytesLength(s1, c.timecnt);
    var transitions :- Transitions(times, types, localtimes);
    Some((TimeZone.Data(transitions, localtimes), s3))
  }

  function BlockBody(s: seq<byte>, c: Counts, v1: bool): Option<Zone>
    requires c.timecnt >= 0 && c.typecnt >= 0
  {
    var (data, s1) :- TakeTable(s, c, v1);
    var (abbreviation, s2) :- Take(s1, c.charcnt);
    Some(Zone(data, abbreviation, if v1 then [] else Left(s2, c.isstdcnt + c.isutcnt)))
  }

  /** What is left to read n bytes further on; nothing beyond the end. */
  function Left(s: seq<byte>, n: int): seq<byte> {
    if n <= 0 then s else if n <= |s| then s[n..] else []
  }

  /** The length of a version-1 data block, as readTimeZoneFile computes it to skip the block. */
  function SkipSize(c: Counts): int {
    4 * c.timecnt + c.timecnt + 6 * c.typecnt + c.charcnt + 8 * c.leapcnt + c.isstdcnt + c.isutcnt
  }

  /** A version-2 file from the second header on. */
  function SecondPart(s: seq<byte>): Option<Zone> {
    var (head, rest) :- Take(s, 4);
    if head != MAGIC then None else Block(Left(rest, 16), false)
  }

  /** readTimeZoneFile on the whole contents; None stands for its result false. */
  function ReadFile(bytes: seq<byte>): Option<Zone> {
    if |bytes| < HEADER_SIZE || bytes[..4] != MAGIC then None
    else
      var (c, _) :- TakeCounts(bytes[HEADER_SIZE..]);
      if bytes[4] == VERSION_2 then
        var at := HEADER_SIZE + COUNTS_SIZE + SkipSize(c);
        // A seek before the start of the file fails and leaves the position alone.
        SecondPart(Left(bytes, if at < 0 then HEADER_SIZE + COUNTS_SIZE else at))
      else
        Block(bytes[HEADER_SIZE..], true)
  }

  // ----- The same reader as the source runs it: a file cursor and loops -----

  /** An open file: its contents and the cursor, which a seek may move past the end. */
  class File {
    const bytes: seq<byte>
    var pos: nat

    constructor (bytes: seq<byte>)
      ensures this.bytes == bytes && pos == 0
    {
      this.bytes, pos := bytes, 0;
    }

    /** The bytes still to be read. */
    ghost function Rest(): seq<byte>
      reads this
    {
      Left(bytes, pos)
    }

    /** fread of n bytes; a short read is the exception the callers catch. */
    method ReadBytes(n: int) returns (r: Option<seq<byte>>)
      modifies this
      ensures r.Some? ==> 0 <= n && pos == old(pos) + n && Take(old(Rest()), n) == Some((r.value, Rest()))
      ensures r.None? ==> Take(old(Rest()), n) == None
    {
      if n < 0 || (n > 0 && pos + n > |bytes|) {
        pos := if pos < |bytes| then |bytes| else pos;
        return None;
      }
      r := Some(if n == 0 then [] else bytes[pos..pos + n]);
      assert n > 0 ==> Rest()[..n] == bytes[pos..pos + n] && Rest()[n..] == bytes[pos + n..];
      pos := pos + n;
    }

    /** readInt32 and readInt64: big-endian, signed. */
    method ReadInt(size: nat) returns (r: Option<int>)
      requires size >= 1
      modifies this
      ensures r.Some? ==> pos == old(pos) + size && TakeInt(old(Rest()), size) == Some((r.value, Rest()))
      ensures r.None? ==> TakeInt(old(Rest()), size) == None
    {
      var head := ReadBytes(size);
      if head.None? { return None; }
      r := Some(Decode(head.value));
    }

    method ReadUInt8() returns (r: Option<byte>)
      modifies this
      ensures r.Some? ==> TakeByte(old(Rest())) == Some((r.value, Rest()))
      ensures r.None? ==> TakeByte(old(Rest())) == None
    {
      var head := ReadBytes(1);
      if head.None? { return None; }
      r := Some(head.value[0]);
    }

    /** Reads in pieces of at most 4096 bytes until nothing is left. */
    method ReadToEnd() returns (r: seq<byte>)
      modifies this
      ensures r == old(Rest()) && Rest() == []
    {
      r := [];
      if pos >= |bytes| { return; }
      ghost var start := pos;
      while pos < |bytes|
        invariant start <= pos <= |bytes|
        invariant r == bytes[start..pos]
        decreases |bytes| - pos
      {
        var n := if |bytes| - pos < 4096 then |bytes| - pos else 4096;
        r := r + bytes[pos..pos + n];
        pos := pos + n;
      }
    }

    /** fseek from the current position; a position before the start is refused. */
    method Skip(n: int)
      modifies this
      ensures pos == if old(pos) + n < 0 then old(pos) else old(pos) + n
      ensures n >= 0 ==> Rest() == Left(old(Rest()), n)
    {
      if pos + n >= 0 { pos := pos + n; }
    }
  }

  ghost function Prepended<T>(xs: seq<T>, r: Option<(seq<T>, seq<byte>)>): Option<(seq<T>, seq<byte>)> {
    match r
    case None => None
    case Some((ys, rest)) => Some((xs + ys, rest))
  }

  lemma PrependedAgain<T>(xs: seq<T>, x: T, r: Option<(seq<T>, seq<byte>)>)
    ensures Prepended(xs, Prepended([x], r)) == Prepended(xs + [x], r)
  {
    match r
    case None =>
    case Some((ys, rest)) => assert xs + ([x] + ys) == xs + [x] + ys;
  }

  lemma PrependedEnds<T>(xs: seq<T>, rest: seq<byte>, r: Option<(seq<T>, seq<byte>)>)
    ensures Prepended([], r) == r
    ensures Prepended(xs, Some(([], rest))) == Some((xs, rest))
  {
    assert xs + [] == xs;
    match r
    case None =>
    case Some((ys, _)) => assert [] + ys == ys;
  }

  method ReadInts(f: File, n: nat, size: nat) returns (r: Option<seq<int>>)
    requires size >= 1
    modifies f
    ensures r.Some? ==> f.pos == old(f.pos) + size * n && TakeInts(old(f.Rest()), n, size) == Some((r.value, f.Rest()))
    ensures r.None? ==> TakeInts(old(f.Rest()), n, size) == None
  {
    hide TakeInt;
    var xs := [];
    PrependedEnds(xs, f.Rest(), TakeInts(f.Rest(), n, size));
    for i := 0 to n
      invariant f.pos == old(f.pos) + size * i
      invariant Prepended(xs, TakeInts(f.Rest(), n - i, size)) == TakeInts(old(f.Rest()), n, size)
    {
      var x := f.ReadInt(size);
      if x.None? { return None; }
      PrependedAgain(xs, x.value, TakeInts(f.Rest(), n - i - 1, size));
      xs := xs + [x.value];
    }
    PrependedEnds(xs, f.Rest(), None);
    r := Some(xs);
  }

  method ReadUInt8s(f: File, n: nat) returns (r: Option<seq<byte>>)
    modifies f
    ensures r.Some? ==> TakeBytes(old(f.Rest()), n) == Some((r.value, f.Rest()))
    ensures r.None? ==> TakeBytes(old(f.Rest()), n) == None
  {
    var xs: seq<byte> := [];
    PrependedEnds(xs, f.Rest(), TakeBytes(f.Rest(), n));
    for i := 0 to n
      invariant Prepended(xs, TakeBytes(f.Rest(), n - i)) == TakeBytes(old(f.Rest()), n)
    {
      var x := f.ReadUInt8();
      if x.None? { return None; }
      PrependedAgain(xs, x.value, TakeBytes(f.Rest(), n - i - 1));
      xs := xs + [x.value];
    }
    PrependedEnds(xs, f.Rest(), None);
    r := Some(xs);
  }

  method ReadLocalTimes(f: File, n: nat) returns (r: Option<seq<TimeZone.LocalTime>>)
    modifies f
    ensures r.Some? ==> TakeLocalTimes(old(f.Rest()), n) == Some((r.value, f.Rest()))
    ensures r.None? ==> TakeLocalTimes(old(f.Rest()), n) == None
  {
    var xs := [];
    PrependedEnds(xs, f.Rest(), TakeLocalTimes(f.Rest(), n));
    for i := 0 to n
      invariant Prepended(xs, TakeLocalTimes(f.Rest(), n - i)) == TakeLocalTimes(old(f.Rest()), n)
    {
      var offset := f.ReadInt(4);
      if offset.None? { return None; }
      var isDst := f.ReadUInt8();
      if isDst.None? { return None; }
      var idx := f.ReadUInt8();
      if idx.None? { return None; }
      var x := TimeZone.LocalTime(offset.value, isDst.value != 0, idx.value);
      PrependedAgain(xs, x, TakeLocalTimes(f.Rest(), n - i - 1));
      xs := xs + [x];
    }
    PrependedEnds(xs, f.Rest(), None);
    r := Some(xs);
  }

  method AddTransitions(times: seq<int>, types: seq<byte>, localtimes: seq<TimeZone.LocalTime>)
    returns (r: Option<seq<TimeZone.Transition>>)
    requires |times| == |types|
    ensures r == Transitions(times, types, localtimes)
  {
    var rows := [];
    for i := 0 to |times|
      invariant TypesInRange(types[..i], localtimes)
      invariant rows == Rows(times[..i], types[..i], localtimes)
    {
      if types[i] >= |localtimes| { return None; }
      assert types[..i + 1] == types[..i] + [types[i]];
      rows := rows + [Row(times[i], types[i], localtimes)];
    }
    assert times[..|times|] == times && types[..|times|] == types;
    r := Some(rows);
  }

  method ReadDataBlock(f: File, v1: bool) returns (zone: Option<Zone>)
    modifies f
    ensures zone == Block(old(f.Rest()), v1)
  {
    ghost var s := f.Rest();
    var counts := ReadInts(f, 6, 4);
    if counts.None? { return None; }
    TakeIntsLength(s, 6, 4);
    var c := CountsOf(counts.value);
    if c.leapcnt != 0 { return None; }
    if c.isutcnt != 0 && c.isutcnt != c.typecnt { return None; }
    if c.isstdcnt != 0 && c.isstdcnt != c.typecnt { return None; }
    if c.timecnt < 0 || c.typecnt < 0 || c.charcnt < 0 { return None; }
    zone := ReadBlockBody(f, c, v1);
  }

  lemma LeftTwice(s: seq<byte>, m: nat, n: nat)
    ensures Left(Left(s, m), n) == Left(s, m + n)
  {
  }

  method ReadTable(f: File, c: Counts, v1: bool) returns (r: Option<TimeZone.Data>)
    requires c.timecnt >= 0 && c.typecnt >= 0
    modifies f
    ensures r.Some? ==> TakeTable(old(f.Rest()), c, v1) == Some((r.value, f.Rest()))
    ensures r.None? ==> TakeTable(old(f.Rest()), c, v1) == None
  {
    hide TakeInts, TakeBytes, TakeLocalTimes, Transitions;
    ghost var s := f.Rest();
    var times := ReadInts(f, c.timecnt, if v1 then 4 else 8);
    if times.None? { return None; }
    ghost var s1 := f.Rest();
    var types := ReadUInt8s(f, c.timecnt);
    if types.None? { return None; }
    var localtimes := ReadLocalTimes(f, c.typecnt);
    if localtimes.None? { return None; }
    TakeIntsLength(s, c.timecnt, if v1 then 4 else 8);
    TakeBytesLength(s1, c.timecnt);
    var transitions := AddTransitions(times.value, types.value, localtimes.value);
    if transitions.None? { return None; }
    r := Some(TimeZone.Data(transitions.value, localtimes.value));
  }

  method ReadBlockBody(f: File, c: Counts, v1: bool) returns (zone: Option<Zone>)
    requires c.timecnt >= 0 && c.typecnt >= 0 && c.isstdcnt >= 0 && c.isutcnt >= 0
    modifies f
    ensures zone == BlockBody(old(f.Rest()), c, v1)
  {
    hide TakeTable, Left;
    var data := ReadTable(f, c, v1);
    if data.None? { return None; }
    var abbreviation := f.ReadBytes(c.charcnt);
    if abbreviation.None? { return None; }
    ghost var s2 := f.Rest();
    f.Skip(c.isstdcnt);
    f.Skip(c.isutcnt);
    LeftTwice(s2, c.isstdcnt, c.isutcnt);
    var tzstring := [];
    if !v1 { tzstring := f.ReadToEnd(); }
    zone := Some(Zone(data.value, abbreviation.value, tzstring));
  }

  /** readTimeZoneFile on an open file. */
  method ReadTimeZoneFile(bytes: seq<byte>) returns (zone: Option<Zone>)
    ensures zone == ReadFile(bytes)
  {
    hide TakeInts, Block, CountsOf, SkipSize;
    var f := new File(bytes);
    var head := f.ReadBytes(4);
    if head.None? || head.value != MAGIC { return None; }
    var version := f.ReadBytes(1);
    if version.None? { return None; }
    var reserved := f.ReadBytes(15);
    if reserved.None? { return None; }
    assert f.pos == HEADER_SIZE && f.Rest() == bytes[HEADER_SIZE..];
    var counts := ReadInts(f, 6, 4);
    if counts.None? { return None; }
    var c := CountsOf(counts.value);
    if version.value == [VERSION_2] {
      f.Skip(SkipSize(c));
      head := f.ReadBytes(4);
      if head.None? || head.value != MAGIC { return None; }
      f.Skip(16);
      zone := ReadDataBlock(f, false);
    } else {
      f.Skip(-COUNTS_SIZE);
      zone := ReadDataBlock(f, true);
    }
  }

  /** Whatever the file holds, a table that was read and has a type record is fit for the conversions. */
  lemma ReadTablesAreWellFormed(bytes: seq<byte>)
    ensures FitWhenRead(ReadFile(bytes))
  {
    hide Block, Left, TakeCounts, SkipSize;
    if |bytes| >= HEADER_SIZE {
      BlockIsWellFormed(bytes[HEADER_SIZE..], true);
      var counts := TakeCounts(bytes[HEADER_SIZE..]);
      if counts.Some? {
        var at := HEADER_SIZE + COUNTS_SIZE + SkipSize(counts.value.0);
        var s := Left(bytes, if at < 0 then HEADER_SIZE + COUNTS_SIZE else at);
        if |s| >= 4 { BlockIsWellFormed(Left(s[4..], 16), false); }
      }
    }
  }

  predicate FitWhenRead(zone: Option<Zone>) {
    zone.Some? && |zone.value.data.localtimes| > 0 ==> TimeZone.WellFormed(zone.value.data)
  }

  lemma BlockIsWellFormed(s: seq<byte>, v1: bool)
    ensures FitWhenRead(Block(s, v1))
  {
    hide TakeTable, Take, Left, TakeCounts;
    var counts := TakeCounts(s);
    if counts.Some? {
      var (c, s0) := counts.value;
      if c.timecnt >= 0 && c.typecnt >= 0 && TakeTable(s0, c, v1).Some?
         && |TakeTable(s0, c, v1).value.0.localtimes| > 0 {
        TableIsWellFormed(s0, c, v1);
      }
    }
  }

  lemma TableIsWellFormed(s: seq<byte>, c: Counts, v1: bool)
    requires c.timecnt >= 0 && c.typecnt >= 0
    requires TakeTable(s, c, v1).Some? && |TakeTable(s, c, v1).value.0.localtimes| > 0
    ensures TimeZone.WellFormed(TakeTable(s, c, v1).value.0)
  {
    hide TakeInts, TakeBytes, TakeLocalTimes;
    var size := if v1 then 4 else 8;
    var times := TakeInts(s, c.timecnt, size).value;
    var types := TakeBytes(times.1, c.timecnt).value;
    var localtimes := TakeLocalTimes(types.1, c.typecnt).value;
    TakeIntsLength(s, c.timecnt, size);
    TakeBytesLength(times.1, c.timecnt);
    RowsAreWellFormed(times.0, types.0, localtimes.0);
  }

  lemma RowsAreWellFormed(times: seq<int>, types: seq<byte>, localtimes: seq<TimeZone.LocalTime>)
    requires |times| == |types| && TypesInRange(types, localtimes) && |localtimes| > 0
    ensures TimeZone.WellFormed(TimeZone.Data(Rows(times, types, localtimes), localtimes))
  {
  }

  // ----- The encoding of section 3 of RFC 8536 -----

  /** A data block; leap-second records pair an occurrence with a correction. */
  datatype DataBlock = DataBlock(
    times: seq<int>, types: seq<byte>, localtimes: seq<TimeZone.LocalTime>, designations: seq<byte>,
    leaps: seq<(int, int)>, isStd: seq<byte>, isUt: seq<byte>)

  predicate ValidLocalTime(lt: TimeZone.LocalTime) {
    FitsSigned(lt.utcOffset, 4) && 0 <= lt.desigIdx < 256
  }

  predicate AllFit(xs: seq<int>, size: nat)
    requires size >= 1
  {
    forall i :: 0 <= i < |xs| ==> FitsSigned(xs[i], size)
  }

  /** What section 3.2 of RFC 8536 asks of a block whose times take size bytes. */
  predicate ValidBlock(b: DataBlock, size: nat)
    requires size >= 1
  {
    && AllFit(b.times, size) && |b.types| == |b.times|
    && (forall i :: 0 <= i < |b.localtimes| ==> ValidLocalTime(b.localtimes[i]))
    && (forall i :: 0 <= i < |b.leaps| ==> FitsSigned(b.leaps[i].0, size) && FitsSigned(b.leaps[i].1, 4))
    && |b.isStd| in {0, |b.localtimes|} && |b.isUt| in {0, |b.localtimes|}
    && AllFit(CountsIn(b), 4)
  }

  function CountsIn(b: DataBlock): seq<int> {
    [|b.isUt|, |b.isStd|, |b.leaps|, |b.times|, |b.localtimes|, |b.designations|]
  }

  function EncodeInts(xs: seq<int>, size: nat): (s: seq<byte>)
    requires size >= 1 && AllFit(xs, size)
    ensures |s| == size * |xs|
  {
    if xs == [] then [] else Encode(xs[0], size) + EncodeInts(xs[1..], size)
  }

  function EncodeLocalTime(lt: TimeZone.LocalTime): (s: seq<byte>)
    requires ValidLocalTime(lt)
    ensures |s| == 6
  {
    Encode(lt.utcOffset, 4) + [if lt.isDst then 1 else 0] + [lt.desigIdx]
  }

  function EncodeLocalTimes(lts: seq<TimeZone.LocalTime>): (s: seq<byte>)
    requires forall i :: 0 <= i < |lts| ==> ValidLocalTime(lts[i])
    ensures |s| == 6 * |lts|
  {
    if lts == [] then [] else EncodeLocalTime(lts[0]) + EncodeLocalTimes(lts[1..])
  }

  function EncodeLeaps(leaps: seq<(int, int)>, size: nat): (s: seq<byte>)
    requires size >= 1
    requires forall i :: 0 <= i < |leaps| ==> FitsSigned(leaps[i].0, size) && FitsSigned(leaps[i].1, 4)
    ensures |s| == (size + 4) * |leaps|
  {
    if leaps == [] then [] else Encode(leaps[0].0, size) + Encode(leaps[0].1, 4) + EncodeLeaps(leaps[1..], size)
  }

  /** A block's data and whatever follows it. */
  function EncodeBody(b: DataBlock, size: nat, tail: seq<byte>): seq<byte>
    requires size >= 1 && ValidBlock(b, size)
  {
    EncodeInts(b.times, size) + (b.types + (EncodeLocalTimes(b.localtimes)
    + (b.designations + (EncodeLeaps(b.leaps, size) + (b.isStd + (b.isUt + tail))))))
  }

  function EncodeBlock(b: DataBlock, size: nat, tail: seq<byte>): seq<byte>
    requires size >= 1 && ValidBlock(b, size)
  {
    EncodeInts(CountsIn(b), 4) + EncodeBody(b, size, tail)
  }

  /** A header: magic, version octet and fifteen reserved octets. */
  function Header(version: byte, reserved: seq<byte>): (s: seq<byte>)
    requires |reserved| == 15
    ensures |s| == HEADER_SIZE
  {
    MAGIC + [version] + reserved
  }

  function EncodeV1(version: byte, reserved: seq<byte>, b: DataBlock): seq<byte>
    requires |reserved| == 15 && ValidBlock(b, 4)
  {
    Header(version, reserved) + EncodeBlock(b, 4, [])
  }

  function EncodeV2(reserved: seq<byte>, b1: DataBlock, header2: byte, reserved2: seq<byte>, b2: DataBlock,
                    footer: seq<byte>)
    : seq<byte>
    requires |reserved| == 15 && |reserved2| == 15 && ValidBlock(b1, 4) && ValidBlock(b2, 8)
  {
    Header(VERSION_2, reserved) + EncodeBlock(b1, 4, Header(header2, reserved2) + EncodeBlock(b2, 8, footer))
  }

  // ----- Reading inverts encoding -----

  lemma TakeOfPrefix(a: seq<byte>, rest: seq<byte>)
    ensures Take(a + rest, |a|) == Some((a, rest))
  {
  }

  lemma {:induction false} TakeIntsOfEncode(xs: seq<int>, size: nat, rest: seq<byte>)
    requires size >= 1 && AllFit(xs, size)
    ensures TakeInts(EncodeInts(xs, size) + rest, |xs|, size) == Some((xs, rest))
  {
    if xs == [] {
      assert EncodeInts(xs, size) + rest == rest;
    } else {
      var head, tail := Encode(xs[0], size), EncodeInts(xs[1..], size);
      assert EncodeInts(xs, size) + rest == head + (tail + rest);
      TakeOfPrefix(head, tail + rest);
      DecodeOfEncode(xs[0], size);
      TakeIntsOfEncode(xs[1..], size, rest);
      assert xs == [xs[0]] + xs[1..];
    }
  }

  lemma {:induction false} TakeBytesOfPrefix(xs: seq<byte>, rest: seq<byte>)
    ensures TakeBytes(xs + rest, |xs|) == Some((xs, rest))
  {
    if xs == [] {
      assert xs + rest == rest;
    } else {
      assert (xs + rest)[1..] == xs[1..] + rest;
      TakeBytesOfPrefix(xs[1..], rest);
      assert xs == [xs[0]] + xs[1..];
    }
  }

  lemma TakeLocalTimeOfEncode(lt: TimeZone.LocalTime, rest: seq<byte>)
    requires ValidLocalTime(lt)
    ensures TakeLocalTime(EncodeLocalTime(lt) + rest) == Some((lt, rest))
  {
    hide Encode, Decode, FitsSigned;
    var dst: byte, idx: byte := if lt.isDst then 1 else 0, lt.desigIdx;
    var tail := [dst] + ([idx] + rest);
    assert EncodeLocalTime(lt) + rest == Encode(lt.utcOffset, 4) + tail;
    TakeOfPrefix(Encode(lt.utcOffset, 4), tail);
    DecodeOfEncode(lt.utcOffset, 4);
    assert tail[1..] == [idx] + rest;
    assert ([idx] + rest)[1..] == rest;
  }

  lemma {:induction false} TakeLocalTimesOfEncode(lts: seq<TimeZone.LocalTime>, rest: seq<byte>)
    requires forall i :: 0 <= i < |lts| ==> ValidLocalTime(lts[i])
    ensures TakeLocalTimes(EncodeLocalTimes(lts) + rest, |lts|) == Some((lts, rest))
  {
    hide TakeLocalTime, EncodeLocalTime;
    if lts == [] {
      assert EncodeLocalTimes(lts) + rest == rest;
    } else {
      var tail := EncodeLocalTimes(lts[1..]);
      assert EncodeLocalTimes(lts) + rest == EncodeLocalTime(lts[0]) + (tail + rest);
      TakeLocalTimeOfEncode(lts[0], tail + rest);
      TakeLocalTimesOfEncode(lts[1..], rest);
      assert lts == [lts[0]] + lts[1..];
    }
  }

  predicate EveryRowTyped(b: DataBlock) {
    TypesInRange(b.types, b.localtimes)
  }

  /** The zone a block describes. */
  function ZoneOf(b: DataBlock, footer: seq<byte>): Zone
    requires |b.types| == |b.times| && EveryRowTyped(b)
  {
    Zone(TimeZone.Data(Rows(b.times, b.types, b.localtimes), b.localtimes), b.designations, footer)
  }

  lemma TableOfEncode(b: DataBlock, v1: bool, s3: seq<byte>)
    requires var size := if v1 then 4 else 8; ValidBlock(b, size)
    ensures var size := if v1 then 4 else 8;
            var s := EncodeInts(b.times, size) + (b.types + (EncodeLocalTimes(b.localtimes) + s3));
            TakeTable(s, CountsOf(CountsIn(b)), v1)
            == if EveryRowTyped(b) then Some((TimeZone.Data(Rows(b.times, b.types, b.localtimes), b.localtimes), s3))
               else None
  {
    hide TakeInts, TakeBytes, TakeLocalTimes, EncodeInts, EncodeLocalTimes, Rows, FitsSigned;
    var size := if v1 then 4 else 8;
    var s2 := EncodeLocalTimes(b.localtimes) + s3;
    TakeIntsOfEncode(b.times, size, b.types + s2);
    TakeBytesOfPrefix(b.types, s2);
    TakeLocalTimesOfEncode(b.localtimes, s3);
  }

  lemma LeftAfterIndicators(isStd: seq<byte>, isUt: seq<byte>, footer: seq<byte>)
    ensures Left(isStd + (isUt + footer), |isStd| + |isUt|) == footer
  {
  }

  lemma BodyOfEncode(b: DataBlock, v1: bool, footer: seq<byte>)
    requires var size := if v1 then 4 else 8; ValidBlock(b, size)
    requires b.leaps == []
    ensures var size := if v1 then 4 else 8;
            BlockBody(EncodeBody(b, size, footer), CountsOf(CountsIn(b)), v1)
            == if EveryRowTyped(b) then Some(ZoneOf(b, if v1 then [] else footer)) else None
  {
    hide TakeTable, EncodeInts, EncodeLocalTimes, Rows, FitsSigned, AllFit, ValidLocalTime, EveryRowTyped, Left;
    var size := if v1 then 4 else 8;
    var s4 := EncodeLeaps(b.leaps, size) + (b.isStd + (b.isUt + footer));
    TableOfEncode(b, v1, b.designations + s4);
    TakeOfPrefix(b.designations, s4);
    LeftAfterIndicators(b.isStd, b.isUt, footer);
    assert s4 == b.isStd + (b.isUt + footer);
  }

  lemma BlockOfEncode(b: DataBlock, v1: bool, footer: seq<byte>)
    requires var size := if v1 then 4 else 8; ValidBlock(b, size)
    ensures var size := if v1 then 4 else 8;
            Block(EncodeBlock(b, size, footer), v1)
            == if b.leaps == [] && EveryRowTyped(b) then Some(ZoneOf(b, if v1 then [] else footer)) else None
  {
    hide TakeInts, EncodeInts, EncodeBody, BlockBody, ZoneOf;
    var size := if v1 then 4 else 8;
    TakeIntsOfEncode(CountsIn(b), 4, EncodeBody(b, size, footer));
    if b.leaps == [] {
      BodyOfEncode(b, v1, footer);
    }
  }

  lemma HeaderFirst(version: byte, reserved: seq<byte>, rest: seq<byte>)
    requires |reserved| == 15
    ensures var bytes := Header(version, reserved) + rest;
            && |bytes| >= HEADER_SIZE
            && bytes[..4] == MAGIC && bytes[4] == version
            && bytes[HEADER_SIZE..] == rest
            && Take(bytes, 4) == Some((MAGIC, bytes[4..]))
            && Left(bytes[4..], 16) == rest
  {
  }

  /** A version-1 file is read back to exactly the rows it encodes, and refused exactly when it has leap
      seconds or a row with no type record. Every version octet but '2' is read as version 1. */
  lemma ReadsBackV1(version: byte, reserved: seq<byte>, b: DataBlock)
    requires version != VERSION_2 && |reserved| == 15 && ValidBlock(b, 4)
    ensures ReadFile(EncodeV1(version, reserved, b))
            == if b.leaps == [] && EveryRowTyped(b) then Some(ZoneOf(b, [])) else None
  {
    hide TakeInts, EncodeInts, EncodeBody, Block, ZoneOf;
    HeaderFirst(version, reserved, EncodeBlock(b, 4, []));
    TakeIntsOfEncode(CountsIn(b), 4, EncodeBody(b, 4, []));
    BlockOfEncode(b, true, []);
  }

  /** In a version-2 file the first block, whatever it holds, is skipped to the second header, and the second
      block is read back with the rest of the file as the zone string. */
  lemma ReadsBackV2(reserved: seq<byte>, b1: DataBlock, header2: byte, reserved2: seq<byte>, b2: DataBlock,
                    footer: seq<byte>)
    requires |reserved| == 15 && |reserved2| == 15 && ValidBlock(b1, 4) && ValidBlock(b2, 8)
    ensures ReadFile(EncodeV2(reserved, b1, header2, reserved2, b2, footer))
            == if b2.leaps == [] && EveryRowTyped(b2) then Some(ZoneOf(b2, footer)) else None
  {
    hide TakeInts, EncodeInts, EncodeBody, SecondPart, ZoneOf, FitsSigned, AllFit, EveryRowTyped;
    var second := Header(header2, reserved2) + EncodeBlock(b2, 8, footer);
    SecondPartOfEncode(header2, reserved2, b2, footer);
    var body := EncodeBody(b1, 4, second);
    HeaderFirst(VERSION_2, reserved, EncodeBlock(b1, 4, second));
    TakeIntsOfEncode(CountsIn(b1), 4, body);
    BodySize(b1, second);
    var skip := SkipSize(CountsOf(CountsIn(b1)));
    LeftPast(Header(VERSION_2, reserved), EncodeBlock(b1, 4, second), COUNTS_SIZE + skip);
  }

  lemma SecondPartOfEncode(header2: byte, reserved2: seq<byte>, b2: DataBlock, footer: seq<byte>)
    requires |reserved2| == 15 && ValidBlock(b2, 8)
    ensures SecondPart(Header(header2, reserved2) + EncodeBlock(b2, 8, footer))
            == if b2.leaps == [] && EveryRowTyped(b2) then Some(ZoneOf(b2, footer)) else None
  {
    hide Block, ZoneOf, EncodeBlock, Left, Header;
    HeaderFirst(header2, reserved2, EncodeBlock(b2, 8, footer));
    BlockOfEncode(b2, false, footer);
  }

  lemma LeftPast(a: seq<byte>, s: seq<byte>, n: nat)
    requires n <= |s|
    ensures Left(a + s, |a| + n) == s[n..]
  {
  }

  /** The computed skip is the length of the encoded version-1 block. */
  lemma BodySize(b: DataBlock, tail: seq<byte>)
    requires ValidBlock(b, 4)
    ensures var skip := SkipSize(CountsOf(CountsIn(b)));
            && 0 <= skip && COUNTS_SIZE + skip <= |EncodeBlock(b, 4, tail)|
            && EncodeBlock(b, 4, tail)[COUNTS_SIZE + skip..] == tail
  {
    var skip := SkipSize(CountsOf(CountsIn(b)));
    assert EncodeBody(b, 4, tail)[skip..] == tail;
  }
}
