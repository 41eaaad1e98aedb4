/** Which bytes utility/TimeZone.cpp accepts as a zone file, and the table it reads in them, told by position in the
    file: the converse of reading back what was encoded. */
module TzLayout {
  import opened Bytes
  import opened TzFile
  import TimeZone

  // ----- A block by position -----

  function IntAt(s: seq<byte>, at: nat, size: nat): int
    requires size >= 1 && at + size <= |s|
  {
    Decode(s[at..at + size])
  }

  /** The n integers of four or eight bytes at the start. */
  function Ints(s: seq<byte>, n: nat, wide: bool): seq<int>
    requires (if wide then 8 * n else 4 * n) <= |s|
  {
    if wide then seq(n, i requires 0 <= i < n => IntAt(s, 8 * i, 8))
    else seq(n, i requires 0 <= i < n => IntAt(s, 4 * i, 4))
  }

  /** The type record at a position: an offset, a flag and an index. */
  function RecordAt(s: seq<byte>, at: nat): TimeZone.LocalTime
    requires at + 6 <= |s|
  {
    TimeZone.LocalTime(IntAt(s, at, 4), s[at + 4] != 0, s[at + 5])
  }

  function Records(s: seq<byte>, n: nat): seq<TimeZone.LocalTime>
    requires 6 * n <= |s|
  {
    seq(n, i requires 0 <= i < n => RecordAt(s, 6 * i))
  }

  /** The six counts: of UT and standard-time indicators, leap seconds, transitions, types and characters. */
  function CountsAt(s: seq<byte>): Counts
    requires |s| >= 24
  {
    Counts(IntAt(s, 0, 4), IntAt(s, 4, 4), IntAt(s, 8, 4), IntAt(s, 12, 4), IntAt(s, 16, 4), IntAt(s, 20, 4))
  }

  /** Where the type records and the characters of a block start, after its counts. */
  function RecordsStart(n: nat, wide: bool): nat {
    if wide then 8 * n + n else 4 * n + n
  }

  /** The types of n transitions, right before the records. */
  function Types(body: seq<byte>, n: nat, wide: bool): seq<byte>
    requires RecordsStart(n, wide) <= |body|
  {
    body[RecordsStart(n, wide) - n..RecordsStart(n, wide)]
  }

  /** The transitions: a time, the local time it is by its type's offset, and the type. */
  function Table(times: seq<int>, types: seq<byte>, localtimes: seq<TimeZone.LocalTime>): seq<TimeZone.Transition>
    requires |times| == |types| && forall i :: 0 <= i < |types| ==> types[i] < |localtimes|
  {
    seq(|times|, i requires 0 <= i < |times| =>
      TimeZone.Transition(times[i], times[i] + localtimes[types[i]].utcOffset, types[i]))
  }

  /** No leap seconds, indicators for no type or for every one, everything the counts promise up to the characters,
      and a record for the type of every transition. The indicators themselves may be missing. */
  predicate Readable(s: seq<byte>, wide: bool) {
    && |s| >= 24
    && var c := CountsAt(s);
    && c.leapcnt == 0 && c.isutcnt in {0, c.typecnt} && c.isstdcnt in {0, c.typecnt}
    && c.timecnt >= 0 && c.typecnt >= 0 && c.charcnt >= 0
    && RecordsStart(c.timecnt, wide) + 6 * c.typecnt + c.charcnt <= |s| - 24
    && var types := Types(s[24..], c.timecnt, wide);
       forall i :: 0 <= i < |types| ==> types[i] < c.typecnt
  }

  /** The table and the strings of a readable block. */
  function ZoneAt(s: seq<byte>, wide: bool): Zone
    requires Readable(s, wide)
  {
    var c := CountsAt(s);
    var body := s[24..];
    var start := RecordsStart(c.timecnt, wide);
    var localtimes := Records(body[start..], c.typecnt);
    var transitions := Table(Ints(body, c.timecnt, wide), Types(body, c.timecnt, wide), localtimes);
    var strings := body[start + 6 * c.typecnt..];
    Zone(TimeZone.Data(transitions, localtimes), strings[..c.charcnt],
         if wide then Left(strings[c.charcnt..], c.isstdcnt + c.isutcnt) else [])
  }

  // ----- The reader follows the positions -----

  lemma {:induction false} TakeIntsAt(s: seq<byte>, n: nat, wide: bool)
    ensures var size := if wide then 8 else 4;
            TakeInts(s, n, size) == if size * n <= |s| then Some((Ints(s, n, wide), s[size * n..])) else None
    decreases n
  {
    hide Decode;
    var size := if wide then 8 else 4;
    if n == 0 {
      assert Ints(s, 0, wide) == [] && s[0..] == s;
    } else if |s| >= size {
      var rest := s[size..];
      TakeIntsAt(rest, n - 1, wide);
      if size * n <= |s| {
        IntsFirst(s, n, wide);
        assert rest[size * (n - 1)..] == s[size * n..];
      }
    }
  }

  lemma IntsFirst(s: seq<byte>, n: nat, wide: bool)
    requires n > 0 && (if wide then 8 * n else 4 * n) <= |s|
    ensures var size := if wide then 8 else 4;
            Ints(s, n, wide) == [Decode(s[..size])] + Ints(s[size..], n - 1, wide)
  {
    hide Decode;
    var size := if wide then 8 else 4;
    var rest := s[size..];
    forall i | 0 < i < n ensures Ints(s, n, wide)[i] == Ints(rest, n - 1, wide)[i - 1] {
      assert s[size * i..size * i + size] == rest[size * (i - 1)..size * (i - 1) + size];
    }
  }

  lemma {:induction false} TakeBytesAt(s: seq<byte>, n: nat)
    ensures TakeBytes(s, n) == if n <= |s| then Some((s[..n], s[n..])) else None
    decreases n
  {
    if n > 0 && |s| > 0 {
      TakeBytesAt(s[1..], n - 1);
      if n <= |s| {
        assert s[..n] == [s[0]] + s[1..][..n - 1] && s[n..] == s[1..][n - 1..];
      }
    }
  }

  lemma TakeRecordAt(s: seq<byte>)
    ensures TakeLocalTime(s) == if |s| >= 6 then Some((RecordAt(s, 0), s[6..])) else None
  {
    hide Decode;
    if |s| >= 6 {
      assert s[4..][1..] == s[5..] && s[5..][1..] == s[6..];
    }
  }

  lemma {:induction false} TakeRecordsAt(s: seq<byte>, n: nat)
    ensures TakeLocalTimes(s, n) == if 6 * n <= |s| then Some((Records(s, n), s[6 * n..])) else None
    decreases n
  {
    hide TakeLocalTime, Decode;
    TakeRecordAt(s);
    if n == 0 {
      assert Records(s, 0) == [] && s[0..] == s;
    } else if |s| >= 6 {
      TakeRecordsAt(s[6..], n - 1);
      if 6 * n <= |s| {
        forall i | 0 < i < n ensures RecordAt(s, 6 * i) == RecordAt(s[6..], 6 * (i - 1)) {
          assert s[6 * i..6 * i + 4] == s[6..][6 * (i - 1)..6 * (i - 1) + 4];
        }
        assert Records(s, n) == [RecordAt(s, 0)] + Records(s[6..], n - 1);
        assert s[6..][6 * (n - 1)..] == s[6 * n..];
      }
    }
  }

  lemma TakeCountsAt(s: seq<byte>)
    ensures TakeCounts(s) == if |s| >= 24 then Some((CountsAt(s), s[24..])) else None
  {
    hide Decode;
    TakeIntsAt(s, 6, false);
  }

  lemma TableAt(s: seq<byte>, c: Counts, wide: bool)
    requires c.timecnt >= 0 && c.typecnt >= 0
    ensures var start := RecordsStart(c.timecnt, wide);
            if start + 6 * c.typecnt > |s| then TakeTable(s, c, !wide) == None
            else
              var localtimes := Records(s[start..], c.typecnt);
              var times, types := Ints(s, c.timecnt, wide), Types(s, c.timecnt, wide);
              && |types| == |times| && |localtimes| == c.typecnt
              && TakeTable(s, c, !wide)
                 == if TypesInRange(types, localtimes)
                    then Some((TimeZone.Data(Rows(times, types, localtimes), localtimes),
                               s[start + 6 * c.typecnt..]))
                    else None
  {
    hide TakeInts, TakeBytes, TakeLocalTimes, Rows, Ints, Records;
    var size, start := if wide then 8 else 4, RecordsStart(c.timecnt, wide);
    TakeIntsAt(s, c.timecnt, wide);
    if size * c.timecnt <= |s| {
      var s1 := s[size * c.timecnt..];
      TakeBytesAt(s1, c.timecnt);
      if c.timecnt <= |s1| {
        assert s1[..c.timecnt] == s[start - c.timecnt..start] && s1[c.timecnt..] == s[start..];
        TakeRecordsAt(s[start..], c.typecnt);
        if 6 * c.typecnt <= |s[start..]| {
          assert s[start..][6 * c.typecnt..] == s[start + 6 * c.typecnt..];
          LengthsAt(s, c.timecnt, wide, c.typecnt);
        }
      }
    }
  }

  lemma LengthsAt(s: seq<byte>, n: nat, wide: bool, t: nat)
    requires RecordsStart(n, wide) + 6 * t <= |s|
    ensures |Ints(s, n, wide)| == n && |Records(s[RecordsStart(n, wide)..], t)| == t
  {
  }

  lemma TableIsRows(times: seq<int>, types: seq<byte>, localtimes: seq<TimeZone.LocalTime>)
    requires |times| == |types| && TypesInRange(types, localtimes)
    ensures Rows(times, types, localtimes) == Table(times, types, localtimes)
  {
  }

  lemma BodyAt(s: seq<byte>, wide: bool)
    requires |s| >= 24 && CountsAt(s).timecnt >= 0 && CountsAt(s).typecnt >= 0 && CountsAt(s).charcnt >= 0
    requires CountsAt(s).leapcnt == 0
    requires CountsAt(s).isutcnt in {0, CountsAt(s).typecnt} && CountsAt(s).isstdcnt in {0, CountsAt(s).typecnt}
    ensures BlockBody(s[24..], CountsAt(s), !wide) == if Readable(s, wide) then Some(ZoneAt(s, wide)) else None
  {
    hide CountsAt, TakeTable, Ints, Records, Left, Rows, Table;
    var c, body := CountsAt(s), s[24..];
    var start := RecordsStart(c.timecnt, wide);
    TableAt(body, c, wide);
    if start + 6 * c.typecnt <= |body| {
      LengthsAt(body, c.timecnt, wide, c.typecnt);
      var times, types := Ints(body, c.timecnt, wide), Types(body, c.timecnt, wide);
      var localtimes := Records(body[start..], c.typecnt);
      if TypesInRange(types, localtimes) { TableIsRows(times, types, localtimes); }
    }
  }

  /** readDataBlock accepts exactly the readable blocks, and reads exactly what they hold. */
  lemma BlockIsExact(s: seq<byte>, wide: bool)
    ensures Block(s, !wide) == if Readable(s, wide) then Some(ZoneAt(s, wide)) else None
  {
    hide TakeCounts, CountsAt, BlockBody, ZoneAt;
    TakeCountsAt(s);
    if |s| >= 24 {
      var c := CountsAt(s);
      if c.leapcnt == 0 && c.isutcnt in {0, c.typecnt} && c.isstdcnt in {0, c.typecnt}
         && c.timecnt >= 0 && c.typecnt >= 0 && c.charcnt >= 0 {
        BodyAt(s, wide);
      }
    }
  }

  // ----- A file by position -----

  /** Where the second header of a version-2 file is looked for: after the first block, by its counts; right after
      those counts if they would lead before the start of the file. */
  function SecondHeader(bytes: seq<byte>): nat
    requires |bytes| >= 44
  {
    var c := CountsAt(bytes[20..]);
    var at := 44 + 5 * c.timecnt + 6 * c.typecnt + c.charcnt + 8 * c.leapcnt + c.isstdcnt + c.isutcnt;
    if at < 0 then 44 else at
  }

  /** A file with the magic and the first counts, and with a readable block: after the second header if its version is
      2, after the first header otherwise. */
  predicate ReadableFile(bytes: seq<byte>) {
    && |bytes| >= 44 && bytes[..4] == Ascii("TZif")
    && if bytes[4] == Ascii("2")[0] then
         var at := SecondHeader(bytes);
         at + 20 <= |bytes| && bytes[at..at + 4] == Ascii("TZif") && Readable(bytes[at + 20..], true)
       else Readable(bytes[20..], false)
  }

  /** readTimeZoneFile accepts exactly the readable files, and reads exactly the zone their block holds. */
  lemma ReadIsExact(bytes: seq<byte>)
    ensures ReadFile(bytes).Some? <==> ReadableFile(bytes)
    ensures ReadableFile(bytes) ==>
              ReadFile(bytes).value == if bytes[4] == Ascii("2")[0] then ZoneAt(bytes[SecondHeader(bytes) + 20..], true)
                                       else ZoneAt(bytes[20..], false)
  {
    hide TakeCounts, CountsAt, Block, ZoneAt, Readable;
    assert Ascii("TZif") == MAGIC && Ascii("2") == [VERSION_2];
    if |bytes| >= 20 {
      TakeCountsAt(bytes[20..]);
      BlockIsExact(bytes[20..], false);
      if |bytes| >= 44 {
        var at := SecondHeader(bytes);
        SecondAt(bytes, at);
      }
    }
  }

  lemma SecondAt(bytes: seq<byte>, at: nat)
    ensures SecondPart(Left(bytes, at))
            == if at + 20 <= |bytes| && bytes[at..at + 4] == MAGIC && Readable(bytes[at + 20..], true)
               then Some(ZoneAt(bytes[at + 20..], true)) else None
  {
    hide Block, ZoneAt, Readable;
    if at + 4 <= |bytes| {
      var rest := Left(bytes, at)[4..];
      assert Left(bytes, at)[..4] == bytes[at..at + 4];
      if at + 20 <= |bytes| {
        assert Left(rest, 16) == bytes[at + 20..];
        BlockIsExact(bytes[at + 20..], true);
      } else {
        assert Left(rest, 16) == [];
        BlockIsExact([], true);
        NothingReadable();
      }
    }
  }

  lemma NothingReadable()
    ensures !Readable([], true)
  {
  }
}
