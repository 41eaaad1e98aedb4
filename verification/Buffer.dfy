/** networking/Buffer.h and Buffer.cpp: a byte queue in one array, with room kept in front. */
module Buffer {
  import opened Bytes

  const CHEAP_PREPEND := 8
  const INITIAL_SIZE := 1024
  const EXTRA_SIZE := 65536

  const CR: byte := 13
  const LF: byte := 10

  predicate CrlfAt(s: seq<byte>, i: int) {
    0 <= i && i + 1 < |s| && s[i] == CR && s[i + 1] == LF
  }

  /** Where the first CR LF starts, or None: std::search. */
  function FindCrlf(s: seq<byte>): (r: Option<nat>)
    ensures r.Some? ==> CrlfAt(s, r.value) && forall i :: 0 <= i < r.value ==> !CrlfAt(s, i)
    ensures r.None? ==> forall i :: !CrlfAt(s, i)
  {
    FindCrlfFrom(s, 0)
  }

  function FindCrlfFrom(s: seq<byte>, start: nat): (r: Option<nat>)
    ensures r.Some? ==> start <= r.value && CrlfAt(s, r.value) && forall i :: start <= i < r.value ==> !CrlfAt(s, i)
    ensures r.None? ==> forall i :: start <= i ==> !CrlfAt(s, i)
    decreases |s| - start
  {
    if start >= |s| then None else if CrlfAt(s, start) then Some(start) else FindCrlfFrom(s, start + 1)
  }

  class Buffer {
    var buffer: array<byte>
    var readerIndex: nat
    var writerIndex: nat

    predicate Valid()
      reads this
    {
      CHEAP_PREPEND <= buffer.Length && readerIndex <= writerIndex <= buffer.Length
    }

    /** The plain byte sequence the buffer stands for. */
    ghost function Contents(): seq<byte>
      requires Valid()
      reads this, buffer
    {
      buffer[readerIndex..writerIndex]
    }

    constructor (initialSize: nat := INITIAL_SIZE)
      ensures Valid() && fresh(buffer) && Contents() == []
      ensures WritableBytes() == initialSize && PrependableBytes() == 8
    {
      buffer := new byte[CHEAP_PREPEND + initialSize](_ => 0);
      readerIndex, writerIndex := CHEAP_PREPEND, CHEAP_PREPEND;
    }

    function ReadableBytes(): nat
      requires Valid()
      reads this
    {
      writerIndex - readerIndex
    }

    function WritableBytes(): nat
      requires Valid()
      reads this
    {
      buffer.Length - writerIndex
    }

    function PrependableBytes(): nat
      reads this
    {
      readerIndex
    }

    method FindCRLF() returns (r: Option<nat>)
      requires Valid()
      ensures r == FindCrlf(Contents())
    {
      ghost var s := Contents();
      var i := readerIndex;
      while i < writerIndex
        invariant readerIndex <= i <= writerIndex
        invariant FindCrlfFrom(s, i - readerIndex) == FindCrlf(s)
      {
        if i + 1 < writerIndex && buffer[i] == CR && buffer[i + 1] == LF {
          assert CrlfAt(s, i - readerIndex);
          return Some(i - readerIndex);
        }
        i := i + 1;
      }
      r := None;
    }

    method Peek(len: nat) returns (s: seq<byte>)
      requires Valid() && len <= ReadableBytes()
      ensures s == Contents()[..len]
    {
      s := buffer[readerIndex..readerIndex + len];
    }

    method RetrieveAll()
      requires Valid()
      modifies this
      ensures Valid() && Contents() == [] && buffer == old(buffer) && PrependableBytes() == 8
    {
      readerIndex, writerIndex := CHEAP_PREPEND, CHEAP_PREPEND;
    }

    method Retrieve(len: nat)
      requires Valid() && len <= ReadableBytes()
      modifies this
      ensures Valid() && Contents() == old(Contents())[len..] && buffer == old(buffer)
      ensures PrependableBytes() == if Contents() == [] then 8 else old(PrependableBytes()) + len
    {
      if len < ReadableBytes() {
        readerIndex := readerIndex + len;
      } else {
        RetrieveAll();
      }
    }

    method RetrieveAsString(len: nat) returns (result: seq<byte>)
      requires Valid() && len <= ReadableBytes()
      modifies this
      ensures Valid() && buffer == old(buffer)
      ensures result == old(Contents())[..len] && Contents() == old(Contents())[len..]
    {
      result := buffer[readerIndex..readerIndex + len];
      assert result == Contents()[..len];
      Retrieve(len);
    }

    method Unwrite(len: nat)
      requires Valid() && len <= ReadableBytes()
      modifies this
      ensures Valid() && Contents() == old(Contents())[..|old(Contents())| - len] && buffer == old(buffer)
    {
      writerIndex := writerIndex - len;
    }

    /** Forward copy to a lower position; source and target may overlap. */
    method MoveDown(from: nat, to: nat, count: nat)
      requires to < from && from + count <= buffer.Length
      modifies buffer
      ensures buffer[to..to + count] == old(buffer[from..from + count])
    {
      ghost var was := buffer[from..from + count];
      var i := 0;
      while i < count
        invariant 0 <= i <= count
        invariant buffer[to..to + i] == was[..i]
        invariant forall k :: from + i <= k < from + count ==> buffer[k] == was[k - from]
      {
        buffer[to + i] := buffer[from + i];
        assert buffer[to..to + i + 1] == buffer[to..to + i] + [was[i]];
        i := i + 1;
      }
    }

    /** makeSpace: grow at the end, or move the readable bytes to the front when there is room. Its assertion
        that the reader has moved past the reserve always holds. */
    method MakeSpace(len: nat)
      requires Valid() && WritableBytes() < len
      modifies this, buffer
      ensures Valid() && Contents() == old(Contents()) && WritableBytes() >= len
      ensures fresh(buffer) || buffer == old(buffer)
      ensures buffer == old(buffer) <==> old(WritableBytes() + PrependableBytes()) >= len + 8
      ensures buffer == old(buffer) ==> PrependableBytes() == 8
      ensures buffer != old(buffer) ==> buffer.Length == old(writerIndex) + len
    {
      if WritableBytes() + PrependableBytes() < len + CHEAP_PREPEND {
        Resize(writerIndex + len);
      } else {
        assert CHEAP_PREPEND < readerIndex;
        var readable := ReadableBytes();
        MoveDown(readerIndex, CHEAP_PREPEND, readable);
        readerIndex := CHEAP_PREPEND;
        writerIndex := readerIndex + readable;
      }
    }

    method Resize(size: nat)
      requires Valid() && buffer.Length <= size
      modifies this`buffer
      ensures fresh(buffer) && buffer.Length == size && Valid() && Contents() == old(Contents())
    {
      var bigger := new byte[size](_ => 0);
      forall i | 0 <= i < buffer.Length {
        bigger[i] := buffer[i];
      }
      buffer := bigger;
      assert buffer[readerIndex..writerIndex] == old(buffer[readerIndex..writerIndex]);
    }

    method EnsureWritableBytes(len: nat)
      requires Valid()
      modifies this, buffer
      ensures Valid() && Contents() == old(Contents()) && WritableBytes() >= len
      ensures fresh(buffer) || buffer == old(buffer)
      ensures old(WritableBytes()) >= len ==> unchanged(this)
      ensures buffer == old(buffer) <==>
                old(WritableBytes()) >= len || old(WritableBytes() + PrependableBytes()) >= len + 8
    {
      if WritableBytes() < len {
        MakeSpace(len);
      }
    }

    /** std::copy of data into the array. */
    method CopyIn(data: seq<byte>, at: nat)
      requires at + |data| <= buffer.Length
      modifies buffer
      ensures buffer[at..at + |data|] == data
      ensures buffer[..at] == old(buffer[..at]) && buffer[at + |data|..] == old(buffer[at + |data|..])
    {
      forall i | 0 <= i < |data| {
        buffer[at + i] := data[i];
      }
    }

    method Append(data: seq<byte>)
      requires Valid()
      modifies this, buffer
      ensures Valid() && Contents() == old(Contents()) + data
      ensures fresh(buffer) || buffer == old(buffer)
    {
      EnsureWritableBytes(|data|);
      CopyIn(data, writerIndex);
      ghost var before := buffer[..writerIndex];
      writerIndex := writerIndex + |data|;
      assert buffer[..writerIndex] == before + data;
      assert Contents() == buffer[..writerIndex][readerIndex..];
    }

    method Prepend(data: seq<byte>)
      requires Valid() && |data| <= PrependableBytes()
      modifies this, buffer
      ensures Valid() && Contents() == data + old(Contents()) && buffer == old(buffer)
    {
      ghost var end, was := readerIndex, Contents();
      readerIndex := readerIndex - |data|;
      CopyIn(data, readerIndex);
      assert buffer[end..writerIndex] == was by {
        assert buffer[end..][..writerIndex - end] == buffer[end..writerIndex];
      }
      assert Contents() == buffer[readerIndex..end] + buffer[end..writerIndex];
    }

    method Swap(that: Buffer)
      modifies this, that
      ensures buffer == old(that.buffer) && readerIndex == old(that.readerIndex) && writerIndex == old(that.writerIndex)
      ensures that.buffer == old(buffer) && that.readerIndex == old(readerIndex) && that.writerIndex == old(writerIndex)
    {
      buffer, that.buffer := that.buffer, buffer;
      readerIndex, that.readerIndex := that.readerIndex, readerIndex;
      writerIndex, that.writerIndex := that.writerIndex, writerIndex;
    }

    method Shrink(reserve: nat)
      requires Valid()
      modifies this
      ensures Valid() && Contents() == old(Contents()) && WritableBytes() >= reserve && fresh(buffer)
    {
      var other := new Buffer();
      other.EnsureWritableBytes(ReadableBytes() + reserve);
      other.AppendInPlace(buffer[readerIndex..writerIndex]);
      Swap(other);
    }

    /** append when there is room: no reallocation. */
    method AppendInPlace(data: seq<byte>)
      requires Valid() && |data| <= WritableBytes()
      modifies this, buffer
      ensures Valid() && Contents() == old(Contents()) + data && buffer == old(buffer)
      ensures WritableBytes() == old(WritableBytes()) - |data|
    {
      CopyIn(data, writerIndex);
      ghost var before := buffer[..writerIndex];
      writerIndex := writerIndex + |data|;
      assert buffer[..writerIndex] == before + data;
      assert Contents() == buffer[..writerIndex][readerIndex..];
    }

    /** readFd: what readv delivered goes to the free room first and overflows into a stack area, which is
        used only when the room is smaller than that area; None stands for an error. */
    method ReadFd(input: Option<seq<byte>>) returns (n: int)
      requires Valid()
      requires input.Some? ==>
                 |input.value| <= WritableBytes() + (if WritableBytes() < EXTRA_SIZE then EXTRA_SIZE else 0)
      modifies this, buffer
      ensures Valid() && (fresh(buffer) || buffer == old(buffer))
      ensures n == if input.Some? then |input.value| else -1
      ensures Contents() == old(Contents()) + (if input.Some? then input.value else [])
    {
      if input.None? {
        return -1;
      }
      var data, writable := input.value, WritableBytes();
      n := |data|;
      if n <= writable {
        AppendInPlace(data);
      } else {
        ghost var was := Contents();
        AppendInPlace(data[..writable]);
        Append(data[writable..]);
        assert was + data[..writable] + data[writable..] == was + data;
      }
    }

    // ----- Integers in network byte order -----

    method AppendInt(x: int, size: nat)
      requires Valid() && size >= 1 && FitsSigned(x, size)
      modifies this, buffer
      ensures Valid() && Contents() == old(Contents()) + Encode(x, size)
      ensures fresh(buffer) || buffer == old(buffer)
    {
      Append(Encode(x, size));
    }

    method PrependInt(x: int, size: nat)
      requires Valid() && size >= 1 && FitsSigned(x, size) && size <= PrependableBytes()
      modifies this, buffer
      ensures Valid() && Contents() == Encode(x, size) + old(Contents()) && buffer == old(buffer)
    {
      Prepend(Encode(x, size));
    }

    method PeekInt(size: nat) returns (x: int)
      requires Valid() && 1 <= size <= ReadableBytes()
      ensures x == Decode(Contents()[..size])
    {
      x := Decode(buffer[readerIndex..readerIndex + size]);
      assert Contents()[..size] == buffer[readerIndex..readerIndex + size];
    }

    method ReadInt(size: nat) returns (x: int)
      requires Valid() && 1 <= size <= ReadableBytes()
      modifies this
      ensures Valid() && buffer == old(buffer)
      ensures x == Decode(old(Contents())[..size]) && Contents() == old(Contents())[size..]
    {
      x := PeekInt(size);
      Retrieve(size);
    }
  }

  /** An integer put in front of any contents is read back equal and leaves them; one appended to any contents is
      read back equal once they have been retrieved, and leaves nothing. */
  lemma IntComesBack(s: seq<byte>, x: int, size: nat)
    requires size >= 1 && FitsSigned(x, size)
    ensures Decode((Encode(x, size) + s)[..size]) == x && (Encode(x, size) + s)[size..] == s
    ensures Decode((s + Encode(x, size))[|s|..][..size]) == x && (s + Encode(x, size))[|s|..][size..] == []
  {
    assert (Encode(x, size) + s)[..size] == Encode(x, size);
    assert (s + Encode(x, size))[|s|..] == Encode(x, size);
    assert Encode(x, size)[..size] == Encode(x, size);
    DecodeOfEncode(x, size);
  }
}
