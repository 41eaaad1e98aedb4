/** Bytes, optional values and big-endian integers, shared by the buffer and the zone-file reader. */
module Bytes {

  type byte = x: int | 0 <= x < 256

  datatype Option<+T> = None | Some(value: T) {
    predicate IsFailure() { None? }
    function PropagateFailure<U>(): Option<U> requires None? { None }
    function Extract(): T requires Some? { value }
  }

  /** The number of values that k bytes can hold. */
  function Span(k: nat): (n: int)
    ensures n >= 1
    ensures k >= 1 ==> n % 2 == 0
  {
    if k == 0 then 1 else 256 * Span(k - 1)
  }

  /** k-byte big-endian digits of a non-negative number. */
  function Digits(x: int, k: nat): (s: seq<byte>)
    requires 0 <= x < Span(k)
    ensures |s| == k
  {
    if k == 0 then [] else Digits(x / 256, k - 1) + [x % 256]
  }

  function Number(s: seq<byte>): (x: int)
    ensures 0 <= x < Span(|s|)
  {
    if s == [] then 0 else 256 * Number(s[..|s| - 1]) + s[|s| - 1]
  }

  lemma {:induction false} NumberOfDigits(x: int, k: nat)
    requires 0 <= x < Span(k)
    ensures Number(Digits(x, k)) == x
  {
    if k > 0 {
      NumberOfDigits(x / 256, k - 1);
      assert Digits(x, k)[..k - 1] == Digits(x / 256, k - 1);
    }
  }

  predicate FitsSigned(x: int, k: nat)
    requires k >= 1
  {
    -(Span(k) / 2) <= x < Span(k) / 2
  }

  /** A signed integer in network byte order: two's complement, most significant byte first. */
  function Encode(x: int, k: nat): (s: seq<byte>)
    requires k >= 1 && FitsSigned(x, k)
    ensures |s| == k
  {
    Digits(if x < 0 then x + Span(k) else x, k)
  }

  /** The signed integer held by a big-endian byte string. */
  function Decode(s: seq<byte>): (x: int)
    requires |s| >= 1
    ensures FitsSigned(x, |s|)
  {
    var u := Number(s);
    if u < Span(|s|) / 2 then u else u - Span(|s|)
  }

  /** Reading back what was written in network byte order gives the same signed integer. */
  lemma DecodeOfEncode(x: int, k: nat)
    requires k >= 1 && FitsSigned(x, k)
    ensures Decode(Encode(x, k)) == x
  {
    hide Digits, Number, Span;
    NumberOfDigits(if x < 0 then x + Span(k) else x, k);
  }

  lemma {:induction false} DigitsOfNumber(s: seq<byte>)
    ensures Digits(Number(s), |s|) == s
  {
    if s != [] {
      var init, last := s[..|s| - 1], s[|s| - 1];
      DigitsOfNumber(init);
      assert Number(s) == 256 * Number(init) + last;
      assert Number(s) / 256 == Number(init) && Number(s) % 256 == last by {
        hide Number, Span, Digits;
      }
      assert s == init + [last];
    }
  }

  /** Every byte string is the encoding of the integer it is read as. */
  lemma EncodeOfDecode(s: seq<byte>)
    requires |s| >= 1
    ensures Encode(Decode(s), |s|) == s
  {
    hide Digits, Number, Span;
    DigitsOfNumber(s);
  }

  lemma LastByte(s: seq<byte>, last: byte)
    ensures Number(s + [last]) == 256 * Number(s) + last
  {
    assert (s + [last])[..|s|] == s;
  }

  /** Network byte order: what comes first weighs more, by a factor of 256 for every byte behind it. */
  lemma {:induction false} MostSignificantFirst(a: seq<byte>, b: seq<byte>)
    ensures Number(a + b) == Number(a) * Span(|b|) + Number(b)
    decreases |b|
  {
    if b == [] {
      assert a + b == a;
    } else {
      var init, last := b[..|b| - 1], b[|b| - 1];
      MostSignificantFirst(a, init);
      assert a + b == a + init + [last] && b == init + [last];
      assert Span(|b|) == 256 * Span(|init|);
      hide Number, Span;
      LastByte(a + init, last);
      LastByte(init, last);
      Scaled(Number(a), Span(|init|));
    }
  }

  lemma Scaled(x: int, y: int)
    ensures x * (256 * y) == 256 * (x * y)
  {
  }

  lemma AtMost(x: int, bound: int, y: int)
    requires x <= bound && y >= 0
    ensures x * y <= bound * y
  {
  }

  /** Two's complement: a leading byte of 128 or more takes the whole span off. */
  lemma SignIsLeading(s: seq<byte>)
    requires |s| >= 1
    ensures Decode(s) == Number(s) - (if s[0] >= 128 then Span(|s|) else 0)
  {
    var lead, rest := s[0], s[1..];
    assert s == [lead] + rest;
    MostSignificantFirst([lead], rest);
    LastByte([], lead);
    assert Number([lead]) == lead && Span(|s|) == 256 * Span(|rest|);
    hide Number, Span;
    if lead >= 128 {
      AtMost(128, lead, Span(|rest|));
    } else {
      AtMost(lead, 127, Span(|rest|));
    }
  }

  /** The bytes of a text in ASCII. */
  function Ascii(text: string): (s: seq<byte>)
    requires forall i :: 0 <= i < |text| ==> text[i] < 128 as char
    ensures |s| == |text| && forall i :: 0 <= i < |s| ==> s[i] == text[i] as int
  {
    seq(|text|, i requires 0 <= i < |text| => text[i] as int)
  }
}
