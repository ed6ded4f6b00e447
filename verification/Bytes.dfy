/** Byte strings, their big-endian integers and their lexicographic order.
    A Go string is a byte sequence, so names, keys and payloads are all `Bytes`. */
module Bytes {

  newtype Byte = x: int | 0 <= x < 256
  type Bytes = seq<Byte>

  datatype Option<+T> = None | Some(value: T)

  function Min(a: int, b: int): int {
    if a <= b then a else b
  }

  // ---------------------------------------------------------------------------
  // Big-endian integers of a fixed width (encoding/binary.BigEndian)
  // ---------------------------------------------------------------------------

  /** 256 to the n: how many values n bytes can tell apart. */
  function Span(n: nat): (r: nat)
    ensures r > 0
  {
    if n == 0 then 1 else 256 * Span(n - 1)
  }

  lemma SpanOfWidths()
    ensures Span(2) == 0x1_0000
    ensures Span(4) == 0x1_0000_0000
    ensures Span(8) == 0x1_0000_0000_0000_0000
  {
    assert Span(1) == 256;
    assert Span(3) == 256 * Span(2);
    assert Span(5) == 256 * Span(4);
    assert Span(7) == 256 * Span(6);
  }

  /** The n low-order bytes of v, most significant first; higher bytes are lost,
      as in a conversion to a narrower unsigned type. */
  function PutBE(v: nat, n: nat): (s: Bytes)
    ensures |s| == n
  {
    if n == 0 then [] else PutBE(v / 256, n - 1) + [(v % 256) as Byte]
  }

  function GetBE(s: Bytes): (v: nat) {
    if s == [] then 0 else 256 * GetBE(s[..|s| - 1]) + s[|s| - 1] as nat
  }

  lemma {:induction false} GetBound(s: Bytes)
    ensures GetBE(s) < Span(|s|)
  {
    if s != [] {
      GetBound(s[..|s| - 1]);
    }
  }

  /** Reading back what was written gives the value, when it fits the width. */
  lemma {:induction false} GetPut(v: nat, n: nat)
    requires v < Span(n)
    ensures GetBE(PutBE(v, n)) == v
  {
    if n > 0 {
      var q, r, s := v / 256, v % 256, PutBE(v, n);
      assert v == 256 * q + r && q < Span(n - 1);
      GetPut(q, n - 1);
      assert s == PutBE(q, n - 1) + [r as Byte];
      assert s[..n - 1] == PutBE(q, n - 1) && s[n - 1] == r as Byte;
    }
  }

  /** Writing back what was read gives the bytes. */
  lemma {:induction false} PutGet(s: Bytes)
    ensures PutBE(GetBE(s), |s|) == s
  {
    if s != [] {
      var front, last := s[..|s| - 1], s[|s| - 1];
      PutGet(front);
      assert GetBE(s) == 256 * GetBE(front) + last as nat;
      assert GetBE(s) / 256 == GetBE(front);
      assert s == front + [last];
    }
  }

  /** Small numbers, most significant byte first. */
  lemma PutSmall(v: nat)
    requires v < 256
    ensures PutBE(v, 1) == [v as Byte] && PutBE(v, 2) == [0, v as Byte] && PutBE(v, 4) == [0, 0, 0, v as Byte]
    ensures PutBE(v, 8) == [0, 0, 0, 0, 0, 0, 0, v as Byte]
  {
    PutZero();
    assert v / 256 == 0 && v % 256 == v;
    assert PutBE(v, 1) == PutBE(0, 0) + [v as Byte];
    assert PutBE(v, 2) == PutBE(0, 1) + [v as Byte];
    assert PutBE(v, 4) == PutBE(0, 3) + [v as Byte];
    assert PutBE(v, 8) == PutBE(0, 7) + [v as Byte];
  }

  lemma PutZero()
    ensures PutBE(0, 0) == [] && PutBE(0, 1) == [0] && PutBE(0, 3) == [0, 0, 0]
    ensures PutBE(0, 7) == [0, 0, 0, 0, 0, 0, 0]
  {
    assert PutBE(0, 2) == [0, 0];
    assert PutBE(0, 4) == [0, 0, 0, 0];
    assert PutBE(0, 5) == [0, 0, 0, 0, 0];
    assert PutBE(0, 6) == [0, 0, 0, 0, 0, 0];
  }

  // ---------------------------------------------------------------------------
  // Two's complement, 32 and 64 bits
  // ---------------------------------------------------------------------------

  const TWO31: int := 0x8000_0000
  const TWO32: int := 0x1_0000_0000
  const TWO63: int := 0x8000_0000_0000_0000
  const TWO64: int := 0x1_0000_0000_0000_0000

  type Int32 = v: int | -TWO31 <= v < TWO31
  type Int64 = v: int | -TWO63 <= v < TWO63

  function Unsigned64(v: Int64): (u: nat)
    ensures u < TWO64
  {
    if v < 0 then v + TWO64 else v
  }

  function Signed64(u: nat): (v: Int64)
    requires u < TWO64
    ensures Unsigned64(v) == u
  {
    if u < TWO63 then u else u - TWO64
  }

  function Unsigned32(v: Int32): (u: nat)
    ensures u < TWO32
  {
    if v < 0 then v + TWO32 else v
  }

  function Signed32(u: nat): (v: Int32)
    requires u < TWO32
    ensures Unsigned32(v) == u
  {
    if u < TWO31 then u else u - TWO32
  }

  // ---------------------------------------------------------------------------
  // Lexicographic order (Go's < on strings)
  // ---------------------------------------------------------------------------

  predicate Less(a: Bytes, b: Bytes) {
    b != [] &&
    (a == [] || a[0] < b[0] || (a[0] == b[0] && Less(a[1..], b[1..])))
  }

  predicate AtMost(a: Bytes, b: Bytes) {
    a == b || Less(a, b)
  }

  lemma {:induction false} LessTotal(a: Bytes, b: Bytes)
    ensures Less(a, b) || a == b || Less(b, a)
    ensures !(Less(a, b) && Less(b, a))
    ensures !Less(a, a)
  {
    if a != [] && b != [] {
      LessTotal(a[1..], b[1..]);
      if a[0] == b[0] && a[1..] == b[1..] {
        assert a == [a[0]] + a[1..] == b;
      }
    }
    if a != [] {
      LessTotal(a[1..], a[1..]);
    }
  }

  lemma {:induction false} LessTransitive(a: Bytes, b: Bytes, c: Bytes)
    requires Less(a, b) && Less(b, c)
    ensures Less(a, c)
  {
    if a != [] && a[0] == b[0] && b[0] == c[0] {
      LessTransitive(a[1..], b[1..], c[1..]);
    }
  }
}
