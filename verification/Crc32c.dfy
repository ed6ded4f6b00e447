/** CRC-32C (the Castagnoli polynomial of section 12.1 of RFC 3720), reflected,
    as a fold over bytes.  `Update` has the streaming interface the log uses.

    Bit-vector facts are kept in small lemmas; the lemmas above them hide the
    bit-level definitions. */
module Crc32c {
  import opened Bytes

  /** The reflected Castagnoli polynomial. */
  const POLYNOMIAL: bv32 := 0x82F6_3B78

  function Not(x: bv32): bv32 { !x }

  function Xor(x: bv32, y: bv32): bv32 { x ^ y }

  predicate Odd(v: int) { v % 2 == 1 }

  function Half(v: int): int { v / 2 }

  function Word8(b0: bool, b1: bool, b2: bool, b3: bool, b4: bool, b5: bool, b6: bool, b7: bool): bv32 {
    (if b0 then 1 else 0) | (if b1 then 2 else 0) | (if b2 then 4 else 0) | (if b3 then 8 else 0) |
    (if b4 then 16 else 0) | (if b5 then 32 else 0) | (if b6 then 64 else 0) | (if b7 then 128 else 0)
  }

  /** A byte as the low-order bits of a register. */
  function Lift(b: Byte): bv32 {
    var v0 := b as int;
    var v1 := Half(v0);
    var v2 := Half(v1);
    var v3 := Half(v2);
    var v4 := Half(v3);
    var v5 := Half(v4);
    var v6 := Half(v5);
    var v7 := Half(v6);
    Word8(Odd(v0), Odd(v1), Odd(v2), Odd(v3), Odd(v4), Odd(v5), Odd(v6), Odd(v7))
  }

  /** The low-order bits of a register as a byte. */
  function LowByte(x: bv32): Byte {
    (if x & 1 == 1 then 1 else 0) + (if x & 2 == 2 then 2 else 0) +
    (if x & 4 == 4 then 4 else 0) + (if x & 8 == 8 then 8 else 0) +
    (if x & 16 == 16 then 16 else 0) + (if x & 32 == 32 then 32 else 0) +
    (if x & 64 == 64 then 64 else 0) + (if x & 128 == 128 then 128 else 0)
  }

  /** Consumes one bit of the register. */
  function Shift(x: bv32): bv32 {
    if OddBit(x) then Xor(Halved(x), POLYNOMIAL) else Halved(x)
  }

  predicate OddBit(x: bv32) { x & 1 == 1 }

  function Halved(x: bv32): bv32 { x >> 1 }

  function Shift8(x: bv32): bv32 {
    Shift(Shift(Shift(Shift(Shift(Shift(Shift(Shift(x))))))))
  }

  /** Consumes one byte. */
  function Step(c: bv32, b: Byte): bv32 {
    Shift8(Xor(c, Lift(b)))
  }

  function Fold(c: bv32, s: Bytes): bv32 {
    if s == [] then c else Step(Fold(c, s[..|s| - 1]), s[|s| - 1])
  }

  /** crc32.Update: the register is complemented on entry and on exit. */
  function Update(crc: bv32, s: Bytes): bv32 {
    Not(Fold(Not(crc), s))
  }

  function Checksum(s: Bytes): bv32 {
    Update(0, s)
  }

  // ---------------------------------------------------------------------------
  // Bit-level facts
  // ---------------------------------------------------------------------------

  lemma NotNot(x: bv32)
    ensures Not(Not(x)) == x
  {
  }

  lemma XorCancel(x: bv32, y: bv32)
    ensures Xor(Xor(x, y), y) == x && Xor(x, Xor(x, y)) == y
  {
  }

  lemma XorAssociative(x: bv32, y: bv32, z: bv32)
    ensures Xor(Xor(x, y), z) == Xor(x, Xor(y, z))
  {
  }

  lemma Word8Injective(a0: bool, a1: bool, a2: bool, a3: bool, a4: bool, a5: bool, a6: bool, a7: bool,
                       b0: bool, b1: bool, b2: bool, b3: bool, b4: bool, b5: bool, b6: bool, b7: bool)
    requires Word8(a0, a1, a2, a3, a4, a5, a6, a7) == Word8(b0, b1, b2, b3, b4, b5, b6, b7)
    ensures a0 == b0 && a1 == b1 && a2 == b2 && a3 == b3 && a4 == b4 && a5 == b5 && a6 == b6 && a7 == b7
  {
  }

  lemma HalfDetermines(v: int, w: int)
    requires Odd(v) == Odd(w) && Half(v) == Half(w)
    ensures v == w
  {
  }

  lemma SevenHalves(b: Byte)
    ensures var v := Half(Half(Half(Half(Half(Half(Half(b as int)))))));
            Half(v) == 0
  {
  }

  lemma LiftInjective(a: Byte, b: Byte)
    requires Lift(a) == Lift(b)
    ensures a == b
  {
    SevenHalves(a);
    SevenHalves(b);
    hide Word8, Odd, Half;
    var v0, w0 := a as int, b as int;
    var v1, w1 := Half(v0), Half(w0);
    var v2, w2 := Half(v1), Half(w1);
    var v3, w3 := Half(v2), Half(w2);
    var v4, w4 := Half(v3), Half(w3);
    var v5, w5 := Half(v4), Half(w4);
    var v6, w6 := Half(v5), Half(w5);
    var v7, w7 := Half(v6), Half(w6);
    Word8Injective(Odd(v0), Odd(v1), Odd(v2), Odd(v3), Odd(v4), Odd(v5), Odd(v6), Odd(v7),
                   Odd(w0), Odd(w1), Odd(w2), Odd(w3), Odd(w4), Odd(w5), Odd(w6), Odd(w7));
    HalfDetermines(v7, w7);
    HalfDetermines(v6, w6);
    HalfDetermines(v5, w5);
    HalfDetermines(v4, w4);
    HalfDetermines(v3, w3);
    HalfDetermines(v2, w2);
    HalfDetermines(v1, w1);
    HalfDetermines(v0, w0);
  }

  /** Each bit step loses nothing: the polynomial's top bit records which branch was taken. */
  lemma ShiftInjective(x: bv32, y: bv32)
    requires Shift(x) == Shift(y)
    ensures x == y
  {
  }

  lemma Shift8Injective(x: bv32, y: bv32)
    requires Shift8(x) == Shift8(y)
    ensures x == y
  {
    hide Shift;
    var x1, y1 := Shift(x), Shift(y);
    var x2, y2 := Shift(x1), Shift(y1);
    var x3, y3 := Shift(x2), Shift(y2);
    var x4, y4 := Shift(x3), Shift(y3);
    var x5, y5 := Shift(x4), Shift(y4);
    var x6, y6 := Shift(x5), Shift(y5);
    var x7, y7 := Shift(x6), Shift(y6);
    ShiftInjective(x7, y7);
    ShiftInjective(x6, y6);
    ShiftInjective(x5, y5);
    ShiftInjective(x4, y4);
    ShiftInjective(x3, y3);
    ShiftInjective(x2, y2);
    ShiftInjective(x1, y1);
    ShiftInjective(x, y);
  }

  lemma StepInjective(c: bv32, d: bv32, b: Byte)
    requires Step(c, b) == Step(d, b)
    ensures c == d
  {
    hide Shift8, Xor, Lift;
    Shift8Injective(Xor(c, Lift(b)), Xor(d, Lift(b)));
    XorCancel(c, Lift(b));
    XorCancel(d, Lift(b));
  }

  lemma StepByteInjective(c: bv32, a: Byte, b: Byte)
    requires Step(c, a) == Step(c, b)
    ensures a == b
  {
    hide Shift8, Xor, Lift;
    Shift8Injective(Xor(c, Lift(a)), Xor(c, Lift(b)));
    XorCancel(c, Lift(a));
    XorCancel(c, Lift(b));
    LiftInjective(a, b);
  }

  function Up(y: bv32): bv32 { y << 1 }

  function Up8(y: bv32): bv32 { Up(Up(Up(Up(Up(Up(Up(Up(y)))))))) }

  predicate Room(y: bv32) { y < 0x8000_0000 }

  lemma Up8Room(y: bv32)
    requires y < 0x100_0000
    ensures Room(y) && Room(Up(y)) && Room(Up(Up(y))) && Room(Up(Up(Up(y)))) && Room(Up(Up(Up(Up(y)))))
    ensures Room(Up(Up(Up(Up(Up(y)))))) && Room(Up(Up(Up(Up(Up(Up(y)))))))
    ensures Room(Up(Up(Up(Up(Up(Up(Up(y))))))))
  {
  }

  lemma OddBitStays(x: bv32, y: bv32)
    ensures OddBit(Xor(x, Up(y))) == OddBit(x)
  {
  }

  lemma HalvedXor(x: bv32, y: bv32)
    requires Room(y)
    ensures Halved(Xor(x, Up(y))) == Xor(Halved(x), y)
  {
  }

  lemma SwapXor(a: bv32, y: bv32, p: bv32)
    ensures Xor(Xor(a, y), p) == Xor(Xor(a, p), y)
  {
    hide Xor;
    XorAssociative(a, y, p);
    XorAssociative(a, p, y);
    XorCommutes(y, p);
  }

  lemma XorCommutes(x: bv32, y: bv32)
    ensures Xor(x, y) == Xor(y, x)
  {
  }

  lemma ShiftXor(x: bv32, y: bv32)
    requires Room(y)
    ensures Shift(Xor(x, Up(y))) == Xor(Shift(x), y)
  {
    hide OddBit, Halved, Xor, Up, Room;
    OddBitStays(x, y);
    HalvedXor(x, y);
    SwapXor(Halved(x), y, POLYNOMIAL);
  }

  /** Bytes not yet reached pass through the register unchanged. */
  lemma Shift8Xor(x: bv32, y: bv32)
    requires y < 0x100_0000
    ensures Shift8(Xor(x, Up8(y))) == Xor(Shift8(x), y)
  {
    Up8Room(y);
    hide Shift, Xor, Up, Room;
    var y1 := Up(y);
    var y2 := Up(y1);
    var y3 := Up(y2);
    var y4 := Up(y3);
    var y5 := Up(y4);
    var y6 := Up(y5);
    var y7 := Up(y6);
    var x1 := Shift(x);
    var x2 := Shift(x1);
    var x3 := Shift(x2);
    var x4 := Shift(x3);
    var x5 := Shift(x4);
    var x6 := Shift(x5);
    var x7 := Shift(x6);
    ShiftXor(x, y7);
    ShiftXor(x1, y6);
    ShiftXor(x2, y5);
    ShiftXor(x3, y4);
    ShiftXor(x4, y3);
    ShiftXor(x5, y2);
    ShiftXor(x6, y1);
    ShiftXor(x7, y);
  }

  /** The word that four bytes form, first byte lowest. */
  function Word(b0: Byte, b1: Byte, b2: Byte, b3: Byte): bv32 {
    Pack(Lift(b0), Lift(b1), Lift(b2), Lift(b3))
  }

  function Pack(b0: bv32, b1: bv32, b2: bv32, b3: bv32): bv32 {
    Xor(Xor(Xor(b0, Up8(b1)), Up8(Up8(b2))), Up8(Up8(Up8(b3))))
  }

  lemma LiftBound(b: Byte)
    ensures Lift(b) < 0x100
  {
    hide Odd, Half, Word8;
    var v0 := b as int;
    var v1 := Half(v0);
    var v2 := Half(v1);
    var v3 := Half(v2);
    var v4 := Half(v3);
    var v5 := Half(v4);
    var v6 := Half(v5);
    Word8Bound(Odd(v0), Odd(v1), Odd(v2), Odd(v3), Odd(v4), Odd(v5), Odd(v6), Odd(Half(v6)));
  }

  lemma Word8Bound(b0: bool, b1: bool, b2: bool, b3: bool, b4: bool, b5: bool, b6: bool, b7: bool)
    ensures Word8(b0, b1, b2, b3, b4, b5, b6, b7) < 0x100
  {
  }

  lemma Up8Bound(x: bv32)
    requires x < 0x100
    ensures x < 0x100_0000 && Up8(x) < 0x100_0000 && Up8(Up8(x)) < 0x100_0000
  {
  }

  lemma LiftRoom(b: Byte)
    ensures Lift(b) < 0x100_0000 && Up8(Lift(b)) < 0x100_0000 && Up8(Up8(Lift(b))) < 0x100_0000
  {
    hide Lift, Up8;
    LiftBound(b);
    Up8Bound(Lift(b));
  }

  lemma WordInjective(a0: Byte, a1: Byte, a2: Byte, a3: Byte, b0: Byte, b1: Byte, b2: Byte, b3: Byte)
    requires Word(a0, a1, a2, a3) == Word(b0, b1, b2, b3)
    ensures a0 == b0 && a1 == b1 && a2 == b2 && a3 == b3
  {
    hide Lift, Pack;
    LiftBound(a0); LiftBound(a1); LiftBound(a2); LiftBound(a3);
    LiftBound(b0); LiftBound(b1); LiftBound(b2); LiftBound(b3);
    PackInjective(Lift(a0), Lift(a1), Lift(a2), Lift(a3), Lift(b0), Lift(b1), Lift(b2), Lift(b3));
    LiftInjective(a0, b0);
    LiftInjective(a1, b1);
    LiftInjective(a2, b2);
    LiftInjective(a3, b3);
  }

  lemma PackInjective(a0: bv32, a1: bv32, a2: bv32, a3: bv32, b0: bv32, b1: bv32, b2: bv32, b3: bv32)
    requires a0 < 0x100 && a1 < 0x100 && a2 < 0x100 && a3 < 0x100
    requires b0 < 0x100 && b1 < 0x100 && b2 < 0x100 && b3 < 0x100
    requires Pack(a0, a1, a2, a3) == Pack(b0, b1, b2, b3)
    ensures a0 == b0 && a1 == b1 && a2 == b2 && a3 == b3
  {
    PackParts(a0, a1, a2, a3);
    PackParts(b0, b1, b2, b3);
    hide Pack;
  }

  lemma PackParts(b0: bv32, b1: bv32, b2: bv32, b3: bv32)
    requires b0 < 0x100 && b1 < 0x100 && b2 < 0x100 && b3 < 0x100
    ensures var w := Pack(b0, b1, b2, b3);
            w & 0xff == b0 && (w >> 8) & 0xff == b1 && (w >> 16) & 0xff == b2 && w >> 24 == b3
  {
  }

  // ---------------------------------------------------------------------------
  // Streaming
  // ---------------------------------------------------------------------------

  lemma {:induction false} FoldAppend(c: bv32, s: Bytes, t: Bytes)
    ensures Fold(c, s + t) == Fold(Fold(c, s), t)
  {
    hide Step;
    if t == [] {
      assert s + t == s;
    } else {
      var front := t[..|t| - 1];
      FoldAppend(c, s, front);
      assert (s + t)[..|s + t| - 1] == s + front;
    }
  }

  /** Feeding a record piece by piece gives the checksum of the whole record. */
  lemma UpdateAppend(crc: bv32, s: Bytes, t: Bytes)
    ensures Update(Update(crc, s), t) == Update(crc, s + t)
  {
    hide Fold, Not, Step;
    FoldAppend(Not(crc), s, t);
    NotNot(Fold(Not(crc), s));
  }

  // ---------------------------------------------------------------------------
  // Error detection
  // ---------------------------------------------------------------------------

  lemma {:induction false} FoldInjective(c: bv32, d: bv32, s: Bytes)
    requires Fold(c, s) == Fold(d, s)
    ensures c == d
  {
    hide Step;
    if s != [] {
      StepInjective(Fold(c, s[..|s| - 1]), Fold(d, s[..|s| - 1]), s[|s| - 1]);
      FoldInjective(c, d, s[..|s| - 1]);
    }
  }

  /** Four bytes at once: mix in the word they form, then shift 32 times. */
  lemma FoldWord(c: bv32, b0: Byte, b1: Byte, b2: Byte, b3: Byte)
    ensures Step(Step(Step(Step(c, b0), b1), b2), b3)
         == Shift8(Shift8(Shift8(Shift8(Xor(c, Word(b0, b1, b2, b3))))))
  {
    LiftRoom(b0);
    LiftRoom(b1);
    LiftRoom(b2);
    LiftRoom(b3);
    hide Shift8, Xor, Lift, Up8;
    var w1, w2, w3 := Lift(b1), Lift(b2), Lift(b3);
    var x0 := Xor(c, Lift(b0));
    var x1 := Xor(x0, Up8(w1));
    var x2 := Xor(x1, Up8(Up8(w2)));
    var x3 := Xor(x2, Up8(Up8(Up8(w3))));
    Shift8Xor(x0, w1);
    assert Step(Step(c, b0), b1) == Shift8(Shift8(x1));
    Shift8Xor(x1, Up8(w2));
    Shift8Xor(Shift8(x1), w2);
    assert Step(Step(Step(c, b0), b1), b2) == Shift8(Shift8(Shift8(x2)));
    Shift8Xor(x2, Up8(Up8(w3)));
    Shift8Xor(Shift8(x2), Up8(w3));
    Shift8Xor(Shift8(Shift8(x2)), w3);
    XorAssociative(c, Lift(b0), Up8(w1));
    XorAssociative(c, Xor(Lift(b0), Up8(w1)), Up8(Up8(w2)));
    XorAssociative(c, Xor(Xor(Lift(b0), Up8(w1)), Up8(Up8(w2))), Up8(Up8(Up8(w3))));
    assert x3 == Xor(c, Word(b0, b1, b2, b3));
  }

  lemma FoldOfFour(c: bv32, v: Bytes)
    requires |v| == 4
    ensures Fold(c, v) == Step(Step(Step(Step(c, v[0]), v[1]), v[2]), v[3])
  {
    hide Step;
    assert v[..3][..2] == v[..2] && v[..2][..1] == v[..1] && v[..1][..0] == [];
    assert Fold(c, v[..1]) == Step(Fold(c, v[..1][..0]), v[0]);
    assert Fold(c, v[..2]) == Step(Fold(c, v[..1]), v[1]);
    assert Fold(c, v[..3]) == Step(Fold(c, v[..2]), v[2]);
  }

  /** No two four-byte strings take the register to the same value. */
  lemma WordFoldInjective(c: bv32, v: Bytes, w: Bytes)
    requires |v| == |w| == 4
    requires Fold(c, v) == Fold(c, w)
    ensures v == w
  {
    hide Shift8, Fold, Word, Xor, Step;
    FoldOfFour(c, v);
    FoldOfFour(c, w);
    FoldWord(c, v[0], v[1], v[2], v[3]);
    FoldWord(c, w[0], w[1], w[2], w[3]);
    var x, y := Word(v[0], v[1], v[2], v[3]), Word(w[0], w[1], w[2], w[3]);
    Shift8Injective(Shift8(Shift8(Shift8(Xor(c, x)))), Shift8(Shift8(Shift8(Xor(c, y)))));
    Shift8Injective(Shift8(Shift8(Xor(c, x))), Shift8(Shift8(Xor(c, y))));
    Shift8Injective(Shift8(Xor(c, x)), Shift8(Xor(c, y)));
    Shift8Injective(Xor(c, x), Xor(c, y));
    XorCancel(c, x);
    XorCancel(c, y);
    WordInjective(v[0], v[1], v[2], v[3], w[0], w[1], w[2], w[3]);
    assert v == [v[0], v[1], v[2], v[3]] && w == [w[0], w[1], w[2], w[3]];
  }

  lemma SameChecksum(s: Bytes, t: Bytes)
    requires Checksum(s) == Checksum(t)
    ensures Fold(Not(0), s) == Fold(Not(0), t)
  {
    hide Fold, Not;
    NotNot(Fold(Not(0), s));
    NotNot(Fold(Not(0), t));
  }

  /** Damage confined to four consecutive bytes always changes the checksum. */
  lemma BurstDetected(pre: Bytes, v: Bytes, w: Bytes, post: Bytes)
    requires |v| == |w| == 4 && v != w
    ensures Checksum(pre + v + post) != Checksum(pre + w + post)
  {
    hide Fold, Not, Checksum;
    if Checksum(pre + v + post) == Checksum(pre + w + post) {
      SameChecksum(pre + v + post, pre + w + post);
      var n := Not(0);
      FoldAppend(n, pre, v);
      FoldAppend(n, pre, w);
      FoldAppend(n, pre + v, post);
      FoldAppend(n, pre + w, post);
      FoldInjective(Fold(Fold(n, pre), v), Fold(Fold(n, pre), w), post);
      WordFoldInjective(Fold(n, pre), v, w);
    }
  }

  /** Damage to any one byte always changes the checksum. */
  lemma ByteDetected(pre: Bytes, a: Byte, b: Byte, post: Bytes)
    requires a != b
    ensures Checksum(pre + [a] + post) != Checksum(pre + [b] + post)
  {
    hide Not, Checksum, Step;
    if Checksum(pre + [a] + post) == Checksum(pre + [b] + post) {
      SameChecksum(pre + [a] + post, pre + [b] + post);
      var n := Not(0);
      FoldAppend(n, pre + [a], post);
      FoldAppend(n, pre + [b], post);
      FoldInjective(Fold(n, pre + [a]), Fold(n, pre + [b]), post);
      assert (pre + [a])[..|pre|] == pre && (pre + [b])[..|pre|] == pre;
      StepByteInjective(Fold(n, pre), a, b);
    }
  }

  // ---------------------------------------------------------------------------
  // The four footer bytes, most significant first
  // ---------------------------------------------------------------------------

  function Down8(c: bv32): bv32 { c >> 8 }

  function Low(c: bv32): bv32 { c & 0xff }

  function PutCrc(c: bv32): (s: Bytes)
    ensures |s| == 4
  {
    [LowByte(Down8(Down8(Down8(c)))), LowByte(Down8(Down8(c))), LowByte(Down8(c)), LowByte(c)]
  }

  lemma LowByteInjective(x: bv32, y: bv32)
    requires LowByte(x) == LowByte(y)
    ensures Low(x) == Low(y)
  {
  }

  lemma BytesDetermine(x: bv32, y: bv32)
    requires Low(Down8(Down8(Down8(x)))) == Low(Down8(Down8(Down8(y))))
    requires Low(Down8(Down8(x))) == Low(Down8(Down8(y)))
    requires Low(Down8(x)) == Low(Down8(y)) && Low(x) == Low(y)
    ensures x == y
  {
  }

  /** Different checksums have different footers. */
  lemma PutCrcInjective(c: bv32, d: bv32)
    requires PutCrc(c) == PutCrc(d)
    ensures c == d
  {
    hide LowByte, Low, Down8;
    var s, t := PutCrc(c), PutCrc(d);
    assert s[0] == t[0] && s[1] == t[1] && s[2] == t[2] && s[3] == t[3];
    LowByteInjective(Down8(Down8(Down8(c))), Down8(Down8(Down8(d))));
    LowByteInjective(Down8(Down8(c)), Down8(Down8(d)));
    LowByteInjective(Down8(c), Down8(d));
    LowByteInjective(c, d);
    BytesDetermine(c, d);
  }

  // ---------------------------------------------------------------------------
  // The check value
  // ---------------------------------------------------------------------------

  lemma StepIs(c: bv32, b: Byte, lifted: bv32, x: bv32, r: bv32)
    requires Lift(b) == lifted && Xor(c, lifted) == x && Shift8(x) == r
    ensures Step(c, b) == r
  {
    hide Lift, Xor, Shift8;
  }

  lemma LiftOne()
    ensures Lift(49) == 0x31
  {
    assert Half(49) == 24 && Half(24) == 12 && Half(12) == 6 && Half(6) == 3 && Half(3) == 1 && Half(1) == 0 && Half(0) == 0;
    assert Odd(49) && !Odd(24) && !Odd(12) && !Odd(6) && Odd(3) && Odd(1) && !Odd(0);
    hide Half, Odd;
  }

  lemma DigitOne()
    ensures Step(0xFFFF_FFFF, 49) == 0x6F0A_661C
  {
    hide Lift, Step;
    LiftOne();
    StepIs(0xFFFF_FFFF, 49, 0x31, 0xFFFF_FFCE, 0x6F0A_661C);
  }

  lemma LiftTwo()
    ensures Lift(50) == 0x32
  {
    assert Half(50) == 25 && Half(25) == 12 && Half(12) == 6 && Half(6) == 3 && Half(3) == 1 && Half(1) == 0 && Half(0) == 0;
    assert !Odd(50) && Odd(25) && !Odd(12) && !Odd(6) && Odd(3) && Odd(1) && !Odd(0);
    hide Half, Odd;
  }

  lemma DigitTwo()
    ensures Step(0x6F0A_661C, 50) == 0x8CAA_3B9F
  {
    hide Lift, Step;
    LiftTwo();
    StepIs(0x6F0A_661C, 50, 0x32, 0x6F0A_662E, 0x8CAA_3B9F);
  }

  lemma LiftThree()
    ensures Lift(51) == 0x33
  {
    assert Half(51) == 25 && Half(25) == 12 && Half(12) == 6 && Half(6) == 3 && Half(3) == 1 && Half(1) == 0 && Half(0) == 0;
    assert Odd(51) && Odd(25) && !Odd(12) && !Odd(6) && Odd(3) && Odd(1) && !Odd(0);
    hide Half, Odd;
  }

  lemma DigitThree()
    ensures Step(0x8CAA_3B9F, 51) == 0xEF84_D04D
  {
    hide Lift, Step;
    LiftThree();
    StepIs(0x8CAA_3B9F, 51, 0x33, 0x8CAA_3BAC, 0xEF84_D04D);
  }

  lemma LiftFour()
    ensures Lift(52) == 0x34
  {
    assert Half(52) == 26 && Half(26) == 13 && Half(13) == 6 && Half(6) == 3 && Half(3) == 1 && Half(1) == 0 && Half(0) == 0;
    assert !Odd(52) && !Odd(26) && Odd(13) && !Odd(6) && Odd(3) && Odd(1) && !Odd(0);
    hide Half, Odd;
  }

  lemma DigitFour()
    ensures Step(0xEF84_D04D, 52) == 0x09C5_0B11
  {
    hide Lift, Step;
    LiftFour();
    StepIs(0xEF84_D04D, 52, 0x34, 0xEF84_D079, 0x09C5_0B11);
  }

  lemma LiftFive()
    ensures Lift(53) == 0x35
  {
    assert Half(53) == 26 && Half(26) == 13 && Half(13) == 6 && Half(6) == 3 && Half(3) == 1 && Half(1) == 0 && Half(0) == 0;
    assert Odd(53) && !Odd(26) && Odd(13) && !Odd(6) && Odd(3) && Odd(1) && !Odd(0);
    hide Half, Odd;
  }

  lemma DigitFive()
    ensures Step(0x09C5_0B11, 53) == 0xE72E_DCCA
  {
    hide Lift, Step;
    LiftFive();
    StepIs(0x09C5_0B11, 53, 0x35, 0x09C5_0B24, 0xE72E_DCCA);
  }

  lemma LiftSix()
    ensures Lift(54) == 0x36
  {
    assert Half(54) == 27 && Half(27) == 13 && Half(13) == 6 && Half(6) == 3 && Half(3) == 1 && Half(1) == 0 && Half(0) == 0;
    assert !Odd(54) && Odd(27) && Odd(13) && !Odd(6) && Odd(3) && Odd(1) && !Odd(0);
    hide Half, Odd;
  }

  lemma DigitSix()
    ensures Step(0xE72E_DCCA, 54) == 0xBECA_8E79
  {
    hide Lift, Step;
    LiftSix();
    StepIs(0xE72E_DCCA, 54, 0x36, 0xE72E_DCFC, 0xBECA_8E79);
  }

  lemma LiftSeven()
    ensures Lift(55) == 0x37
  {
    assert Half(55) == 27 && Half(27) == 13 && Half(13) == 6 && Half(6) == 3 && Half(3) == 1 && Half(1) == 0 && Half(0) == 0;
    assert Odd(55) && Odd(27) && Odd(13) && !Odd(6) && Odd(3) && Odd(1) && !Odd(0);
    hide Half, Odd;
  }

  lemma DigitSeven()
    ensures Step(0xBECA_8E79, 55) == 0xEDBD_6815
  {
    hide Lift, Step;
    LiftSeven();
    StepIs(0xBECA_8E79, 55, 0x37, 0xBECA_8E4E, 0xEDBD_6815);
  }

  lemma LiftEight()
    ensures Lift(56) == 0x38
  {
    assert Half(56) == 28 && Half(28) == 14 && Half(14) == 7 && Half(7) == 3 && Half(3) == 1 && Half(1) == 0 && Half(0) == 0;
    assert !Odd(56) && !Odd(28) && !Odd(14) && Odd(7) && Odd(3) && Odd(1) && !Odd(0);
    hide Half, Odd;
  }

  lemma DigitEight()
    ensures Step(0xEDBD_6815, 56) == 0x9F78_7F65
  {
    hide Lift, Step;
    LiftEight();
    StepIs(0xEDBD_6815, 56, 0x38, 0xEDBD_682D, 0x9F78_7F65);
  }

  lemma LiftNine()
    ensures Lift(57) == 0x39
  {
    assert Half(57) == 28 && Half(28) == 14 && Half(14) == 7 && Half(7) == 3 && Half(3) == 1 && Half(1) == 0 && Half(0) == 0;
    assert Odd(57) && !Odd(28) && !Odd(14) && Odd(7) && Odd(3) && Odd(1) && !Odd(0);
    hide Half, Odd;
  }

  lemma DigitNine()
    ensures Step(0x9F78_7F65, 57) == 0x1CF9_6D7C
  {
    hide Lift, Step;
    LiftNine();
    StepIs(0x9F78_7F65, 57, 0x39, 0x9F78_7F5C, 0x1CF9_6D7C);
  }

  lemma FoldSnoc(c: bv32, s: Bytes, b: Byte)
    ensures Fold(c, s + [b]) == Step(Fold(c, s), b)
  {
    hide Step;
    assert (s + [b])[..|s|] == s;
  }

  /** The published check value: the checksum of the nine digits "123456789". */
  lemma CheckValue()
    ensures Checksum([49, 50, 51, 52, 53, 54, 55, 56, 57]) == 0xE306_9283
  {
    DigitOne();
    DigitTwo();
    DigitThree();
    DigitFour();
    DigitFive();
    DigitSix();
    DigitSeven();
    DigitEight();
    DigitNine();
    hide Step, Fold;
    var c: bv32 := 0xFFFF_FFFF;
    assert Fold(c, []) == c by { FoldNothing(c); }
    FoldSnoc(c, [], 49);
    assert [] + [49] == [49];
    FoldSnoc(c, [49], 50);
    assert [49] + [50] == [49, 50];
    FoldSnoc(c, [49, 50], 51);
    assert [49, 50] + [51] == [49, 50, 51];
    FoldSnoc(c, [49, 50, 51], 52);
    assert [49, 50, 51] + [52] == [49, 50, 51, 52];
    FoldSnoc(c, [49, 50, 51, 52], 53);
    assert [49, 50, 51, 52] + [53] == [49, 50, 51, 52, 53];
    FoldSnoc(c, [49, 50, 51, 52, 53], 54);
    assert [49, 50, 51, 52, 53] + [54] == [49, 50, 51, 52, 53, 54];
    FoldSnoc(c, [49, 50, 51, 52, 53, 54], 55);
    assert [49, 50, 51, 52, 53, 54] + [55] == [49, 50, 51, 52, 53, 54, 55];
    FoldSnoc(c, [49, 50, 51, 52, 53, 54, 55], 56);
    assert [49, 50, 51, 52, 53, 54, 55] + [56] == [49, 50, 51, 52, 53, 54, 55, 56];
    FoldSnoc(c, [49, 50, 51, 52, 53, 54, 55, 56], 57);
    assert [49, 50, 51, 52, 53, 54, 55, 56] + [57] == [49, 50, 51, 52, 53, 54, 55, 56, 57];
    assert Not(0) == c && Not(0x1CF9_6D7C) == 0xE306_9283;
  }

  lemma FoldNothing(c: bv32)
    ensures Fold(c, []) == c
  {
  }

  /** The footer has the most significant byte first. */
  lemma FooterOrder()
    ensures PutCrc(0x0102_0304) == [1, 2, 3, 4]
  {
  }
}
