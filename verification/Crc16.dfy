/** Sixteen-bit registers as bit strings, and the generator x^16 + x^12 + x^5 + 1 shared by the 802.15.4
  and LoRa frame checks. */
module Crc16 {
  import opened Gf2

  const CCITT: Bits :=
    [true, false, false, false, true, false, false, false, false,
     false, false, true, false, false, false, false, true]

  lemma CcittShape()
    ensures |CCITT| == 17 && CCITT[0] && CCITT[16] && !Parity(CCITT)
  {
    var t, f := true, false;
    var e := [t, f, f, f];
    assert CCITT == e + [t, f, f, f] + [f, f, f, t] + [f, f, f, f] + [t];
    ParityConcat(e + [t, f, f, f] + [f, f, f, t] + [f, f, f, f], [t]);
    ParityConcat(e + [t, f, f, f] + [f, f, f, t], [f, f, f, f]);
    ParityConcat(e + [t, f, f, f], [f, f, f, t]);
    ParityConcat(e, [t, f, f, f]);
    ParityOfFour(t, f, f, f);
    ParityOfFour(f, f, f, t);
    ParityOfFour(f, f, f, f);
    assert [t][..0] == [];
  }

  /** The word with only bit `i` set. */
  function Mask(i: nat): bv16
    requires i < 16
  {
    if i == 0 then 0x0001 else Mask(i - 1) << 1
  }

  predicate Hit(c: bv16, m: bv16) {
    c & m != 0
  }

  /** Bit `i` of a word, bit 0 the lowest. */
  function WordBit(c: bv16, i: nat): bool
    requires i < 16
  {
    Hit(c, Mask(i))
  }

  /** The bits of a word, highest first. */
  function Bits16(c: bv16): (p: Bits)
    ensures |p| == 16
  {
    seq(16, i requires 0 <= i < 16 => WordBit(c, 15 - i))
  }

  /** The bits of a word, lowest first. */
  function Reversed16(c: bv16): (p: Bits)
    ensures |p| == 16
  {
    seq(16, i requires 0 <= i < 16 => WordBit(c, i))
  }

  /** The bits of a byte, highest first and lowest first. */
  function Bits8(b: bv8): (p: Bits)
    ensures |p| == 8
  {
    Bits16(b as bv16)[8..]
  }

  function Reversed8(b: bv8): (p: Bits)
    ensures |p| == 8
  {
    Reversed16(b as bv16)[..8]
  }

  lemma MaskValues()
    ensures Mask(0) == 0x0001 && Mask(1) == 0x0002 && Mask(2) == 0x0004 && Mask(3) == 0x0008
    ensures Mask(4) == 0x0010 && Mask(5) == 0x0020 && Mask(6) == 0x0040 && Mask(7) == 0x0080
    ensures Mask(8) == 0x0100 && Mask(9) == 0x0200 && Mask(10) == 0x0400 && Mask(11) == 0x0800
    ensures Mask(12) == 0x1000 && Mask(13) == 0x2000 && Mask(14) == 0x4000 && Mask(15) == 0x8000
  {
    assert Mask(0) == 0x0001 && Mask(1) == 0x0002 && Mask(2) == 0x0004 && Mask(3) == 0x0008;
    assert Mask(4) == 0x0010 && Mask(5) == 0x0020 && Mask(6) == 0x0040 && Mask(7) == 0x0080;
    assert Mask(8) == 0x0100 && Mask(9) == 0x0200 && Mask(10) == 0x0400 && Mask(11) == 0x0800;
    assert Mask(12) == 0x1000 && Mask(13) == 0x2000 && Mask(14) == 0x4000 && Mask(15) == 0x8000;
  }

  lemma SameHits(c: bv16, d: bv16)
    requires Hit(c, 0x0001) == Hit(d, 0x0001) && Hit(c, 0x0002) == Hit(d, 0x0002)
    requires Hit(c, 0x0004) == Hit(d, 0x0004) && Hit(c, 0x0008) == Hit(d, 0x0008)
    requires Hit(c, 0x0010) == Hit(d, 0x0010) && Hit(c, 0x0020) == Hit(d, 0x0020)
    requires Hit(c, 0x0040) == Hit(d, 0x0040) && Hit(c, 0x0080) == Hit(d, 0x0080)
    requires Hit(c, 0x0100) == Hit(d, 0x0100) && Hit(c, 0x0200) == Hit(d, 0x0200)
    requires Hit(c, 0x0400) == Hit(d, 0x0400) && Hit(c, 0x0800) == Hit(d, 0x0800)
    requires Hit(c, 0x1000) == Hit(d, 0x1000) && Hit(c, 0x2000) == Hit(d, 0x2000)
    requires Hit(c, 0x4000) == Hit(d, 0x4000) && Hit(c, 0x8000) == Hit(d, 0x8000)
    ensures c == d
  {
  }

  lemma SameHit(c: bv16, d: bv16, i: nat, m: bv16)
    requires i < 16 && Mask(i) == m && WordBit(c, i) == WordBit(d, i)
    ensures Hit(c, m) == Hit(d, m)
  {
  }

  lemma SameBits(c: bv16, d: bv16)
    requires forall i :: 0 <= i < 16 ==> WordBit(c, i) == WordBit(d, i)
    ensures c == d
  {
    MaskValues();
    SameHit(c, d, 0, 0x0001); SameHit(c, d, 1, 0x0002); SameHit(c, d, 2, 0x0004); SameHit(c, d, 3, 0x0008);
    SameHit(c, d, 4, 0x0010); SameHit(c, d, 5, 0x0020); SameHit(c, d, 6, 0x0040); SameHit(c, d, 7, 0x0080);
    SameHit(c, d, 8, 0x0100); SameHit(c, d, 9, 0x0200); SameHit(c, d, 10, 0x0400); SameHit(c, d, 11, 0x0800);
    SameHit(c, d, 12, 0x1000); SameHit(c, d, 13, 0x2000); SameHit(c, d, 14, 0x4000); SameHit(c, d, 15, 0x8000);
    SameHits(c, d);
  }

  lemma Bits16Injective(c: bv16, d: bv16)
    requires Bits16(c) == Bits16(d)
    ensures c == d
  {
    forall i | 0 <= i < 16 ensures WordBit(c, i) == WordBit(d, i) {
      assert Bits16(c)[15 - i] == Bits16(d)[15 - i];
    }
    SameBits(c, d);
  }

  lemma Reversed16Injective(c: bv16, d: bv16)
    requires Reversed16(c) == Reversed16(d)
    ensures c == d
  {
    forall i | 0 <= i < 16 ensures WordBit(c, i) == WordBit(d, i) {
      assert Reversed16(c)[i] == Reversed16(d)[i];
    }
    SameBits(c, d);
  }

  ghost predicate SingleMask(m: bv16) {
    m != 0 && m & (m - 1) == 0
  }

  lemma DoubleMask(m: bv16)
    requires SingleMask(m) && m & 0x8000 == 0
    ensures SingleMask(m << 1)
  {
  }

  lemma {:induction false} MaskIsSingle(i: nat)
    requires i < 16
    ensures SingleMask(Mask(i)) && (i < 15 ==> Mask(i) & 0x8000 == 0)
  {
    MaskValues();
    if i > 0 {
      MaskIsSingle(i - 1);
      DoubleMask(Mask(i - 1));
    }
    assert i < 15 ==> Mask(i) & 0x8000 == 0 by { MaskTop(i); }
  }

  lemma MaskTop(i: nat)
    requires i < 16
    ensures i < 15 ==> Mask(i) & 0x8000 == 0
  {
    MaskValues();
  }

  lemma MaskNext(i: nat)
    requires i < 15
    ensures Mask(i + 1) == Mask(i) << 1
  {
  }

  lemma XorMask(x: bv16, y: bv16, m: bv16)
    requires SingleMask(m)
    ensures Hit(x ^ y, m) == (Hit(x, m) != Hit(y, m))
  {
  }

  lemma XorBit(x: bv16, y: bv16, i: nat)
    requires i < 16
    ensures WordBit(x ^ y, i) == (WordBit(x, i) != WordBit(y, i))
  {
    MaskIsSingle(i);
    XorBitAt(x, y, x ^ y, i, Mask(i)) by { XorMask(x, y, Mask(i)); }
  }

  lemma XorBitAt(x: bv16, y: bv16, z: bv16, i: nat, m: bv16)
    requires i < 16 && m == Mask(i) && Hit(z, m) == (Hit(x, m) != Hit(y, m))
    ensures WordBit(z, i) == (WordBit(x, i) != WordBit(y, i))
  {
  }

  lemma XorWord(x: bv16, y: bv16)
    ensures Bits16(x ^ y) == Xor(Bits16(x), Bits16(y))
    ensures Reversed16(x ^ y) == Xor(Reversed16(x), Reversed16(y))
  {
    forall i | 0 <= i < 16 ensures WordBit(x ^ y, i) == (WordBit(x, i) != WordBit(y, i)) {
      XorBit(x, y, i);
    }
  }

  lemma ShiftMask(x: bv16, m: bv16, m2: bv16)
    requires m2 == m << 1 && m & 0x8000 == 0
    ensures Hit(x << 1, m2) == Hit(x, m)
    ensures Hit(x >> 1, m) == Hit(x, m2)
  {
  }

  lemma ShiftBitAt(x: bv16, i: nat, m: bv16, m2: bv16)
    requires i < 15 && m == Mask(i) && m2 == Mask(i + 1) && m2 == m << 1 && m & 0x8000 == 0
    ensures WordBit(x << 1, i + 1) == WordBit(x, i)
    ensures WordBit(x >> 1, i) == WordBit(x, i + 1)
  {
    ShiftMask(x, m, m2);
  }

  lemma ShiftBit(x: bv16, i: nat)
    requires i < 15
    ensures WordBit(x << 1, i + 1) == WordBit(x, i)
    ensures WordBit(x >> 1, i) == WordBit(x, i + 1)
  {
    MaskTop(i);
    MaskNext(i);
    ShiftBitAt(x, i, Mask(i), Mask(i + 1));
  }

  lemma ShiftEnds(x: bv16)
    ensures !WordBit(x << 1, 0) && !WordBit(x >> 1, 15)
  {
    MaskValues();
  }

  lemma ShiftUpWord(x: bv16)
    ensures Bits16(x << 1) == Bits16(x)[1..] + [false]
  {
    ShiftEnds(x);
    forall k | 0 <= k < 16 ensures Bits16(x << 1)[k] == (Bits16(x)[1..] + [false])[k] {
      if k < 15 {
        ShiftBit(x, 14 - k);
      }
    }
  }

  lemma ShiftDownWord(x: bv16)
    ensures Reversed16(x >> 1) == Reversed16(x)[1..] + [false]
  {
    ShiftEnds(x);
    forall k | 0 <= k < 16 ensures Reversed16(x >> 1)[k] == (Reversed16(x)[1..] + [false])[k] {
      if k < 15 {
        ShiftBit(x, k);
      }
    }
  }

  lemma FeedbackWords()
    ensures Bits16(0x1021) == CCITT[1..]
    ensures Reversed16(0x8408) == CCITT[1..]
  {
    MaskValues();
    forall i | 0 <= i < 16
      ensures Bits16(0x1021)[i] == CCITT[1..][i]
      ensures Reversed16(0x8408)[i] == CCITT[1..][i]
    {
      FeedbackBit(i);
    }
  }

  lemma FeedbackBit(i: nat)
    requires i < 16
    ensures WordBit(0x1021, 15 - i) == (i == 3 || i == 10 || i == 15) == CCITT[i + 1]
    ensures WordBit(0x8408, i) == (i == 3 || i == 10 || i == 15)
  {
    MaskValues();
  }

  /** Shifting the word up and feeding 0x1021 back is one clock of the register. */
  lemma ShiftUp(c: bv16, bit: bool)
    ensures Bits16(if WordBit(c, 15) != bit then (c << 1) ^ 0x1021 else c << 1) ==
            Clock(Bits16(c), bit, CCITT)
  {
    ShiftUpWord(c);
    FeedbackWords();
    XorWord(c << 1, 0x1021);
  }

  /** Shifting the word down and feeding 0x8408 back is one clock of the reflected register. */
  lemma ShiftDown(c: bv16, bit: bool)
    ensures Reversed16(if WordBit(c, 0) != bit then (c >> 1) ^ 0x8408 else c >> 1) ==
            Clock(Reversed16(c), bit, CCITT)
  {
    ShiftDownWord(c);
    FeedbackWords();
    XorWord(c >> 1, 0x8408);
  }

  /** The bits of a byte string, each byte highest bit first. */
  function MsbFirst(data: seq<bv8>): (p: Bits)
    ensures |p| == 8 * |data|
  {
    if data == [] then [] else MsbFirst(data[..|data| - 1]) + Bits8(data[|data| - 1])
  }

  /** The bits of a byte string, each byte lowest bit first. */
  function LsbFirst(data: seq<bv8>): (p: Bits)
    ensures |p| == 8 * |data|
  {
    if data == [] then [] else LsbFirst(data[..|data| - 1]) + Reversed8(data[|data| - 1])
  }

  // ---- bytes as words

  lemma ByteShift(b: bv8, k: nat)
    requires k < 8
    ensures ((b >> k) & 1 != 0) == WordBit(b as bv16, k)
  {
    MaskValues();
    var w := b as bv16;
    if k == 0 { assert ((b >> 0) & 1 != 0) == Hit(w, 0x0001); }
    else if k == 1 { assert ((b >> 1) & 1 != 0) == Hit(w, 0x0002); }
    else if k == 2 { assert ((b >> 2) & 1 != 0) == Hit(w, 0x0004); }
    else if k == 3 { assert ((b >> 3) & 1 != 0) == Hit(w, 0x0008); }
    else if k == 4 { assert ((b >> 4) & 1 != 0) == Hit(w, 0x0010); }
    else if k == 5 { assert ((b >> 5) & 1 != 0) == Hit(w, 0x0020); }
    else if k == 6 { assert ((b >> 6) & 1 != 0) == Hit(w, 0x0040); }
    else { assert ((b >> 7) & 1 != 0) == Hit(w, 0x0080); }
  }

  lemma ByteTop(b: bv8, j: nat)
    requires 8 <= j < 16
    ensures !WordBit(b as bv16, j)
  {
    MaskValues();
    assert b as bv16 & 0xFF00 == 0;
  }

  lemma WordEnds(c: bv16)
    ensures WordBit(c, 0) == (c & 1 != 0)
    ensures WordBit(c, 15) == ((c >> 15) & 1 != 0) == (c & 0x8000 != 0)
  {
    MaskValues();
  }

  /** The low and the high byte of a word. */
  function Low(c: bv16): bv8 {
    (c & 0xFF) as bv8
  }

  function High(c: bv16): bv8 {
    (c >> 8) as bv8
  }

  function Word(high: bv8, low: bv8): bv16 {
    (low as bv16) | ((high as bv16) << 8)
  }

  lemma WordLow(high: bv8, low: bv8)
    ensures Low(Word(high, low)) == low
  {
  }

  lemma WordHigh(high: bv8, low: bv8)
    ensures High(Word(high, low)) == high
  {
  }

  lemma WordAgain(c: bv16)
    ensures Word(High(c), Low(c)) == c
  {
  }

  /** A word is its two bytes. */
  lemma WordIs(c: bv16, high: bv8, low: bv8)
    ensures c == Word(high, low) <==> high == High(c) && low == Low(c)
  {
    WordLow(high, low);
    WordHigh(high, low);
    WordAgain(c);
  }

  lemma HalfBits(c: bv16, j: nat)
    requires j < 8
    ensures WordBit(Low(c) as bv16, j) == WordBit(c, j)
    ensures WordBit(High(c) as bv16, j) == WordBit(c, 8 + j)
  {
    MaskValues();
    if j == 0 { assert Hit(High(c) as bv16, 0x0001) == Hit(c, 0x0100); }
    else if j == 1 { assert Hit(High(c) as bv16, 0x0002) == Hit(c, 0x0200); }
    else if j == 2 { assert Hit(High(c) as bv16, 0x0004) == Hit(c, 0x0400); }
    else if j == 3 { assert Hit(High(c) as bv16, 0x0008) == Hit(c, 0x0800); }
    else if j == 4 { assert Hit(High(c) as bv16, 0x0010) == Hit(c, 0x1000); }
    else if j == 5 { assert Hit(High(c) as bv16, 0x0020) == Hit(c, 0x2000); }
    else if j == 6 { assert Hit(High(c) as bv16, 0x0040) == Hit(c, 0x4000); }
    else { assert Hit(High(c) as bv16, 0x0080) == Hit(c, 0x8000); }
  }

  /** `lo` and `hi` hold the low and the high eight bits of the word `c`. */
  ghost predicate Halves(lo: bv16, hi: bv16, c: bv16) {
    && (forall j :: 0 <= j < 8 ==> WordBit(lo, j) == WordBit(c, j))
    && (forall j :: 0 <= j < 8 ==> WordBit(hi, j) == WordBit(c, 8 + j))
  }

  lemma HalvesOf(c: bv16)
    ensures Halves(Low(c) as bv16, High(c) as bv16, c)
  {
    var lo, hi := Low(c) as bv16, High(c) as bv16;
    forall j | 0 <= j < 8 ensures WordBit(lo, j) == WordBit(c, j) { HalfBits(c, j); }
    forall j | 0 <= j < 8 ensures WordBit(hi, j) == WordBit(c, 8 + j) { HalfBits(c, j); }
  }

  lemma HalvesLowestFirst(lo: bv16, hi: bv16, c: bv16)
    requires Halves(lo, hi, c)
    ensures Reversed16(lo)[..8] + Reversed16(hi)[..8] == Reversed16(c)
  {
  }

  lemma HalvesHighestFirst(lo: bv16, hi: bv16, c: bv16)
    requires Halves(lo, hi, c)
    ensures Bits16(hi)[8..] + Bits16(lo)[8..] == Bits16(c)
  {
  }

  /** A word sent as two bytes: low byte first with the lowest bits leading, or high byte first with the
    highest bits leading. */
  lemma WordAsBytes(c: bv16)
    ensures Reversed8(Low(c)) + Reversed8(High(c)) == Reversed16(c)
    ensures Bits8(High(c)) + Bits8(Low(c)) == Bits16(c)
  {
    HalvesOf(c);
    HalvesLowestFirst(Low(c) as bv16, High(c) as bv16, c);
    HalvesHighestFirst(Low(c) as bv16, High(c) as bv16, c);
  }

  lemma RegisterSnoc(reg: Bits, m: Bits, bit: bool, g: Bits)
    requires |g| == |reg| + 1 && reg != []
    ensures RunFrom(reg, m + [bit], g) == Clock(RunFrom(reg, m, g), bit, g)
  {
    assert (m + [bit])[..|m|] == m;
  }

  // ---- setting bits

  lemma DisjointMasks(a: nat, b: nat)
    requires a < b < 16
    ensures Mask(a) & Mask(b) == 0
  {
    if a == 0 {
      assert 1 & (Mask(b - 1) << 1) == 0;
    } else {
      DisjointMasks(a - 1, b - 1);
      ShiftedDisjoint(Mask(a - 1), Mask(b - 1));
    }
  }

  lemma ShiftedDisjoint(m: bv16, n: bv16)
    requires m & n == 0
    ensures (m << 1) & (n << 1) == 0
  {
  }

  lemma OrHit(x: bv16, y: bv16, m: bv16)
    ensures Hit(x | y, m) == (Hit(x, m) || Hit(y, m))
  {
    OrAnd(x, y, m);
    OrZero(x & m, y & m);
  }

  lemma OrAnd(x: bv16, y: bv16, m: bv16)
    ensures (x | y) & m == (x & m) | (y & m)
  {
  }

  lemma OrZero(p: bv16, q: bv16)
    ensures p | q == 0 <==> p == 0 && q == 0
  {
  }

  lemma MaskHit(a: nat, b: nat)
    requires a < 16 && b < 16
    ensures Hit(Mask(a), Mask(b)) <==> a == b
  {
    MaskIsSingle(a);
    if a < b {
      DisjointMasks(a, b);
    } else if b < a {
      DisjointMasks(b, a);
      assert Mask(a) & Mask(b) == Mask(b) & Mask(a);
    }
  }

  /** Or-ing in the mask of bit `a` sets that bit and no other. */
  lemma SetBit(x: bv16, a: nat, b: nat)
    requires a < 16 && b < 16
    ensures WordBit(x | Mask(a), b) == (WordBit(x, b) || a == b)
  {
    MaskHit(a, b);
    SetBitBy(x, Mask(a), b, a == b);
  }

  lemma SetBitBy(x: bv16, m: bv16, b: nat, set_: bool)
    requires b < 16 && Hit(m, Mask(b)) == set_
    ensures WordBit(x | m, b) == (WordBit(x, b) || set_)
  {
    OrHit(x, m, Mask(b));
  }

  lemma OneShifted(i: nat)
    requires i < 16
    ensures (1 as bv16) << i == Mask(i)
  {
    MaskValues();
    var o: bv16 := 1;
    if i < 4 { assert o << 0 == 1 && o << 1 == 2 && o << 2 == 4 && o << 3 == 8; }
    else if i < 8 { assert o << 4 == 0x10 && o << 5 == 0x20 && o << 6 == 0x40 && o << 7 == 0x80; }
    else if i < 12 { assert o << 8 == 0x100 && o << 9 == 0x200 && o << 10 == 0x400 && o << 11 == 0x800; }
    else { assert o << 12 == 0x1000 && o << 13 == 0x2000 && o << 14 == 0x4000 && o << 15 == 0x8000; }
  }
}
