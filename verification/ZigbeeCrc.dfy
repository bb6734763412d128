/** The IEEE 802.15.4 frame check sequence (section 7.2.1.9 of IEEE 802.15.4-2006) in the three forms of
  examples/zigbee/debug_crc.py, and as the MAC block of examples/zigbee/src/mac.rs uses it. */
module ZigbeeCrc {
  import opened Wrappers
  import opened Gf2
  import opened Crc16

  /** What every form computes: the register after the bits in transmission order, lowest of a byte first. */
  ghost predicate IsFcs(crc: bv16, data: seq<bv8>) {
    Reversed16(crc) == Register(LsbFirst(data), CCITT)
  }

  lemma FcsUnique(c: bv16, d: bv16, data: seq<bv8>)
    requires IsFcs(c, data) && IsFcs(d, data)
    ensures c == d
  {
    Reversed16Injective(c, d);
  }

  lemma LsbFirstSnoc(data: seq<bv8>, i: nat)
    requires i < |data|
    ensures LsbFirst(data[..i + 1]) == LsbFirst(data[..i]) + Reversed8(data[i])
  {
    assert data[..i + 1][..i] == data[..i];
  }

  lemma MsbFirstSnoc(data: seq<bv8>, i: nat)
    requires i < |data|
    ensures MsbFirst(data[..i + 1]) == MsbFirst(data[..i]) + Bits8(data[i])
  {
    assert data[..i + 1][..i] == data[..i];
  }

  lemma ZeroWords()
    ensures Reversed16(0) == Zeros(16) && Bits16(0) == Zeros(16)
  {
  }

  /** The shift and the feedback at the end of the inner loops. */
  function RustStyleClock(crc: bv16, bit: bv16): bv16 {
    if bit != 0 then (crc >> 1) ^ ((1 << 15) | (1 << 10) | (1 << 3)) else crc >> 1
  }

  function MsbFirstClock(crc: bv16, bit: bv16): bv16 {
    if bit != 0 then (crc << 1) ^ 0x1021 else crc << 1
  }

  /** The bit loop of the bit-serial form. */
  method RustStyleByte(crc0: bv16, b: bv8) returns (crc: bv16)
    ensures |CCITT| == 17
    ensures Reversed16(crc) == RunFrom(Reversed16(crc0), Reversed8(b), CCITT)
  {
    CcittShape();
    crc := crc0;
    assert Reversed8(b)[..0] == [];
    for k := 0 to 8
      invariant Reversed16(crc) == RunFrom(Reversed16(crc0), Reversed8(b)[..k], CCITT)
    {
      RustStyleBit(crc0, crc, b, k);
      var bit := (((b >> k) & 1) as bv16) ^ (crc & 1);
      crc := RustStyleClock(crc, bit);
    }
    assert Reversed8(b)[..8] == Reversed8(b);
  }

  /** `calc_crc_rust_style` (`calc_crc` of the MAC): one bit of a byte at a time, lowest first. */
  method CalcCrcRustStyle(data: seq<bv8>) returns (crc: bv16)
    ensures IsFcs(crc, data)
  {
    CcittShape();
    ZeroWords();
    crc := 0;
    for i := 0 to |data|
      invariant IsFcs(crc, data[..i])
    {
      crc := RustStyleByte(crc, data[i]);
      LsbFirstSnoc(data, i);
      RunConcat(Zeros(16), LsbFirst(data[..i]), Reversed8(data[i]), CCITT);
    }
    assert data[..|data|] == data;
  }

  lemma RustStyleBit(crc0: bv16, crc: bv16, b: bv8, k: nat)
    requires k < 8 && |CCITT| == 17
    requires Reversed16(crc) == RunFrom(Reversed16(crc0), Reversed8(b)[..k], CCITT)
    ensures var bit := (((b >> k) & 1) as bv16) ^ (crc & 1);
            Reversed16(RustStyleClock(crc, bit))
            == RunFrom(Reversed16(crc0), Reversed8(b)[..k + 1], CCITT)
  {
    var bit := Reversed8(b)[k];
    ByteShift(b, k);
    WordEnds(crc);
    FeedbackTest((b >> k) & 1, crc);
    ShiftDown(crc, bit);
    RegisterSnoc(Reversed16(crc0), Reversed8(b)[..k], bit, CCITT);
    assert Reversed8(b)[..k + 1] == Reversed8(b)[..k] + [bit];
  }

  lemma FeedbackTest(b: bv8, crc: bv16)
    requires b == 0 || b == 1
    ensures ((b as bv16) ^ (crc & 1) != 0) == ((crc & 1 != 0) != (b != 0))
    ensures (1 as bv16 << 15) | (1 << 10) | (1 << 3) == 0x8408
  {
  }

  /** One turn of the standard form's inner loop. */
  function StandardClock(crc: bv16): bv16 {
    if crc & 1 != 0 then (crc >> 1) ^ 0x8408 else crc >> 1
  }

  /** The byte loop of the standard form: the byte is xored in whole, then clocked out eight times. The
    word is always the bit-serial register xored with the bits still to come. */
  method StandardByte(crc0: bv16, byte: bv8) returns (crc: bv16)
    ensures |CCITT| == 17
    ensures Reversed16(crc) == RunFrom(Reversed16(crc0), Reversed8(byte), CCITT)
  {
    CcittShape();
    ghost var reg, bits := Reversed16(crc0), Reversed8(byte);
    crc := crc0 ^ (byte as bv16);
    XorWord(crc0, byte as bv16);
    ByteTopBits(byte);
    assert bits[..0] == [] && bits[0..] == bits;
    for k := 0 to 8
      invariant Reversed16(crc) == Xor(RunFrom(reg, bits[..k], CCITT), bits[k..] + Zeros(8 + k))
    {
      StandardClockBits(crc);
      PendingStep(reg, bits, k, CCITT);
      crc := StandardClock(crc);
    }
    assert bits[..8] == bits;
    XorNothing(RunFrom(reg, bits, CCITT), bits[8..] + Zeros(16));
  }

  lemma StandardClockBits(crc: bv16)
    ensures |CCITT| == 17
    ensures Reversed16(StandardClock(crc)) == Clock(Reversed16(crc), false, CCITT)
  {
    CcittShape();
    WordEnds(crc);
    ShiftDown(crc, false);
  }

  lemma PendingStep(reg: Bits, bits: Bits, k: nat, g: Bits)
    requires |g| == 17 && |reg| == 16 && |bits| == 8 && k < 8
    ensures Clock(Xor(RunFrom(reg, bits[..k], g), bits[k..] + Zeros(8 + k)), false, g) ==
            Xor(RunFrom(reg, bits[..k + 1], g), bits[k + 1..] + Zeros(8 + (k + 1)))
  {
    var r, p := RunFrom(reg, bits[..k], g), bits[k..] + Zeros(8 + k);
    ClockXor(r, p, g);
    RegisterSnoc(reg, bits[..k], bits[k], g);
    assert bits[..k + 1] == bits[..k] + [bits[k]];
    assert p[1..] + [false] == bits[k + 1..] + Zeros(8 + (k + 1));
  }

  /** Clocking the xor of register and message bits is clocking the register with the next of those bits. */
  lemma ClockXor(r: Bits, p: Bits, g: Bits)
    requires |r| == |p| && |g| == |r| + 1 && r != []
    ensures Clock(Xor(r, p), false, g) == Xor(Clock(r, p[0], g), p[1..] + [false])
  {
  }

  lemma XorNothing(r: Bits, z: Bits)
    requires |r| == |z| && true !in z
    ensures Xor(r, z) == r
  {
  }

  lemma ByteTopBits(byte: bv8)
    ensures Reversed16(byte as bv16) == Reversed8(byte) + Zeros(8)
  {
    var y := byte as bv16;
    forall j | 8 <= j < 16 ensures !WordBit(y, j) {
      ByteTop(byte, j);
    }
  }

  /** `calc_crc_standard`. */
  method CalcCrcStandard(data: seq<bv8>) returns (crc: bv16)
    ensures IsFcs(crc, data)
  {
    CcittShape();
    ZeroWords();
    crc := 0x0000;
    for i := 0 to |data|
      invariant IsFcs(crc, data[..i])
    {
      crc := StandardByte(crc, data[i]);
      LsbFirstSnoc(data, i);
      RunConcat(Zeros(16), LsbFirst(data[..i]), Reversed8(data[i]), CCITT);
    }
    assert data[..|data|] == data;
  }

  /** `calc_crc_standard_init_ffff`: the same register started from all ones. */
  method CalcCrcStandardInitFfff(data: seq<bv8>) returns (crc: bv16)
    ensures |CCITT| == 17
    ensures Reversed16(crc) == RunFrom(Reversed16(0xFFFF), LsbFirst(data), CCITT)
  {
    CcittShape();
    crc := 0xFFFF;
    for i := 0 to |data|
      invariant Reversed16(crc) == RunFrom(Reversed16(0xFFFF), LsbFirst(data[..i]), CCITT)
    {
      crc := StandardByte(crc, data[i]);
      LsbFirstSnoc(data, i);
      RunConcat(Reversed16(0xFFFF), LsbFirst(data[..i]), Reversed8(data[i]), CCITT);
    }
    assert data[..|data|] == data;
  }

  /** The bit loop of the highest-first form. */
  method MsbFirstByte(crc0: bv16, byte: bv8) returns (crc: bv16)
    ensures |CCITT| == 17
    ensures Bits16(crc) == RunFrom(Bits16(crc0), Bits8(byte), CCITT)
  {
    CcittShape();
    crc := crc0;
    assert Bits8(byte)[..0] == [];
    for k := 8 downto 0
      invariant Bits16(crc) == RunFrom(Bits16(crc0), Bits8(byte)[..8 - k], CCITT)
    {
      MsbFirstBit(crc0, crc, byte, k);
      var bit := (((byte >> k) & 1) as bv16) ^ ((crc >> 15) & 1);
      crc := MsbFirstClock(crc, bit);
    }
    assert Bits8(byte)[..8] == Bits8(byte);
  }

  /** `calc_crc_msb_first`: the register on the bits with the highest of each byte first. */
  method CalcCrcMsbFirst(data: seq<bv8>) returns (crc: bv16)
    ensures Bits16(crc) == Register(MsbFirst(data), CCITT)
  {
    CcittShape();
    ZeroWords();
    crc := 0x0000;
    for i := 0 to |data|
      invariant Bits16(crc) == Register(MsbFirst(data[..i]), CCITT)
    {
      crc := MsbFirstByte(crc, data[i]);
      MsbFirstSnoc(data, i);
      RunConcat(Zeros(16), MsbFirst(data[..i]), Bits8(data[i]), CCITT);
    }
    assert data[..|data|] == data;
  }

  lemma MsbFirstBit(crc0: bv16, crc: bv16, byte: bv8, k: nat)
    requires k < 8 && |CCITT| == 17
    requires Bits16(crc) == RunFrom(Bits16(crc0), Bits8(byte)[..7 - k], CCITT)
    ensures var bit := (((byte >> k) & 1) as bv16) ^ ((crc >> 15) & 1);
            Bits16(MsbFirstClock(crc, bit))
            == RunFrom(Bits16(crc0), Bits8(byte)[..8 - k], CCITT)
  {
    var bit := Bits8(byte)[7 - k];
    ByteShift(byte, k);
    WordEnds(crc);
    TopFeedbackTest((byte >> k) & 1, crc);
    ShiftUp(crc, bit);
    RegisterSnoc(Bits16(crc0), Bits8(byte)[..7 - k], bit, CCITT);
    assert Bits8(byte)[..8 - k] == Bits8(byte)[..7 - k] + [bit];
  }

  lemma TopFeedbackTest(b: bv8, crc: bv16)
    requires b == 0 || b == 1
    ensures ((b as bv16) ^ ((crc >> 15) & 1) != 0) == (((crc >> 15) & 1 != 0) != (b != 0))
  {
  }

  // ---- the reflections between the forms

  /** The body of both reversal loops: bit `i` of `val` goes to bit `at` of the result. */
  method CopyBit(val: bv16, i: nat, before: bv16, at: nat) returns (result: bv16)
    requires i < 16 && at < 16
    ensures forall j :: 0 <= j < 16 ==> (WordBit(result, j) <==> WordBit(before, j) || (j == at && WordBit(val, i)))
  {
    var test: bv16 := 1 << i;
    TestBit(val, i, test);
    if val & test != 0 {
      var flag: bv16 := 1 << at;
      result := before | flag;
      SetOneBit(before, at, result);
    } else {
      result := before;
    }
  }

  lemma TestBit(val: bv16, i: nat, test: bv16)
    requires i < 16 && test == (1 as bv16) << i
    ensures val & test != 0 <==> WordBit(val, i)
  {
    OneShifted(i);
  }

  lemma SetOneBit(before: bv16, at: nat, result: bv16)
    requires at < 16 && result == before | ((1 as bv16) << at)
    ensures forall j :: 0 <= j < 16 ==> (WordBit(result, j) <==> WordBit(before, j) || j == at)
  {
    OneShifted(at);
    SetMask(before, at, result);
  }

  lemma SetMask(before: bv16, at: nat, result: bv16)
    requires at < 16 && result == before | Mask(at)
    ensures forall j :: 0 <= j < 16 ==> (WordBit(result, j) <==> WordBit(before, j) || j == at)
  {
    forall j | 0 <= j < 16 ensures WordBit(result, j) <==> WordBit(before, j) || j == at {
      SetBit(before, at, j);
    }
  }

  /** `reverse_bits_16`. */
  method ReverseBits16(val: bv16) returns (result: bv16)
    ensures Reversed16(result) == Bits16(val)
  {
    ZeroWords();
    result := 0;
    assert forall j :: 0 <= j < 16 ==> WordBit(result, j) == Reversed16(0)[j];
    for i := 0 to 16
      invariant forall j :: 0 <= j < 16 ==> (WordBit(result, j) <==> 16 - i <= j && WordBit(val, 15 - j))
    {
      result := CopyBit(val, i, result, 15 - i);
    }
  }

  /** `reverse_bits_8`. */
  method ReverseBits8(val: bv8) returns (result: bv8)
    ensures Bits8(result) == Reversed8(val)
  {
    ZeroWords();
    var r: bv16 := 0;
    var v := val as bv16;
    assert forall j :: 0 <= j < 16 ==> WordBit(r, j) == Reversed16(0)[j];
    for i := 0 to 8
      invariant forall j :: 0 <= j < 16 ==> (WordBit(r, j) <==> 8 - i <= j < 8 && WordBit(v, 7 - j))
    {
      r := CopyBit(v, i, r, 7 - i);
    }
    result := Low(r);
    ghost var low := result as bv16;
    forall j | 0 <= j < 8 ensures Bits8(result)[j] == Reversed8(val)[j] {
      HalfBits(r, 7 - j);
      assert WordBit(low, 7 - j) == WordBit(r, 7 - j);
    }
  }

  /** The same bytes with the bits of each reversed. */
  ghost predicate BytewiseReversed(data: seq<bv8>, rev: seq<bv8>) {
    |rev| == |data| && forall i :: 0 <= i < |data| ==> Bits8(rev[i]) == Reversed8(data[i])
  }

  lemma {:induction false} ReversedBytesReadHighestFirst(data: seq<bv8>, rev: seq<bv8>)
    requires BytewiseReversed(data, rev)
    ensures MsbFirst(rev) == LsbFirst(data)
  {
    if data != [] {
      var n := |data| - 1;
      ReversedBytesReadHighestFirst(data[..n], rev[..n]);
      assert Bits8(rev[n]) == Reversed8(data[n]);
    }
  }

  /** All three forms agree on every byte string, once bytes and result are reflected for the last. */
  method CompareForms(data: seq<bv8>) returns (rust: bv16, standard: bv16, reflected: bv16)
    ensures rust == standard == reflected
  {
    rust := CalcCrcRustStyle(data);
    standard := CalcCrcStandard(data);
    var rev: seq<bv8> := [];
    for i := 0 to |data|
      invariant BytewiseReversed(data[..i], rev)
    {
      var b := ReverseBits8(data[i]);
      rev := rev + [b];
    }
    assert data[..|data|] == data;
    var msb := CalcCrcMsbFirst(rev);
    reflected := ReverseBits16(msb);
    ReversedBytesReadHighestFirst(data, rev);
    FcsUnique(rust, standard, data);
    FcsUnique(rust, reflected, data);
  }

  // ---- checking received frames

  /** `check_crc_residue` (`check_crc` of the MAC). With fewer than two bytes only zeros pass. */
  method CheckCrcResidue(data: seq<bv8>) returns (ok: bool)
    ensures |data| >= 2 ==> (ok <==> Divides(CCITT, LsbFirst(data)))
    ensures |data| < 2 ==> (ok <==> LsbFirst(data) == Zeros(8 * |data|))
  {
    CcittShape();
    var crc := CalcCrcRustStyle(data);
    ok := crc == 0;
    ZeroIffZero(crc);
    var b := LsbFirst(data);
    if |data| >= 2 {
      ZeroRegisterIffDivides(b, CCITT);
    } else {
      Residue(Zeros(16), b, CCITT);
      ZeroPrefix(b);
    }
  }

  lemma ZeroIffZero(crc: bv16)
    ensures crc == 0 <==> Reversed16(crc) == Zeros(16)
  {
    ZeroWords();
    if Reversed16(crc) == Zeros(16) {
      Reversed16Injective(crc, 0);
    }
  }

  lemma ZeroPrefix(b: Bits)
    requires |b| <= 16
    ensures Zeros(16) == b + Zeros(16 - |b|) <==> b == Zeros(|b|)
  {
    var s := b + Zeros(16 - |b|);
    if Zeros(16) == s {
      forall i | 0 <= i < |b| ensures !b[i] {
        assert s[i] == b[i];
      }
    }
    if b == Zeros(|b|) {
      assert Zeros(16) == s;
    }
  }

  /** Two check bytes make the residue vanish exactly when they are the payload's sequence, low byte first. */
  lemma ResidueIffMatch(payload: seq<bv8>, crc: bv16, low: bv8, high: bv8)
    requires IsFcs(crc, payload)
    ensures Register(LsbFirst(payload + [low, high]), CCITT) == Zeros(16)
            <==> low == Low(crc) && high == High(crc)
  {
    CcittShape();
    var data := payload + [low, high];
    assert data[..|payload| + 1] == payload + [low] && (payload + [low])[..|payload|] == payload;
    assert LsbFirst(data) == LsbFirst(payload) + (Reversed8(low) + Reversed8(high));
    AppendingTheCheck(LsbFirst(payload), Reversed8(low) + Reversed8(high), CCITT);
    BytesOfWord(crc, low, high);
  }

  lemma BytesOfWord(crc: bv16, low: bv8, high: bv8)
    ensures Reversed8(low) + Reversed8(high) == Reversed16(crc) <==> low == Low(crc) && high == High(crc)
  {
    var p, q := Reversed8(low) + Reversed8(high), Reversed8(Low(crc)) + Reversed8(High(crc));
    WordAsBytes(crc);
    if p == q {
      ByteOfBits(low, Low(crc), p, q, 0);
      ByteOfBits(high, High(crc), p, q, 8);
    }
  }

  lemma ByteOfBits(a: bv8, b: bv8, p: Bits, q: Bits, at: nat)
    requires at + 8 <= |p| && p == q && p[at..at + 8] == Reversed8(a) && q[at..at + 8] == Reversed8(b)
    ensures a == b
  {
    var x, y := a as bv16, b as bv16;
    forall j | 0 <= j < 16 ensures WordBit(x, j) == WordBit(y, j) {
      if j < 8 {
        assert Reversed8(a)[j] == Reversed8(b)[j];
      } else {
        ByteTop(a, j);
        ByteTop(b, j);
      }
    }
    SameBits(x, y);
    assert x == y;
  }

  datatype PacketCrc = PacketCrc(payloadLen: nat, receivedLe: bv16, receivedBe: bv16,
                                 rustResidue: bv16, rustPayload: bv16, standardPayload: bv16,
                                 standardFfffPayload: bv16, msbFirstPayload: bv16,
                                 matchRustLe: bool, matchRustBe: bool, matchStandardLe: bool,
                                 matchStandardBe: bool, residueZero: bool)

  /** `analyze_packet_crc`: whatever the packet, the residue test and the two little-endian comparisons
    give one verdict, and a match in the other byte order agrees only for a check of two equal bytes. */
  method AnalyzePacketCrc(data: seq<bv8>) returns (results: Option<PacketCrc>)
    ensures results.None? <==> |data| < 3
    ensures results.Some? ==>
              var r := results.value;
              && r.payloadLen + 2 == |data|
              && IsFcs(r.rustPayload, data[..|data| - 2]) && r.standardPayload == r.rustPayload
              && |CCITT| == 17
              && Reversed16(r.standardFfffPayload) == RunFrom(Reversed16(0xFFFF), LsbFirst(data[..|data| - 2]), CCITT)
              && Bits16(r.msbFirstPayload) == Register(MsbFirst(data[..|data| - 2]), CCITT)
              && (r.residueZero <==> Divides(CCITT, LsbFirst(data)))
              && r.residueZero == r.matchRustLe == r.matchStandardLe
              && r.matchRustBe == r.matchStandardBe
              && (r.matchRustLe && r.matchRustBe ==> data[|data| - 2] == data[|data| - 1])
  {
    if |data| < 3 {
      return None;
    }
    var n := |data| - 2;
    var payload := data[..n];
    var receivedLe := Word(data[n + 1], data[n]);
    var receivedBe := Word(data[n], data[n + 1]);
    var residue := CalcCrcRustStyle(data);
    var rust := CalcCrcRustStyle(payload);
    var standard := CalcCrcStandard(payload);
    var standardFfff := CalcCrcStandardInitFfff(payload);
    var msbFirst := CalcCrcMsbFirst(payload);
    results := Some(PacketCrc(n, receivedLe, receivedBe, residue, rust, standard, standardFfff, msbFirst,
                              rust == receivedLe, rust == receivedBe,
                              standard == receivedLe, standard == receivedBe, residue == 0));
    FcsUnique(rust, standard, payload);
    assert data == payload + [data[n], data[n + 1]];
    CcittShape();
    ZeroIffZero(residue);
    ResidueIffMatch(payload, rust, data[n], data[n + 1]);
    ZeroRegisterIffDivides(LsbFirst(data), CCITT);
    WordIs(rust, data[n + 1], data[n]);
    WordIs(rust, data[n], data[n + 1]);
  }

  /** The sequence the MAC appends to a frame: the bytes of `crc.to_le_bytes()`. */
  method AppendFcs(body: seq<bv8>) returns (frame: seq<bv8>)
    ensures |frame| == |body| + 2 && frame[..|body|] == body
    ensures Divides(CCITT, LsbFirst(frame))
    ensures forall low, high :: Divides(CCITT, LsbFirst(body + [low, high])) ==> frame == body + [low, high]
  {
    var crc := CalcCrcRustStyle(body);
    frame := body + [Low(crc), High(crc)];
    CcittShape();
    ResidueIffMatch(body, crc, Low(crc), High(crc));
    ZeroRegisterIffDivides(LsbFirst(frame), CCITT);
    forall low, high | Divides(CCITT, LsbFirst(body + [low, high]))
      ensures frame == body + [low, high]
    {
      ResidueIffMatch(body, crc, low, high);
      ZeroRegisterIffDivides(LsbFirst(body + [low, high]), CCITT);
    }
  }

  /** A frame that passes fails after any error burst of at most 16 bits in transmission order, and after any
    odd number of bit errors. */
  lemma FrameErrorsAreCaught(frame: seq<bv8>, received: seq<bv8>, error: Bits)
    requires |frame| == |received| >= 2 && |error| == 8 * |frame|
    requires Divides(CCITT, LsbFirst(frame)) && LsbFirst(received) == Xor(LsbFirst(frame), error)
    requires IsBurst(error, 16) || Parity(error)
    ensures !Divides(CCITT, LsbFirst(received))
  {
    CcittShape();
    BurstsAndOddErrorsFail(CCITT, LsbFirst(frame), error);
  }
}
