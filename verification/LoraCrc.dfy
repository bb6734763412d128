/** The LoRa payload check: the CRC of examples/lora/src/decoder.rs, the check in its `decode`, and the
  whitening and CRC stages of examples/lora/src/encoder.rs that it undoes. */
module LoraCrc {
  import opened Wrappers
  import opened Gf2
  import opened Crc16

  // ---- the CRC

  lemma ByteUp(b: bv8, j: nat)
    requires j < 8
    ensures WordBit((b << 1) as bv16, j) == (j > 0 && WordBit(b as bv16, j - 1))
  {
    MaskValues();
    var w := b as bv16;
    var u := (b << 1) as bv16;
    if j == 0 { assert !Hit(u, 0x0001); }
    else if j == 1 { assert Hit(u, 0x0002) == Hit(w, 0x0001); }
    else if j == 2 { assert Hit(u, 0x0004) == Hit(w, 0x0002); }
    else if j == 3 { assert Hit(u, 0x0008) == Hit(w, 0x0004); }
    else if j == 4 { assert Hit(u, 0x0010) == Hit(w, 0x0008); }
    else if j == 5 { assert Hit(u, 0x0020) == Hit(w, 0x0010); }
    else if j == 6 { assert Hit(u, 0x0040) == Hit(w, 0x0020); }
    else { assert Hit(u, 0x0080) == Hit(w, 0x0040); }
  }

  lemma ByteUpBits(b: bv8)
    ensures Bits8(b << 1) == Bits8(b)[1..] + [false]
  {
    forall j | 0 <= j < 8 ensures Bits8(b << 1)[j] == (Bits8(b)[1..] + [false])[j] {
      ByteUp(b, 7 - j);
    }
  }

  lemma TopBits(crc: bv16, b: bv8)
    ensures (((crc & 0x8000) >> 8) as bv8 ^ (b & 0x80) != 0) == (WordBit(crc, 15) != Bits8(b)[0])
  {
    TopBitsOfWord(crc, b);
    WordEnds(crc);
    MaskValues();
    assert Bits8(b)[0] == Hit(b as bv16, 0x0080);
  }

  lemma TopBitsOfWord(crc: bv16, b: bv8)
    ensures (((crc & 0x8000) >> 8) as bv8 ^ (b & 0x80) != 0) == ((crc & 0x8000 != 0) != Hit(b as bv16, 0x0080))
  {
  }

  /** The shift and feedback of the inner loop. */
  function Feed(crc: bv16, newByte: bv8): bv16 {
    if ((crc & 0x8000) >> 8) as bv8 ^ (newByte & 0x80) != 0 then (crc << 1) ^ 0x1021 else crc << 1
  }

  lemma FeedIsClock(crc: bv16, newByte: bv8)
    ensures |CCITT| == 17
    ensures Bits16(Feed(crc, newByte)) == Clock(Bits16(crc), Bits8(newByte)[0], CCITT)
  {
    CcittShape();
    TopBits(crc, newByte);
    ShiftUp(crc, Bits8(newByte)[0]);
  }

  /** The loop over the bits of one byte. */
  method Crc16Byte(crc0: bv16, byte: bv8) returns (crc: bv16)
    ensures |CCITT| == 17
    ensures Bits16(crc) == RunFrom(Bits16(crc0), Bits8(byte), CCITT)
  {
    CcittShape();
    ghost var reg, bits := Bits16(crc0), Bits8(byte);
    crc := crc0;
    var newByte := byte;
    assert bits[..0] == [];
    for k := 0 to 8
      invariant Bits16(crc) == RunFrom(reg, bits[..k], CCITT)
      invariant Bits8(newByte) == bits[k..] + Zeros(k)
    {
      FeedStep(reg, bits, k, crc, newByte);
      crc := Feed(crc, newByte);
      newByte := newByte << 1;
    }
    assert bits[..8] == bits;
  }

  lemma FeedStep(reg: Bits, bits: Bits, k: nat, crc: bv16, newByte: bv8)
    requires |CCITT| == 17 && |reg| == 16 && |bits| == 8 && k < 8
    requires Bits16(crc) == RunFrom(reg, bits[..k], CCITT) && Bits8(newByte) == bits[k..] + Zeros(k)
    ensures Bits16(Feed(crc, newByte)) == RunFrom(reg, bits[..k + 1], CCITT)
    ensures Bits8(newByte << 1) == bits[k + 1..] + Zeros(k + 1)
  {
    FeedIsClock(crc, newByte);
    ByteUpBits(newByte);
    NextBit(reg, bits, k, CCITT);
  }

  lemma NextBit(reg: Bits, bits: Bits, k: nat, g: Bits)
    requires |g| == 17 && |reg| == 16 && |bits| == 8 && k < 8
    ensures var rest := bits[k..] + Zeros(k);
            && Clock(RunFrom(reg, bits[..k], g), rest[0], g) == RunFrom(reg, bits[..k + 1], g)
            && rest[1..] + [false] == bits[k + 1..] + Zeros(k + 1)
  {
    RegisterSnoc(reg, bits[..k], bits[k], g);
    assert bits[..k + 1] == bits[..k] + [bits[k]];
  }

  /** `crc16`: the register after the bytes, highest bit of each first. */
  method Crc16Of(data: seq<bv8>) returns (crc: bv16)
    ensures Bits16(crc) == Register(MsbFirst(data), CCITT)
  {
    CcittShape();
    ZeroWord();
    crc := 0x0000;
    for i := 0 to |data|
      invariant Bits16(crc) == Register(MsbFirst(data[..i]), CCITT)
    {
      crc := Crc16Byte(crc, data[i]);
      assert data[..i + 1][..i] == data[..i];
      RunConcat(Zeros(16), MsbFirst(data[..i]), Bits8(data[i]), CCITT);
    }
    assert data[..|data|] == data;
  }

  lemma ZeroWord()
    ensures Bits16(0) == Zeros(16)
  {
  }

  // ---- the payload check

  /** `crc` is the payload polynomial modulo x^16 + x^12 + x^5 + 1. */
  ghost predicate IsCheck(crc: bv16, payload: seq<bv8>)
    requires |payload| >= 2
  {
    CcittShape();
    Bits16(crc) == Remainder(MsbFirst(payload), CCITT)
  }

  /** The CRC of all but the last two payload bytes, with those two xored in. */
  method PayloadCheck(payload: seq<bv8>) returns (crc: bv16)
    requires |payload| >= 2
    ensures IsCheck(crc, payload)
  {
    var n := |payload| - 2;
    var c := Crc16Of(payload[..n]);
    crc := c ^ Word(payload[n], payload[n + 1]);
    LastTwo(payload);
    CheckOf(MsbFirst(payload[..n]), c, Word(payload[n], payload[n + 1]), crc);
  }

  /** Xoring the last word in turns the register into the remainder of all of it. */
  lemma CheckOf(m: Bits, c: bv16, last: bv16, crc: bv16)
    requires crc == c ^ last
    requires Bits16(c) == (CcittShape(); Register(m, CCITT))
    ensures |CCITT| == 17 && Bits16(crc) == Remainder(m + Bits16(last), CCITT)
  {
    CcittShape();
    XorWord(c, last);
    RegisterIsRemainder(m, Bits16(last), CCITT);
  }

  lemma LastTwo(payload: seq<bv8>)
    requires |payload| >= 2
    ensures var n := |payload| - 2;
            MsbFirst(payload) == MsbFirst(payload[..n]) + Bits16(Word(payload[n], payload[n + 1]))
  {
    var n := |payload| - 2;
    assert payload[..n + 1][..n] == payload[..n];
    WordLow(payload[n], payload[n + 1]);
    WordHigh(payload[n], payload[n + 1]);
    WordAsBytes(Word(payload[n], payload[n + 1]));
  }

  lemma CheckUnique(c: bv16, d: bv16, payload: seq<bv8>)
    requires |payload| >= 2 && IsCheck(c, payload) && IsCheck(d, payload)
    ensures c == d
  {
    Bits16Injective(c, d);
  }

  /** Two payloads that differ by a nonzero error within 16 consecutive bits, or in an odd number of bits,
    never share a check value. */
  lemma PayloadErrorsAreCaught(sent: seq<bv8>, received: seq<bv8>, error: Bits, c: bv16, d: bv16)
    requires |sent| == |received| >= 2 && |error| == 8 * |sent|
    requires MsbFirst(received) == Xor(MsbFirst(sent), error)
    requires IsBurst(error, 16) || Parity(error)
    requires IsCheck(c, sent) && IsCheck(d, received)
    ensures c != d
  {
    CcittShape();
    var b := MsbFirst(sent);
    RemainderLinear(b, error, CCITT);
    if c == d {
      var r := Remainder(error, CCITT);
      forall j | 0 <= j < 16 ensures !r[j] {
        assert Xor(Remainder(b, CCITT), r)[j] == Remainder(b, CCITT)[j];
      }
      assert r == Zeros(16);
      DividesIffRemainderZero(CCITT, error);
      if IsBurst(error, 16) {
        NoShortMultiple(CCITT, error);
      } else {
        MultiplesAreEven(CCITT, error);
      }
    }
  }

  // ---- transmitter

  function LowNibble(b: bv8): bv8 {
    b & 0x0F
  }

  function HighNibble(b: bv8): bv8 {
    b >> 4
  }

  /** The nibbles of a whitened byte string, low one first. */
  ghost predicate WhitenedNibbles(nibbles: seq<bv8>, payload: seq<bv8>, w: seq<bv8>) {
    && |nibbles| == 2 * |payload| && |payload| <= |w|
    && forall i :: 0 <= i < |payload| ==>
         nibbles[2 * i] == LowNibble(payload[i] ^ w[i]) && nibbles[2 * i + 1] == HighNibble(payload[i] ^ w[i])
  }

  /** `Encoder::whitening`, with the whitening sequence as a parameter. */
  method Whitening(payload: seq<bv8>, w: seq<bv8>) returns (nibbles: seq<bv8>)
    requires |payload| <= |w|
    ensures WhitenedNibbles(nibbles, payload, w)
  {
    var out := new bv8[2 * |payload|];
    for i := 0 to |payload|
      invariant forall k :: 0 <= k < i ==>
                  out[2 * k] == LowNibble(payload[k] ^ w[k]) && out[2 * k + 1] == HighNibble(payload[k] ^ w[k])
    {
      out[2 * i] := (payload[i] ^ w[i]) & 0x0F;
      out[2 * i + 1] := (payload[i] ^ w[i]) >> 4;
    }
    nibbles := out[..];
  }

  /** A word as the four nibbles the encoder appends, lowest first. */
  function CrcNibbles(crc: bv16): seq<bv8> {
    [(crc & 0x000F) as bv8, ((crc & 0x00F0) >> 4) as bv8,
     ((crc & 0x0F00) >> 8) as bv8, ((crc & 0xF000) >> 12) as bv8]
  }

  /** A frame is its header nibbles, the whitened payload, and the nibbles of the payload's check if there is one. */
  ghost predicate FrameParts(frame: seq<bv8>, payload: seq<bv8>, w: seq<bv8>, head: seq<bv8>, hasCrc: bool,
                             body: seq<bv8>, tail: seq<bv8>)
  {
    && frame == head + body + tail
    && WhitenedNibbles(body, payload, w)
    && (if hasCrc then |payload| >= 2 && exists crc :: IsCheck(crc, payload) && tail == CrcNibbles(crc) else tail == [])
  }

  function HeadOf(implicitHeader: bool, header: seq<bv8>): seq<bv8> {
    if implicitHeader then [] else header
  }

  /** The encoder up to the Hamming stage: header nibbles unless the header is implicit, the whitened
    payload, and the check of the plain payload. */
  method FrameNibbles(payload: seq<bv8>, w: seq<bv8>, header: seq<bv8>, implicitHeader: bool, hasCrc: bool)
    returns (frame: seq<bv8>)
    requires |payload| <= |w| && |header| == 5
    requires hasCrc ==> |payload| >= 2
    ensures exists body, tail :: FrameParts(frame, payload, w, HeadOf(implicitHeader, header), hasCrc, body, tail)
  {
    var body := Whitening(payload, w);
    frame := if implicitHeader then body else header + body;
    var tail: seq<bv8> := [];
    if hasCrc {
      var crc := PayloadCheck(payload);
      tail := CrcNibbles(crc);
      frame := frame + tail;
    }
    assert FrameParts(frame, payload, w, HeadOf(implicitHeader, header), hasCrc, body, tail);
  }

  // ---- receiver

  datatype Frame = Frame(nibbles: seq<bv8>, implicitHeader: bool, hasCrc: bool)

  function PayloadStart(frame: Frame): nat {
    if frame.implicitHeader then 0 else 5
  }

  function PayloadEnd(frame: Frame): int {
    if frame.hasCrc then |frame.nibbles| - 4 else |frame.nibbles|
  }

  /** One byte from two nibbles. */
  function Joined(low: bv8, high: bv8): bv8 {
    (high << 4) | low
  }

  /** One byte from two whitened nibbles. */
  function Dewhiten(low: bv8, high: bv8, w: bv8): bv8 {
    var lowNib := low ^ (w & 0x0F);
    var highNib := high ^ ((w & 0xF0) >> 4);
    Joined(lowNib, highNib)
  }

  function DewhitenAll(slice: seq<bv8>, w: seq<bv8>, n: nat): (d: seq<bv8>)
    requires 2 * n <= |slice| && n <= |w|
    ensures |d| == n
  {
    seq(n, i requires 0 <= i < n => Dewhiten(slice[2 * i], slice[2 * i + 1], w[i]))
  }

  /** The bytes `decode` recovers: payload, then the two check bytes if there is a check. */
  function Recovered(frame: Frame, w: seq<bv8>): (d: seq<bv8>)
    requires PayloadStart(frame) <= PayloadEnd(frame)
    requires (PayloadEnd(frame) - PayloadStart(frame)) / 2 <= |w|
  {
    var slice := frame.nibbles[PayloadStart(frame)..PayloadEnd(frame)];
    var payload := DewhitenAll(slice, w, |slice| / 2);
    if frame.hasCrc then
      var l := |frame.nibbles|;
      payload + [Joined(frame.nibbles[l - 4], frame.nibbles[l - 3]),
                 Joined(frame.nibbles[l - 2], frame.nibbles[l - 1])]
    else
      payload
  }

  /** The dewhitening loop, over whole pairs of nibbles. */
  method DewhitenSlice(slice: seq<bv8>, w: seq<bv8>) returns (dewhitened: seq<bv8>)
    requires |slice| / 2 <= |w|
    ensures dewhitened == DewhitenAll(slice, w, |slice| / 2)
  {
    dewhitened := [];
    for i := 0 to |slice| / 2
      invariant dewhitened == DewhitenAll(slice, w, i)
    {
      var lowNib := slice[2 * i] ^ (w[i] & 0x0F);
      var highNib := slice[2 * i + 1] ^ ((w[i] & 0xF0) >> 4);
      dewhitened := dewhitened + [Joined(lowNib, highNib)];
    }
  }

  /** At least two payload bytes, and behind them their remainder, low byte first. */
  ghost predicate GoodTrailer(d: seq<bv8>) {
    |d| >= 4 && exists crc :: IsCheck(crc, d[..|d| - 2]) && d[|d| - 2..] == [Low(crc), High(crc)]
  }

  /** `decode`: with a check, a frame is delivered exactly when its trailer is good; without one it is always
    delivered. What is delivered are the recovered bytes. */
  method Decode(frame: Frame, w: seq<bv8>) returns (result: Option<seq<bv8>>)
    requires PayloadStart(frame) <= PayloadEnd(frame)
    requires (PayloadEnd(frame) - PayloadStart(frame)) / 2 <= |w|
    ensures result.Some? <==> !frame.hasCrc || GoodTrailer(Recovered(frame, w))
    ensures result.Some? ==> result.value == Recovered(frame, w)
  {
    var dewhitened := DewhitenSlice(frame.nibbles[PayloadStart(frame)..PayloadEnd(frame)], w);
    var crcPassed := true;
    if frame.hasCrc {
      var l := |frame.nibbles|;
      dewhitened := dewhitened + [Joined(frame.nibbles[l - 4], frame.nibbles[l - 3]),
                                  Joined(frame.nibbles[l - 2], frame.nibbles[l - 1])];
      assert dewhitened == Recovered(frame, w);
      crcPassed := CheckTrailer(dewhitened);
    }
    result := if crcPassed then Some(dewhitened) else None;
  }

  /** The comparison at the end of `decode`. */
  method CheckTrailer(d: seq<bv8>) returns (valid: bool)
    requires |d| >= 2
    ensures valid <==> GoodTrailer(d)
  {
    var l := |d|;
    if l < 4 {
      return false;
    }
    var payload := d[..l - 2];
    var crc := PayloadCheck(payload);
    var received := Word(d[l - 1], d[l - 2]);
    valid := received == crc;
    WordLow(d[l - 1], d[l - 2]);
    WordHigh(d[l - 1], d[l - 2]);
    WordAgain(crc);
    if valid {
      assert d[l - 2..] == [Low(crc), High(crc)];
    } else {
      forall c | IsCheck(c, payload) ensures d[l - 2..] != [Low(c), High(c)] {
        CheckUnique(c, crc, payload);
        assert d[l - 2..][0] == d[l - 2] && d[l - 2..][1] == d[l - 1];
      }
    }
  }

  /** A payload damaged by an error burst of at most 16 bits, or in an odd number of bits, does not fit its trailer. */
  lemma DamageSpoilsTheTrailer(sent: seq<bv8>, received: seq<bv8>, trailer: seq<bv8>, error: Bits)
    requires |sent| == |received| && |trailer| == 2 && |error| == 8 * |sent|
    requires MsbFirst(received) == Xor(MsbFirst(sent), error) && (IsBurst(error, 16) || Parity(error))
    requires GoodTrailer(sent + trailer)
    ensures !GoodTrailer(received + trailer)
  {
    var d, e := sent + trailer, received + trailer;
    assert d[..|d| - 2] == sent && d[|d| - 2..] == trailer && e[..|e| - 2] == received && e[|e| - 2..] == trailer;
    var c :| IsCheck(c, sent) && trailer == [Low(c), High(c)];
    forall crc | IsCheck(crc, received) ensures trailer != [Low(crc), High(crc)] {
      PayloadErrorsAreCaught(sent, received, error, c, crc);
      WordAgain(c);
      WordAgain(crc);
    }
  }

  /** `decode` on a frame that would be good but for such damage to its payload. */
  method DecodeDamaged(frame: Frame, w: seq<bv8>, ghost sent: seq<bv8>, ghost trailer: seq<bv8>,
                       ghost received: seq<bv8>,
                       ghost error: Bits)
    returns (result: Option<seq<bv8>>)
    requires frame.hasCrc && PayloadStart(frame) <= PayloadEnd(frame)
    requires (PayloadEnd(frame) - PayloadStart(frame)) / 2 <= |w|
    requires Recovered(frame, w) == received + trailer && GoodTrailer(sent + trailer)
    requires |sent| == |received| && |trailer| == 2 && |error| == 8 * |sent|
    requires MsbFirst(received) == Xor(MsbFirst(sent), error) && (IsBurst(error, 16) || Parity(error))
    ensures result.None?
  {
    DamageSpoilsTheTrailer(sent, received, trailer, error);
    result := Decode(frame, w);
  }

  // ---- the order of the nibbles

  /** The first of two nibbles is the lower one. */
  lemma LowNibbleFirst(low: bv8, high: bv8)
    requires low < 16 && high < 16
    ensures Joined(low, high) & 0x0F == low && Joined(low, high) >> 4 == high
    ensures forall w: bv8 :: Dewhiten(low, high, w) ^ w == Joined(low, high)
  {
  }

  /** The transmitter's nibbles are those of the whitened bytes, in that order. */
  lemma WhitenedInOrder(nibbles: seq<bv8>, payload: seq<bv8>, w: seq<bv8>, i: nat)
    requires WhitenedNibbles(nibbles, payload, w) && i < |payload|
    ensures nibbles[2 * i] < 16 && nibbles[2 * i + 1] < 16
    ensures Joined(nibbles[2 * i], nibbles[2 * i + 1]) == payload[i] ^ w[i]
  {
    NibblesJoin(payload[i] ^ w[i]);
  }

  lemma NibblesJoin(b: bv8)
    ensures LowNibble(b) < 16 && HighNibble(b) < 16 && Joined(LowNibble(b), HighNibble(b)) == b
  {
  }

  /** The four nibbles of the check, lowest first. */
  lemma CrcNibblesInOrder(crc: bv16)
    ensures var n := CrcNibbles(crc);
            && |n| == 4 && n[0] < 16 && n[1] < 16 && n[2] < 16 && n[3] < 16
            && crc == n[0] as bv16 | (n[1] as bv16 << 4) | (n[2] as bv16 << 8) | (n[3] as bv16 << 12)
  {
  }

  // ---- round trip

  lemma DewhitenWhitened(b: bv8, w: bv8)
    ensures Dewhiten(LowNibble(b ^ w), HighNibble(b ^ w), w) == b
  {
  }

  lemma CrcNibblesRead(crc: bv16)
    ensures var n := CrcNibbles(crc);
            Joined(n[0], n[1]) == Low(crc) && Joined(n[2], n[3]) == High(crc)
  {
    CrcNibblesLow(crc);
    CrcNibblesHigh(crc);
  }

  lemma CrcNibblesLow(crc: bv16)
    ensures (((crc & 0x00F0) >> 4) as bv8 << 4) | ((crc & 0x000F) as bv8) == Low(crc)
  {
  }

  lemma CrcNibblesHigh(crc: bv16)
    ensures (((crc & 0xF000) >> 12) as bv8 << 4) | (((crc & 0x0F00) >> 8) as bv8) == High(crc)
  {
  }

  /** Every payload comes back from `decode`, with its two check bytes if it has a check, whatever the
    whitening sequence and the header, in both header modes. */
  method RoundTrip(payload: seq<bv8>, w: seq<bv8>, header: seq<bv8>, implicitHeader: bool, hasCrc: bool)
    returns (result: Option<seq<bv8>>)
    requires |payload| <= |w| && |header| == 5 && (hasCrc ==> |payload| >= 2)
    ensures result.Some?
    ensures !hasCrc ==> result.value == payload
    ensures hasCrc ==> exists crc :: IsCheck(crc, payload) && result.value == payload + [Low(crc), High(crc)]
  {
    var nibbles := FrameNibbles(payload, w, header, implicitHeader, hasCrc);
    var frame := Frame(nibbles, implicitHeader, hasCrc);
    RecoveredFrame(frame, w, payload, HeadOf(implicitHeader, header));
    result := Decode(frame, w);
  }

  lemma RecoveredFrame(frame: Frame, w: seq<bv8>, payload: seq<bv8>, head: seq<bv8>)
    requires |head| == PayloadStart(frame) && (frame.hasCrc ==> |payload| >= 2)
    requires exists body, tail :: FrameParts(frame.nibbles, payload, w, head, frame.hasCrc, body, tail)
    ensures PayloadEnd(frame) - PayloadStart(frame) == 2 * |payload| && |payload| <= |w|
    ensures !frame.hasCrc ==> Recovered(frame, w) == payload
    ensures frame.hasCrc ==>
              GoodTrailer(Recovered(frame, w)) &&
              exists crc :: IsCheck(crc, payload) && Recovered(frame, w) == payload + [Low(crc), High(crc)]
  {
    var body, tail :| FrameParts(frame.nibbles, payload, w, head, frame.hasCrc, body, tail);
    RecoveredPayload(frame, w, payload, body, tail, head);
    if frame.hasCrc {
      TailIsGood(payload, tail);
    }
  }

  lemma TailIsGood(payload: seq<bv8>, tail: seq<bv8>)
    requires |payload| >= 2 && exists crc :: IsCheck(crc, payload) && tail == CrcNibbles(crc)
    ensures |tail| == 4
    ensures var d := payload + [Joined(tail[0], tail[1]), Joined(tail[2], tail[3])];
            GoodTrailer(d) && exists crc :: IsCheck(crc, payload) && d == payload + [Low(crc), High(crc)]
  {
    var crc :| IsCheck(crc, payload) && tail == CrcNibbles(crc);
    CrcNibblesRead(crc);
    TrailerIsGood(payload, crc);
  }

  lemma TrailerIsGood(payload: seq<bv8>, crc: bv16)
    requires |payload| >= 2 && IsCheck(crc, payload)
    ensures GoodTrailer(payload + [Low(crc), High(crc)])
  {
    var d := payload + [Low(crc), High(crc)];
    assert d[..|d| - 2] == payload && d[|d| - 2..] == [Low(crc), High(crc)];
  }

  lemma RecoveredPayload(frame: Frame, w: seq<bv8>, payload: seq<bv8>, body: seq<bv8>, tail: seq<bv8>, head: seq<bv8>)
    requires frame.nibbles == head + body + tail && WhitenedNibbles(body, payload, w)
    requires |head| == PayloadStart(frame) && |tail| == if frame.hasCrc then 4 else 0
    ensures PayloadEnd(frame) - PayloadStart(frame) == 2 * |payload|
    ensures Recovered(frame, w) ==
            payload + if frame.hasCrc then [Joined(tail[0], tail[1]), Joined(tail[2], tail[3])] else []
  {
    var slice := frame.nibbles[PayloadStart(frame)..PayloadEnd(frame)];
    assert slice == body;
    DewhitenedBody(body, payload, w);
  }

  lemma DewhitenedBody(body: seq<bv8>, payload: seq<bv8>, w: seq<bv8>)
    requires WhitenedNibbles(body, payload, w)
    ensures DewhitenAll(body, w, |payload|) == payload
  {
    forall i | 0 <= i < |payload| ensures DewhitenAll(body, w, |payload|)[i] == payload[i] {
      DewhitenWhitened(payload[i], w[i]);
    }
  }
}
