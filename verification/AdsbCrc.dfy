/** The ADS-B parity check of examples/adsb/src/decoder.rs (24-bit parity of section 3.1.2.3.3 of ICAO
  Annex 10 Volume IV): in-place long division over single-bit bytes. */
module AdsbCrc {
  import opened Gf2

  const GENERATOR_POLY: seq<bv8> :=
    [1, 1, 1, 1, 1, 1, 1, 1, 1, 1, 1, 1, 1, 0, 1, 0, 0, 0, 0, 0, 0, 1, 0, 0, 1]

  /** The demodulator fills a packet with the values 0 and 1. */
  ghost predicate SingleBits(b: seq<bv8>) {
    forall i :: 0 <= i < |b| ==> b[i] == 0 || b[i] == 1
  }

  function ToBits(b: seq<bv8>): (p: Bits)
    ensures |p| == |b|
  {
    seq(|b|, i requires 0 <= i < |b| => b[i] == 1)
  }

  const G: Bits := ToBits(GENERATOR_POLY)

  /** 25 coefficients, both ends set, an even number of terms. */
  lemma GeneratorShape()
    ensures |G| == 25 && G[0] && G[24] && !Parity(G)
  {
    var t, f := true, false;
    var head := [t, t, t, t] + [t, t, t, t] + [t, t, t, t];
    var tail := [t, f, t, f] + [f, f, f, f] + [f, t, f, f];
    assert G == head + tail + [t];
    ParityConcat(head + tail, [t]);
    ParityConcat(head, tail);
    ParityConcat([t, t, t, t] + [t, t, t, t], [t, t, t, t]);
    ParityConcat([t, t, t, t], [t, t, t, t]);
    ParityConcat([t, f, t, f] + [f, f, f, f], [f, t, f, f]);
    ParityConcat([t, f, t, f], [f, f, f, f]);
    ParityOfFour(t, t, t, t);
    ParityOfFour(t, f, t, f);
    ParityOfFour(f, f, f, f);
    ParityOfFour(f, t, f, f);
    assert [t][..0] == [];
  }

  /** The terms of the generator of section 3.1.2.3.3. */
  const TERMS: set<int> := {24, 23, 22, 21, 20, 19, 18, 17, 16, 15, 14, 13, 12, 10, 3, 0}

  /** The table holds the coefficient of the highest power first. */
  lemma GeneratorTerms(e: int)
    ensures |G| == 25 && (Coeff(G, 24 - e) <==> e in TERMS)
  {
  }

  /** One set coefficient shifts the generator. */
  lemma {:induction false} ConvSingle(q: Bits, g: Bits, at: nat, k: int, n: nat)
    requires n <= |q| && forall i :: 0 <= i < |q| ==> q[i] == (i == at)
    ensures Conv(q, g, k, n) == (at < n && Coeff(g, k - at))
  {
    if n > 0 {
      ConvSingle(q, g, at, k, n - 1);
    }
  }

  /** A packet of any length whose set bits are those terms times a power of x passes. */
  lemma ShiftedGeneratorPasses(packet: Bits, low: nat)
    requires |packet| >= 25 + low
    requires forall k :: 0 <= k < |packet| ==> (packet[k] <==> |packet| - 1 - k - low in TERMS)
    ensures Divides(G, packet)
  {
    GeneratorTerms(0);
    var at := |packet| - 25 - low;
    var q := seq(|packet| - 24, i requires 0 <= i < |packet| - 24 => i == at);
    forall k | 0 <= k < |packet| ensures Mul(q, G)[k] == packet[k] {
      ConvSingle(q, G, at, k, |q|);
      GeneratorTerms(24 - (k - at));
    }
    assert packet == Mul(q, G);
  }

  /** Of the packets of 25 bits two pass: the one without a set bit, and the one with those 16. */
  lemma ShortestPackets(packet: Bits)
    requires |packet| == 25
    ensures Divides(G, packet) <==> (forall k :: 0 <= k < 25 ==> !packet[k])
                                    || (forall k :: 0 <= k < 25 ==> (packet[k] <==> 24 - k in TERMS))
  {
    GeneratorTerms(0);
    if Divides(G, packet) {
      var q: Bits :| |q| + |G| - 1 == |packet| && packet == Mul(q, G);
      var at := if q[0] then 0 else 1;
      forall k | 0 <= k < 25 ensures packet[k] <==> q[0] && 24 - k in TERMS {
        ConvSingle(q, G, at, k, 1);
        GeneratorTerms(24 - k);
      }
    }
    if forall k :: 0 <= k < 25 ==> (packet[k] <==> 24 - k in TERMS) {
      ShiftedGeneratorPasses(packet, 0);
    }
    if forall k :: 0 <= k < 25 ==> !packet[k] {
      ZeroPasses(packet);
    }
  }

  lemma ZeroPasses(packet: Bits)
    requires |packet| == 25 && forall k :: 0 <= k < 25 ==> !packet[k]
    ensures Divides(G, packet)
  {
    GeneratorTerms(0);
    forall k | 0 <= k < 25 ensures Mul([false], G)[k] == packet[k] {
      ConvSingle([false], G, 1, k, 1);
    }
    assert packet == Mul([false], G);
  }

  /** `a` is `b` with the first `n` steps of long division done: q's multiple of the generator xored in. */
  ghost predicate Reduced(a: Bits, b: Bits, n: nat)
    requires n <= |b|
  {
    && |a| == |b|
    && forall k :: 0 <= k < |a| ==> a[k] == (b[k] != Conv(Quotient(b, G, n), G, k, n))
  }

  /** The row operation of the inner loop: xor the generator in at place `i`. */
  method XorGenerator(a: array<bv8>, i: nat)
    requires i + 25 <= a.Length && SingleBits(a[..])
    modifies a
    ensures SingleBits(a[..])
    ensures forall k :: 0 <= k < a.Length ==> (a[k] == 1) == ((old(a[k]) == 1) != Coeff(G, k - i))
  {
    ghost var before := a[..];
    for j := 0 to |GENERATOR_POLY|
      invariant SingleBits(a[..])
      invariant forall k :: 0 <= k < a.Length ==>
                  (a[k] == 1) == ((before[k] == 1) != (i <= k < i + j && G[k - i]))
    {
      ghost var row := a[..];
      assert row[i + j] == a[i + j];
      XorBits(a[i + j], GENERATOR_POLY[j]);
      a[i + j] := a[i + j] ^ GENERATOR_POLY[j];
      assert a[..] == row[i + j := row[i + j] ^ GENERATOR_POLY[j]];
    }
  }

  lemma XorBits(x: bv8, y: bv8)
    requires (x == 0 || x == 1) && (y == 0 || y == 1)
    ensures (x ^ y) == if (x == 1) != (y == 1) then 1 else 0
  {
  }

  /** The sum of the bits from `n` on, as a byte; with at most 24 of them it cannot wrap. */
  method SumFrom(a: array<bv8>, n: nat) returns (sum: bv8)
    requires n <= a.Length <= n + 24 && SingleBits(a[..])
    ensures sum == 0 <==> forall k :: n <= k < a.Length ==> !ToBits(a[..])[k]
  {
    ghost var b := ToBits(a[..]);
    sum := 0;
    for j := n to a.Length
      invariant sum as int <= j - n
      invariant sum == 0 <==> forall k :: n <= k < j ==> !b[k]
    {
      assert a[..][j] == a[j] && b[j] == (a[j] == 1);
      AddBit(sum, a[j]);
      sum := sum + a[j];
    }
  }

  /** `check_crc`: a packet passes exactly when it is a multiple of the generator. */
  method CheckCrc(packet: seq<bv8>) returns (passed: bool)
    requires |packet| >= 24 && SingleBits(packet)
    ensures passed <==> Divides(G, ToBits(packet))
  {
    GeneratorShape();
    var bits := new bv8[|packet|](i requires 0 <= i < |packet| => packet[i]);
    assert bits[..] == packet;
    var n := |packet| - (|GENERATOR_POLY| - 1);
    for i := 0 to n
      invariant SingleBits(bits[..])
      invariant Reduced(ToBits(bits[..]), ToBits(packet), i)
    {
      ghost var before := bits[..];
      if bits[i] == 1 {
        XorGenerator(bits, i);
      }
      ReducedStep(ToBits(packet), ToBits(before), ToBits(bits[..]), i);
    }
    var sum := SumFrom(bits, n);
    passed := sum == 0;
    TailIsRemainder(ToBits(packet), ToBits(bits[..]));
    DividesIffRemainderZero(G, ToBits(packet));
  }

  /** The tail of the fully reduced packet is the remainder. */
  lemma TailIsRemainder(b: Bits, end: Bits)
    requires |G| == 25 && |b| >= 24 && Reduced(end, b, |b| - 24)
    ensures Remainder(b, G) == Zeros(24) <==> forall k :: |b| - 24 <= k < |b| ==> !end[k]
  {
    var n, r := |b| - 24, Remainder(b, G);
    forall j | 0 <= j < 24 ensures r[j] == end[n + j] {
      RemainderAt(b, G, j);
    }
    if r == Zeros(24) {
      forall k | n <= k < |b| ensures !end[k] {
        assert !r[k - n];
      }
    }
  }

  /** Adding a bit to a small byte does not wrap. */
  lemma AddBit(sum: bv8, bit: bv8)
    requires sum as int <= 23 && (bit == 0 || bit == 1)
    ensures (sum + bit) as int <= sum as int + 1
    ensures sum + bit == 0 <==> sum == 0 && bit == 0
  {
  }

  lemma ReducedStep(b: Bits, before: Bits, after: Bits, i: nat)
    requires i < |b| && |after| == |before| && Reduced(before, b, i)
    requires forall k :: 0 <= k < |after| ==> after[k] == (before[k] != (before[i] && Coeff(G, k - i)))
    ensures Reduced(after, b, i + 1)
  {
    var q, q' := Quotient(b, G, i), Quotient(b, G, i + 1);
    assert q'[i] == before[i];
    forall k | 0 <= k < |after| ensures after[k] == (b[k] != Conv(q', G, k, i + 1)) {
      ConvPrefix(q, q', G, k, i);
    }
  }

  /** A packet that passes fails once hit by any nonzero error whose set bits lie within 24 consecutive
    places, or by any odd number of bit errors, whatever its length. */
  lemma ErrorsAreCaught(packet: Bits, error: Bits)
    requires |packet| == |error| >= 24 && Divides(G, packet)
    requires IsBurst(error, 24) || Parity(error)
    ensures !Divides(G, Xor(packet, error))
  {
    GeneratorShape();
    BurstsAndOddErrorsFail(G, packet, error);
  }

  /** Any message can be given its 24 parity bits in exactly one way. */
  lemma ParityFieldIsForced(message: Bits, parity: Bits)
    requires |parity| == 24
    ensures Divides(G, message + parity) <==> parity == Register(message, G)
  {
    GeneratorShape();
    ZeroRegisterIffDivides(message + parity, G);
    AppendingTheCheck(message, parity, G);
  }

  const U64: nat := 0x1_0000_0000_0000_0000

  /** `bin_to_u64`; the bits of a slice longer than 64 that come first are shifted out. */
  method BinToU64(s: seq<bv8>) returns (acc: nat)
    requires SingleBits(s)
    ensures acc == BinaryValue(ToBits(s)) % U64
  {
    acc := 0;
    for i := 0 to |s|
      invariant acc == BinaryValue(ToBits(s[..i])) % U64
    {
      assert ToBits(s[..i + 1]) == ToBits(s[..i]) + [s[i] == 1];
      BinaryValueSnoc(ToBits(s[..i]), s[i] == 1);
      ShiftIn(BinaryValue(ToBits(s[..i])), s[i] as nat);
      acc := (2 * acc) % U64 + (s[i] as nat);
    }
    assert s[..|s|] == s;
  }

  function TwoTo(n: nat): nat {
    if n == 0 then 1 else 2 * TwoTo(n - 1)
  }

  /** The number the bits stand for, highest first: each set bit counts for a power of two. */
  function BinaryValue(b: Bits): nat {
    if b == [] then 0 else (if b[0] then TwoTo(|b| - 1) else 0) + BinaryValue(b[1..])
  }

  lemma {:induction false} BinaryValueSnoc(b: Bits, c: bool)
    ensures BinaryValue(b + [c]) == 2 * BinaryValue(b) + if c then 1 else 0
  {
    if b == [] {
      assert [c][1..] == [] && TwoTo(0) == 1;
    } else {
      assert (b + [c])[1..] == b[1..] + [c];
      BinaryValueSnoc(b[1..], c);
      assert TwoTo(|b|) == 2 * TwoTo(|b| - 1);
    }
  }

  /** Shifting one bit in, in 64 bits. */
  lemma ShiftIn(value: nat, bit: nat)
    requires bit <= 1
    ensures (2 * (value % U64)) % U64 + bit == (2 * value + bit) % U64
  {
    var q, r := value / U64, value % U64;
    if 2 * r < U64 {
      RemainderIs(2 * r, 0, 2 * r);
      RemainderIs(2 * value + bit, 2 * q, 2 * r + bit);
    } else {
      RemainderIs(2 * r, 1, 2 * r - U64);
      RemainderIs(2 * value + bit, 2 * q + 1, 2 * r - U64 + bit);
    }
  }

  lemma RemainderIs(a: nat, q: nat, r: nat)
    requires a == U64 * q + r && r < U64
    ensures a % U64 == r
  {
  }

  /** The message handler's bookkeeping around the check. */
  class Decoder {
    const forwardFailedCrc: bool
    var nCrcOk: nat
    var nCrcFail: nat

    constructor (forwardFailedCrc: bool)
      ensures this.forwardFailedCrc == forwardFailedCrc && nCrcOk == 0 && nCrcFail == 0
    {
      this.forwardFailedCrc := forwardFailedCrc;
      nCrcOk, nCrcFail := 0, 0;
    }

    /** Counts the packet once, and hands it to the frame decoder if it passed or failures are wanted. */
    method In(packet: seq<bv8>) returns (decode: bool)
      requires |packet| >= 24 && SingleBits(packet)
      modifies this
      ensures nCrcOk == old(nCrcOk) + (if Divides(G, ToBits(packet)) then 1 else 0)
      ensures nCrcOk + nCrcFail == old(nCrcOk + nCrcFail) + 1
      ensures decode <==> Divides(G, ToBits(packet)) || forwardFailedCrc
    {
      var crcPassed := CheckCrc(packet);
      if crcPassed {
        nCrcOk := nCrcOk + 1;
      } else {
        nCrcFail := nCrcFail + 1;
      }
      decode := crcPassed || forwardFailedCrc;
    }
  }
}
