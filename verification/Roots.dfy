/** Rings that have the roots of unity the transform needs: -1 is one for size 2, and a square root
    can be adjoined to any root there is. */
module Roots {
  import opened Rings
  import opened Fft

  /** a + b * w, where w * w is an element v of the ring below. */
  datatype Pair<T> = Pair(a: T, b: T)

  function PairAdd<T>(r: Ring<T>, p: Pair<T>, q: Pair<T>): Pair<T> {
    Pair(r.add(p.a, q.a), r.add(p.b, q.b))
  }

  function PairNeg<T>(r: Ring<T>, p: Pair<T>): Pair<T> {
    Pair(r.neg(p.a), r.neg(p.b))
  }

  function PairMul<T>(r: Ring<T>, v: T, p: Pair<T>, q: Pair<T>): Pair<T> {
    Pair(r.add(r.mul(p.a, q.a), r.mul(v, r.mul(p.b, q.b))), r.add(r.mul(p.a, q.b), r.mul(p.b, q.a)))
  }

  /** The ring with a square root of v adjoined. */
  function Adjoined<T>(r: Ring<T>, v: T): Ring<Pair<T>> {
    Ring(Pair(r.zero, r.zero), Pair(r.one, r.zero), (p: Pair<T>, q: Pair<T>) => PairAdd(r, p, q),
         (p: Pair<T>) => PairNeg(r, p),
         (p: Pair<T>, q: Pair<T>) => PairMul(r, v, p, q))
  }

  // ---- it is a ring

  lemma RightDistrib<T(!new)>(r: Ring<T>, a: T, b: T, c: T)
    requires IsRing(r)
    ensures r.mul(r.add(a, b), c) == r.add(r.mul(a, c), r.mul(b, c))
  {
    assert MulComm(r, r.add(a, b), c) && Distrib(r, c, a, b) && MulComm(r, a, c) && MulComm(r, b, c);
  }

  /** a * (v * x) == v * (a * x) */
  lemma MulSwap<T(!new)>(r: Ring<T>, a: T, v: T, x: T)
    requires IsRing(r)
    ensures r.mul(a, r.mul(v, x)) == r.mul(v, r.mul(a, x))
  {
    assert MulAssoc(r, a, v, x) && MulComm(r, a, v) && MulAssoc(r, v, a, x);
  }

  /** (x + v * y) * e + v * ((s + t) * f) == (x * e + v * (y * e)) + (v * (s * f) + v * (t * f)) */
  lemma ScaledSums<T(!new)>(r: Ring<T>, v: T, x: T, y: T, e: T, s: T, t: T, f: T)
    requires IsRing(r)
    ensures r.mul(r.add(x, r.mul(v, y)), e) == r.add(r.mul(x, e), r.mul(v, r.mul(y, e)))
    ensures r.mul(v, r.mul(r.add(s, t), f)) == r.add(r.mul(v, r.mul(s, f)), r.mul(v, r.mul(t, f)))
  {
    RightDistrib(r, x, r.mul(v, y), e);
    assert MulAssoc(r, v, y, e);
    RightDistrib(r, s, t, f);
    assert Distrib(r, v, r.mul(s, f), r.mul(t, f));
  }

  /** a * (x + v * y) and v * (b * (s + t)), multiplied out. */
  lemma ScaledFactors<T(!new)>(r: Ring<T>, v: T, a: T, x: T, y: T, b: T, s: T, t: T)
    requires IsRing(r)
    ensures r.mul(a, r.add(x, r.mul(v, y))) == r.add(r.mul(a, x), r.mul(v, r.mul(a, y)))
    ensures r.mul(v, r.mul(b, r.add(s, t))) == r.add(r.mul(v, r.mul(b, s)), r.mul(v, r.mul(b, t)))
  {
    assert Distrib(r, a, x, r.mul(v, y));
    MulSwap(r, a, v, y);
    assert Distrib(r, b, s, t) && Distrib(r, v, r.mul(b, s), r.mul(b, t));
  }

  /** (x + y) + (z + w) == (x + z) + (w + y) */
  lemma AddCross<T(!new)>(r: Ring<T>, x: T, y: T, z: T, w: T)
    requires IsRing(r)
    ensures r.add(r.add(x, y), r.add(z, w)) == r.add(r.add(x, z), r.add(w, y))
  {
    AddExchange(r, x, y, z, w);
    assert AddComm(r, y, w);
  }

  lemma FirstParts<T(!new)>(r: Ring<T>, v: T, p: Pair<T>, q: Pair<T>, s: Pair<T>)
    requires IsRing(r)
    ensures PairMul(r, v, PairMul(r, v, p, q), s).a == PairMul(r, v, p, PairMul(r, v, q, s)).a
  {
    ScaledSums(r, v, r.mul(p.a, q.a), r.mul(p.b, q.b), s.a, r.mul(p.a, q.b), r.mul(p.b, q.a), s.b);
    ScaledFactors(r, v, p.a, r.mul(q.a, s.a), r.mul(q.b, s.b), p.b, r.mul(q.a, s.b), r.mul(q.b, s.a));
    assert MulAssoc(r, p.a, q.a, s.a) && MulAssoc(r, p.b, q.b, s.a) && MulAssoc(r, p.a, q.b, s.b)
           && MulAssoc(r, p.b, q.a, s.b);
    AddCross(r, r.mul(p.a, r.mul(q.a, s.a)), r.mul(v, r.mul(p.b, r.mul(q.b, s.a))),
             r.mul(v, r.mul(p.a, r.mul(q.b, s.b))), r.mul(v, r.mul(p.b, r.mul(q.a, s.b))));
  }

  lemma SecondParts<T(!new)>(r: Ring<T>, v: T, p: Pair<T>, q: Pair<T>, s: Pair<T>)
    requires IsRing(r)
    ensures PairMul(r, v, PairMul(r, v, p, q), s).b == PairMul(r, v, p, PairMul(r, v, q, s)).b
  {
    ScaledSums(r, v, r.mul(p.a, q.a), r.mul(p.b, q.b), s.b, r.zero, r.zero, r.zero);
    RightDistrib(r, r.mul(p.a, q.b), r.mul(p.b, q.a), s.a);
    ScaledFactors(r, v, p.b, r.mul(q.a, s.a), r.mul(q.b, s.b), r.zero, r.zero, r.zero);
    assert Distrib(r, p.a, r.mul(q.a, s.b), r.mul(q.b, s.a));
    assert MulAssoc(r, p.a, q.a, s.b) && MulAssoc(r, p.b, q.b, s.b) && MulAssoc(r, p.a, q.b, s.a)
           && MulAssoc(r, p.b, q.a, s.a);
    AddCross(r, r.mul(p.a, r.mul(q.a, s.b)), r.mul(v, r.mul(p.b, r.mul(q.b, s.b))),
             r.mul(p.a, r.mul(q.b, s.a)), r.mul(p.b, r.mul(q.a, s.a)));
  }

  lemma PairDistrib<T(!new)>(r: Ring<T>, v: T, p: Pair<T>, q: Pair<T>, s: Pair<T>)
    requires IsRing(r)
    ensures PairMul(r, v, p, PairAdd(r, q, s)) == PairAdd(r, PairMul(r, v, p, q), PairMul(r, v, p, s))
  {
    assert Distrib(r, p.a, q.a, s.a) && Distrib(r, p.b, q.b, s.b);
    assert Distrib(r, v, r.mul(p.b, q.b), r.mul(p.b, s.b));
    AddExchange(r, r.mul(p.a, q.a), r.mul(p.a, s.a), r.mul(v, r.mul(p.b, q.b)), r.mul(v, r.mul(p.b, s.b)));
    assert Distrib(r, p.a, q.b, s.b) && Distrib(r, p.b, q.a, s.a);
    AddExchange(r, r.mul(p.a, q.b), r.mul(p.a, s.b), r.mul(p.b, q.a), r.mul(p.b, s.a));
  }

  lemma PairComm<T(!new)>(r: Ring<T>, v: T, p: Pair<T>, q: Pair<T>)
    requires IsRing(r)
    ensures PairMul(r, v, p, q) == PairMul(r, v, q, p)
  {
    assert MulComm(r, p.a, q.a) && MulComm(r, p.b, q.b) && MulComm(r, p.a, q.b) && MulComm(r, p.b, q.a);
    assert AddComm(r, r.mul(p.a, q.b), r.mul(p.b, q.a));
  }

  lemma PairOne<T(!new)>(r: Ring<T>, v: T, p: Pair<T>)
    requires IsRing(r)
    ensures PairMul(r, v, Pair(r.one, r.zero), p) == p
  {
    assert MulOne(r, p.a) && MulOne(r, p.b);
    MulZero(r, p.b);
    MulZero(r, p.a);
    MulZero(r, v);
    assert AddZero(r, p.a) && AddComm(r, r.zero, p.a) && AddZero(r, p.b) && AddComm(r, r.zero, p.b);
  }

  lemma PairAddLaws<T(!new)>(r: Ring<T>, p: Pair<T>, q: Pair<T>, s: Pair<T>)
    requires IsRing(r)
    ensures PairAdd(r, PairAdd(r, p, q), s) == PairAdd(r, p, PairAdd(r, q, s))
    ensures PairAdd(r, p, q) == PairAdd(r, q, p)
    ensures PairAdd(r, Pair(r.zero, r.zero), p) == p
    ensures PairAdd(r, p, PairNeg(r, p)) == Pair(r.zero, r.zero)
  {
    assert AddAssoc(r, p.a, q.a, s.a) && AddAssoc(r, p.b, q.b, s.b);
    assert AddComm(r, p.a, q.a) && AddComm(r, p.b, q.b);
    assert AddZero(r, p.a) && AddZero(r, p.b) && AddNeg(r, p.a) && AddNeg(r, p.b);
  }

  lemma AdjoinedIsRing<T(!new)>(r: Ring<T>, v: T)
    requires IsRing(r)
    ensures IsRing(Adjoined(r, v))
  {
    var s := Adjoined(r, v);
    forall p, q, t ensures AddAssoc(s, p, q, t) { PairAddLaws(r, p, q, t); }
    forall p, q ensures AddComm(s, p, q) { PairAddLaws(r, p, q, q); }
    forall p ensures AddZero(s, p) { PairAddLaws(r, p, p, p); }
    forall p ensures AddNeg(s, p) { PairAddLaws(r, p, p, p); }
    forall p, q, t ensures MulAssoc(s, p, q, t) {
      FirstParts(r, v, p, q, t);
      SecondParts(r, v, p, q, t);
    }
    forall p, q ensures MulComm(s, p, q) { PairComm(r, v, p, q); }
    forall p ensures MulOne(s, p) { PairOne(r, v, p); }
    forall p, q, t ensures Distrib(s, p, q, t) { PairDistrib(r, v, p, q, t); }
  }

  // ---- and it has one more root

  /** The roots of the ring below, and the new one. */
  function OneMore<T>(r: Ring<T>, roots: seq<T>): (more: seq<Pair<T>>)
    ensures |more| == |roots| + 1
  {
    seq(|roots|, s requires 0 <= s < |roots| => Pair(roots[s], r.zero)) + [Pair(r.zero, r.one)]
  }

  /** Products of elements of the ring below, and the square of the new root. */
  lemma OldAndNew<T(!new)>(r: Ring<T>, v: T, x: T)
    requires IsRing(r)
    ensures PairMul(r, v, Pair(x, r.zero), Pair(x, r.zero)) == Pair(r.mul(x, x), r.zero)
    ensures PairMul(r, v, Pair(r.zero, r.one), Pair(r.zero, r.one)) == Pair(v, r.zero)
    ensures PairNeg(r, Pair(r.one, r.zero)) == Pair(r.neg(r.one), r.zero)
  {
    MulZero(r, r.zero);
    MulZero(r, x);
    MulZero(r, v);
    MulZero(r, r.one);
    assert AddZero(r, r.zero) && AddZero(r, r.mul(x, x)) && AddComm(r, r.zero, r.mul(x, x));
    assert MulOne(r, r.one) && MulOne(r, v) && MulComm(r, r.one, v) && AddZero(r, v);
    assert AddNeg(r, r.zero) && AddZero(r, r.neg(r.zero));
  }

  /** From a ring with roots for transforms of 2^L samples to one for 2^(L + 1). */
  lemma MoreRoots<T(!new)>(r: Ring<T>, roots: seq<T>)
    requires IsRing(r) && PrincipalRoots(r, roots) && |roots| >= 2
    ensures var s := Adjoined(r, roots[|roots| - 1]); IsRing(s) && PrincipalRoots(s, OneMore(r, roots))
  {
    var v := roots[|roots| - 1];
    AdjoinedIsRing(r, v);
    OldAndNew(r, v, v);
    forall k | 0 <= k < |roots| ensures RootStep(Adjoined(r, v), OneMore(r, roots), k) {
      StepUp(r, roots, k);
    }
  }

  lemma StepUp<T(!new)>(r: Ring<T>, roots: seq<T>, k: nat)
    requires IsRing(r) && PrincipalRoots(r, roots) && k < |roots|
    ensures RootStep(Adjoined(r, roots[|roots| - 1]), OneMore(r, roots), k)
  {
    if k + 1 < |roots| {
      assert RootStep(r, roots, k);
      OldAndNew(r, roots[|roots| - 1], roots[k + 1]);
    } else {
      OldAndNew(r, roots[k], roots[k]);
    }
  }

  /** The integers are where it starts. */
  const INTEGERS: Ring<int> := Ring(0, 1, (a, b) => a + b, a => -a, (a, b) => Times(a, b))

  function Times(a: int, b: int): int {
    a * b
  }

  lemma TimesLaws(a: int, b: int, c: int)
    ensures Times(Times(a, b), c) == Times(a, Times(b, c)) && Times(a, b) == Times(b, a) && Times(1, a) == a
    ensures Times(a, b + c) == Times(a, b) + Times(a, c)
  {
  }

  lemma IntegersHaveTwo()
    ensures IsRing(INTEGERS) && PrincipalRoots(INTEGERS, [1, -1])
  {
    forall a, b, c ensures MulAssoc(INTEGERS, a, b, c) && Distrib(INTEGERS, a, b, c) { TimesLaws(a, b, c); }
    forall a, b ensures MulComm(INTEGERS, a, b) { TimesLaws(a, b, 0); }
    forall a ensures MulOne(INTEGERS, a) { TimesLaws(a, 0, 0); }
    forall a, b, c ensures AddAssoc(INTEGERS, a, b, c) { }
    forall a, b ensures AddComm(INTEGERS, a, b) { }
    forall a ensures AddZero(INTEGERS, a) && AddNeg(INTEGERS, a) { }
    assert RootStep(INTEGERS, [1, -1], 0);
  }
}
