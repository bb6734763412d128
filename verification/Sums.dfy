/** Finite sums over a commutative ring. The lemmas take both summands as arguments and relate them point by point. */
module Sums {
  import opened Rings

  /** f(0) + ... + f(n - 1) */
  function Sum<T>(r: Ring<T>, n: nat, f: int -> T): T {
    if n == 0 then r.zero else r.add(Sum(r, n - 1, f), f(n - 1))
  }

  lemma {:induction false} SumCong<T>(r: Ring<T>, n: nat, f: int -> T, g: int -> T)
    requires forall j :: 0 <= j < n ==> f(j) == g(j)
    ensures Sum(r, n, f) == Sum(r, n, g)
  {
    if n > 0 {
      SumCong(r, n - 1, f, g);
    }
  }

  lemma {:induction false} SumZero<T(!new)>(r: Ring<T>, n: nat, f: int -> T)
    requires IsRing(r) && forall j :: 0 <= j < n ==> f(j) == r.zero
    ensures Sum(r, n, f) == r.zero
  {
    if n > 0 {
      SumZero(r, n - 1, f);
      assert AddZero(r, r.zero);
    }
  }

  lemma {:induction false} SumSplit<T(!new)>(r: Ring<T>, m: nat, n: nat, f: int -> T, g: int -> T)
    requires IsRing(r) && forall j :: 0 <= j < n ==> g(j) == f(m + j)
    ensures Sum(r, m + n, f) == r.add(Sum(r, m, f), Sum(r, n, g))
  {
    if n == 0 {
      assert AddZero(r, Sum(r, m, f)) && AddComm(r, r.zero, Sum(r, m, f));
    } else {
      SumSplit(r, m, n - 1, f, g);
      assert AddAssoc(r, Sum(r, m, f), Sum(r, n - 1, g), g(n - 1));
    }
  }

  lemma {:induction false} SumSingle<T(!new)>(r: Ring<T>, n: nat, f: int -> T, at: nat)
    requires IsRing(r) && at < n && forall j :: 0 <= j < n && j != at ==> f(j) == r.zero
    ensures Sum(r, n, f) == f(at)
  {
    var v := f(at);
    if at == n - 1 {
      SumZero(r, n - 1, f);
      assert AddZero(r, v);
    } else {
      SumSingle(r, n - 1, f, at);
      assert AddComm(r, v, r.zero) && AddZero(r, v);
    }
  }

  lemma SumFirst<T(!new)>(r: Ring<T>, n: nat, f: int -> T, g: int -> T)
    requires IsRing(r) && n > 0 && forall j :: 0 <= j < n - 1 ==> g(j) == f(1 + j)
    ensures Sum(r, n, f) == r.add(f(0), Sum(r, n - 1, g))
  {
    SumSplit(r, 1, n - 1, f, g);
    assert Sum(r, 0, f) == r.zero;
    assert AddZero(r, f(0));
  }

  lemma {:induction false} SumReverse<T(!new)>(r: Ring<T>, n: nat, f: int -> T, g: int -> T)
    requires IsRing(r) && forall j :: 0 <= j < n ==> g(j) == f(n - 1 - j)
    ensures Sum(r, n, f) == Sum(r, n, g)
  {
    if n > 0 {
      var g1 := (j: int) => g(1 + j);
      forall j | 0 <= j < n - 1 ensures g1(j) == f(n - 2 - j) {
        assert g(1 + j) == f(n - 1 - (1 + j));
      }
      SumFirst(r, n, g, g1);
      SumReverse(r, n - 1, f, g1);
      assert AddComm(r, Sum(r, n - 1, f), f(n - 1));
    }
  }

  lemma {:induction false} SumScale<T(!new)>(r: Ring<T>, n: nat, c: T, f: int -> T, g: int -> T)
    requires IsRing(r) && forall j :: 0 <= j < n ==> g(j) == r.mul(c, f(j))
    ensures Sum(r, n, g) == r.mul(c, Sum(r, n, f))
  {
    if n == 0 {
      MulZero(r, c);
    } else {
      SumScale(r, n - 1, c, f, g);
      assert Distrib(r, c, Sum(r, n - 1, f), f(n - 1));
    }
  }

  lemma {:induction false} SumAdd<T(!new)>(r: Ring<T>, n: nat, f: int -> T, g: int -> T, h: int -> T)
    requires IsRing(r) && forall j :: 0 <= j < n ==> h(j) == r.add(f(j), g(j))
    ensures Sum(r, n, h) == r.add(Sum(r, n, f), Sum(r, n, g))
  {
    if n == 0 {
      assert AddZero(r, r.zero);
    } else {
      SumAdd(r, n - 1, f, g, h);
      AddExchange(r, Sum(r, n - 1, f), Sum(r, n - 1, g), f(n - 1), g(n - 1));
    }
  }

  function Row<T>(cell: (int, int) -> T, i: int): int -> T {
    (j: int) => cell(i, j)
  }

  function Column<T>(cell: (int, int) -> T, j: int): int -> T {
    (i: int) => cell(i, j)
  }

  /** Two nested sums in either order. */
  lemma {:induction false} SumExchange<T(!new)>(r: Ring<T>, m: nat, n: nat, cell: (int, int) -> T, rows: int -> T,
                                                columns: int -> T)
    requires IsRing(r)
    requires forall i :: 0 <= i < m ==> rows(i) == Sum(r, n, Row(cell, i))
    requires forall j :: 0 <= j < n ==> columns(j) == Sum(r, m, Column(cell, j))
    ensures Sum(r, m, rows) == Sum(r, n, columns)
  {
    if m == 0 {
      SumZero(r, n, columns);
    } else {
      var shorter := (j: int) => Sum(r, m - 1, Column(cell, j));
      SumExchange(r, m - 1, n, cell, rows, shorter);
      SumAdd(r, n, shorter, Row(cell, m - 1), columns);
    }
  }
}
