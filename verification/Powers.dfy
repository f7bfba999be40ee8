/** Powers of two, base-two logarithms and the integer division facts about them. */
module Powers {

  function Pow2(k: nat): (r: nat)
    ensures r >= 1
  {
    if k == 0 then 1 else 2 * Pow2(k - 1)
  }

  /** The exponent of the largest power of two not above `n`. */
  function FloorLog2(n: nat): (k: nat)
    requires n >= 1
    ensures Pow2(k) <= n < Pow2(k + 1)
  {
    if n == 1 then 0 else FloorLog2(n / 2) + 1
  }

  lemma {:induction false} PowersGrow(j: nat, k: nat)
    requires j < k
    ensures Pow2(j) < Pow2(k)
  {
    if j + 1 < k {
      PowersGrow(j, k - 1);
    }
  }

  lemma {:induction false} LogBounds(n: nat, k: nat)
    requires n >= 1 && Pow2(k) <= n
    ensures k <= FloorLog2(n)
  {
    if k > FloorLog2(n) + 1 {
      PowersGrow(FloorLog2(n) + 1, k);
    }
  }

  lemma {:induction false} ProductsKeepOrder(a: nat, b: nat, c: nat)
    ensures a <= b ==> a * c <= b * c
  {
  }

  lemma {:induction false} QuotientBelow(n: nat, d: nat)
    requires d >= 1
    ensures n / d <= n && (d <= n ==> n / d >= 1)
  {
    assert n == d * (n / d) + n % d;
    ProductsKeepOrder(1, d, n / d);
    assert n / d == 0 ==> d * (n / d) == 0;
  }

  lemma {:induction false} HalvingAgain(n: nat, k: nat)
    requires n / Pow2(k) > 1
    ensures (n / Pow2(k)) / 2 == n / Pow2(k + 1) && Pow2(k + 1) <= n
  {
    var p := Pow2(k);
    var q := n / p;
    assert n == p * q + n % p;
    HalfQuotient(n, p, q);
  }

  lemma {:induction false} HalfQuotient(n: nat, p: nat, q: nat)
    requires p >= 1 && p * q <= n < p * q + p && q > 1
    ensures n / (2 * p) == q / 2 && 2 * p <= n
  {
    var h := q / 2;
    ProductsKeepOrder(2 * h, q, p);
    ProductsKeepOrder(q, 2 * h + 1, p);
    ProductsKeepOrder(2, q, p);
    Doubled(p, h);
    assert p * q == q * p;
    hide *;
    QuotientIs(n, 2 * p, h);
  }

  lemma {:induction false} Doubled(p: nat, h: nat)
    ensures (2 * h) * p == (2 * p) * h && (2 * h + 1) * p == (2 * p) * h + p
  {
  }

  lemma {:induction false} QuotientIs(n: nat, d: nat, h: nat)
    requires d >= 1 && d * h <= n < d * h + d
    ensures n / d == h
  {
    var q := n / d;
    assert n == d * q + n % d;
    ProductsKeepOrder(q + 1, h, d);
    ProductsKeepOrder(h + 1, q, d);
    assert (q + 1) * d == d * q + d && (h + 1) * d == d * h + d;
  }

  lemma {:induction false} QuotientAtLeast(n: nat, d: nat, q: nat)
    requires d >= 1 && d * q <= n
    ensures q <= n / d
  {
    assert n == d * (n / d) + n % d;
    ProductsKeepOrder(n / d + 1, q, d);
    assert (n / d + 1) * d == d * (n / d) + d;
  }

  lemma {:induction false} LogOfRatio(c: nat, first: nat, floor: nat, ceiling: nat)
    requires 1 <= floor <= first && Pow2(c) * first <= ceiling && floor <= ceiling
    ensures ceiling / floor >= 1 && c <= FloorLog2(ceiling / floor)
  {
    QuotientAtLeast(ceiling, floor, 1);
    assert Pow2(c) * floor <= Pow2(c) * first;
    assert floor * Pow2(c) == Pow2(c) * floor;
    QuotientAtLeast(ceiling, floor, Pow2(c));
    LogBounds(ceiling / floor, c);
  }
}
