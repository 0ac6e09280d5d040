/** The pass@k estimator: a product over reals that must be the combinatorial one. */
module PassAtK {
  /** The product of 1 - k / x for x from lo + 1 to hi. */
  function Product(lo: nat, hi: nat, k: nat): real
    decreases hi
  {
    if hi <= lo then 1.0 else Product(lo, hi - 1, k) * (1.0 - k as real / hi as real)
  }

  /** Chance that k of n attempts, c of them correct, include a correct one. */
  function PassAtK(n: nat, c: nat, k: nat): real
    requires c <= n
  {
    if n - c < k then 1.0 else 1.0 - Product(n - c, n, k)
  }

  /** Binomial coefficients by Pascal's rule: the subsets of size k with and without the last element. */
  function Choose(n: nat, k: nat): nat {
    if k == 0 then 1 else if n == 0 then 0 else Choose(n - 1, k - 1) + Choose(n - 1, k)
  }

  lemma {:induction false} ChooseNone(n: nat, k: nat)
    requires n < k
    ensures Choose(n, k) == 0
  {
    if n > 0 {
      ChooseNone(n - 1, k - 1);
      ChooseNone(n - 1, k);
    }
  }

  lemma {:induction false} ChooseSome(n: nat, k: nat)
    requires k <= n
    ensures Choose(n, k) > 0
  {
    if k > 0 { ChooseSome(n - 1, k - 1); }
  }

  lemma Distribute(h: nat, a: nat, b: nat)
    ensures a + h * b + h * (a - b) == (h + 1) * a
  {
  }

  lemma AbsorbStep(n: nat, k: nat, a: nat, b: nat, d: nat, e: nat)
    requires n > 1 && k > 0
    requires k * b == (n - 1) * e && (k - 1) * a == (n - 1) * d && a == d + e
    ensures k * (a + b) == n * a
  {
    calc {
      k * (a + b);
      (k - 1) * a + a + k * b;
      (n - 1) * d + a + (n - 1) * e;
      (n - 1) * (d + e) + a;
      n * a;
    }
  }

  /** Picking a subset and one of its elements, in either order. */
  lemma {:induction false} Absorb(n: nat, k: nat)
    requires n > 0 && k > 0
    ensures k * Choose(n, k) == n * Choose(n - 1, k - 1)
  {
    if n == 1 {
      if k > 1 { ChooseNone(1, k); ChooseNone(0, k - 1); }
    } else {
      Absorb(n - 1, k);
      if k > 1 { Absorb(n - 1, k - 1); }
      AbsorbStep(n, k, Choose(n - 1, k - 1), Choose(n - 1, k),
        if k > 1 then Choose(n - 2, k - 2) else 0, Choose(n - 2, k - 1));
    }
  }

  /** Without one of n elements: (n - k) C(n, k) = n C(n - 1, k). */
  lemma Drop(n: nat, k: nat)
    requires n > 0 && k <= n
    ensures (n - k) * Choose(n, k) == n * Choose(n - 1, k)
  {
    if k > 0 {
      Absorb(n, k);
      assert n * (Choose(n - 1, k - 1) + Choose(n - 1, k)) == n * Choose(n - 1, k - 1) + n * Choose(n - 1, k);
    }
  }

  lemma DropReal(n: nat, k: nat, p: real, all: nat, fewer: nat)
    requires n > 0 && (n - k) * all == n * fewer
    ensures p * (1.0 - k as real / n as real) * all as real == p * fewer as real
  {
    var x := k as real / n as real;
    assert x * n as real == k as real;
    assert (n as real) * ((1.0 - x) * all as real) == (n - k) as real * all as real;
    assert ((n - k) * all) as real == (n - k) as real * all as real;
    assert (n * fewer) as real == n as real * fewer as real;
    assert (1.0 - x) * all as real == fewer as real;
  }

  lemma CountStep(hi: nat, k: nat, p: real, q: real, all: real, fewer: real)
    requires 0 < hi && k <= hi && all == Choose(hi, k) as real && fewer == Choose(hi - 1, k) as real
    requires p == q * (1.0 - k as real / hi as real)
    ensures p * all == q * fewer
  {
    Drop(hi, k);
    DropReal(hi, k, q, Choose(hi, k), Choose(hi - 1, k));
  }

  /** The product is the ratio of the two counts. */
  lemma {:induction false} ProductCounts(lo: nat, hi: nat, k: nat, p: real, all: real, some: real)
    requires k <= lo <= hi && p == Product(lo, hi, k) && all == Choose(hi, k) as real && some == Choose(lo, k) as real
    ensures p * all == some
    decreases hi
  {
    if lo < hi {
      var q, fewer := Product(lo, hi - 1, k), Choose(hi - 1, k) as real;
      ProductCounts(lo, hi - 1, k, q, fewer, some);
      CountStep(hi, k, p, q, all, fewer);
    }
  }

  lemma Quotient(p: real, all: real, some: real)
    requires all > 0.0 && p * all == some
    ensures p == some / all
  {
  }

  /** pass@k is one minus the share of k-subsets without a correct attempt. */
  lemma IsCombinatorial(n: nat, c: nat, k: nat)
    requires c <= n && 1 <= k <= n
    ensures Choose(n, k) > 0
    ensures PassAtK(n, c, k) == 1.0 - Choose(n - c, k) as real / Choose(n, k) as real
  {
    ChooseSome(n, k);
    if n - c < k {
      ChooseNone(n - c, k);
    } else {
      ProductCounts(n - c, n, k, Product(n - c, n, k), Choose(n, k) as real, Choose(n - c, k) as real);
      Quotient(Product(n - c, n, k), Choose(n, k) as real, Choose(n - c, k) as real);
    }
  }

  lemma CancelOrder(p: real, q: real, x: real)
    requires p * x <= q * x && x > 0.0
    ensures p <= q
  {
  }

  lemma DivideOrder(a: real, b: real, x: real)
    requires a <= b && x > 0.0
    ensures a / x <= b / x
  {
    var p, q := a / x, b / x;
    assert p * x == a && q * x == b;
    CancelOrder(p, q, x);
  }

  lemma Share(k: nat, k': nat, x: nat)
    requires k <= k' <= x && x > 0
    ensures 0.0 <= 1.0 - k' as real / x as real <= 1.0 - k as real / x as real <= 1.0
  {
    DivideOrder(0.0, k as real, x as real);
    DivideOrder(k as real, k' as real, x as real);
    DivideOrder(k' as real, x as real, x as real);
  }

  lemma TimesOrder(a: real, b: real, c: real, d: real)
    requires 0.0 <= a <= b <= 1.0 && 0.0 <= c <= d <= 1.0
    ensures 0.0 <= a * c <= b * d <= 1.0
  {
    assert 0.0 <= a * c <= b * c;
    assert b * c <= b * d;
    assert b * d <= 1.0 * d;
  }

  /** Drawing more attempts never raises the product. */
  lemma {:induction false} ProductOrder(lo: nat, hi: nat, k: nat, k': nat)
    requires k <= k' <= lo
    ensures 0.0 <= Product(lo, hi, k') <= Product(lo, hi, k) <= 1.0
    decreases hi
  {
    if lo < hi {
      ProductOrder(lo, hi - 1, k, k');
      Share(k, k', hi);
      TimesOrder(Product(lo, hi - 1, k'), Product(lo, hi - 1, k), 1.0 - k' as real / hi as real,
        1.0 - k as real / hi as real);
    }
  }

  /** One more factor on both sides keeps the order of two products. */
  lemma {:induction false} NextFactor(lo: nat, lo': nat, hi: nat, k: nat)
    requires k <= lo < hi && k <= lo' < hi && Product(lo, hi - 1, k) <= Product(lo', hi - 1, k)
    ensures Product(lo, hi, k) <= Product(lo', hi, k)
  {
    Share(k, k, hi);
    ProductOrder(lo, hi - 1, k, k);
    ProductOrder(lo', hi - 1, k, k);
    TimesOrder(Product(lo, hi - 1, k), Product(lo', hi - 1, k), 1.0 - k as real / hi as real,
      1.0 - k as real / hi as real);
  }

  /** A longer product is no larger. */
  lemma {:induction false} ProductLonger(lo: nat, hi: nat, k: nat)
    requires k <= lo < hi
    ensures Product(lo, hi, k) <= Product(lo + 1, hi, k)
    decreases hi
  {
    if lo + 1 < hi {
      ProductLonger(lo, hi - 1, k);
      NextFactor(lo, lo + 1, hi, k);
    } else {
      ProductOrder(lo, hi, k, k);
    }
  }

  /** It is a probability, and grows with more correct attempts and with more draws. */
  lemma IsMonotone(n: nat, c: nat, k: nat)
    requires c <= n && 1 <= k <= n
    ensures 0.0 <= PassAtK(n, c, k) <= 1.0
    ensures c < n ==> PassAtK(n, c, k) <= PassAtK(n, c + 1, k)
    ensures k < n ==> PassAtK(n, c, k) <= PassAtK(n, c, k + 1)
  {
    if k <= n - c {
      ProductOrder(n - c, n, k, k);
      if c < n && k <= n - c - 1 { ProductLonger(n - c - 1, n, k); }
      if k + 1 <= n - c { ProductOrder(n - c, n, k, k + 1); }
    }
  }
}
