/** Exact integer model of the connectors' log-scale normalisation
      score = Math.round(min(max(log10(count) / D * 100, 0), 100))   for count > 0, else 0.
    For a count c >= 1 the value 100·log10(c)/D is never negative, and half-up rounding
    gives a result of at least k (1 <= k <= 100) exactly when
      100·log10(c)/D >= k - 1/2   <=>   10^((2k-1)·D) <= c^200.
    So the normalised score is the largest k <= 100 passing that test, computed here
    without floating point and without any assumed fact about log10. */
module LogScale {

  function Pow(b: nat, e: nat): (r: nat)
    decreases e
  {
    if e == 0 then 1 else b * Pow(b, e - 1)
  }

  lemma {:induction false} PowOfOne(e: nat)
    ensures Pow(1, e) == 1
  {
    if e > 0 { PowOfOne(e - 1); }
  }

  lemma {:induction false} PowPositive(b: nat, e: nat)
    requires b >= 1
    ensures Pow(b, e) >= 1
  {
    if e > 0 { PowPositive(b, e - 1); }
  }

  lemma {:induction false} PowMonotoneBase(a: nat, b: nat, e: nat)
    requires a <= b
    ensures Pow(a, e) <= Pow(b, e)
  {
    if e > 0 {
      PowMonotoneBase(a, b, e - 1);
      MulMonotone(a, Pow(a, e - 1), b, Pow(b, e - 1));
    }
  }

  lemma MulMonotone(a: nat, x: nat, b: nat, y: nat)
    requires a <= b && x <= y
    ensures a * x <= b * y
  {
    assert a * x <= b * x;
    assert b * x <= b * y;
  }

  /** Powers of ten grow strictly with the exponent. */
  lemma {:induction false} PowTenStrict(e1: nat, e2: nat)
    requires e1 < e2
    ensures Pow(10, e1) < Pow(10, e2)
    decreases e2
  {
    PowPositive(10, e2 - 1);
    if e1 < e2 - 1 {
      PowTenStrict(e1, e2 - 1);
    }
  }

  lemma PowTenMonotone(e1: nat, e2: nat)
    requires e1 <= e2
    ensures Pow(10, e1) <= Pow(10, e2)
  {
    if e1 < e2 { PowTenStrict(e1, e2); }
  }

  lemma {:induction false} PowAdd(b: nat, m: nat, n: nat)
    ensures Pow(b, m + n) == Pow(b, m) * Pow(b, n)
    decreases n
  {
    if n > 0 {
      PowAdd(b, m, n - 1);
      assert Pow(b, m + n) == b * Pow(b, m + n - 1);
    }
  }

  lemma {:induction false} PowPow(b: nat, m: nat, n: nat)
    ensures Pow(Pow(b, m), n) == Pow(b, m * n)
    decreases n
  {
    if n > 0 {
      PowPow(b, m, n - 1);
      PowAdd(b, m, m * (n - 1));
      assert m + m * (n - 1) == m * n;
    }
  }

  /** Math.round(min(100·log10(c)/d, 100)) >= k, decided exactly in integers. */
  predicate RoundsAtLeast(c: nat, d: nat, k: nat)
  {
    k == 0 || (k <= 100 && Pow(10, (2 * k - 1) * d) <= Pow(c, 200))
  }

  /** Passing the test for k + 1 implies passing it for k. */
  lemma RoundsAtLeastDownward(c: nat, d: nat, k: nat)
    requires RoundsAtLeast(c, d, k + 1)
    ensures RoundsAtLeast(c, d, k)
  {
    if k > 0 {
      MulMonotone(2 * k - 1, d, 2 * k + 1, d);
      PowTenMonotone((2 * k - 1) * d, (2 * (k + 1) - 1) * d);
    }
  }

  lemma RoundsAtLeastBelow(c: nat, d: nat, j: nat, k: nat)
    requires j <= k && RoundsAtLeast(c, d, k)
    ensures RoundsAtLeast(c, d, j)
    decreases k - j
  {
    if j < k {
      RoundsAtLeastDownward(c, d, k - 1);
      RoundsAtLeastBelow(c, d, j, k - 1);
    }
  }

  /** The largest j <= k that passes the rounding test. */
  function Highest(c: nat, d: nat, k: nat): (r: nat)
    ensures r <= k && RoundsAtLeast(c, d, r)
    ensures forall j :: r < j <= k ==> !RoundsAtLeast(c, d, j)
    decreases k
  {
    if k == 0 || RoundsAtLeast(c, d, k) then k else Highest(c, d, k - 1)
  }

  /** The shared normaliser, with divisor d (6, 7, 9 or 3 in the four connectors). */
  function Normalize(count: int, d: nat): (r: nat)
    ensures r <= 100
    ensures count <= 0 ==> r == 0
  {
    if count <= 0 then 0 else Highest(count, d, 100)
  }

  /** For a positive count the result is exactly half-up rounding of the clamped score:
      it passes the test for r and fails it for r + 1 (unless r is already 100). */
  lemma NormalizeIsRounding(count: int, d: nat)
    requires count >= 1
    ensures RoundsAtLeast(count, d, Normalize(count, d))
    ensures Normalize(count, d) == 100 || !RoundsAtLeast(count, d, Normalize(count, d) + 1)
  {
  }

  lemma NormalizeMonotone(c1: int, c2: int, d: nat)
    requires c1 <= c2
    ensures Normalize(c1, d) <= Normalize(c2, d)
  {
    if c1 >= 1 {
      var r1 := Normalize(c1, d);
      if r1 > 0 {
        PowMonotoneBase(c1, c2, 200);
        assert RoundsAtLeast(c2, d, r1);
      }
    }
  }

  /** log10(1) = 0: a count of one scores 0. */
  lemma NormalizeOne(d: nat)
    requires d >= 1
    ensures Normalize(1, d) == 0
  {
    var r := Normalize(1, d);
    if r > 0 {
      assert RoundsAtLeast(1, d, r);
      PowOfOne(200);
      var e := (2 * r - 1) * d;
      assert e >= 1 by { MulMonotone(1, 1, 2 * r - 1, d); }
      PowTenStrict(0, e);
      assert false;
    }
  }

  /** Counts of at least 10^d reach the cap of 100. */
  lemma NormalizeSaturates(count: int, d: nat)
    requires count >= Pow(10, d) && count >= 1
    ensures Normalize(count, d) == 100
  {
    PowPow(10, d, 200);
    PowMonotoneBase(Pow(10, d), count, 200);
    PowTenMonotone(199 * d, d * 200);
    assert RoundsAtLeast(count, d, 100);
  }

  lemma PowTenCompare(e: nat, t: nat)
    ensures Pow(10, e) <= Pow(10, t) <==> e <= t
  {
    if e <= t {
      PowTenMonotone(e, t);
    } else {
      PowTenStrict(t, e);
    }
  }

  /** On 10^m the rounding test for k >= 1 is (2k-1)·d <= 200·m, that is k <= (200·m + d) div (2·d). */
  lemma PowerOfTenTest(m: nat, d: nat, k: nat)
    requires d >= 1 && 1 <= k <= 100
    ensures RoundsAtLeast(Pow(10, m), d, k) <==> k <= (200 * m + d) / (2 * d)
  {
    var c := Pow(10, m);
    var e := (2 * k - 1) * d;
    var t := m * 200;
    assert RoundsAtLeast(c, d, k) <==> Pow(10, e) <= Pow(c, 200);
    PowPow(10, m, 200);
    assert Pow(c, 200) == Pow(10, t);
    PowTenCompare(e, t);
    HalfUpExponent(m, d, k);
  }

  /** (2k-1)·d <= 200·m exactly when k <= (200·m + d) div (2·d). */
  lemma HalfUpExponent(m: nat, d: nat, k: nat)
    requires d >= 1 && k >= 1
    ensures (2 * k - 1) * d <= m * 200 <==> k <= (200 * m + d) / (2 * d)
  {
    var e := (2 * k - 1) * d;
    var b := 2 * d;
    assert k * b == e + d by {
      assert (2 * k - 1) * d == 2 * k * d - d;
    }
    DivBound(200 * m + d, b, k);
  }

  /** log10(10^m) = m: on an exact power of ten the score is min(100, round(100·m/d)),
      where round(100·m/d) = (200·m + d) div (2·d). */
  lemma NormalizePowerOfTen(m: nat, d: nat)
    requires d >= 1
    ensures Normalize(Pow(10, m), d) == if (200 * m + d) / (2 * d) < 100 then (200 * m + d) / (2 * d) else 100
  {
    NormalizePowerOfTenAt(m, d, (200 * m + d) / (2 * d));
  }

  lemma NormalizePowerOfTenAt(m: nat, d: nat, q: nat)
    requires d >= 1 && q == (200 * m + d) / (2 * d)
    ensures Normalize(Pow(10, m), d) == if q < 100 then q else 100
  {
    PowPositive(10, m);
    forall k | 1 <= k <= 100
      ensures RoundsAtLeast(Pow(10, m), d, k) <==> k <= q
    {
      PowerOfTenTest(m, d, k);
    }
    NormalizeOfThreshold(Pow(10, m), d, q);
  }

  /** When the rounding test passes exactly up to some q, the score is min(q, 100). */
  lemma NormalizeOfThreshold(c: nat, d: nat, q: nat)
    requires c >= 1
    requires forall k :: 1 <= k <= 100 ==> (RoundsAtLeast(c, d, k) <==> k <= q)
    ensures Normalize(c, d) == if q < 100 then q else 100
  {
    var target := if q < 100 then q else 100;
    var r := Highest(c, d, 100);
    assert Normalize(c, d) == r;
    if target > 0 {
      assert RoundsAtLeast(c, d, target);
    }
    assert target <= r;
  }

  /** k <= a div b exactly when k·b <= a, for a positive divisor. */
  lemma DivBound(a: nat, b: nat, k: nat)
    requires b >= 1
    ensures k <= a / b <==> k * b <= a
  {
    var q := a / b;
    assert a == q * b + a % b;
    if k <= q {
      MulMonotone(k, b, q, b);
    } else {
      MulMonotone(q + 1, b, k, b);
    }
  }
}
