/** static_cast<double> of a 64-bit total: rounding to 53 significant bits, ties to even. */
module Doubles {

  const EXACT: nat := 0x20_0000_0000_0000      // 2^53
  const HALF: nat := 0x10_0000_0000_0000       // 2^52

  function Pow2(e: nat): (p: nat)
    ensures p >= 1
  {
    if e == 0 then 1 else 2 * Pow2(e - 1)
  }

  function Scaled(m: nat, e: nat): nat { m * Pow2(e) }

  /** The whole numbers a double can hold: 53 bits times a power of two. */
  ghost predicate IsDouble(d: nat)
  {
    exists m: nat, e: nat :: m < EXACT && d == Scaled(m, e)
  }

  /** The exponent of the spacing of doubles at n. */
  function Exponent(n: nat): nat
  {
    if n < EXACT then 0 else 1 + Exponent(n / 2)
  }

  /** The distance between neighbouring doubles at n. */
  function Ulp(n: nat): (u: nat)
    ensures u >= 1
  {
    Pow2(Exponent(n))
  }

  /** The nearest double, of two nearest ones the one with the even significand. */
  function ToDouble(n: nat): (d: nat)
  {
    var u := Ulp(n);
    var q, r := n / u, n % u;
    if 2 * r < u || (2 * r == u && q % 2 == 0) then q * u else (q + 1) * u
  }

  // ------------------------------------------------------------------ the spacing

  /** Above 2^53 a number has exactly 53 bits in units of its spacing. */
  lemma {:induction false} UlpBounds(n: nat)
    requires n >= EXACT
    ensures HALF * Ulp(n) <= n < EXACT * Ulp(n)
  {
    if n / 2 >= EXACT {
      UlpBounds(n / 2);
    }
  }

  lemma {:induction false} Pow2Sum(a: nat, b: nat)
    ensures Pow2(a + b) == Pow2(a) * Pow2(b)
  {
    if a > 0 {
      Pow2Sum(a - 1, b);
      MulAssoc(2, Pow2(a - 1), Pow2(b));
    }
  }

  lemma MulAssoc(a: nat, b: nat, c: nat)
    ensures (a * b) * c == a * (b * c)
  {
  }

  lemma MulMono(a: nat, b: nat, c: nat)
    requires a <= b
    ensures a * c <= b * c
  {
  }

  /** The two multiples of u around n. */
  lemma DivMod(n: nat, u: nat)
    requires u > 0
    ensures n == (n / u) * u + n % u
    ensures (n / u + 1) * u == (n / u) * u + u
  {
  }

  // ------------------------------------------------------------------ ToDouble is the conversion

  /** The result is within half a spacing, and on a tie the significand is even. */
  lemma WithinHalf(n: nat)
    ensures var d, u := ToDouble(n), Ulp(n);
            && (d == (n / u) * u || d == (n / u) * u + u)
            && 2 * (d - n) <= u && 2 * (n - d) <= u
  {
    DivMod(n, Ulp(n));
  }

  lemma SmallIsExact(n: nat)
    requires n <= EXACT
    ensures ToDouble(n) == n
  {
    assert Pow2(0) == 1;
    if n == EXACT {
      assert Exponent(n / 2) == 0 && Exponent(n) == 1;
      assert Pow2(1) == 2;
    }
  }

  lemma SmallIsDouble(n: nat)
    requires n < EXACT
    ensures IsDouble(n)
  {
    assert n == Scaled(n, 0);
  }

  /** m units of a power of two are a double as long as m does not exceed 2^53. */
  lemma UnitsAreDouble(m: nat, e: nat)
    requires m <= EXACT
    ensures IsDouble(m * Pow2(e))
  {
    if m == EXACT {
      assert Pow2(e + 1) == 2 * Pow2(e);
      assert EXACT * Pow2(e) == Scaled(HALF, e + 1);
    } else {
      assert m * Pow2(e) == Scaled(m, e);
    }
  }

  lemma IsRounded(n: nat)
    ensures IsDouble(ToDouble(n))
  {
    if n < EXACT {
      SmallIsExact(n);
      SmallIsDouble(n);
    } else {
      var u := Ulp(n);
      DivMod(n, u);
      UlpBounds(n);
      QuotientBelow(n, u, EXACT);
      UnitsAreDouble(n / u, Exponent(n));
      UnitsAreDouble(n / u + 1, Exponent(n));
    }
  }

  lemma QuotientBelow(n: nat, u: nat, k: nat)
    requires u > 0 && n < k * u
    ensures n / u < k
  {
    if n / u >= k {
      MulMono(k, n / u, u);
      DivMod(n, u);
    }
  }

  lemma QuotientAbove(n: nat, u: nat, k: nat)
    requires u > 0 && k * u <= n
    ensures n / u >= k
  {
    if n / u < k {
      MulMono(n / u + 1, k, u);
      DivMod(n, u);
    }
  }

  /** A multiple of u is on one side of the two multiples around n. */
  lemma MultipleOutside(n: nat, u: nat, m: nat)
    requires u > 0
    ensures m * u <= (n / u) * u || (n / u) * u + u <= m * u
  {
    DivMod(n, u);
    if m <= n / u {
      MulMono(m, n / u, u);
    } else {
      MulMono(n / u + 1, m, u);
    }
  }

  /** No double lies strictly between the two multiples of the spacing around n. */
  lemma NoDoubleBetween(n: nat, d: nat)
    requires IsDouble(d) && n >= EXACT
    ensures var u := Ulp(n); d <= (n / u) * u || (n / u) * u + u <= d
  {
    var m: nat, f: nat :| m < EXACT && d == Scaled(m, f);
    var e, u := Exponent(n), Ulp(n);
    UlpBounds(n);
    if f >= e {
      Pow2Sum(f - e, e);
      MulAssoc(m, Pow2(f - e), u);
      MultipleOutside(n, u, m * Pow2(f - e));
    } else {
      CoarserBelow(m, f, e);
      QuotientAbove(n, u, HALF);
      MulMono(HALF, n / u, u);
    }
  }

  lemma CoarserBelow(m: nat, f: nat, e: nat)
    requires m < EXACT && f < e
    ensures m * Pow2(f) <= HALF * Pow2(e)
  {
    Pow2Sum(e - 1 - f, f);
    assert Pow2(e) == 2 * Pow2(e - 1);
    MulMono(1, Pow2(e - 1 - f), Pow2(f));
    MulMono(m, EXACT, Pow2(f));
    assert EXACT * Pow2(f) <= EXACT * Pow2(e - 1) == HALF * Pow2(e);
  }

  function Distance(a: nat, b: nat): nat { if a <= b then b - a else a - b }

  /** The conversion gives a double, and no double is nearer. */
  lemma ToDoubleIsNearest(n: nat, d: nat)
    requires IsDouble(d)
    ensures IsDouble(ToDouble(n)) && Distance(n, ToDouble(n)) <= Distance(n, d)
  {
    IsRounded(n);
    if n < EXACT {
      SmallIsExact(n);
    } else {
      WithinHalf(n);
      NoDoubleBetween(n, d);
      DivMod(n, Ulp(n));
    }
  }

  /** Of two doubles equally near the one with the even significand is taken. */
  lemma TiesToEven(n: nat)
    requires n >= EXACT && 2 * (n % Ulp(n)) == Ulp(n)
    ensures ToDouble(n) / Ulp(n) % 2 == 0
  {
    var u := Ulp(n);
    var q := n / u;
    DivMod(n, u);
    MultipleQuotient(q, u);
    MultipleQuotient(q + 1, u);
  }

  lemma MultipleQuotient(q: nat, u: nat)
    requires u > 0
    ensures (q * u) / u == q && (q * u) % u == 0
  {
    DivMod(q * u, u);
    if (q * u) / u < q {
      MulMono((q * u) / u + 1, q, u);
    }
  }

  /** A total survives the conversion exactly when it is a double, which is when it is a multiple
      of the local spacing; up to 2^53 every total does. */
  lemma StoredExactly(n: nat)
    ensures ToDouble(n) == n <==> IsDouble(n)
    ensures ToDouble(n) == n <==> n % Ulp(n) == 0
    ensures n <= EXACT ==> ToDouble(n) == n
  {
    IsRounded(n);
    DivMod(n, Ulp(n));
    if IsDouble(n) {
      ToDoubleIsNearest(n, n);
    }
    if n <= EXACT {
      SmallIsExact(n);
    }
  }

  lemma Idempotent(n: nat)
    ensures ToDouble(ToDouble(n)) == ToDouble(n)
  {
    IsRounded(n);
    StoredExactly(ToDouble(n));
  }

  /** A 64-bit total is stored as at most 2^64. */
  lemma WideTotal(n: nat)
    requires n < 0x1_0000_0000_0000_0000
    ensures ToDouble(n) <= 0x1_0000_0000_0000_0000
  {
    assert 0x1_0000_0000_0000_0000 == HALF * Pow2(12) by {
      Pow2Sum(6, 6);
      assert Pow2(3) == 8 && Pow2(6) == 64;
    }
    UnitsAreDouble(HALF, 12);
    ToDoubleIsNearest(n, 0x1_0000_0000_0000_0000);
  }
}
