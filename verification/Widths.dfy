/** The machine integers of the scheduler and of the model wrapper, and rounding to multiples. */
module Widths {

  const INT_MAX: int := 0x7fff_ffff
  const TWO_32: int := 0x1_0000_0000
  const TWO_64: int := 0x1_0000_0000_0000_0000
  const LONG_MAX: int := 0x7fff_ffff_ffff_ffff

  /** A truth value as a number. */
  function If(b: bool): nat {
    if b then 1 else 0
  }

  /** Conversion to a 32-bit unsigned integer. */
  function ToUInt(n: int): nat { n % TWO_32 }

  /** Conversion to a 32-bit signed integer. */
  function ToInt(n: int): int {
    if n % TWO_32 <= INT_MAX then n % TWO_32 else n % TWO_32 - TWO_32
  }

  /** Conversion to a 64-bit signed integer. */
  function ToLong(n: int): int {
    if n % TWO_64 <= LONG_MAX then n % TWO_64 else n % TWO_64 - TWO_64
  }

  /** Conversion to size_t. */
  function ToSize(n: int): nat { n % TWO_64 }

  /** Division of machine integers: truncates towards zero. */
  function Quotient(a: int, b: int): int
    requires b != 0
  {
    if a >= 0 then (if b > 0 then a / b else -(a / -b))
    else if b > 0 then -(-a / b) else -a / -b
  }

  /** round_down, with its two parameters narrowed to unsigned int. */
  function RoundDown(n: nat, multiple: nat): nat
    requires ToUInt(multiple) != 0
  {
    var q: nat, m: nat := ToUInt(n) / ToUInt(multiple), ToUInt(multiple);
    Product(q, m);
    q * m
  }

  lemma Product(a: nat, b: nat)
    ensures a * b >= 0
  {
  }

  /** The greatest multiple of `m` up to `n`. */
  function Floor(n: nat, m: nat): nat
    requires m > 0
  {
    n - n % m
  }

  ghost predicate IsGreatestMultiple(r: nat, n: nat, m: nat)
    requires m > 0
  {
    r <= n && r % m == 0 && forall k: nat :: k <= n && k % m == 0 ==> k <= r
  }

  lemma FloorBelow(n: nat, m: nat, k: nat)
    requires m > 0 && k <= n && k % m == 0
    ensures k <= Floor(n, m)
  {
    Divided(n, m);
    Divided(k, m);
    QuotientsOrdered(k, n, m);
    Monotone(k / m, n / m, m);
  }

  lemma QuotientsOrdered(k: nat, n: nat, m: nat)
    requires m > 0 && k <= n
    ensures k / m <= n / m
  {
    Divided(n, m);
    Divided(k, m);
    if k / m > n / m {
      Apart(k / m, n / m, m);
    }
  }

  lemma Monotone(a: int, b: int, m: nat)
    requires a <= b
    ensures a * m <= b * m
  {
    if a < b {
      Apart(b, a, m);
    }
  }

  lemma FloorIsMultiple(n: nat, m: nat)
    requires m > 0
    ensures Floor(n, m) % m == 0 && Floor(n, m) == n / m * m
  {
    Divided(n, m);
    MultipleMod(n / m, m);
  }

  lemma {:induction false} MultipleMod(a: nat, m: nat)
    requires m > 0
    ensures a * m % m == 0 && a * m / m == a
  {
    if a > 0 {
      MultipleMod(a - 1, m);
      assert a * m == (a - 1) * m + m;
      AddOne((a - 1) * m, m);
    }
  }

  lemma DivisionIs(n: int, m: nat, q: int, r: nat)
    requires m > 0 && n == q * m + r && r < m
    ensures n / m == q && n % m == r
  {
    var q', r' := n / m, n % m;
    assert n == q' * m + r' by { Divided(n, m); }
    Factors(q, r, q', r', m);
  }

  lemma Divided(n: int, m: nat)
    requires m > 0
    ensures n == n / m * m + n % m
  {
  }

  lemma Factors(q: int, r: nat, q': int, r': nat, m: nat)
    requires q * m + r == q' * m + r' && r < m && r' < m
    ensures q == q' && r == r'
  {
    if q > q' {
      Apart(q, q', m);
    } else if q < q' {
      Apart(q', q, m);
    }
  }

  lemma {:induction false} Apart(a: int, b: int, m: nat)
    requires a > b
    ensures a * m >= b * m + m
    decreases a - b
  {
    assert a * m == (a - 1) * m + m;
    if a > b + 1 {
      Apart(a - 1, b, m);
    }
  }

  lemma AddOne(n: nat, m: nat)
    requires m > 0
    ensures (n + m) % m == n % m && (n + m) / m == n / m + 1
  {
    var q, r := n / m, n % m;
    assert n == q * m + r;
    assert (q + 1) * m == q * m + m;
    DivisionIs(n + m, m, q + 1, r);
  }

  lemma FloorIsGreatest(n: nat, m: nat)
    requires m > 0
    ensures IsGreatestMultiple(Floor(n, m), n, m)
  {
    FloorIsMultiple(n, m);
    forall k: nat | k <= n && k % m == 0
      ensures k <= Floor(n, m)
    {
      FloorBelow(n, m, k);
    }
  }

  lemma RoundDownIs(n: nat, m: nat)
    requires n <= INT_MAX && ToUInt(m) != 0
    ensures RoundDown(n, m) == Floor(n, ToUInt(m))
  {
    hide Floor;
    DivisionIs(n, TWO_32, 0, n);
    FloorIsMultiple(n, ToUInt(m));
  }

  lemma NarrowKeeps(m: nat)
    requires m < TWO_32
    ensures ToUInt(m) == m
  {
    DivisionIs(m, TWO_32, 0, m);
  }

  lemma NarrowBelow(m: nat)
    ensures ToUInt(m) <= m
  {
    Divided(m, TWO_32);
  }

  /** Below the multiple only nothing is a multiple. */
  lemma FloorBelowMultiple(n: nat, m: nat)
    requires n < m
    ensures Floor(n, m) == 0
  {
    DivisionIs(n, m, 0, n);
  }

  /** A positive number below `m` is no multiple of it. */
  lemma NoMultiple(n: nat, m: nat)
    requires 0 < n < m
    ensures n % m != 0
  {
    DivisionIs(n, m, 0, n);
  }

  lemma FloorPositive(n: nat, m: nat)
    requires 0 < m <= n
    ensures Floor(n, m) > 0
  {
    DivisionIs(m, m, 1, 0);
    FloorBelow(n, m, m);
  }

  /** The narrowing in round_down loses nothing exactly when the multiple fits 32 bits or nothing is left of
      the count anyway: for every count an int can hold and every multiple it can divide by, the result is the
      greatest multiple up to the count if and only if one of the two holds. */
  lemma RoundDownExact(n: nat, m: nat)
    requires n <= INT_MAX && ToUInt(m) != 0
    ensures IsGreatestMultiple(RoundDown(n, m), n, m) <==> m < TWO_32 || n < ToUInt(m)
  {
    hide RoundDown; hide Floor; hide ToUInt;
    RoundDownIs(n, m);
    NarrowBelow(m);
    if m < TWO_32 || n < ToUInt(m) {
      FloorAgrees(n, m);
      FloorIsGreatest(n, m);
    } else {
      FloorPositive(n, ToUInt(m));
      NotTheGreatest(n, m);
    }
  }

  lemma FloorAgrees(n: nat, m: nat)
    requires ToUInt(m) != 0 && (m < TWO_32 || n < ToUInt(m))
    ensures m > 0 && Floor(n, ToUInt(m)) == Floor(n, m)
  {
    hide Floor; hide ToUInt;
    NarrowBelow(m);
    if m < TWO_32 {
      NarrowKeeps(m);
    } else {
      FloorBelowMultiple(n, ToUInt(m));
      FloorBelowMultiple(n, m);
    }
  }

  lemma NotTheGreatest(n: nat, m: nat)
    requires n <= INT_MAX && TWO_32 <= m && ToUInt(m) != 0 && RoundDown(n, m) > 0
    ensures !IsGreatestMultiple(RoundDown(n, m), n, m)
  {
    hide RoundDown;
    if RoundDown(n, m) <= n {
      NoMultiple(RoundDown(n, m), m);
    }
  }

  // ---- Conversions compose ----

  lemma MultiplesVanish(n: int, k: int, m: nat)
    requires m > 0
    ensures (n + k * m) % m == n % m
  {
    Divided(n, m);
    assert n + k * m == (n / m + k) * m + n % m;
    DivisionIs(n + k * m, m, n / m + k, n % m);
  }

  lemma FactorReduced(a: int, b: int, m: nat)
    requires m > 0
    ensures (a % m) * b % m == a * b % m
  {
    Divided(a, m);
    var q, r := a / m, a % m;
    assert a * b == r * b + q * b * m by {
      assert a == q * m + r;
      assert (q * m + r) * b == q * m * b + r * b;
      assert q * m * b == q * b * m;
    }
    MultiplesVanish(r * b, q * b, m);
  }

  lemma LongToSize(n: int)
    ensures ToSize(ToLong(n)) == ToSize(n)
  {
    MultiplesVanish(n % TWO_64, -1, TWO_64);
  }

  lemma SizeToInt(n: int)
    ensures ToInt(ToSize(n)) == ToInt(n)
  {
    Divided(n, TWO_64);
    MultiplesVanish(n, -(n / TWO_64) * TWO_32, TWO_32);
  }

  lemma SizeKeeps(n: int)
    requires 0 <= n < TWO_64
    ensures ToSize(n) == n
  {
    DivisionIs(n, TWO_64, 0, n);
  }

  // ---- What the conversions and the division are ----

  /** Two numbers that differ by a multiple of `m` and by less than `m` are equal. */
  lemma SameResidue(a: int, b: int, m: nat)
    requires m > 0 && (a - b) % m == 0 && b - m < a < b + m
    ensures a == b
  {
    if a - b >= 0 {
      DivisionIs(a - b, m, 0, a - b);
    } else {
      DivisionIs(a - b, m, -1, a - b + m);
    }
  }

  lemma WindowIsOne(n: int, r: int, s: int, low: int, m: nat)
    requires m > 0 && low <= r < low + m && low <= s < low + m
    requires (n - s) % m == 0
    ensures r == s <==> (n - r) % m == 0
  {
    if (n - r) % m == 0 {
      Divided(n - r, m);
      Divided(n - s, m);
      var k := (n - s) / m - (n - r) / m;
      assert k * m == r - s by {
        assert k * m == (n - s) / m * m - (n - r) / m * m;
      }
      MultipleIsMultiple(k, m);
      SameResidue(r, s, m);
    }
  }

  lemma MultipleIsMultiple(k: int, m: nat)
    requires m > 0
    ensures k * m % m == 0
  {
    DivisionIs(k * m, m, k, 0);
  }

  lemma Remainder(n: int, m: nat)
    requires m > 0
    ensures (n - n % m) % m == 0 && (n - (n % m - m)) % m == 0
  {
    Divided(n, m);
    MultipleIsMultiple(n / m, m);
    DivisionIs(n - (n % m - m), m, n / m + 1, 0);
  }

  /** Each conversion gives the one number of its range that differs from the given one by a multiple of the size
      of that range. */
  lemma ConversionsExact(n: int, r: int)
    ensures ToUInt(n) == r <==> 0 <= r < TWO_32 && (n - r) % TWO_32 == 0
    ensures ToSize(n) == r <==> 0 <= r < TWO_64 && (n - r) % TWO_64 == 0
    ensures ToInt(n) == r <==> -INT_MAX - 1 <= r <= INT_MAX && (n - r) % TWO_32 == 0
    ensures ToLong(n) == r <==> -LONG_MAX - 1 <= r <= LONG_MAX && (n - r) % TWO_64 == 0
  {
    Remainder(n, TWO_32);
    Remainder(n, TWO_64);
    if 0 <= r < TWO_32 {
      WindowIsOne(n, r, ToUInt(n), 0, TWO_32);
    }
    if 0 <= r < TWO_64 {
      WindowIsOne(n, r, ToSize(n), 0, TWO_64);
    }
    if -INT_MAX - 1 <= r <= INT_MAX {
      WindowIsOne(n, r, ToInt(n), -INT_MAX - 1, TWO_32);
    }
    if -LONG_MAX - 1 <= r <= LONG_MAX {
      WindowIsOne(n, r, ToLong(n), -LONG_MAX - 1, TWO_64);
    }
  }

  function Size(n: int): nat { if n < 0 then -n else n }

  /** Division truncates: the quotient's size is how often the divisor's goes into the dividend's, and its sign is
      that of the two together. */
  lemma QuotientTruncates(a: int, b: int)
    requires b != 0
    ensures var q := Quotient(a, b);
      && Size(q) * Size(b) <= Size(a) < Size(q) * Size(b) + Size(b)
      && (q > 0 ==> (a > 0 <==> b > 0)) && (q < 0 ==> (a > 0 <==> b < 0))
  {
    var n, d := Size(a), Size(b);
    Divided(n, d);
    NotNegative(n, d);
    assert Size(Quotient(a, b)) == n / d;
  }

  lemma NotNegative(n: nat, d: nat)
    requires d > 0
    ensures n / d >= 0
  {
    Divided(n, d);
    if n / d < 0 {
      Monotone(n / d, -1, d);
    }
  }
}
