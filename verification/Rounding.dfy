/** Fixed-point amounts and rounding half up to cents, as billing and pricing use them. */
module Rounding {

  /** `units` divided by ten to the power of `scale`. */
  datatype Decimal = Decimal(units: int, scale: nat)

  function Pow10(n: nat): (p: nat)
    ensures p > 0
  {
    if n == 0 then 1 else 10 * Pow10(n - 1)
  }

  /** The integer nearest to n/d, ties going away from zero. */
  function HalfUp(n: int, d: nat): int
    requires d > 0
  {
    if n >= 0 then (2 * n + d) / (2 * d) else -((2 * -n + d) / (2 * d))
  }

  /** `value.quantize(Decimal("0.01"), rounding=ROUND_HALF_UP)`, as a number of cents. */
  function RoundMoney(value: Decimal): int {
    if value.scale <= 2 then value.units * Pow10(2 - value.scale) else HalfUp(value.units, Pow10(value.scale - 2))
  }

  function Cents(amount: int): Decimal {
    Decimal(amount, 2)
  }

  function Product(a: Decimal, b: Decimal): Decimal {
    Decimal(a.units * b.units, a.scale + b.scale)
  }

  /** The value brought to a scale at least its own, so that sums are sums of units. */
  function UnitsAt(value: Decimal, scale: nat): int
    requires value.scale <= scale
  {
    value.units * Pow10(scale - value.scale)
  }

  function Sum(a: Decimal, b: Decimal): Decimal {
    var scale := if a.scale < b.scale then b.scale else a.scale;
    Decimal(UnitsAt(a, scale) + UnitsAt(b, scale), scale)
  }

  // ---- rounding ----

  lemma DivisionBounds(a: nat, b: nat)
    requires b > 0
    ensures b * (a / b) <= a < b * (a / b) + b
  {
  }

  /** Rounding is off by at most half a unit, and by half a unit only away from zero. */
  lemma HalfUpIsNearest(n: int, d: nat)
    requires d > 0
    ensures n >= 0 ==> 0 <= HalfUp(n, d) && 2 * n - d < 2 * (d * HalfUp(n, d)) <= 2 * n + d
    ensures n <= 0 ==> HalfUp(n, d) <= 0 && 2 * n - d <= 2 * (d * HalfUp(n, d)) < 2 * n + d
  {
    var m := if n >= 0 then n else -n;
    var q := (2 * m + d) / (2 * d);
    DivisionBounds(2 * m + d, 2 * d);
    assert (2 * d) * q == 2 * (d * q);
    assert d * -q == -(d * q);
  }

  lemma Scales(a: int, b: int, p: nat)
    requires p > 0
    ensures a < b ==> a * p < b * p
    ensures a <= b ==> a * p <= b * p
  {
  }

  lemma LargerProduct(d: nat, x: int, y: int)
    requires d > 0 && x > y
    ensures d * x >= d * y + d
  {
    Scales(y + 1, x, d);
    assert (y + 1) * d == y * d + d;
  }

  lemma SmallerFactor(d: nat, x: int, y: int)
    requires d > 0 && d * x < d * y + d
    ensures x <= y
  {
    if x > y {
      LargerProduct(d, x, y);
    }
  }

  /** The integer that is off by at most half a unit, away from zero when it is half, is the rounded one. */
  lemma NearestIsHalfUp(n: int, d: nat, c: int)
    requires d > 0
    requires if n >= 0 then 2 * n - d < 2 * (d * c) <= 2 * n + d else 2 * n - d <= 2 * (d * c) < 2 * n + d
    ensures c == HalfUp(n, d)
  {
    HalfUpIsNearest(n, d);
    SmallerFactor(d, c, HalfUp(n, d));
    SmallerFactor(d, HalfUp(n, d), c);
  }

  lemma HalfUpIsMonotone(m: int, n: int, d: nat)
    requires d > 0 && m <= n
    ensures HalfUp(m, d) <= HalfUp(n, d)
  {
    HalfUpIsNearest(m, d);
    HalfUpIsNearest(n, d);
    if 0 <= m || n <= 0 {
      SmallerFactor(d, HalfUp(m, d), HalfUp(n, d));
    }
  }

  /** Rounding changes nothing on whole units, and rounding the opposite is the opposite of rounding. */
  lemma HalfUpOnWholes(c: int, n: int, d: nat)
    requires d > 0
    ensures HalfUp(d * c, d) == c
    ensures HalfUp(-n, d) == -HalfUp(n, d)
  {
    NearestIsHalfUp(d * c, d, c);
  }

  /** Whole units may be added before or after rounding, as long as nothing changes sign. */
  lemma WholesPassThrough(c: int, n: int, d: nat)
    requires d > 0 && c >= 0 && n >= 0
    ensures HalfUp(d * c + n, d) == c + HalfUp(n, d)
  {
    HalfUpIsNearest(n, d);
    assert d * (c + HalfUp(n, d)) == d * c + d * HalfUp(n, d);
    assert d * c >= 0;
    NearestIsHalfUp(d * c + n, d, c + HalfUp(n, d));
  }

  lemma {:induction false} Pow10Adds(m: nat, n: nat)
    ensures Pow10(m + n) == Pow10(m) * Pow10(n)
  {
    if m > 0 {
      Pow10Adds(m - 1, n);
      assert Pow10(m + n) == 10 * Pow10(m - 1 + n);
      assert Pow10(m) * Pow10(n) == 10 * (Pow10(m - 1) * Pow10(n));
    }
  }

  lemma Regroups(d: nat, c: int, p: nat)
    ensures 2 * ((d * p) * c) == (2 * (d * c)) * p
  {
    assert (d * p) * c == (d * c) * p;
  }

  lemma ScalingKeepsHalfUp(n: int, d: nat, p: nat)
    requires d > 0 && p > 0
    ensures d * p > 0 && HalfUp(n * p, d * p) == HalfUp(n, d)
  {
    var c := HalfUp(n, d);
    HalfUpIsNearest(n, d);
    Scales(0, d, p);
    Regroups(d, c, p);
    var middle := 2 * (d * c);
    Scales(2 * n - d, middle, p);
    Scales(middle, 2 * n + d, p);
    ScaledNearest(n, d, p, middle, c);
  }

  lemma ScaledNearest(n: int, d: nat, p: nat, middle: int, c: int)
    requires d > 0 && p > 0 && d * p > 0 && 2 * ((d * p) * c) == middle * p
    requires n >= 0 ==> (2 * n - d) * p < middle * p <= (2 * n + d) * p
    requires n <= 0 ==> (2 * n - d) * p <= middle * p < (2 * n + d) * p
    ensures HalfUp(n * p, d * p) == c
  {
    assert (2 * n - d) * p == 2 * (n * p) - d * p && (2 * n + d) * p == 2 * (n * p) + d * p;
    Scales(0, n, p);
    Scales(n, 0, p);
    NearestIsHalfUp(n * p, d * p, c);
  }

  /** Rounding a value and rounding its rewriting at a finer scale give the same cents. */
  lemma RescalingKeepsRounding(value: Decimal, scale: nat)
    requires value.scale <= scale
    ensures RoundMoney(Decimal(UnitsAt(value, scale), scale)) == RoundMoney(value)
  {
    if value.scale > 2 {
      FineStaysFine(value, scale);
    } else {
      WholeCentsStay(value, scale);
    }
  }

  lemma FineStaysFine(value: Decimal, scale: nat)
    requires 2 < value.scale <= scale
    ensures RoundMoney(Decimal(UnitsAt(value, scale), scale)) == RoundMoney(value)
  {
    Pow10Adds(value.scale - 2, scale - value.scale);
    ScalingKeepsHalfUp(value.units, Pow10(value.scale - 2), Pow10(scale - value.scale));
  }

  lemma WholeCentsStay(value: Decimal, scale: nat)
    requires value.scale <= 2 && value.scale <= scale
    ensures RoundMoney(Decimal(UnitsAt(value, scale), scale)) == RoundMoney(value)
  {
    if scale <= 2 {
      Pow10Adds(scale - value.scale, 2 - scale);
      Associates(value.units, Pow10(scale - value.scale), Pow10(2 - scale));
    } else {
      Pow10Adds(2 - value.scale, scale - 2);
      Associates(value.units, Pow10(2 - value.scale), Pow10(scale - 2));
      HalfUpOnWholes(RoundMoney(value), 0, Pow10(scale - 2));
    }
  }

  lemma Associates(a: int, b: int, c: int)
    ensures (a * b) * c == a * (b * c) == c * (a * b)
  {
  }

  // ---- what the numbers stand for ----

  function Value(d: Decimal): real {
    d.units as real / Pow10(d.scale) as real
  }

  lemma QuotientsMultiply(x: real, y: real, p: real, q: real, xy: real, pq: real)
    requires p > 0.0 && q > 0.0 && pq > 0.0 && xy == x * y && pq == p * q
    ensures xy / pq == (x / p) * (y / q)
  {
    var r, s := x / p, y / q;
    assert xy == (r * p) * (s * q);
    Regroup(r, p, s, q);
    QuotientIsUnique(xy, pq, r * s);
  }

  lemma Regroup(r: real, p: real, s: real, q: real)
    ensures (r * p) * (s * q) == (r * s) * (p * q)
  {
  }

  lemma QuotientIsUnique(x: real, p: real, r: real)
    requires p > 0.0 && x == r * p
    ensures x / p == r
  {
  }

  lemma RealProduct(a: int, b: int)
    ensures (a * b) as real == a as real * b as real
  {
  }

  lemma ProductMultiplies(a: Decimal, b: Decimal)
    ensures Value(Product(a, b)) == Value(a) * Value(b)
  {
    Pow10Adds(a.scale, b.scale);
    IntegerQuotientsMultiply(a.units, b.units, Pow10(a.scale), Pow10(b.scale), Pow10(a.scale + b.scale));
  }

  lemma IntegerQuotientsMultiply(x: int, y: int, p: nat, q: nat, pq: nat)
    requires p > 0 && q > 0 && pq > 0 && pq == p * q
    ensures (x * y) as real / pq as real == (x as real / p as real) * (y as real / q as real)
  {
    RealProduct(x, y);
    RealProduct(p, q);
    QuotientsMultiply(x as real, y as real, p as real, q as real, (x * y) as real, pq as real);
  }

  lemma RescalingKeepsValue(a: Decimal, scale: nat)
    requires a.scale <= scale
    ensures Value(Decimal(UnitsAt(a, scale), scale)) == Value(a)
  {
    var one := Decimal(Pow10(scale - a.scale), scale - a.scale);
    ProductMultiplies(a, one);
    QuotientIsUnique(one.units as real, Pow10(one.scale) as real, 1.0);
    assert Product(a, one) == Decimal(UnitsAt(a, scale), scale);
  }

  lemma QuotientsAdd(x: real, y: real, p: real)
    requires p > 0.0
    ensures (x + y) / p == x / p + y / p
  {
  }

  lemma SumAdds(a: Decimal, b: Decimal)
    ensures Value(Sum(a, b)) == Value(a) + Value(b)
  {
    var scale := if a.scale < b.scale then b.scale else a.scale;
    RescalingKeepsValue(a, scale);
    RescalingKeepsValue(b, scale);
    QuotientsAdd(UnitsAt(a, scale) as real, UnitsAt(b, scale) as real, Pow10(scale) as real);
  }

  /** The cents are the value's, and half a cent off at most. */
  predicate IsNearest(cents: int, value: real) {
    value * 100.0 - 0.5 <= cents as real <= value * 100.0 + 0.5
  }

  lemma NearestByUnits(n: int, d: nat, q: int, value: real)
    requires d > 0 && 2 * n - d <= 2 * (d * q) <= 2 * n + d && value * 100.0 == n as real / d as real
    ensures IsNearest(q, value)
  {
    RealProduct(d, q);
    RealBounds(n, d, d * q);
    Requotient(n as real, d as real);
    BoundsCancel(d as real, n as real / d as real, q as real, n as real, (d * q) as real);
  }

  lemma RealBounds(n: int, d: nat, m: int)
    requires 2 * n - d <= 2 * m <= 2 * n + d
    ensures n as real - 0.5 * d as real <= m as real <= n as real + 0.5 * d as real
  {
  }

  lemma Requotient(x: real, p: real)
    requires p > 0.0
    ensures p * (x / p) == x
  {
  }

  lemma RealScales(d: real, x: real, y: real)
    requires d > 0.0 && x < y
    ensures d * x < d * y
  {
  }

  lemma HalfDistributes(d: real, r: real)
    ensures d * (r - 0.5) == d * r - 0.5 * d && d * (r + 0.5) == d * r + 0.5 * d
  {
  }

  lemma BoundsCancel(d: real, r: real, q: real, n: real, m: real)
    requires d > 0.0 && n == d * r && m == d * q && n - 0.5 * d <= m <= n + 0.5 * d
    ensures r - 0.5 <= q <= r + 0.5
  {
    HalfDistributes(d, r);
    CancelsBelow(d, r - 0.5, q, n - 0.5 * d, m);
    CancelsBelow(d, q, r + 0.5, m, n + 0.5 * d);
  }

  lemma CancelsBelow(d: real, x: real, y: real, dx: real, dy: real)
    requires d > 0.0 && dx == d * x && dy == d * y && dx <= dy
    ensures x <= y
  {
    if y < x {
      RealScales(d, y, x);
    }
  }

  /** Rounding to cents gives the nearest cent. */
  lemma RoundMoneyIsNearest(a: Decimal)
    ensures IsNearest(RoundMoney(a), Value(a))
  {
    if a.scale <= 2 {
      RescalingKeepsValue(a, 2);
      assert Pow10(2) == 100;
      QuotientIsUnique(UnitsAt(a, 2) as real, 100.0, Value(a));
    } else {
      var d := Pow10(a.scale - 2);
      Pow10Adds(2, a.scale - 2);
      assert Pow10(2) == 100;
      HalfUpIsNearest(a.units, d);
      ValueInCents(a, d);
      NearestByUnits(a.units, d, HalfUp(a.units, d), Value(a));
    }
  }

  lemma ValueInCents(a: Decimal, d: nat)
    requires d > 0 && Pow10(a.scale) == 100 * d
    ensures Value(a) * 100.0 == a.units as real / d as real
  {
    var r := a.units as real / d as real;
    assert a.units as real == r * d as real == (r / 100.0) * (100.0 * d as real);
    QuotientIsUnique(a.units as real, Pow10(a.scale) as real, r / 100.0);
  }

  lemma RoundedProductIsNearest(a: Decimal, b: Decimal)
    ensures IsNearest(RoundMoney(Product(a, b)), Value(a) * Value(b))
  {
    ProductMultiplies(a, b);
    RoundMoneyIsNearest(Product(a, b));
  }
}
