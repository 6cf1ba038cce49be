/** Storage of money and quantities: exactly, or in a NUMERIC(24, 8) column. */
module Numeric {

  /** Exact keeps every value; Scale8 rounds to eight decimals when a row is written. */
  datatype Storage = Exact | Scale8

  function Abs(x: real): real { if x < 0.0 then -x else x }

  /** The integer nearest to y, ties away from zero. */
  function Nearest(y: real): (n: int)
    ensures y - 0.5 <= n as real <= y + 0.5
  {
    if y < 0.0 then -((0.5 - y).Floor) else (y + 0.5).Floor
  }

  lemma NearestOfWhole(n: int)
    ensures Nearest(n as real) == n
  {
  }

  function Notional(quantity: real, price: real): real { quantity * price }

  /** Rounding to eight decimals. */
  function Round8(x: real): real { Nearest(x * 100000000.0) as real / 100000000.0 }

  /** The value found in the column after writing x to it. */
  function Stored(m: Storage, x: real): (r: real)
    ensures Within(m, r - x, 1.0)
  {
    match m
    case Exact => x
    case Scale8 => Round8(x)
  }

  /** A value halfway between two stored values goes to the one further from zero, on either side of it. */
  lemma TiesGoAwayFromZero(x: real)
    ensures Stored(Scale8, -x) == -Stored(Scale8, x)
    ensures Abs(Stored(Scale8, x) - x) == 0.000000005 ==> Abs(Stored(Scale8, x)) > Abs(x)
  {
    var y := x * 100000000.0;
    assert (-x) * 100000000.0 == -y;
    NearestIsOdd(y);
    if Abs(Stored(Scale8, x) - x) == 0.000000005 {
      assert Abs(Nearest(y) as real - y) == 0.5;
    }
  }

  lemma NearestIsOdd(y: real)
    ensures Nearest(-y) == -Nearest(y)
    ensures Abs(Nearest(y) as real - y) == 0.5 ==> Abs(Nearest(y) as real) > Abs(y)
  {
  }

  /** x is at most k half-units of storage away from zero; exactly zero when storage is exact. */
  predicate Within(m: Storage, x: real, k: real) {
    match m
    case Exact => x == 0.0
    case Scale8 => -0.000000005 * k <= x <= 0.000000005 * k
  }

  /** Writing x to a column does not change it. */
  predicate Clean(m: Storage, x: real) { Stored(m, x) == x }

  /** x is n units of 10^-8. */
  predicate IsUnits(x: real, n: int) { x * 100000000.0 == n as real }

  /** Under Scale8 the clean values are exactly the multiples of 10^-8. */
  lemma CleanIsWhole(x: real)
    ensures Clean(Scale8, x) <==> exists n: int :: IsUnits(x, n)
  {
    var y := x * 100000000.0;
    if Clean(Scale8, x) {
      assert IsUnits(x, Nearest(y));
    } else if n: int :| IsUnits(x, n) {
      NearestOfWhole(n);
    }
  }

  lemma CleanSum(m: Storage, x: real, y: real)
    requires Clean(m, x) && Clean(m, y)
    ensures Clean(m, x + y) && Clean(m, x - y)
  {
    if m.Scale8? {
      CleanIsWhole(x);
      CleanIsWhole(y);
      CleanIsWhole(x + y);
      CleanIsWhole(x - y);
      var a: int, b: int :| IsUnits(x, a) && IsUnits(y, b);
      assert IsUnits(x + y, a + b);
      assert IsUnits(x - y, a - b);
    }
  }

  lemma CleanZero(m: Storage)
    ensures Clean(m, 0.0)
  {
  }

  lemma StoredIsClean(m: Storage, x: real)
    ensures Clean(m, Stored(m, x))
  {
    if m.Scale8? {
      var n := Nearest(x * 100000000.0);
      assert IsUnits(Stored(m, x), n);
      CleanIsWhole(Stored(m, x));
    }
  }

  /** Storage never moves a value across zero. */
  lemma StoredSign(m: Storage, x: real)
    ensures x >= 0.0 ==> Stored(m, x) >= 0.0
    ensures x <= 0.0 ==> Stored(m, x) <= 0.0
  {
  }

  /** Storage keeps the order of values. */
  lemma StoredMonotone(m: Storage, x: real, y: real)
    requires x <= y
    ensures Stored(m, x) <= Stored(m, y)
  {
    if m.Scale8? {
      var a, b := Nearest(x * 100000000.0), Nearest(y * 100000000.0);
      assert a <= b;
    }
  }

  /** Adding a stored amount commutes with storing, above zero. */
  lemma StoredShift(m: Storage, x: real, y: real)
    requires x >= 0.0 && y >= 0.0 && Clean(m, y)
    ensures Stored(m, x + y) == Stored(m, x) + y
  {
    if m.Scale8? {
      CleanIsWhole(y);
      var n: int :| IsUnits(y, n);
      assert (x + y) * 100000000.0 == x * 100000000.0 + n as real;
      assert Nearest((x + y) * 100000000.0) == Nearest(x * 100000000.0) + n;
    }
  }

  lemma WithinSum(m: Storage, x: real, j: real, y: real, k: real)
    requires Within(m, x, j) && Within(m, y, k)
    ensures Within(m, x + y, j + k) && Within(m, x - y, j + k)
  {
  }

  lemma WithinWeaken(m: Storage, x: real, j: real, k: real)
    requires Within(m, x, j) && j <= k
    ensures Within(m, x, k)
  {
  }

  /** A storage error multiplied by n grows to at most |n| half-units. */
  lemma WithinScaled(m: Storage, d: real, n: real, k: real)
    requires Within(m, d, k) && k >= 0.0
    ensures Within(m, n * d, Abs(n) * k)
  {
    if m.Scale8? {
      var e := 0.000000005 * k;
      assert -e <= d <= e;
      ProductBound(d, n, e);
      assert Abs(n) * e == 0.000000005 * (Abs(n) * k);
    } else {
      assert n * d == 0.0;
    }
  }

  lemma NonNegativeProduct(x: real, y: real)
    requires x >= 0.0 && y >= 0.0
    ensures x * y >= 0.0
  {
  }

  lemma ProductBound(d: real, n: real, e: real)
    requires -e <= d <= e
    ensures -(Abs(n) * e) <= n * d <= Abs(n) * e
  {
    var k := Abs(n);
    NonNegativeProduct(k, e - d);
    NonNegativeProduct(k, d + e);
    assert k * (e - d) == k * e - k * d && k * (d + e) == k * d + k * e;
    assert n * d == k * d || n * d == -(k * d);
  }

  /** n rounding errors, each of weight w. */
  function Weight(n: nat, w: real): real { n as real * w }

  lemma WeightsAdd(n: nat, x: real, y: real)
    requires 0.0 <= x <= y
    ensures Weight(n, x) + y <= Weight(n + 1, y)
  {
    NonNegativeProduct(n as real, y - x);
    assert n as real * (y - x) == n as real * y - n as real * x;
    assert (n + 1) as real * y == n as real * y + y;
  }
}
