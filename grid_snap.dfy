/**
 * Grid snapping as the designer helpers write it: an `(int32)` cast, which
 * truncates toward zero, followed by subtracting the C++ remainder, whose
 * sign follows the dividend. Dafny's own `/` and `%` are Euclidean, so the
 * C++ operators are spelled out here.
 */
module GridSnap {

  function IntAbs(a: int): (m: nat)
    ensures m == a || m == -a
  {
    if a >= 0 then a else -a
  }

  /** The float-to-integer cast: truncation toward zero. */
  function Trunc(x: real): (n: int)
    ensures x >= 0.0 ==> 0 <= n && n as real <= x < n as real + 1.0
    ensures x < 0.0 ==> n <= 0 && n as real - 1.0 < x <= n as real
  {
    if x >= 0.0 then x.Floor else -((-x).Floor)
  }

  /** C++ integer division: the quotient truncated toward zero. */
  function CDiv(a: int, b: int): int
    requires b != 0
  {
    if (a >= 0) == (b > 0) then IntAbs(a) / IntAbs(b) else -(IntAbs(a) / IntAbs(b))
  }

  /** C++ remainder `a % b`, defined as `a - b * (a / b)` with truncating division. */
  function CRem(a: int, b: int): (r: int)
    requires b != 0
    ensures IntAbs(r) < IntAbs(b)
    ensures a >= 0 ==> r >= 0
    ensures a <= 0 ==> r <= 0
    ensures IntAbs(r) <= IntAbs(a)
  {
    CRemMagnitude(a, b);
    ModBounds(IntAbs(a), IntAbs(b));
    a - b * CDiv(a, b)
  }

  lemma ModBounds(x: nat, m: int)
    requires m > 0
    ensures 0 <= x % m < m && x % m <= x
  {
    if x < m {
      assert x / m == 0;
    } else {
      assert x / m >= 1;
    }
  }

  lemma CRemMagnitude(a: int, b: int)
    requires b != 0
    ensures a >= 0 ==> a - b * CDiv(a, b) == IntAbs(a) % IntAbs(b)
    ensures a < 0 ==> a - b * CDiv(a, b) == -(IntAbs(a) % IntAbs(b))
  {
    var m, q := IntAbs(b), IntAbs(a) / IntAbs(b);
    assert IntAbs(a) == m * q + IntAbs(a) % m;
    if a >= 0 && b > 0 {
      assert b * CDiv(a, b) == m * q;
    } else if a >= 0 {
      assert b * CDiv(a, b) == (-m) * (-q) == m * q;
    } else if b > 0 {
      assert b * CDiv(a, b) == m * (-q) == -(m * q);
    } else {
      assert b * CDiv(a, b) == (-m) * q == -(m * q);
    }
  }

  /** The real value of the `k`-th grid line of a grid of the given size. */
  function GridPoint(k: int, grid: int): real {
    (k * grid) as real
  }

  /**
   * `((int32)x) - (((int32)x) % grid)`: the grid line nearest to `x` in the
   * direction of zero.
   */
  function SnapToGrid(x: real, grid: int): (r: real)
    requires grid != 0
    ensures r == GridPoint(CDiv(Trunc(x), grid), grid)
    ensures x >= 0.0 ==> 0.0 <= r <= x < r + IntAbs(grid) as real
    ensures x < 0.0 ==> r - IntAbs(grid) as real < x <= r <= 0.0
  {
    var t := Trunc(x);
    (t - CRem(t, grid)) as real
  }

  /** Every snapped value is a whole multiple of the grid size. */
  lemma SnapIsGridMultiple(x: real, grid: int)
    requires grid != 0
    ensures exists k: int :: SnapToGrid(x, grid) == GridPoint(k, grid)
  {
    var k := CDiv(Trunc(x), grid);
    assert SnapToGrid(x, grid) == GridPoint(k, grid);
  }

  /** A value already on an integral grid line stays where it is. */
  lemma SnapKeepsGridPoints(k: int, grid: int)
    requires grid != 0
    ensures SnapToGrid(GridPoint(k, grid), grid) == GridPoint(k, grid)
  {
    var x := GridPoint(k, grid);
    var t := k * grid;
    assert Trunc(x) == t;
    var m := IntAbs(grid);
    assert IntAbs(t) == m * IntAbs(k) by {
      if k >= 0 && grid > 0 {
      } else if k >= 0 {
        assert t == (-m) * k == -(m * k);
      } else if grid > 0 {
        assert t == m * k == -(m * (-k));
      } else {
        assert t == (-m) * k == m * (-k);
      }
    }
    ModOfMultiple(m, IntAbs(k));
    CRemMagnitude(t, grid);
    assert CRem(t, grid) == 0;
  }

  lemma ModOfMultiple(m: int, q: nat)
    requires m > 0
    ensures (m * q) % m == 0
  {
    var p := m * q;
    assert p == m * (p / m) + p % m;
    var d := q - p / m;
    assert m * d == p % m;
  }

  /**
   * The C++ remainder against Dafny's Euclidean one: equal for a
   * non-negative dividend or an exact multiple, and otherwise one divisor's
   * magnitude below it, so the truncating operator has to be spelled out.
   */
  lemma CRemVersusEuclidean(a: int, b: int)
    requires b != 0
    ensures a >= 0 || a % b == 0 ==> CRem(a, b) == a % b
    ensures a < 0 && a % b != 0 ==> CRem(a, b) == a % b - IntAbs(b)
  {
    var r, e := CRem(a, b), a % b;
    var k := CDiv(a, b) - a / b;
    assert e - r == b * k by {
      assert a == b * (a / b) + e;
      assert a == b * CDiv(a, b) + r;
      assert b * CDiv(a, b) - b * (a / b) == b * k;
    }
    MultipleInRange(b, k);
  }

  /** A multiple of `b` strictly between `-|b|` and `2|b|` is 0 or `|b|`. */
  lemma MultipleInRange(b: int, k: int)
    requires b != 0 && b * k + IntAbs(b) > 0 && b * k < 2 * IntAbs(b)
    ensures b * k == 0 || b * k == IntAbs(b)
  {
    var m: int, j: int := IntAbs(b), if b > 0 then k else -k;
    assert b * k == m * j;
    if j >= 2 {
      MulMonotone(m, 2, j);
      assert false;
    } else if j <= -1 {
      MulMonotone(m, j, -1);
      assert false;
    }
  }

  lemma MulMonotone(m: int, i: int, j: int)
    requires m >= 0 && i <= j
    ensures m * i <= m * j
  {
    assert m * j - m * i == m * (j - i);
  }
}
