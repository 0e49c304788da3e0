/**
 * The backoff arithmetic: the quadratic a*x^2 + b*x + c and its larger root.
 * The retry handler solves 2x^2 - 2x + (1 - y) = 0 for a redelivery count y,
 * so the root solver is specialised to a = 2, b = -2. The real root is
 * represented by its floor, computed with an integer square root.
 */
module QuadraticRoot {
  import opened Wrappers

  /** The coefficients the retry handler passes to findX. */
  const A: int := 2
  const B: int := -2

  /** `findY(a, b, c, x)`: the value of a*x^2 + b*x + c. */
  function FindY(a: int, b: int, c: int, x: int): (y: int) {
    a * x * x + b * x + c
  }

  /** The number of redeliveries at which retry round k begins: 2k^2 - 2k + 1. */
  function RoundCount(k: int): (y: int) {
    FindY(A, B, 1, k)
  }

  function Discriminant(a: int, b: int, c: int): (d: int) {
    b * b - 4 * a * c
  }

  /** The integer square root: the largest r with r*r <= n. */
  function ISqrt(n: nat): (r: nat)
    ensures r * r <= n < (r + 1) * (r + 1)
  {
    if n == 0 then 0
    else
      var q := ISqrt(n / 4);
      QuarterBounds(n, q);
      var h := 2 * q;
      if (h + 1) * (h + 1) <= n then
        assert (h + 1 + 1) * (h + 1 + 1) == (2 * q + 2) * (2 * q + 2);
        h + 1
      else
        h
  }

  /** Doubling the square root of n / 4 brackets the square root of n. */
  lemma QuarterBounds(n: nat, q: nat)
    requires q * q <= n / 4 < (q + 1) * (q + 1)
    ensures (2 * q) * (2 * q) <= n < (2 * q + 2) * (2 * q + 2)
  {
    assert (2 * q) * (2 * q) == 4 * (q * q);
    assert (2 * q + 2) * (2 * q + 2) == 4 * ((q + 1) * (q + 1));
    assert n < 4 * (n / 4) + 4;
  }

  /**
   * `findX(2, -2, c)`, up to the floor of its real result: None where findX
   * returns null (a negative discriminant), otherwise the floor of the larger
   * root (-b + sqrt(d)) / (2a), or of -b / (2a) when d is zero.
   */
  function FindX(c: int): (r: Option<int>)
    ensures r.None? <==> Discriminant(A, B, c) < 0
  {
    var d := Discriminant(A, B, c);
    if d > 0 then
      // A > 0, so Math.max(root1, root2) is root1
      Some((-B + ISqrt(d)) / (2 * A))
    else if d == 0 then
      Some(-B / (2 * A))
    else
      None
  }

  /**
   * k is the floor of the real number (-B + sqrt(d)) / (2A), stated in
   * integers: 2A*k + B <= sqrt(d) < 2A*(k+1) + B.
   */
  ghost predicate IsFloorOfLargerRoot(c: int, k: int) {
    var d := Discriminant(A, B, c);
    var lo := 2 * A * k + B;
    var hi := 2 * A * (k + 1) + B;
    0 <= d && (lo <= 0 || lo * lo <= d) && 0 < hi && d < hi * hi
  }

  lemma SquareMonotone(a: int, b: int)
    requires 0 <= a <= b
    ensures a * a <= b * b
  {
    assert a * a <= a * b <= b * b;
  }

  /** Whatever findX returns is the floor of the larger root of 2x^2 - 2x + c. */
  lemma FindXIsFloorOfLargerRoot(c: int)
    requires FindX(c).Some?
    ensures IsFloorOfLargerRoot(c, FindX(c).value)
  {
    var d := Discriminant(A, B, c);
    var k := FindX(c).value;
    assert 2 * A * k + B == 4 * k - 2 && 2 * A * (k + 1) + B == 4 * k + 2;
    if d > 0 {
      var s := ISqrt(d);
      assert k == (2 + s) / 4;
      assert 4 * k <= 2 + s < 4 * k + 4;
      assert (4 * k - 2) * (4 * k - 2) <= d by {
        if 4 * k - 2 > 0 {
          SquareMonotone(4 * k - 2, s);
        }
      }
      assert d < (4 * k + 2) * (4 * k + 2) by {
        SquareMonotone(s + 1, 4 * k + 2);
      }
    } else {
      assert d == 0 && k == 0;
    }
  }

  /** For integer coefficients of this equation the discriminant is never zero. */
  lemma DiscriminantNeverZero(c: int)
    ensures Discriminant(A, B, c) == 4 - 8 * c != 0
  {
  }

  /** findX(2, -2, 1 - y) is null exactly when y <= 0 (for y = 0 the discriminant is -4). */
  lemma FindXDefinedIff(y: int)
    ensures FindX(1 - y).Some? <==> y >= 1
    ensures Discriminant(A, B, 1 - y) == 8 * y - 4
  {
  }

  /** The round boundary is the sum of two consecutive squares: y = x^2 + (x - 1)^2. */
  lemma FindYSumOfSquares(x: int)
    ensures FindY(2, -2, 1, x) == x * x + (x - 1) * (x - 1)
  {
    assert (x - 1) * (x - 1) == x * x - 2 * x + 1;
  }

  /** 2k^2 - 2k + 1 is 1, 5, 13 at k = 1, 2, 3. */
  lemma RoundCountValues()
    ensures RoundCount(1) == 1 && RoundCount(2) == 5 && RoundCount(3) == 13
  {
    assert RoundCount(1) == FindY(2, -2, 1, 1) == 1;
    assert RoundCount(2) == FindY(2, -2, 1, 2) == 5;
    assert RoundCount(3) == FindY(2, -2, 1, 3) == 13;
  }

  /** Consecutive round boundaries are 4k apart. */
  lemma RoundCountStep(k: int)
    ensures RoundCount(k + 1) == RoundCount(k) + 4 * k
  {
    assert RoundCount(k) == FindY(2, -2, 1, k) == 2 * (k * k) - 2 * k + 1;
    assert RoundCount(k + 1) == FindY(2, -2, 1, k + 1) == 2 * ((k + 1) * (k + 1)) - 2 * (k + 1) + 1;
    assert (k + 1) * (k + 1) == k * k + 2 * k + 1;
  }

  /** 2k^2 - 2k + 1 is strictly increasing for k >= 1. */
  lemma {:induction false} RoundCountIncreasing(j: int, k: int)
    requires 1 <= j < k
    ensures RoundCount(j) < RoundCount(k)
    decreases k - j
  {
    RoundCountStep(k - 1);
    if j < k - 1 {
      RoundCountIncreasing(j, k - 1);
    }
  }

  /**
   * For y >= 1, the floor k of findX(2, -2, 1 - y) is the largest k >= 1 with
   * 2k^2 - 2k + 1 <= y.
   */
  lemma FloorRootIsLargestRound(y: int)
    requires y >= 1
    ensures FindX(1 - y).Some?
    ensures var k := FindX(1 - y).value;
      && k >= 1
      && RoundCount(k) <= y < RoundCount(k + 1)
      && forall j :: 1 <= j && RoundCount(j) <= y ==> j <= k
  {
    FindXDefinedIff(y);
    var k := FindX(1 - y).value;
    FindXIsFloorOfLargerRoot(1 - y);
    FloorBracketsCount(y, k);
    forall j | 1 <= j && RoundCount(j) <= y
      ensures j <= k
    {
      if j > k + 1 {
        RoundCountIncreasing(k + 1, j);
      }
    }
  }

  /** The integer form of IsFloorOfLargerRoot for c = 1 - y, with d = 8y - 4. */
  lemma FloorBracketsCount(y: int, k: int)
    requires y >= 1 && IsFloorOfLargerRoot(1 - y, k)
    ensures k >= 1 && RoundCount(k) <= y < RoundCount(k + 1)
  {
    var d := 8 * y - 4;
    assert Discriminant(A, B, 1 - y) == d;
    var lo, hi := 4 * k - 2, 4 * k + 2;
    assert 2 * A * k + B == lo && 2 * A * (k + 1) + B == hi;
    assert 0 < hi && d < hi * hi;
    assert lo * lo <= d;
    assert lo * lo == 16 * (k * k) - 16 * k + 4;
    assert hi * hi == 16 * (k * k) + 16 * k + 4;
    assert RoundCount(k) == 2 * (k * k) - 2 * k + 1;
    assert RoundCount(k + 1) == 2 * (k * k) + 2 * k + 1;
  }

  /**
   * `isXInteger(y)`: whether the floor of findX(2, -2, 1 - y) solves
   * 2x^2 - 2x + 1 = y exactly; false when findX returns null.
   */
  function IsXInteger(y: int): (r: bool) {
    match FindX(1 - y)
    case None => false
    case Some(x) => 2 * x * x - 2 * x + 1 == y
  }

  /** isXInteger(y) holds exactly when y = 2k^2 - 2k + 1 for some integer k >= 1. */
  lemma IsXIntegerIff(y: int)
    ensures FindX(1 - y).None? ==> !IsXInteger(y)
    ensures IsXInteger(y) <==> exists k :: 1 <= k && RoundCount(k) == y
  {
    if y >= 1 {
      FloorRootIsLargestRound(y);
      var x := FindX(1 - y).value;
      if exists k :: 1 <= k && RoundCount(k) == y {
        var k :| 1 <= k && RoundCount(k) == y;
        if k < x {
          RoundCountIncreasing(k, x);
        }
        assert k == x;
      }
      if IsXInteger(y) {
        assert RoundCount(x) == y;
      }
    } else {
      FindXDefinedIff(y);
      forall k | 1 <= k
        ensures RoundCount(k) != y
      {
        if k > 1 {
          RoundCountIncreasing(1, k);
        }
      }
    }
  }
}
