/**
 * Python's built-in `round(x, n)` for the two digit counts the dashboard
 * uses, on exact reals: the value is scaled by 10^n, taken to the nearest
 * integer with an exact half going to the even neighbour, and scaled back.
 */
module Rounding {

  function Abs(x: real): real {
    if x < 0.0 then -x else x
  }

  /** The integer nearest to `y`; an exact half goes to the even neighbour. */
  function RoundHalfEven(y: real): (k: int)
    ensures Abs(k as real - y) <= 0.5
    ensures Abs(k as real - y) == 0.5 ==> k % 2 == 0
  {
    var f := y.Floor;
    var frac := y - f as real;
    if frac < 0.5 then f
    else if frac > 0.5 then f + 1
    else if f % 2 == 0 then f
    else f + 1
  }

  /** No integer lies strictly closer to `y` than `RoundHalfEven(y)`. */
  lemma RoundHalfEvenIsNearest(y: real, j: int)
    ensures Abs(RoundHalfEven(y) as real - y) <= Abs(j as real - y)
  {
    var k := RoundHalfEven(y);
    if j != k {
      assert j <= k - 1 || j >= k + 1;
    }
  }

  /**
   * The two clauses of `RoundHalfEven`'s contract fix its value: any integer
   * within 1/2 of `y` that is even whenever it lies exactly 1/2 away is it.
   */
  lemma RoundHalfEvenIsUnique(y: real, j: int)
    requires Abs(j as real - y) <= 0.5
    requires Abs(j as real - y) == 0.5 ==> j % 2 == 0
    ensures j == RoundHalfEven(y)
  {
    var m := RoundHalfEven(y);
    assert j <= m - 1 || j == m || j >= m + 1;
  }

  /**
   * `round(x, 1)`: a multiple of 0.1 within 0.05 of `x`, whose last digit is
   * even when `x` lies exactly halfway between two multiples.
   */
  function Round1(x: real): (r: real)
    ensures (r * 10.0).Floor as real == r * 10.0
    ensures Abs(r - x) <= 0.05
    ensures Abs(r - x) == 0.05 ==> (r * 10.0).Floor % 2 == 0
  {
    var m := RoundHalfEven(x * 10.0);
    assert (m as real / 10.0) * 10.0 == m as real;
    m as real / 10.0
  }

  /**
   * `round(x, 2)`: a multiple of 0.01 within 0.005 of `x`, whose last digit
   * is even when `x` lies exactly halfway between two multiples.
   */
  function Round2(x: real): (r: real)
    ensures (r * 100.0).Floor as real == r * 100.0
    ensures Abs(r - x) <= 0.005
    ensures Abs(r - x) == 0.005 ==> (r * 100.0).Floor % 2 == 0
  {
    var m := RoundHalfEven(x * 100.0);
    assert (m as real / 100.0) * 100.0 == m as real;
    m as real / 100.0
  }

  /** The contract of `Round1` fixes its value: no other real meets it. */
  lemma Round1IsUnique(x: real, r: real)
    requires (r * 10.0).Floor as real == r * 10.0
    requires Abs(r - x) <= 0.05
    requires Abs(r - x) == 0.05 ==> (r * 10.0).Floor % 2 == 0
    ensures r == Round1(x)
  {
    var j := (r * 10.0).Floor;
    assert j as real - x * 10.0 == (r - x) * 10.0;
    RoundHalfEvenIsUnique(x * 10.0, j);
  }

  /** The contract of `Round2` fixes its value: no other real meets it. */
  lemma Round2IsUnique(x: real, r: real)
    requires (r * 100.0).Floor as real == r * 100.0
    requires Abs(r - x) <= 0.005
    requires Abs(r - x) == 0.005 ==> (r * 100.0).Floor % 2 == 0
    ensures r == Round2(x)
  {
    var j := (r * 100.0).Floor;
    assert j as real - x * 100.0 == (r - x) * 100.0;
    RoundHalfEvenIsUnique(x * 100.0, j);
  }

  /**
   * `round(x, 1)` never crosses a multiple of 0.1: a value at or above
   * `k / 10` rounds to at least `k / 10`, a value at or below it to at most.
   */
  lemma Round1KeepsGridBound(x: real, k: int)
    ensures k as real / 10.0 <= x ==> k as real / 10.0 <= Round1(x)
    ensures x <= k as real / 10.0 ==> Round1(x) <= k as real / 10.0
  {
    var m := RoundHalfEven(x * 10.0);
    assert Round1(x) == m as real / 10.0;
    if k as real / 10.0 <= x {
      assert k as real <= x * 10.0;
      assert m as real > k as real - 1.0;
      assert m >= k;
    }
    if x <= k as real / 10.0 {
      assert x * 10.0 <= k as real;
      assert m as real < k as real + 1.0;
      assert m <= k;
    }
  }

  /** The same for `round(x, 2)` and multiples of 0.01. */
  lemma Round2KeepsGridBound(x: real, k: int)
    ensures k as real / 100.0 <= x ==> k as real / 100.0 <= Round2(x)
    ensures x <= k as real / 100.0 ==> Round2(x) <= k as real / 100.0
  {
    var m := RoundHalfEven(x * 100.0);
    assert Round2(x) == m as real / 100.0;
    if k as real / 100.0 <= x {
      assert k as real <= x * 100.0;
      assert m as real > k as real - 1.0;
      assert m >= k;
    }
    if x <= k as real / 100.0 {
      assert x * 100.0 <= k as real;
      assert m as real < k as real + 1.0;
      assert m <= k;
    }
  }
}
