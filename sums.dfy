/**
 * Definitions shared by the concurrency scripts: Python's `range(n)`,
 * `sum(...)` over a list, and the sum of squares that every CPU-bound
 * workload computes.
 */
module Sums {

  /** The number of values `range(n)` produces (none when n is negative). */
  function RangeLen(n: int): (k: nat)
    ensures n >= 0 ==> k == n
    ensures n < 0 ==> k == 0
  {
    if n < 0 then 0 else n
  }

  /** `list(range(n))`. */
  function Range(n: int): (r: seq<int>)
    ensures |r| == RangeLen(n)
    ensures forall i :: 0 <= i < |r| ==> r[i] == i
  {
    seq(RangeLen(n), i => i)
  }

  /** Python's `sum(s)`, accumulated from the left. */
  function Sum(s: seq<int>): int
  {
    if s == [] then 0 else Sum(s[..|s| - 1]) + s[|s| - 1]
  }

  /** `sum(x * x for x in s)`. */
  function SumSquares(s: seq<int>): int
  {
    if s == [] then 0 else SumSquares(s[..|s| - 1]) + s[|s| - 1] * s[|s| - 1]
  }

  /** The sum of `i * i` for `i` in `range(n)`. */
  function SumSquaresBelow(n: int): int
    decreases RangeLen(n)
  {
    if n <= 0 then 0 else SumSquaresBelow(n - 1) + (n - 1) * (n - 1)
  }

  /** Summing squares over a concatenation splits into the two halves. */
  lemma {:induction false} SumSquaresAppend(a: seq<int>, b: seq<int>)
    ensures SumSquares(a + b) == SumSquares(a) + SumSquares(b)
    decreases |b|
  {
    if b == [] {
      assert a + b == a;
    } else {
      var b' := b[..|b| - 1];
      assert (a + b)[..|a + b| - 1] == a + b';
      SumSquaresAppend(a, b');
    }
  }

  /** Squaring every value of `range(n)` and summing is the loop sum below `n`. */
  lemma {:induction false} SumSquaresOfRange(n: int)
    ensures SumSquares(Range(n)) == SumSquaresBelow(n)
    decreases RangeLen(n)
  {
    if n > 0 {
      assert Range(n)[..n - 1] == Range(n - 1);
      SumSquaresOfRange(n - 1);
    }
  }

  /** The closed form n(n-1)(2n-1)/6 of the sum of the first n squares. */
  lemma {:induction false} SumSquaresBelowClosedForm(n: nat)
    ensures 6 * SumSquaresBelow(n) == (n - 1) * n * (2 * n - 1)
  {
    if n > 0 {
      SumSquaresBelowClosedForm(n - 1);
      ClosedFormStep(n - 1);
    }
  }

  /** The polynomial identity behind one step of the closed form. */
  lemma ClosedFormStep(m: int)
    ensures (m - 1) * m * (2 * m - 1) + 6 * (m * m) == m * (m + 1) * (2 * m + 1)
  {
    var p := m * m;
    var c := m * p;
    assert (m - 1) * m == p - m;
    assert (p - m) * (2 * m - 1) == 2 * c - 3 * p + m by {
      assert (p - m) * (2 * m - 1) == 2 * (p * m) - p - 2 * (m * m) + m;
      assert p * m == c;
    }
    assert m * (m + 1) == p + m;
    assert (p + m) * (2 * m + 1) == 2 * c + 3 * p + m by {
      assert (p + m) * (2 * m + 1) == 2 * (p * m) + p + 2 * (m * m) + m;
      assert p * m == c;
    }
  }

  /** `sum` over a list with one more element at the end. */
  lemma SumSnoc(s: seq<int>, x: int)
    ensures Sum(s + [x]) == Sum(s) + x
  {
    assert (s + [x])[..|s|] == s;
  }
}
