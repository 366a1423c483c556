/**
 * The two kinds of Python value the `square` demonstrations feed to `*`
 * (int and str), and the `*` operator on them.
 */
module PyValues {
  import opened Results

  datatype PyValue = Int(i: int) | Str(s: string)

  /** Python's `TypeError`, carrying its message. */
  datatype TypeError = TypeError(message: string)

  /** `s * n` for a string: `s` repeated `n` times, empty when `n <= 0`. */
  function Repeat(s: string, n: int): (r: string)
    ensures |r| == if n <= 0 then 0 else |s| * n
    decreases if n <= 0 then 0 else n
  {
    if n <= 0 then "" else s + Repeat(s, n - 1)
  }

  /** Copy `q` of the text inside a repetition sits at offset `q * |s|`. */
  lemma {:induction false} RepeatAt(s: string, n: int, q: nat, j: nat)
    requires j < |s| && q < n
    ensures q * |s| + j < |Repeat(s, n)| && Repeat(s, n)[q * |s| + j] == s[j]
    decreases q
  {
    assert Repeat(s, n) == s + Repeat(s, n - 1);
    if q > 0 {
      RepeatAt(s, n - 1, q - 1, j);
      assert q * |s| == (q - 1) * |s| + |s|;
      assert n * |s| == (n - 1) * |s| + |s|;
    }
  }

  /** Python's binary `*` on ints and strings. */
  function Mul(a: PyValue, b: PyValue): (r: Result<PyValue, TypeError>)
    ensures r.Failure? <==> a.Str? && b.Str?
    ensures a.Int? && b.Int? ==> r == Success(Int(a.i * b.i))
    ensures a.Str? && b.Int? ==> r == Success(Str(Repeat(a.s, b.i)))
    ensures a.Int? && b.Str? ==> r == Success(Str(Repeat(b.s, a.i)))
  {
    match (a, b)
    case (Int(x), Int(y)) => Success(Int(x * y))
    case (Str(s), Int(n)) => Success(Str(Repeat(s, n)))
    case (Int(n), Str(s)) => Success(Str(Repeat(s, n)))
    case (Str(_), Str(_)) => Failure(TypeError("can't multiply sequence by non-int of type 'str'"))
  }

  /** `square(x)`, which evaluates `x * x`. */
  function Square(x: PyValue): (r: Result<PyValue, TypeError>)
    ensures r.Success? <==> x.Int?
    ensures x.Int? ==> r == Success(Int(x.i * x.i)) && x.i * x.i >= 0
  {
    Mul(x, x)
  }

  /** As written, `square` of any text raises a TypeError. */
  lemma SquareOfTextRaises(s: string)
    ensures Square(Str(s)) == Failure(TypeError("can't multiply sequence by non-int of type 'str'"))
  {
  }

  /** The repetition a text square was meant to show: `s * 2` is `s + s`. */
  function Doubled(s: string): (r: Result<PyValue, TypeError>)
    ensures r.Success? && r.value.Str?
    ensures |r.value.s| == 2 * |s|
    ensures r.value.s[..|s|] == s && r.value.s[|s|..] == s
  {
    assert Repeat(s, 2) == s + s by {
      assert Repeat(s, 0) == "";
      assert Repeat(s, 1) == s + "";
    }
    Mul(Str(s), Int(2))
  }
}
