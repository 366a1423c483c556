/**
 * Python's `str(i)` for integers (decimal digits, a leading '-' when
 * negative) and the parser that reads such text back.
 */
module IntText {
  import opened Results

  predicate IsDigit(c: char)
  {
    '0' <= c <= '9'
  }

  predicate AllDigits(s: string)
  {
    forall k :: 0 <= k < |s| ==> IsDigit(s[k])
  }

  function DigitChar(d: nat): (c: char)
    requires d < 10
    ensures IsDigit(c)
  {
    (('0' as int) + d) as char
  }

  function DigitValue(c: char): (d: nat)
    requires IsDigit(c)
    ensures d < 10 && DigitChar(d) == c
  {
    (c as int) - ('0' as int)
  }

  /** Decimal digits of a natural number, most significant first, no leading zero. */
  function NatText(n: nat): (s: string)
    ensures |s| >= 1 && AllDigits(s)
    ensures s[0] == '0' ==> n == 0
    decreases n
  {
    if n < 10 then [DigitChar(n)] else NatText(n / 10) + [DigitChar(n % 10)]
  }

  /** The number a non-empty run of decimal digits denotes. */
  function DigitsValue(s: string): nat
    requires AllDigits(s)
  {
    if s == [] then 0 else DigitsValue(s[..|s| - 1]) * 10 + DigitValue(s[|s| - 1])
  }

  /** Reading back the digits of a natural number gives the number. */
  lemma {:induction false} NatTextRoundTrip(n: nat)
    ensures DigitsValue(NatText(n)) == n
    decreases n
  {
    if n >= 10 {
      NatTextRoundTrip(n / 10);
      var s := NatText(n);
      assert s[..|s| - 1] == NatText(n / 10);
    }
  }

  /**
   * `int(s)` restricted to the text `str` produces: an optional '-' then
   * digits with no leading zero, and no "-0".
   */
  function ParseInt(s: string): Option<int>
  {
    if |s| >= 2 && s[0] == '-' && s[1] != '0' && AllDigits(s[1..]) then Some(0 - DigitsValue(s[1..]))
    else if |s| >= 1 && AllDigits(s) && (s[0] == '0' ==> |s| == 1) then Some(DigitsValue(s))
    else None
  }

  /** `str(i)`: its text holds only digits and a leading minus, and parses back to `i`. */
  function Text(i: int): (s: string)
    ensures |s| >= 1
    ensures forall k :: 0 <= k < |s| ==> IsDigit(s[k]) || (k == 0 && s[k] == '-')
    ensures ParseInt(s) == Some(i)
  {
    if i < 0 then
      NatTextRoundTrip(-i);
      var s := "-" + NatText(-i);
      assert s[1..] == NatText(-i);
      s
    else
      NatTextRoundTrip(i);
      NatText(i)
  }

  /** Digits without a leading zero are exactly the digits of the number they denote. */
  lemma {:induction false} CanonicalDigits(s: string)
    requires |s| >= 1 && AllDigits(s) && (s[0] == '0' ==> |s| == 1)
    ensures NatText(DigitsValue(s)) == s
    decreases |s|
  {
    var d := DigitValue(s[|s| - 1]);
    var p := s[..|s| - 1];
    assert DigitsValue(s) == DigitsValue(p) * 10 + d;
    if |s| == 1 {
      assert p == [];
    } else {
      assert p[0] == s[0];
      CanonicalDigits(p);
      var v := DigitsValue(p);
      if v == 0 {
        assert false;
      }
      assert DigitsValue(s) / 10 == v && DigitsValue(s) % 10 == d;
      assert s == p + [s[|s| - 1]];
    }
  }

  /** The text `str(i)` produces is the only text that parses to `i`. */
  lemma TextIsUnique(s: string, i: int)
    requires ParseInt(s) == Some(i)
    ensures s == Text(i)
  {
    if |s| >= 2 && s[0] == '-' && s[1] != '0' && AllDigits(s[1..]) {
      CanonicalDigits(s[1..]);
      assert s == "-" + s[1..];
      if DigitsValue(s[1..]) == 0 {
        assert false;
      }
    } else {
      CanonicalDigits(s);
    }
  }
}
