// Which texts Rust reads as an unsigned number.
module Numerals {
  import opened JobQueue
  import opened Text

  /** An optional plus sign and at least one digit. */
  predicate IsNumeral(s: string, plus: bool, digits: string) {
    && s == (if plus then "+" else "") + digits
    && digits != [] && forall i :: 0 <= i < |digits| ==> '0' <= digits[i] <= '9'
  }

  lemma NumeralDigits(s: string, plus: bool, digits: string)
    requires IsNumeral(s, plus, digits)
    ensures AllDigits(digits) && digits == if s[0] == '+' then s[1..] else s
  {
    assert forall i :: 0 <= i < |digits| ==> IsDigit(digits[i]);
    if plus { assert s[1..] == digits; } else { assert s == digits && s[0] == digits[0]; }
  }

  /** A text is read as a number exactly when it is a numeral of it that does not exceed the type. */
  lemma UnsignedIff(s: string, max: nat, n: nat)
    ensures ParseUnsigned(s, max) == Some(n) <==>
            n <= max && exists plus, digits :: IsNumeral(s, plus, digits) && AllDigits(digits) && Value(digits) == n
  {
    hide Value;
    if ParseUnsigned(s, max) == Some(n) {
      var plus := s != [] && s[0] == '+';
      var digits := if plus then s[1..] else s;
      assert AllDigits(digits);
      assert forall i :: 0 <= i < |digits| ==> IsDigit(digits[i]);
      assert (if plus then "+" else "") + digits == s;
      assert IsNumeral(s, plus, digits) && Value(digits) == n;
    }
    if plus, digits :| IsNumeral(s, plus, digits) && AllDigits(digits) && Value(digits) == n {
      NumeralDigits(s, plus, digits);
    }
  }

  /** Leading zeros change nothing, and each further digit counts as ten times what comes before it. */
  lemma {:induction false} ValueAppends(a: string, b: string)
    requires AllDigits(a) && AllDigits(b) && AllDigits(a + b)
    ensures Value(a + b) == Value(a) * Power10(|b|) + Value(b)
  {
    if b == [] {
      assert a + b == a;
    } else {
      var n := |b| - 1;
      assert (a + b)[..|a + b| - 1] == a + b[..n] && (a + b)[|a + b| - 1] == b[n];
      ValueAppends(a, b[..n]);
      TimesTen(Value(a), Power10(n), Value(b[..n]));
    }
  }

  function Power10(n: nat): nat {
    if n == 0 then 1 else 10 * Power10(n - 1)
  }

  lemma TimesTen(v: nat, p: nat, w: nat)
    ensures (v * p + w) * 10 == v * (10 * p) + w * 10
  {
  }
}
