/** Decimal rendering of non-negative integers, as Swift string
    interpolation `"\(n)"` writes an `Int`, together with the parser that
    reads such a rendering back. The relative-time labels are built from
    this rendering; the parser is what lets their contracts say that a
    label determines the count it shows. */
module Decimal {
  import opened Common

  predicate IsDigit(c: char) {
    '0' <= c <= '9'
  }

  predicate AllDigits(s: string) {
    forall i | 0 <= i < |s| :: IsDigit(s[i])
  }

  /** The shape `"\(n)"` produces: at least one digit, and no leading zero
      unless the number is zero itself. */
  predicate Canonical(s: string) {
    |s| >= 1 && AllDigits(s) && (s[0] == '0' ==> |s| == 1)
  }

  function DigitValue(c: char): (d: nat)
    requires IsDigit(c)
    ensures d < 10
  {
    (c as int) - ('0' as int)
  }

  function DigitChar(d: nat): (c: char)
    requires d < 10
    ensures IsDigit(c) && DigitValue(c) == d
  {
    (('0' as int) + d) as char
  }

  /** `"\(n)"` for a non-negative `Int`. */
  function Show(n: nat): (s: string)
    ensures Canonical(s)
    ensures s[0] == '0' <==> n == 0
    decreases n
  {
    if n < 10 then [DigitChar(n)] else Show(n / 10) + [DigitChar(n % 10)]
  }

  /** The number a string of digits denotes, most significant digit first. */
  function ValueOf(s: string): nat
    requires AllDigits(s)
    decreases |s|
  {
    if |s| == 0 then 0 else ValueOf(s[..|s| - 1]) * 10 + DigitValue(s[|s| - 1])
  }

  /** Reads back a rendering made by `Show`; anything else is refused. */
  function Parse(s: string): (r: Option<nat>)
    ensures r.Some? <==> Canonical(s)
  {
    if Canonical(s) then Some(ValueOf(s)) else None
  }

  lemma {:induction false} ValueOfShow(n: nat)
    ensures ValueOf(Show(n)) == n
    decreases n
  {
    if n >= 10 {
      var prefix := Show(n / 10);
      var s := prefix + [DigitChar(n % 10)];
      assert s[..|s| - 1] == prefix;
      ValueOfShow(n / 10);
    }
  }

  /** Rendering then parsing gives the number back. */
  lemma ParseShow(n: nat)
    ensures Parse(Show(n)) == Some(n)
  {
    ValueOfShow(n);
  }

  lemma {:induction false} ValueOfPositive(s: string)
    requires Canonical(s) && s[0] != '0'
    ensures ValueOf(s) >= 1
    decreases |s|
  {
    if |s| > 1 {
      var prefix := s[..|s| - 1];
      assert prefix[0] == s[0];
      ValueOfPositive(prefix);
    }
  }

  /** Parsing then rendering gives the string back: a canonical string is
      the rendering of exactly one number. */
  lemma {:induction false} ShowParse(s: string)
    requires Parse(s).Some?
    ensures Show(Parse(s).value) == s
    decreases |s|
  {
    var n := ValueOf(s);
    if |s| == 1 {
      assert s[..|s| - 1] == [];
      assert ValueOf(s[..|s| - 1]) == 0;
      assert n == DigitValue(s[0]);
      assert Show(n) == [DigitChar(n)];
    } else {
      var prefix := s[..|s| - 1];
      assert prefix[0] == s[0];
      ValueOfPositive(prefix);
      ShowParse(prefix);
      var m := ValueOf(prefix);
      var d := DigitValue(s[|s| - 1]);
      assert n == m * 10 + d;
      assert n / 10 == m && n % 10 == d;
      assert Show(n) == Show(m) + [DigitChar(d)];
      assert DigitChar(d) == s[|s| - 1];
      assert s == prefix + [s[|s| - 1]];
    }
  }

  /** Different numbers render differently. */
  lemma ShowInjective(m: nat, n: nat)
    ensures Show(m) == Show(n) <==> m == n
  {
    ParseShow(m);
    ParseShow(n);
  }
}
