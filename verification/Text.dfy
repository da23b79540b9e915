/** Decimal numbers as text, and the keys that are built from them. */
module Text {

  function Digit(d: nat): (c: char)
    requires d < 10
    ensures '0' <= c <= '9'
  {
    '0' + d as char
  }

  predicate IsDigit(c: char) {
    '0' <= c <= '9'
  }

  function DigitValue(c: char): nat
    requires IsDigit(c)
  {
    c as int - '0' as int
  }

  function Decimal(n: nat): (s: string)
    ensures s != [] && forall i :: 0 <= i < |s| ==> IsDigit(s[i])
  {
    if n < 10 then [Digit(n)] else Decimal(n / 10) + [Digit(n % 10)]
  }

  /** The number a string of digits stands for. */
  function NumberOf(s: string): nat
    requires forall i :: 0 <= i < |s| ==> IsDigit(s[i])
  {
    if s == [] then 0 else 10 * NumberOf(s[..|s| - 1]) + DigitValue(s[|s| - 1])
  }

  lemma {:induction false} DecimalRoundTrip(n: nat)
    ensures NumberOf(Decimal(n)) == n
  {
    if n < 10 {
      assert Decimal(n)[..0] == [];
    } else {
      var front, last := Decimal(n / 10), Digit(n % 10);
      assert (front + [last])[..|front|] == front;
      DecimalRoundTrip(n / 10);
    }
  }

  lemma DecimalInjective(a: nat, b: nat)
    requires Decimal(a) == Decimal(b)
    ensures a == b
  {
    DecimalRoundTrip(a);
    DecimalRoundTrip(b);
  }

  /** The number before the first colon can be read off. */
  lemma FirstNumber(a: nat, b: nat, x: string, y: string)
    requires Decimal(a) + ":" + x == Decimal(b) + ":" + y
    ensures a == b
  {
    var left, right := Decimal(a) + ":" + x, Decimal(b) + ":" + y;
    var n, m := |Decimal(a)|, |Decimal(b)|;
    assert left[n] == ':' && right[m] == ':';
    assert n == m;
    assert left[..n] == Decimal(a) && right[..n] == Decimal(b);
    DecimalInjective(a, b);
  }

  /** A separator that is no digit splits the text of two numbers in only one way. */
  lemma {:induction false} PairInjective(a: nat, b: nat, c: nat, d: nat, separator: char)
    requires !IsDigit(separator)
    requires Decimal(a) + [separator] + Decimal(b) == Decimal(c) + [separator] + Decimal(d)
    ensures a == c && b == d
  {
    var left, right := Decimal(a) + [separator] + Decimal(b), Decimal(c) + [separator] + Decimal(d);
    var n, m := |Decimal(a)|, |Decimal(c)|;
    assert left[n] == separator && right[m] == separator;
    assert n == m;
    assert left[..n] == Decimal(a) && right[..n] == Decimal(c);
    assert left[n + 1..] == Decimal(b) && right[n + 1..] == Decimal(d);
    DecimalInjective(a, c);
    DecimalInjective(b, d);
  }
}
