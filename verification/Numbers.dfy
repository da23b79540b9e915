/**
 Numbers as text: how `Number` reads a text and how `String` prints a number, on exact decimals. The
 rounding to a binary fraction of 53 digits is not modelled; the bound of what is finite is.
 */
module Numbers {
  import opened Results
  import opened Text

  /** `digits` times ten to the `exponent`. */
  datatype Size = Size(digits: nat, exponent: int)

  /** A number of the language; zero has no sign. */
  datatype Number = NaN | Infinity(negative: bool) | Finite(negative: bool, size: Size)

  /** The one form of a size in which its digits do not end in zero. */
  predicate Canonical(a: Size) {
    if a.digits == 0 then a.exponent == 0 else a.digits % 10 != 0
  }

  function Normal(digits: nat, exponent: int): (a: Size)
    ensures Canonical(a)
    decreases digits
  {
    if digits == 0 then Size(0, 0)
    else if digits % 10 == 0 then Normal(digits / 10, exponent + 1)
    else Size(digits, exponent)
  }

  function Pow10(n: nat): (p: nat)
    ensures p > 0
  {
    if n == 0 then 1 else 10 * Pow10(n - 1)
  }

  /** The least number that is read as infinity, 2 to the 1024 less 2 to the 970. */
  const INFINITE: nat := 179769313486231580793728971405303415079934132710037826936173778980444968292764750946649017977587207096330286416692887910946555547851940402630657488671505820681908902000708383676273854845817711531764475730270069855571366959622842914819860834936475292719074168444365510704342711559699508093042880177904174497792

  predicate Bounded(a: Size) {
    if a.exponent >= 0 then a.digits * Pow10(a.exponent) < INFINITE
    else a.digits < INFINITE * Pow10(-a.exponent)
  }

  /** Every number has one form: what is too large is infinite, and zero is not negative. */
  predicate IsNumber(a: Number) {
    a.Finite? ==> Canonical(a.size) && Bounded(a.size) && (a.size.digits == 0 ==> !a.negative)
  }

  const INFINITY := "Infinity"

  predicate Digits(s: string) {
    forall i :: 0 <= i < |s| ==> IsDigit(s[i])
  }

  function Position(s: string, c: char): (n: nat)
    ensures n <= |s| && (n < |s| ==> s[n] == c) && forall i :: 0 <= i < n ==> s[i] != c
  {
    if s == [] || s[0] == c then 0 else 1 + Position(s[1..], c)
  }

  // ---------------------------------------------------------------- reading

  function RadixDigit(c: char): (d: nat) {
    if IsDigit(c) then DigitValue(c)
    else if 'a' <= c <= 'f' then 10 + (c as int - 'a' as int)
    else if 'A' <= c <= 'F' then 10 + (c as int - 'A' as int)
    else 36
  }

  function RadixValue(s: string, radix: nat): Option<nat> {
    if s == [] then Some(0)
    else
      match RadixValue(s[..|s| - 1], radix)
      case None => None
      case Some(front) =>
        if RadixDigit(s[|s| - 1]) < radix then Some(front * radix + RadixDigit(s[|s| - 1])) else None
  }

  /** The radix a prefix stands for; such a number has no sign, point or exponent. */
  function RadixOf(s: string): Option<nat> {
    if |s| <= 2 || s[0] != '0' then None
    else if s[1] in {'x', 'X'} then Some(16)
    else if s[1] in {'o', 'O'} then Some(8)
    else if s[1] in {'b', 'B'} then Some(2)
    else None
  }

  predicate IsSign(c: char) {
    c == '+' || c == '-'
  }

  /** An exponent: digits, behind a sign or not. */
  function ExponentOf(s: string): Option<int> {
    var digits := if s != [] && IsSign(s[0]) then s[1..] else s;
    if digits == [] || !Digits(digits) then None
    else
      var n: int := NumberOf(digits);
      Some(if s[0] == '-' then -n else n)
  }

  function ExponentAt(s: string): (n: nat)
    ensures n <= |s| && (n < |s| ==> s[n] in {'e', 'E'}) && forall i :: 0 <= i < n ==> s[i] !in {'e', 'E'}
  {
    if s == [] || s[0] in {'e', 'E'} then 0 else 1 + ExponentAt(s[1..])
  }

  /** Digits with at most one point among or beside them. */
  function OfParts(mantissa: string, exponent: int): Option<Size> {
    var p := Position(mantissa, '.');
    var whole, fraction := mantissa[..p], if p < |mantissa| then mantissa[p + 1..] else [];
    if Digits(whole) && Digits(fraction) && whole + fraction != [] then
      Some(Normal(NumberOf(whole + fraction), exponent - |fraction|))
    else None
  }

  function Unsigned(s: string): Option<Size> {
    var n := ExponentAt(s);
    var exponent := if n < |s| then ExponentOf(s[n + 1..]) else Some(0);
    if exponent.None? then None else OfParts(s[..n], exponent.value)
  }

  function Signless(s: string): string {
    if s != [] && IsSign(s[0]) then s[1..] else s
  }

  function ReadSize(s: string): Option<Size> {
    if RadixOf(s).None? then Unsigned(Signless(s))
    else match RadixValue(s[2..], RadixOf(s).value) case None => None case Some(n) => Some(Normal(n, 0))
  }

  /** `Number` of a text without white space around it; one that stands for no number is `NaN`. */
  function ReadNumber(s: string): (a: Number)
    ensures IsNumber(a)
  {
    var negative := s != [] && s[0] == '-';
    if s == [] then Finite(false, Size(0, 0))
    else if Signless(s) == INFINITY then Infinity(negative)
    else
      match ReadSize(s)
      case None => NaN
      case Some(size) =>
        if !Bounded(size) then Infinity(negative) else Finite(negative && size.digits != 0, size)
  }

  // ---------------------------------------------------------------- printing

  function Zeros(n: nat): (s: string)
    ensures |s| == n && Digits(s) && forall i :: 0 <= i < n ==> s[i] == '0'
  {
    if n == 0 then [] else Zeros(n - 1) + ['0']
  }

  function ExponentText(e: int): string {
    if e < 0 then "e-" + Decimal(-e) else "e+" + Decimal(e)
  }

  /** Plain digits for numbers of a middle size, an exponent for the others. */
  function SizeText(a: Size): string {
    var s := Decimal(a.digits);
    var k := |s|;
    var n := k + a.exponent;
    if k <= n <= 21 then s + Zeros(n - k)
    else if 0 < n <= 21 then s[..n] + "." + s[n..]
    else if -6 < n <= 0 then "0." + (Zeros(-n) + s)
    else (if k == 1 then s else s[..1] + "." + s[1..]) + ExponentText(n - 1)
  }

  function SignText(negative: bool): string {
    if negative then "-" else ""
  }

  /** `String` of a number. */
  function NumberText(a: Number): string {
    match a
    case NaN => "NaN"
    case Infinity(negative) => SignText(negative) + INFINITY
    case Finite(negative, size) => SignText(negative) + SizeText(size)
  }

  // ---------------------------------------------------------------- reading back

  lemma ZeroBehind(s: string)
    requires Digits(s)
    ensures Digits(s + ['0']) && NumberOf(s + ['0']) == 10 * NumberOf(s)
  {
    var t := s + ['0'];
    assert t[..|t| - 1] == s && t[|t| - 1] == '0';
  }

  lemma {:induction false} NumberOfZeros(s: string, j: nat)
    requires Digits(s)
    ensures Digits(s + Zeros(j)) && NumberOf(s + Zeros(j)) == NumberOf(s) * Pow10(j)
  {
    if j == 0 {
      assert s + Zeros(0) == s;
    } else {
      NumberOfZeros(s, j - 1);
      hide NumberOf;
      ZeroBehind(s + Zeros(j - 1));
      assert s + Zeros(j) == (s + Zeros(j - 1)) + ['0'];
      PowStep(NumberOf(s), Pow10(j - 1));
    }
  }

  lemma {:induction false} ZerosBefore(s: string, j: nat)
    requires Digits(s)
    ensures Digits(Zeros(j) + s) && NumberOf(Zeros(j) + s) == NumberOf(s)
    decreases |s|, j
  {
    var t := Zeros(j) + s;
    if s != [] {
      ZerosBefore(s[..|s| - 1], j);
      assert t[..|t| - 1] == Zeros(j) + s[..|s| - 1];
    } else if j > 0 {
      ZerosBefore(s, j - 1);
      assert t[..|t| - 1] == Zeros(j - 1) + s && t[|t| - 1] == '0';
    } else {
      assert t == s;
    }
  }

  lemma PowStep(c: nat, p: nat)
    ensures c * (10 * p) == 10 * (c * p)
  {
  }

  lemma TenTimes(d: nat, e: int)
    requires d > 0
    ensures Normal(10 * d, e) == Normal(d, e + 1)
  {
    assert (10 * d) % 10 == 0 && (10 * d) / 10 == d;
  }

  lemma {:induction false} NormalShifts(c: nat, e: int, j: nat)
    requires c % 10 != 0
    ensures c * Pow10(j) > 0 && Normal(c * Pow10(j), e - j) == Size(c, e)
  {
    if j > 0 {
      hide Normal;
      NormalShifts(c, e, j - 1);
      PowStep(c, Pow10(j - 1));
      TenTimes(c * Pow10(j - 1), e - j);
    } else {
      assert c * Pow10(0) == c;
    }
  }

  lemma NoExponent(s: string)
    requires forall i :: 0 <= i < |s| ==> IsDigit(s[i]) || s[i] == '.'
    ensures ExponentAt(s) == |s|
  {
  }

  lemma ExponentIsAt(s: string, t: string)
    requires forall i :: 0 <= i < |s| ==> IsDigit(s[i]) || s[i] == '.'
    requires t != [] && t[0] == 'e'
    ensures ExponentAt(s + t) == |s|
  {
    var u := s + t;
    assert u[|s|] == 'e';
    assert forall i :: 0 <= i < |s| ==> u[i] == s[i];
  }

  lemma PointAt(whole: string, rest: string)
    requires Digits(whole) && (rest == [] || rest[0] == '.')
    ensures Position(whole + rest, '.') == |whole|
  {
    var s := whole + rest;
    assert forall i :: 0 <= i < |whole| ==> s[i] == whole[i];
    assert rest != [] ==> s[|whole|] == '.';
  }

  function Mantissa(whole: string, fraction: string): string {
    whole + if fraction == [] then [] else ['.'] + fraction
  }

  lemma MantissaChars(whole: string, fraction: string)
    requires Digits(whole) && Digits(fraction)
    ensures var m := Mantissa(whole, fraction); forall i :: 0 <= i < |m| ==> IsDigit(m[i]) || m[i] == '.'
  {
    var m := Mantissa(whole, fraction);
    forall i | 0 <= i < |m| ensures IsDigit(m[i]) || m[i] == '.' {
      if i < |whole| {
        assert m[i] == whole[i];
      } else if i > |whole| {
        assert m[i] == fraction[i - |whole| - 1];
      }
    }
  }

  lemma MantissaRead(whole: string, fraction: string, e: int)
    requires Digits(whole) && Digits(fraction) && whole != []
    ensures Digits(whole + fraction)
    ensures OfParts(Mantissa(whole, fraction), e) == Some(Normal(NumberOf(whole + fraction), e - |fraction|))
  {
    hide Position, NumberOf, Normal;
    var m := Mantissa(whole, fraction);
    PointAt(whole, if fraction == [] then [] else ['.'] + fraction);
    assert m[..|whole|] == whole && (fraction != [] ==> m[|whole| + 1..] == fraction);
  }

  lemma ReadPlain(whole: string, fraction: string)
    requires Digits(whole) && Digits(fraction) && whole != []
    ensures Digits(whole + fraction)
    ensures Unsigned(Mantissa(whole, fraction)) == Some(Normal(NumberOf(whole + fraction), -|fraction|))
  {
    hide ExponentAt, OfParts, NumberOf, Normal, Mantissa;
    var m := Mantissa(whole, fraction);
    MantissaChars(whole, fraction);
    NoExponent(m);
    MantissaRead(whole, fraction, 0);
    assert m[..|m|] == m;
  }

  lemma ReadExponent(whole: string, fraction: string, e: int)
    requires Digits(whole) && Digits(fraction) && whole != []
    ensures Digits(whole + fraction)
    ensures Unsigned(Mantissa(whole, fraction) + ExponentText(e)) == Some(Normal(NumberOf(whole + fraction), e - |fraction|))
  {
    hide ExponentAt, OfParts, NumberOf, Normal, Mantissa, ExponentOf, ExponentText;
    var m, t := Mantissa(whole, fraction), ExponentText(e);
    MantissaChars(whole, fraction);
    ExponentBack(e);
    ExponentIsAt(m, t);
    MantissaRead(whole, fraction, e);
    assert (m + t)[..|m|] == m && (m + t)[|m| + 1..] == t[1..];
  }

  lemma ExponentBack(e: int)
    ensures ExponentText(e) != [] && ExponentText(e)[0] == 'e' && ExponentOf(ExponentText(e)[1..]) == Some(e)
  {
    var n: nat := if e < 0 then -e else e;
    DecimalDigits(n);
    hide Decimal, NumberOf, Digits;
    var d := Decimal(n);
    assert (if e < 0 then "e-" else "e+") + d == ['e'] + ([if e < 0 then '-' else '+'] + d);
    var t := ExponentText(e)[1..];
    assert t == [if e < 0 then '-' else '+'] + d;
    assert t[1..] == d;
  }

  lemma DecimalDigits(n: nat)
    ensures Digits(Decimal(n)) && NumberOf(Decimal(n)) == n && Decimal(n) != []
  {
    DecimalRoundTrip(n);
  }

  /** A text is digits around a point, with an exponent or without, that stand for a number. */
  predicate Stands(text: string, whole: string, fraction: string, e: Option<int>, a: Size) {
    && Digits(whole) && Digits(fraction) && whole != [] && Digits(whole + fraction)
    && text == Mantissa(whole, fraction) + (match e case None => [] case Some(n) => ExponentText(n))
    && Normal(NumberOf(whole + fraction), Or(e, 0) - |fraction|) == a
  }

  /** The four ways a number is printed. */
  lemma SizeParts(a: Size) returns (whole: string, fraction: string, e: Option<int>)
    requires Canonical(a)
    ensures Stands(SizeText(a), whole, fraction, e, a)
  {
    hide Stands, NumberOf, Normal, Canonical;
    var s := Decimal(a.digits);
    var k, n := |s|, |s| + a.exponent;
    if k <= n <= 21 {
      whole, fraction, e := s + Zeros(n - k), [], None;
      WholeNumber(a, s);
    } else if 0 < n <= 21 {
      whole, fraction, e := s[..n], s[n..], None;
      PointInside(a, s, n);
    } else if -6 < n <= 0 {
      whole, fraction, e := "0", Zeros(-n) + s, None;
      PointBefore(a, s, -n);
    } else {
      whole, fraction, e := s[..1], s[1..], Some(n - 1);
      WithExponent(a, s);
    }
  }

  lemma WholeNumber(a: Size, s: string)
    requires Canonical(a) && a.exponent >= 0 && s == Decimal(a.digits)
    ensures Stands(s + Zeros(a.exponent), s + Zeros(a.exponent), [], None, a)
  {
    DecimalDigits(a.digits);
    hide Decimal, ExponentText, NumberOf, Normal, Zeros;
    NumberOfZeros(s, a.exponent);
    var whole := s + Zeros(a.exponent);
    assert whole + [] == whole && Mantissa(whole, []) + [] == whole;
    if a.digits > 0 {
      NormalShifts(a.digits, a.exponent, a.exponent);
    } else {
      assert Normal(0, 0) == a by { NormalIs(a); }
    }
  }

  lemma PointInside(a: Size, s: string, n: nat)
    requires Canonical(a) && s == Decimal(a.digits) && 0 < n < |s| && n == |s| + a.exponent
    ensures Stands(s[..n] + "." + s[n..], s[..n], s[n..], None, a)
  {
    DecimalDigits(a.digits);
    NormalIs(a);
    hide Decimal, ExponentText, NumberOf, Normal;
    assert s[..n] + s[n..] == s;
    NonEmptyMantissa(s[..n], s[n..]);
  }

  lemma PointBefore(a: Size, s: string, zeros: nat)
    requires Canonical(a) && s == Decimal(a.digits) && |s| + a.exponent + zeros == 0
    ensures Stands("0." + (Zeros(zeros) + s), "0", Zeros(zeros) + s, None, a)
  {
    DecimalDigits(a.digits);
    NormalIs(a);
    hide Decimal, ExponentText, NumberOf, Normal, Zeros, Digits;
    var fraction := Zeros(zeros) + s;
    ZerosBefore(s, zeros);
    ZeroBefore(fraction);
    NonEmptyMantissa("0", fraction);
  }

  lemma ZeroBefore(s: string)
    requires Digits(s)
    ensures Digits("0") && Digits("0" + s) && NumberOf("0" + s) == NumberOf(s)
  {
    ZerosBefore(s, 1);
    assert Zeros(1) == "0";
  }

  lemma NonEmptyMantissa(whole: string, fraction: string)
    requires fraction != []
    ensures whole + "." + fraction == Mantissa(whole, fraction) + []
  {
    assert whole + "." + fraction == whole + (['.'] + fraction);
  }

  lemma WithExponent(a: Size, s: string)
    requires Canonical(a) && s == Decimal(a.digits)
    ensures var front := if |s| == 1 then s else s[..1] + "." + s[1..];
      s != [] && Stands(front + ExponentText(|s| + a.exponent - 1), s[..1], s[1..], Some(|s| + a.exponent - 1), a)
  {
    DecimalDigits(a.digits);
    NormalIs(a);
    hide Decimal, ExponentText, NumberOf, Normal;
    assert s[..1] + s[1..] == s;
    assert |s| == 1 ==> s[..1] == s && s[1..] == [];
    assert Mantissa(s[..1], s[1..]) == if |s| == 1 then s else s[..1] + "." + s[1..];
  }

  lemma NormalIs(a: Size)
    requires Canonical(a)
    ensures Normal(a.digits, a.exponent) == a
  {
  }

  predicate Plain(c: char) {
    IsDigit(c) || c in {'.', 'e', '+', '-'}
  }

  /** A printed number begins with a digit and holds nothing that would have to be quoted. */
  lemma SizeChars(a: Size)
    requires Canonical(a)
    ensures SizeText(a) != [] && IsDigit(SizeText(a)[0])
    ensures forall i :: 0 <= i < |SizeText(a)| ==> Plain(SizeText(a)[i])
    ensures IsDigit(SizeText(a)[|SizeText(a)| - 1])
  {
    hide SizeText, Normal, NumberOf;
    var whole, fraction, e := SizeParts(a);
    var m := Mantissa(whole, fraction);
    MantissaChars(whole, fraction);
    assert m[0] == whole[0] && IsDigit(m[|m| - 1]) by {
      assert fraction != [] ==> m[|m| - 1] == fraction[|fraction| - 1];
      assert fraction == [] ==> m == whole;
    }
    match e
    case None =>
      assert SizeText(a) == m + [] == m;
    case Some(n) =>
      ExponentChars(n);
      assert forall i :: 0 <= i < |m| ==> (m + ExponentText(n))[i] == m[i];
  }

  lemma ExponentChars(e: int)
    ensures var t := ExponentText(e);
      t != [] && IsDigit(t[|t| - 1]) && forall i :: 0 <= i < |t| ==> Plain(t[i])
  {
    var d := Decimal(if e < 0 then -e else e);
    var t := ExponentText(e);
    assert t == (if e < 0 then "e-" else "e+") + d;
    assert t[|t| - 1] == d[|d| - 1];
    forall i | 0 <= i < |t| ensures Plain(t[i]) {
      if i >= 2 {
        assert t[i] == d[i - 2];
      }
    }
  }

  lemma SizeRead(a: Size)
    requires Canonical(a)
    ensures Unsigned(SizeText(a)) == Some(a)
  {
    hide SizeText, Normal, NumberOf, Unsigned, Mantissa, ExponentText;
    var whole, fraction, e := SizeParts(a);
    match e {
      case None =>
        ReadPlain(whole, fraction);
        assert SizeText(a) == Mantissa(whole, fraction) + [] == Mantissa(whole, fraction);
      case Some(n) =>
        ReadExponent(whole, fraction, n);
    }
  }

  lemma NoRadix(text: string)
    requires text != [] && IsDigit(text[0]) && forall i :: 0 <= i < |text| ==> Plain(text[i])
    ensures RadixOf(text).None? && !IsSign(text[0])
  {
    assert |text| > 1 ==> Plain(text[1]);
  }

  lemma SignRead(s: string, negative: bool)
    requires s != [] && !IsSign(s[0])
    ensures var text := SignText(negative) + s;
      && text != [] && Signless(text) == s && (text[0] == '-' <==> negative) && (negative ==> RadixOf(text).None?)
  {
    var text := SignText(negative) + s;
    assert !negative ==> text == s;
    assert negative ==> text[1..] == s;
  }

  /** A printed number is read back as the same number. */
  lemma NumberRoundTrip(a: Number)
    requires IsNumber(a)
    ensures ReadNumber(NumberText(a)) == a
  {
    hide Unsigned, SizeText, Bounded, RadixOf;
    match a
    case NaN =>
      NaNRead();
    case Infinity(negative) =>
      SignRead(INFINITY, negative);
    case Finite(negative, size) =>
      var text := SizeText(size);
      SizeChars(size);
      SizeRead(size);
      NoRadix(text);
      FiniteRead(a);
  }

  lemma FiniteRead(a: Number)
    requires a.Finite? && IsNumber(a)
    requires var text := SizeText(a.size);
      && text != [] && IsDigit(text[0]) && !IsSign(text[0]) && RadixOf(text).None? && Unsigned(text) == Some(a.size)
    ensures ReadNumber(NumberText(a)) == a
  {
    hide Unsigned, SizeText, Bounded, RadixOf;
    SignRead(SizeText(a.size), a.negative);
    assert INFINITY[0] == 'I' && !IsDigit('I');
    assert !a.negative ==> NumberText(a) == SizeText(a.size);
  }

  lemma NaNRead()
    ensures ReadNumber("NaN") == NaN
  {
    assert ExponentAt("NaN") == Position("NaN", '.') == 3 && "NaN"[..3] == "NaN";
    assert !IsDigit("NaN"[0]);
  }

  predicate NumberChar(c: char) {
    Plain(c) || c in {'N', 'a', 'I', 'n', 'f', 'i', 't', 'y'}
  }

  /** A printed number is not empty and holds nothing that would have to be quoted or trimmed. */
  lemma TextChars(a: Number)
    requires IsNumber(a)
    ensures NumberText(a) != [] && forall i :: 0 <= i < |NumberText(a)| ==> NumberChar(NumberText(a)[i])
  {
    hide SizeText, Bounded, Canonical;
    match a
    case NaN =>
    case Infinity(negative) =>
      assert |INFINITY| == 8;
    case Finite(negative, size) =>
      SizeChars(size);
  }
}
