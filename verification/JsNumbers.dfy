/** JavaScript's text form of a number. A finite non-zero double is modelled by
    what its shortest round-trip rendering fixes: a sign, the significant
    decimal digits and the decimal exponent of the first one. */
module JsNumbers {

  predicate IsDigit(c: char) { '0' <= c <= '9' }

  predicate AllDigits(s: string) { forall i | 0 <= i < |s| :: IsDigit(s[i]) }

  /** Shortest digits carry no zero at either end. */
  predicate IsShortest(s: string) {
    |s| > 0 && AllDigits(s) && s[0] != '0' && s[|s| - 1] != '0'
  }

  type Digits = s: string | IsShortest(s) witness "1"

  datatype Double =
    | NaN
    | Infinity(neg: bool)
    | Zero(neg: bool)
    | Finite(neg: bool, digits: Digits, exponent: int)

  /** `==` on doubles: both zeros are equal, a NaN equals nothing. */
  predicate SameNumber(a: Double, b: Double) {
    !a.NaN? && ((a.Zero? && b.Zero?) || a == b)
  }

  function Zeros(n: nat): (s: string)
    ensures |s| == n && AllDigits(s) && forall i | 0 <= i < n :: s[i] == '0'
  {
    if n == 0 then "" else "0" + Zeros(n - 1)
  }

  function DigitChar(d: nat): (c: char)
    requires d < 10
    ensures IsDigit(c) && c as int == '0' as int + d
  {
    (d + '0' as int) as char
  }

  function DecimalText(n: nat): (s: string)
    ensures |s| > 0 && AllDigits(s)
  {
    if n < 10 then [DigitChar(n)] else DecimalText(n / 10) + [DigitChar(n % 10)]
  }

  function DecimalValue(s: string): nat
    requires AllDigits(s)
  {
    if s == "" then 0 else 10 * DecimalValue(s[..|s| - 1]) + (s[|s| - 1] as int - '0' as int)
  }

  lemma {:induction false} DecimalRoundTrip(n: nat)
    ensures DecimalValue(DecimalText(n)) == n
  {
    var s := DecimalText(n);
    if n < 10 {
      assert s[..|s| - 1] == "";
    } else {
      assert s[..|s| - 1] == DecimalText(n / 10);
      DecimalRoundTrip(n / 10);
    }
  }

  function Mantissa(digits: Digits): (s: string)
    ensures |s| > 0 && s[0] == digits[0]
  {
    digits[..1] + (if |digits| == 1 then "" else "." + digits[1..])
  }

  function Power(e: int): string {
    (if e >= 0 then "+" else "-") + DecimalText(if e >= 0 then e else -e)
  }

  /** The four layouts of `Number::toString`; `n` is the position of the decimal
      point counted from the first significant digit. */
  function Body(digits: Digits, n: int): (s: string)
    ensures |s| > 0 && IsDigit(s[0])
  {
    var k := |digits|;
    if k <= n <= 21 then digits + Zeros(n - k)
    else if 0 < n <= 21 then digits[..n] + "." + digits[n..]
    else if -6 < n <= 0 then "0." + Zeros(-n) + digits
    else Mantissa(digits) + ['e'] + Power(n - 1)
  }

  function NumberText(d: Double): string {
    match d
    case NaN => "NaN"
    case Zero(_) => "0"
    case Infinity(neg) => if neg then "-Infinity" else "Infinity"
    case Finite(neg, digits, exponent) => (if neg then "-" else "") + Body(digits, exponent + 1)
  }

  /** The second implementation pushes the same layouts onto one buffer. */
  method PushBody(text: string, digits: Digits, n: int) returns (out: string)
    ensures out == text + Body(digits, n)
  {
    var k := |digits|;
    out := text;
    if k <= n && n <= 21 {
      out := out + digits;
      out := out + Zeros(n - k);
      assert out == text + (digits + Zeros(n - k));
    } else if 0 < n && n <= 21 {
      out := out + digits[..n];
      out := out + ".";
      out := out + digits[n..];
      assert out == text + (digits[..n] + "." + digits[n..]);
    } else if -6 < n && n <= 0 {
      out := out + "0.";
      out := out + Zeros(-n);
      out := out + digits;
      assert out == text + ("0." + Zeros(-n) + digits);
    } else {
      out := PushExponentLayout(text, digits, n);
    }
  }

  method PushExponentLayout(text: string, digits: Digits, n: int) returns (out: string)
    requires !(-6 < n <= 21)
    ensures out == text + Body(digits, n)
  {
    var first, rest := digits[..1], "";
    out := text + first;
    if |digits| != 1 {
      rest := "." + digits[1..];
      out := out + rest;
    }
    assert out == text + (first + rest);
    var mark := if n - 1 < 0 then "-" else "+";
    var power := DecimalText(if n - 1 < 0 then -(n - 1) else n - 1);
    out := out + ['e'];
    assert out == text + (first + rest + ['e']);
    out := out + mark;
    out := out + power;
    assert out == text + (first + rest + ['e'] + (mark + power));
  }

  method NumberToString(value: Double) returns (text: string)
    ensures text == NumberText(value)
  {
    match value {
      case NaN => text := "NaN";
      case Infinity(neg) => text := if neg then "-Infinity" else "Infinity";
      case Zero(_) => text := "0";
      case Finite(neg, digits, exponent) =>
        text := PushBody(if neg then "-" else "", digits, exponent + 1);
    }
  }

  // ---------------------------------------------------------------- reading

  /** Splits `s` at its first `c`. */
  function Before(s: string, c: char): string {
    if s == "" || s[0] == c then "" else [s[0]] + Before(s[1..], c)
  }

  lemma {:induction false} BeforeIsPrefix(a: string, c: char, b: string)
    requires c !in a
    ensures Before(a + [c] + b, c) == a
  {
    var s := a + [c] + b;
    if a == "" {
    } else {
      assert s[0] == a[0] && a[0] in a;
      assert s[1..] == a[1..] + [c] + b;
      BeforeIsPrefix(a[1..], c, b);
    }
  }

  function DropLeadingZeros(s: string): string {
    if s != "" && s[0] == '0' then DropLeadingZeros(s[1..]) else s
  }

  function DropTrailingZeros(s: string): string {
    if s != "" && s[|s| - 1] == '0' then DropTrailingZeros(s[..|s| - 1]) else s
  }

  lemma {:induction false} LeadingZerosDropped(n: nat, digits: Digits)
    ensures DropLeadingZeros(Zeros(n) + digits) == digits
  {
    var s := Zeros(n) + digits;
    if n == 0 {
      assert s == digits;
    } else {
      assert s[1..] == Zeros(n - 1) + digits;
      LeadingZerosDropped(n - 1, digits);
    }
  }

  lemma {:induction false} TrailingZerosDropped(digits: Digits, n: nat)
    ensures DropTrailingZeros(digits + Zeros(n)) == digits
  {
    var s := digits + Zeros(n);
    if n == 0 {
      assert s == digits;
    } else {
      assert Zeros(n)[..n - 1] == Zeros(n - 1);
      assert s[..|s| - 1] == digits + Zeros(n - 1);
      TrailingZerosDropped(digits, n - 1);
    }
  }

  function After(s: string, n: nat): string {
    if n < |s| then s[n + 1..] else ""
  }

  /** The digits of a mantissa, without its decimal point. */
  function ReadMantissa(s: string): string {
    Before(s, '.') + After(s, |Before(s, '.')|)
  }

  /** A signed exponent; 0 for text that is not one. */
  function ReadPower(s: string): int {
    if |s| < 2 || !AllDigits(s[1..]) then 0
    else if s[0] == '-' then 0 - DecimalValue(s[1..])
    else DecimalValue(s[1..])
  }

  /** Reads digits and decimal point back from an unsigned text, telling the
      four layouts apart by the marks in them. */
  function ReadBody(s: string): (string, int) {
    if 'e' in s then
      (ReadMantissa(Before(s, 'e')), 1 + ReadPower(After(s, |Before(s, 'e')|)))
    else if '.' in s then
      var whole := Before(s, '.');
      var fraction := After(s, |whole|);
      if whole == "0" then
        var digits := DropLeadingZeros(fraction);
        (digits, |digits| - |fraction|)
      else (whole + fraction, |whole|)
    else (DropTrailingZeros(s), |s|)
  }

  lemma SplitsAtMark(a: string, c: char, b: string)
    requires c !in a
    ensures var s := a + [c] + b; c in s && Before(s, c) == a && After(s, |a|) == b
  {
    var s := a + [c] + b;
    BeforeIsPrefix(a, c, b);
    assert s[|a|] == c;
    assert s[|a| + 1..] == b;
  }

  lemma NoMarks(s: string, c: char)
    requires AllDigits(s) && !IsDigit(c)
    ensures c !in s
  {
    forall i | 0 <= i < |s| ensures s[i] != c {
      assert IsDigit(s[i]);
    }
  }

  lemma MantissaRead(digits: Digits)
    ensures ReadMantissa(Mantissa(digits)) == digits && 'e' !in Mantissa(digits)
  {
    NoMarks(digits, '.');
    NoMarks(digits, 'e');
    if |digits| == 1 {
      assert Mantissa(digits) == digits;
      BeforeWhole(digits, '.');
    } else {
      assert Mantissa(digits) == digits[..1] + ['.'] + digits[1..];
      SplitsAtMark(digits[..1], '.', digits[1..]);
      assert digits[..1] + digits[1..] == digits;
    }
  }

  lemma PowerRead(e: int)
    ensures ReadPower(Power(e)) == e
  {
    var power := DecimalText(if e >= 0 then e else -e);
    assert Power(e)[1..] == power;
    DecimalRoundTrip(if e >= 0 then e else -e);
  }

  lemma ReadsExponentLayout(digits: Digits, n: int)
    requires !(-6 < n <= 21)
    ensures ReadBody(Body(digits, n)) == (digits, n)
  {
    MantissaRead(digits);
    PowerRead(n - 1);
    var read := ReadBody(Mantissa(digits) + ['e'] + Power(n - 1));
    ReadsAroundE(Mantissa(digits), Power(n - 1));
    assert read == (digits, n);
  }

  lemma ReadsAroundE(mantissa: string, power: string)
    requires 'e' !in mantissa
    ensures ReadBody(mantissa + ['e'] + power) == (ReadMantissa(mantissa), 1 + ReadPower(power))
  {
    SplitsAtMark(mantissa, 'e', power);
  }

  lemma {:induction false} BeforeWhole(s: string, c: char)
    requires c !in s
    ensures Before(s, c) == s
  {
    if s != "" {
      assert s[0] in s;
      BeforeWhole(s[1..], c);
    }
  }

  lemma ReadsPlainLayouts(digits: Digits, n: int)
    requires -6 < n <= 21
    ensures ReadBody(Body(digits, n)) == (digits, n)
  {
    var k := |digits|;
    var s := Body(digits, n);
    NoMarks(digits, 'e');
    NoMarks(digits, '.');
    if k <= n {
      NoMarks(s, 'e');
      NoMarks(s, '.');
      TrailingZerosDropped(digits, n - k);
    } else if 0 < n {
      assert s == digits[..n] + ['.'] + digits[n..];
      SplitsAtMark(digits[..n], '.', digits[n..]);
      assert digits[..n] + digits[n..] == digits;
      assert digits[..n][0] != '0';
    } else {
      var fraction := Zeros(-n) + digits;
      NoMarks(fraction, 'e');
      assert s == "0" + ['.'] + fraction;
      SplitsAtMark("0", '.', fraction);
      LeadingZerosDropped(-n, digits);
    }
  }

  /** Reads a printed finite non-zero number back. */
  function ReadNumber(s: string): (bool, string, int) {
    var neg := |s| > 0 && s[0] == '-';
    var (digits, n) := ReadBody(if neg then s[1..] else s);
    (neg, digits, n - 1)
  }

  lemma SignRead(neg: bool, body: string)
    requires |body| > 0 && IsDigit(body[0])
    ensures ReadNumber((if neg then "-" else "") + body) == (neg, ReadBody(body).0, ReadBody(body).1 - 1)
  {
    var s := (if neg then "-" else "") + body;
    assert (if neg then s[1..] else s) == body;
  }

  lemma BodyRoundTrip(digits: Digits, n: int)
    ensures ReadBody(Body(digits, n)) == (digits, n)
  {
    if -6 < n <= 21 {
      ReadsPlainLayouts(digits, n);
    } else {
      ReadsExponentLayout(digits, n);
    }
  }

  /** Sign, shortest digits and exponent are recoverable from the text. */
  lemma NumberRoundTrip(d: Double)
    requires d.Finite?
    ensures ReadNumber(NumberText(d)) == (d.neg, d.digits, d.exponent)
  {
    BodyRoundTrip(d.digits, d.exponent + 1);
    SignRead(d.neg, Body(d.digits, d.exponent + 1));
  }

  /** Two numbers print alike exactly when they are the same number, so -0 and
      0 are the only distinct values that share a text. */
  lemma NumberTextInjective(a: Double, b: Double)
    requires !a.NaN? && !b.NaN?
    ensures NumberText(a) == NumberText(b) <==> SameNumber(a, b)
  {
    FirstCharacter(a);
    FirstCharacter(b);
    if a.Finite? {
      NumberRoundTrip(a);
      ZeroReadsEmpty();
    }
    if b.Finite? {
      NumberRoundTrip(b);
      ZeroReadsEmpty();
    }
  }

  lemma ZeroReadsEmpty()
    ensures ReadNumber("0").1 == ""
  {
    assert "0"[..0] == "";
  }

  lemma FirstCharacter(d: Double)
    ensures var s := NumberText(d);
            && |s| > 0
            && (d.Infinity? ==> s == (if d.neg then "-Infinity" else "Infinity"))
            && (d.Finite? ==> |s| > (if d.neg then 1 else 0) && IsDigit(s[if d.neg then 1 else 0]) && (d.neg <==> s[0] == '-'))
  {
  }
}
