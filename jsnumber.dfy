/** JavaScript's string-to-number conversions, as far as the dashboard relies on them. */
module JsNumber {
  import opened Wrappers
  import opened Text

  /** Value of `c` as a digit in bases up to 16; 16 for a character that is no such digit. */
  function DigitValue(c: char): (v: nat)
    ensures v <= 16
    ensures IsDigit(c) ==> v == c as int - '0' as int
  {
    if '0' <= c <= '9' then c as int - '0' as int
    else if 'a' <= c <= 'f' then c as int - 'a' as int + 10
    else if 'A' <= c <= 'F' then c as int - 'A' as int + 10
    else 16
  }

  predicate AllRadixDigits(s: string, radix: nat) {
    forall i :: 0 <= i < |s| ==> DigitValue(s[i]) < radix
  }

  // ---------------------------------------------------------------------------
  // Number(s) is not NaN
  // ---------------------------------------------------------------------------

  /** `!isNaN(Number(s))`: after trimming, `s` is empty or a numeric literal. */
  predicate IsNumberString(s: string) {
    var t := Trim(s);
    t == [] || IsNonDecimalLiteral(t) || IsDecimalLiteral(t)
  }

  /** `0x…`, `0o…` or `0b…` with at least one digit of that base. */
  predicate IsNonDecimalLiteral(t: string) {
    && |t| >= 3 && t[0] == '0'
    && ((t[1] in "xX" && AllRadixDigits(t[2..], 16))
        || (t[1] in "oO" && AllRadixDigits(t[2..], 8))
        || (t[1] in "bB" && AllRadixDigits(t[2..], 2)))
  }

  /** An optionally signed decimal literal or `Infinity`. */
  predicate IsDecimalLiteral(t: string) {
    if t != [] && (t[0] == '+' || t[0] == '-') then IsUnsignedDecimal(t[1..]) else IsUnsignedDecimal(t)
  }

  predicate IsUnsignedDecimal(u: string) {
    || u == "Infinity"
    || (var k := ExponentStart(u); IsMantissa(u[..k]) && (k == |u| || IsExponent(u[k..])))
  }

  /** Index of the first `e` or `E`, or `|u|`. */
  function ExponentStart(u: string): (k: nat)
    ensures k <= |u|
  {
    var e, big := IndexOf(u, 'e'), IndexOf(u, 'E');
    if e < big then e else big
  }

  /** Digits with at most one decimal point and at least one digit. */
  predicate IsMantissa(m: string) {
    var d := IndexOf(m, '.');
    && AllDigits(m[..d])
    && (d == |m| || AllDigits(m[d + 1..]))
    && (d > 0 || d + 1 < |m|)
  }

  /** `e` or `E`, an optional sign, then at least one digit. */
  predicate IsExponent(x: string) {
    && |x| >= 2 && x[0] in "eE"
    && var y := x[1..];
       if y[0] == '+' || y[0] == '-' then |y| >= 2 && AllDigits(y[1..]) else AllDigits(y)
  }

  lemma {:induction false} TrimStartKeeps(s: string)
    requires s == [] || !IsSpace(s[0])
    ensures TrimStart(s) == s
  {
  }

  lemma {:induction false} TrimEndKeeps(s: string)
    requires s == [] || !IsSpace(s[|s| - 1])
    ensures TrimEnd(s) == s
  {
  }

  /** Trailing whitespace never eats a first character that is not whitespace. */
  lemma {:induction false} TrimEndKeepsHead(s: string)
    requires s != [] && !IsSpace(s[0])
    ensures TrimEnd(s) != [] && TrimEnd(s)[0] == s[0]
    decreases |s|
  {
    if IsSpace(s[|s| - 1]) {
      TrimEndKeepsHead(s[..|s| - 1]);
    }
  }

  /** `Number("")` is 0, not NaN. */
  lemma EmptyIsNumber()
    ensures IsNumberString("")
  {
    assert Trim("") == "";
  }

  /** Every decimal rendering of a natural number is a number to JavaScript. */
  lemma DecimalIsNumber(n: nat)
    ensures IsNumberString(Decimal(n))
  {
    DigitsAreNumber(Decimal(n));
  }

  lemma DigitsAreNumber(t: string)
    requires t != [] && AllDigits(t)
    ensures IsNumberString(t)
  {
    TrimStartKeeps(t);
    TrimEndKeeps(t);
    assert Trim(t) == t;
    DigitsAreUnsignedDecimal(t);
  }

  lemma DigitsAreUnsignedDecimal(t: string)
    requires t != [] && AllDigits(t)
    ensures IsUnsignedDecimal(t)
  {
    IndexOfAbsent(t, 'e');
    IndexOfAbsent(t, 'E');
    IndexOfAbsent(t, '.');
    assert t[..|t|] == t;
    assert IsMantissa(t);
  }

  /** A string that starts with a lower-case letter is NaN, whatever whitespace follows it. */
  lemma LetterIsNotNumber(t: string)
    requires t != [] && 'a' <= t[0] <= 'z'
    ensures !IsNumberString(t)
  {
    TrimStartKeeps(t);
    TrimEndKeepsHead(t);
    var u := Trim(t);
    assert u != [] && 'a' <= u[0] <= 'z';
    LetterIsNotUnsignedDecimal(u);
  }

  lemma LetterIsNotUnsignedDecimal(u: string)
    requires u != [] && 'a' <= u[0] <= 'z'
    ensures !IsUnsignedDecimal(u)
  {
    assert u != "Infinity" by { assert "Infinity"[0] == 'I'; }
    var k := ExponentStart(u);
    if k > 0 {
      var m := u[..k];
      assert m[0] == u[0];
      if IndexOf(m, '.') > 0 {
        assert m[..IndexOf(m, '.')][0] == u[0];
      }
    }
  }

  // ---------------------------------------------------------------------------
  // parseInt(s) without a radix
  // ---------------------------------------------------------------------------

  /** Length of the longest prefix of `s` made of digits of the given base. */
  function DigitRun(s: string, radix: nat): (n: nat)
    ensures n <= |s|
    ensures AllRadixDigits(s[..n], radix)
    ensures n < |s| ==> DigitValue(s[n]) >= radix
  {
    if s == [] || DigitValue(s[0]) >= radix then 0
    else
      var rest := DigitRun(s[1..], radix);
      assert s[..1 + rest] == [s[0]] + s[1..][..rest];
      1 + rest
  }

  /** The value of a string of base-`radix` digits, most significant first. */
  function DigitsValue(s: string, radix: nat): nat
    requires AllRadixDigits(s, radix)
  {
    if s == [] then 0
    else DigitsValue(s[..|s| - 1], radix) * radix + DigitValue(s[|s| - 1])
  }

  /** The longest digit prefix of `v` in the given base, read as a number; `None` if it is empty. */
  function LeadingDigits(v: string, radix: nat): Option<nat> {
    var n := DigitRun(v, radix);
    if n == 0 then None else Some(DigitsValue(v[..n], radix))
  }

  /** `parseInt` after the sign: a `0x` prefix selects base 16, otherwise base 10. */
  function ParseUnsigned(u: string): Option<nat> {
    if |u| >= 2 && u[0] == '0' && (u[1] == 'x' || u[1] == 'X') then LeadingDigits(u[2..], 16)
    else LeadingDigits(u, 10)
  }

  /** `parseInt(s)`; `None` stands for NaN. */
  function ParseInt(s: string): (r: Option<int>)
  {
    var t := TrimStart(s);
    var negative := t != [] && t[0] == '-';
    var u := if t != [] && (t[0] == '-' || t[0] == '+') then t[1..] else t;
    match ParseUnsigned(u)
    case None => None
    case Some(magnitude) =>
      var value: int := if negative then 0 - magnitude as int else magnitude;
      Some(value)
  }

  lemma {:induction false} DecimalValue(n: nat)
    ensures AllRadixDigits(Decimal(n), 10)
    ensures DigitsValue(Decimal(n), 10) == n
  {
    if n >= 10 {
      DecimalValue(n / 10);
      var s := Decimal(n);
      assert s[..|s| - 1] == Decimal(n / 10);
    }
  }

  lemma {:induction false} DigitRunAll(s: string, radix: nat)
    requires AllRadixDigits(s, radix)
    ensures DigitRun(s, radix) == |s|
    decreases |s|
  {
    if s != [] {
      DigitRunAll(s[1..], radix);
    }
  }

  /** `parseInt` reads back what `String` wrote for a natural number. */
  lemma ParseIntDecimal(n: nat)
    ensures ParseInt(Decimal(n)) == Some(n)
  {
    DecimalValue(n);
    ParseIntDigits(Decimal(n));
  }

  /** A plain run of decimal digits is read as its value. */
  lemma ParseIntDigits(t: string)
    requires t != [] && AllDigits(t)
    ensures AllRadixDigits(t, 10)
    ensures ParseInt(t) == Some(DigitsValue(t, 10))
  {
    TrimStartKeeps(t);
    assert IsDigit(t[0]);
    UnsignedDigits(t);
  }

  lemma UnsignedDigits(t: string)
    requires t != [] && AllDigits(t)
    ensures AllRadixDigits(t, 10)
    ensures ParseUnsigned(t) == Some(DigitsValue(t, 10))
  {
    assert |t| >= 2 ==> IsDigit(t[1]);
    assert AllRadixDigits(t, 10);
    DigitRunAll(t, 10);
    assert t[..|t|] == t;
  }
}
