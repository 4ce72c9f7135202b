/**
 The money printer of `postgres` and the money parser of `irs`.
 A cent amount is an int64; text is a byte string, one `char` per byte.
 */
module Money {
  import opened Prelude

  predicate IsDigit(c: char) {
    '0' <= c <= '9'
  }

  predicate AllDigits(s: string) {
    forall i :: 0 <= i < |s| ==> IsDigit(s[i])
  }

  function DigitChar(d: int): char
    requires 0 <= d < 10
  {
    '0' + d as char
  }

  function DigitValue(c: char): nat
    requires IsDigit(c)
  {
    c as int - '0' as int
  }

  /** The `%d` verb on a non-negative number. */
  function Decimal(n: nat): (s: string)
    ensures |s| > 0 && AllDigits(s)
  {
    if n < 10 then [DigitChar(n)] else Decimal(n / 10) + [DigitChar(n % 10)]
  }

  /** The number a run of digits denotes. */
  function DigitsValue(s: string): nat
    requires AllDigits(s)
  {
    if s == [] then 0 else DigitsValue(s[..|s| - 1]) * 10 + DigitValue(s[|s| - 1])
  }

  lemma {:induction false} DecimalDenotes(n: nat)
    ensures DigitsValue(Decimal(n)) == n
  {
    if n < 10 {
      assert Decimal(n)[..0] == [];
    } else {
      DecimalDenotes(n / 10);
      var s := Decimal(n);
      assert s[..|s| - 1] == Decimal(n / 10);
    }
  }

  /** The `%d` verb. */
  function SignedDecimal(n: int): string {
    if n < 0 then "-" + Decimal(-n) else Decimal(n)
  }

  /** The `%02d` verb on a remainder of a division by one hundred. */
  function TwoDigits(n: int): string
    requires -100 < n < 100
  {
    if 0 <= n then [DigitChar(n / 10), DigitChar(n % 10)] else SignedDecimal(n)
  }

  /** The negation `-(value + 1)` followed by `value++`, on an int64. */
  function Negated(cents: int): int
    requires InInt64(cents) && cents < 0
  {
    Wrap64(Wrap64(-(cents + 1)) + 1)
  }

  /** Go's integer division and remainder truncate toward zero. */
  function Hundreds(value: int): int {
    if value >= 0 then value / 100 else -((-value) / 100)
  }

  function Rest(value: int): (r: int)
    ensures -100 < r < 100
  {
    if value >= 0 then value % 100 else -((-value) % 100)
  }

  function Printed(value: int): string {
    SignedDecimal(Hundreds(value)) + "." + TwoDigits(Rest(value))
  }

  function FormatCents(cents: int): string
    requires InInt64(cents)
  {
    if cents < 0 then "-" + Printed(Negated(cents)) else Printed(cents)
  }

  /** The pattern `^-?[0-9]+\.[0-9]{2}$`. */
  predicate MoneyPattern(s: string) {
    var body := if |s| > 0 && s[0] == '-' then s[1..] else s;
    && |body| >= 4
    && body[|body| - 3] == '.'
    && AllDigits(body[..|body| - 3])
    && AllDigits(body[|body| - 2..])
  }

  datatype MoneyError = BadPattern | OutOfRange

  /** Drops the point and reads the digits as a base-10 int64. */
  function ParseCents(s: string): Result<int, MoneyError> {
    if !MoneyPattern(s) then Err(BadPattern)
    else
      var body := if s[0] == '-' then s[1..] else s;
      var n := |body|;
      var magnitude: int := DigitsValue(body[..n - 3] + body[n - 2..]);
      var value := if s[0] == '-' then -magnitude else magnitude;
      if InInt64(value) then Ok(value) else Err(OutOfRange)
  }

  lemma {:induction false} DigitsValueAppendTwo(s: string, a: char, b: char)
    requires AllDigits(s) && IsDigit(a) && IsDigit(b)
    ensures DigitsValue(s + [a, b]) == DigitsValue(s) * 100 + DigitValue(a) * 10 + DigitValue(b)
  {
    var whole := s + [a, b];
    assert whole[..|whole| - 1] == s + [a];
    assert (s + [a])[..|s|] == s;
  }

  /** Reading back what is printed for a magnitude `v`, without the sign. */
  lemma {:induction false} PrintedMagnitude(v: nat)
    ensures var body := Decimal(v / 100) + "." + TwoDigits(v % 100);
            && |body| >= 4
            && IsDigit(body[0])
            && body[|body| - 3] == '.'
            && AllDigits(body[..|body| - 3])
            && AllDigits(body[|body| - 2..])
            && DigitsValue(body[..|body| - 3] + body[|body| - 2..]) == v
  {
    var whole := Decimal(v / 100);
    var cents := TwoDigits(v % 100);
    var body := whole + "." + cents;
    assert body[..|body| - 3] == whole;
    assert body[|body| - 2..] == cents;
    assert whole + cents == whole + [cents[0], cents[1]];
    DigitsValueAppendTwo(whole, cents[0], cents[1]);
    DecimalDenotes(v / 100);
  }

  /** What is printed for the magnitude `v`, without the sign. */
  function Body(v: nat): string {
    Decimal(v / 100) + "." + TwoDigits(v % 100)
  }

  lemma BodyParses(v: nat)
    requires InInt64(v)
    ensures ParseCents(Body(v)) == Ok(v)
  {
    PrintedMagnitude(v);
  }

  /** A leading minus sign negates what an unsigned body denotes. */
  lemma SignNegates(body: string, cents: int)
    requires -INT64_MAX <= cents < 0
    requires |body| >= 4 && IsDigit(body[0]) && body[|body| - 3] == '.'
    requires AllDigits(body[..|body| - 3]) && AllDigits(body[|body| - 2..])
    requires DigitsValue(body[..|body| - 3] + body[|body| - 2..]) == -cents
    ensures ParseCents("-" + body) == Ok(cents)
  {
    var s := "-" + body;
    assert s[0] == '-' && s[1..] == body;
    assert MoneyPattern(s);
  }

  lemma SignedBodyParses(cents: int)
    requires -INT64_MAX <= cents < 0
    ensures ParseCents("-" + Body(-cents)) == Ok(cents)
  {
    PrintedMagnitude(-cents);
    SignNegates(Body(-cents), cents);
  }

  lemma TwoSignsRefused(rest: string)
    requires |rest| > 0 && rest[0] == '-'
    ensures !MoneyPattern("-" + rest)
  {
    assert ("-" + rest)[1..] == rest;
  }

  lemma PrintedNonNegative(v: nat)
    ensures Printed(v) == Body(v)
  {
  }

  lemma PrintedNegative(value: int)
    requires value <= -100
    ensures |Printed(value)| > 0 && Printed(value)[0] == '-'
  {
    assert Hundreds(value) < 0;
  }

  lemma NegatedLeast(cents: int)
    requires InInt64(cents) && cents < -INT64_MAX
    ensures Negated(cents) == cents
  {
  }

  /** An amount whose negation is still negative is printed with two signs. */
  lemma StillNegativeRefused(cents: int)
    requires InInt64(cents) && cents < 0 && Negated(cents) <= -100
    ensures ParseCents(FormatCents(cents)) == Err(BadPattern)
  {
    PrintedNegative(Negated(cents));
    TwoSignsRefused(Printed(Negated(cents)));
  }

  /**
   Parsing undoes printing for every int64 amount but the least one (the one whose negation
   does not fit), and the parser refuses the printed form of that one.
   */
  lemma PrintThenParse(cents: int)
    requires InInt64(cents)
    ensures ParseCents(FormatCents(cents)) == Ok(cents) <==> -INT64_MAX <= cents
    ensures cents < -INT64_MAX ==> ParseCents(FormatCents(cents)) == Err(BadPattern)
  {
    if cents >= 0 {
      PrintedNonNegative(cents);
      BodyParses(cents);
    } else if cents >= -INT64_MAX {
      assert Negated(cents) == -cents;
      PrintedNonNegative(-cents);
      SignedBodyParses(cents);
    } else {
      NegatedLeast(cents);
      StillNegativeRefused(cents);
    }
  }

  /** Two different amounts never print alike. */
  lemma PrintingIsInjective(a: int, b: int)
    requires InInt64(a) && InInt64(b)
    requires FormatCents(a) == FormatCents(b)
    ensures a == b
  {
    PrintThenParse(a);
    PrintThenParse(b);
  }

  // Both directions in full

  lemma DigitsExactly(s: string, c: char)
    requires AllDigits(s) && '0' <= c <= '9'
    ensures AllDigits(s + [c]) && DigitsValue("") == 0
    ensures DigitsValue(s + [c]) == 10 * DigitsValue(s) + (c as int - 48)
  {
    assert (s + [c])[..|s|] == s;
  }

  /** The decimal form of a positive number does not begin with a zero. */
  lemma {:induction false} DecimalIsCanonical(n: nat)
    ensures n > 0 ==> Decimal(n)[0] != '0'
    ensures Decimal(0) == "0"
  {
    if n >= 10 {
      DecimalIsCanonical(n / 10);
    }
  }

  /** What is printed: the sign, the dollars without leading zeros, a point, and two digits of cents. */
  lemma PrintsExactly(cents: int)
    requires -INT64_MAX <= cents <= INT64_MAX
    ensures var magnitude := if cents < 0 then -cents else cents;
            FormatCents(cents) == (if cents < 0 then "-" else "") + Decimal(magnitude / 100)
                                  + ['.', (48 + magnitude / 10 % 10) as char, (48 + magnitude % 10) as char]
  {
    hide Decimal;
    var magnitude := if cents < 0 then -cents else cents;
    assert cents < 0 ==> Negated(cents) == magnitude;
    PrintedNonNegative(magnitude);
    CentsDigits(magnitude);
  }

  lemma TensAndUnits(v: nat)
    ensures v % 100 / 10 == v / 10 % 10 && v % 100 % 10 == v % 10
  {
    var hundreds, tens, units := v / 100, v % 100 / 10, v % 10;
    assert v == 100 * hundreds + v % 100;
    assert v % 100 == 10 * tens + v % 100 % 10;
  }

  lemma DigitCharExactly(d: int)
    requires 0 <= d < 10
    ensures DigitChar(d) == (48 + d) as char
  {
  }

  lemma CentsDigits(v: nat)
    ensures TwoDigits(v % 100) == [(48 + v / 10 % 10) as char, (48 + v % 10) as char]
  {
    hide DigitChar;
    TensAndUnits(v);
    DigitCharExactly(v / 10 % 10);
    DigitCharExactly(v % 10);
  }

  lemma MagnitudeOf(whole: string, a: char, b: char)
    requires whole != "" && AllDigits(whole) && IsDigit(a) && IsDigit(b)
    ensures var body := whole + ['.', a, b];
            && |body| >= 4 && IsDigit(body[0]) && body[|body| - 3] == '.'
            && AllDigits(body[..|body| - 3]) && AllDigits(body[|body| - 2..])
            && DigitsValue(body[..|body| - 3] + body[|body| - 2..])
               == DigitsValue(whole) * 100 + (a as int - 48) * 10 + (b as int - 48)
  {
    var body := whole + ['.', a, b];
    assert body[..|body| - 3] == whole && body[|body| - 2..] == [a, b];
    DigitsValueAppendTwo(whole, a, b);
  }

  /** What is parsed: digits, a point and two digits, if the number of cents fits an int64. */
  lemma ParsesExactly(whole: string, a: char, b: char)
    requires whole != "" && AllDigits(whole) && '0' <= a <= '9' && '0' <= b <= '9'
    ensures var value := DigitsValue(whole) * 100 + (a as int - 48) * 10 + (b as int - 48);
            ParseCents(whole + ['.', a, b]) == if value <= 0x7fff_ffff_ffff_ffff then Ok(value) else Err(OutOfRange)
  {
    hide DigitsValue;
    MagnitudeOf(whole, a, b);
    assert MoneyPattern(whole + ['.', a, b]);
  }

  lemma SignedParse(body: string, v: nat)
    requires |body| >= 4 && IsDigit(body[0]) && body[|body| - 3] == '.'
    requires AllDigits(body[..|body| - 3]) && AllDigits(body[|body| - 2..])
    requires DigitsValue(body[..|body| - 3] + body[|body| - 2..]) == v
    ensures ParseCents("-" + body) == if v <= 0x8000_0000_0000_0000 then Ok(0 - v) else Err(OutOfRange)
  {
    var s := "-" + body;
    assert s[0] == '-' && s[1..] == body;
    assert MoneyPattern(s);
  }

  /** And the same behind a minus sign, down to the least int64. */
  lemma ParsesNegative(whole: string, a: char, b: char)
    requires whole != "" && AllDigits(whole) && '0' <= a <= '9' && '0' <= b <= '9'
    ensures var value := -(DigitsValue(whole) * 100 + (a as int - 48) * 10 + (b as int - 48));
            ParseCents("-" + (whole + ['.', a, b]))
            == if value >= -0x8000_0000_0000_0000 then Ok(value) else Err(OutOfRange)
  {
    hide DigitsValue, ParseCents;
    MagnitudeOf(whole, a, b);
    SignedParse(whole + ['.', a, b], DigitsValue(whole) * 100 + (a as int - 48) * 10 + (b as int - 48));
  }

  /** Anything that is not refused for its form is of one of these two. */
  lemma OnlyMoneyParses(s: string) returns (negative: bool, whole: string, a: char, b: char)
    requires ParseCents(s) != Err(BadPattern)
    ensures whole != "" && AllDigits(whole) && '0' <= a <= '9' && '0' <= b <= '9'
    ensures s == if negative then "-" + (whole + ['.', a, b]) else whole + ['.', a, b]
  {
    assert MoneyPattern(s);
    negative := s[0] == '-';
    var body := if negative then s[1..] else s;
    var n := |body|;
    whole, a, b := body[..n - 3], body[n - 2], body[n - 1];
    assert body[n - 2..] == [a, b];
    assert IsDigit(body[n - 2..][0]) && IsDigit(body[n - 2..][1]);
    assert body == whole + ['.', a, b];
    assert negative ==> s == "-" + body;
  }
}
