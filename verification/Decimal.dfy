/** Decimal integers as Go's `strconv` reads and writes them, for Go's `int`
    on a 64-bit platform. `DigitsValue` and `DecimalValue` say what a decimal
    string means; `ParseInt` scans it the way `strconv.Atoi` does and
    `FormatInt` writes it the way `strconv.Itoa` does. */
module Decimal {
  import opened Wrappers

  /** Bounds of Go's 64-bit `int`. */
  const IntMin: int := -0x8000_0000_0000_0000
  const IntMax: int := 0x7FFF_FFFF_FFFF_FFFF

  predicate InIntRange(n: int) {
    IntMin <= n <= IntMax
  }

  predicate IsDigit(c: char) {
    '0' <= c <= '9'
  }

  function DigitValue(c: char): (d: nat)
    requires IsDigit(c)
    ensures d < 10
  {
    c as int - '0' as int
  }

  function DigitChar(d: nat): (c: char)
    requires d < 10
    ensures IsDigit(c) && DigitValue(c) == d
  {
    ('0' as int + d) as char
  }

  predicate AllDigits(s: string) {
    forall i :: 0 <= i < |s| ==> IsDigit(s[i])
  }

  /** Positional value of a digit string, most significant digit first. */
  function DigitsValue(s: string): nat
    requires AllDigits(s)
  {
    if s == [] then 0 else 10 * DigitsValue(s[..|s| - 1]) + DigitValue(s[|s| - 1])
  }

  predicate HasSign(s: string) {
    |s| > 0 && (s[0] == '+' || s[0] == '-')
  }

  /** The string without its leading sign, if it has one. */
  function Magnitude(s: string): string {
    if HasSign(s) then s[1..] else s
  }

  /** An optional `+` or `-` followed by at least one ASCII digit. */
  predicate IsDecimalInteger(s: string) {
    |Magnitude(s)| > 0 && AllDigits(Magnitude(s))
  }

  function DecimalValue(s: string): int
    requires IsDecimalInteger(s)
  {
    var m: int := DigitsValue(Magnitude(s));
    if s[0] == '-' then -m else m
  }

  /** Scans `s` from position `i` with the running value `acc` of the digits
      before `i`, as the digit loop of `strconv.Atoi` does (`n = n*10 + d`). */
  function Accumulate(s: string, i: nat, acc: nat): (r: Option<nat>)
    requires i <= |s| && AllDigits(s[..i]) && acc == DigitsValue(s[..i])
    ensures r.Some? <==> AllDigits(s)
    ensures r.Some? ==> r.value == DigitsValue(s)
    decreases |s| - i
  {
    if i == |s| then
      assert s[..i] == s;
      Some(acc)
    else if !IsDigit(s[i]) then
      None
    else
      assert s[..i + 1][..i] == s[..i];
      Accumulate(s, i + 1, 10 * acc + DigitValue(s[i]))
  }

  /** `strconv.Atoi`: the value of `s` when it is a decimal integer that fits
      Go's `int`; `None` for a syntax error and for a value out of range. */
  function ParseInt(s: string): (r: Option<int>)
    ensures r.Some? <==> IsDecimalInteger(s) && InIntRange(DecimalValue(s))
    ensures r.Some? ==> r.value == DecimalValue(s)
  {
    var digits := Magnitude(s);
    if digits == [] then None
    else
      match Accumulate(digits, 0, 0)
      case None => None
      case Some(u) =>
        var n: int := if s[0] == '-' then -(u as int) else u;
        if InIntRange(n) then Some(n) else None
  }

  /** Digits of `n`, most significant first, with no leading zero. */
  function FormatNat(n: nat): (s: string)
    ensures |s| > 0 && AllDigits(s)
    ensures s[0] == '0' ==> n == 0
  {
    if n < 10 then [DigitChar(n)] else FormatNat(n / 10) + [DigitChar(n % 10)]
  }

  /** `strconv.Itoa`. */
  function FormatInt(n: int): string {
    if n < 0 then "-" + FormatNat(-n) else FormatNat(n)
  }

  lemma {:induction false} FormatNatValue(n: nat)
    ensures DigitsValue(FormatNat(n)) == n
  {
    if n >= 10 {
      var s := FormatNat(n);
      assert s[..|s| - 1] == FormatNat(n / 10);
      FormatNatValue(n / 10);
    }
  }

  /** Reading back what `FormatInt` wrote gives the same number. */
  lemma ParseFormatRoundTrip(n: int)
    requires InIntRange(n)
    ensures ParseInt(FormatInt(n)) == Some(n)
  {
    FormatNatValue(if n < 0 then -n else n);
    if n < 0 {
      assert Magnitude(FormatInt(n)) == FormatNat(-n);
    } else {
      assert Magnitude(FormatInt(n)) == FormatNat(n);
    }
  }

  /** A digit string with no leading zero (or the single digit `0`). */
  predicate Canonical(s: string) {
    |s| > 0 && AllDigits(s) && (s[0] == '0' ==> |s| == 1)
  }

  lemma {:induction false} LeadingDigitPositive(s: string)
    requires |s| > 0 && AllDigits(s) && s[0] != '0'
    ensures DigitsValue(s) > 0
  {
    if |s| > 1 {
      LeadingDigitPositive(s[..|s| - 1]);
    }
  }

  /** `FormatNat` writes back exactly a canonical digit string it is given
      the value of. */
  lemma {:induction false} FormatNatCanonical(s: string)
    requires Canonical(s)
    ensures FormatNat(DigitsValue(s)) == s
  {
    var d := s[|s| - 1];
    if |s| > 1 {
      var p := s[..|s| - 1];
      LeadingDigitPositive(p);
      FormatNatCanonical(p);
      assert DigitChar(DigitValue(d)) == d;
    } else {
      assert DigitChar(DigitValue(d)) == d;
    }
  }

  /** Every string `ParseInt` accepts without a `+`, a redundant leading zero
      or a `-0` is exactly what `FormatInt` writes for its value. */
  lemma FormatParseRoundTrip(s: string)
    requires ParseInt(s).Some?
    requires Canonical(Magnitude(s)) && (HasSign(s) ==> s[0] == '-' && s[1..] != "0")
    ensures FormatInt(ParseInt(s).value) == s
  {
    FormatNatCanonical(Magnitude(s));
    if HasSign(s) {
      LeadingDigitPositive(Magnitude(s));
      assert s == "-" + Magnitude(s);
    }
  }
}
