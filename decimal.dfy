/** Base-10 text of integers: `fmt`'s `%d` for non-negative values and
    `strconv.ParseUint` / `strconv.ParseInt` with base 10, the only
    conversions the pipeline performs on ids, counters and settings. */
module Decimal {

  predicate IsDigit(c: char) {
    '0' <= c <= '9'
  }

  predicate AllDigits(s: string) {
    forall i :: 0 <= i < |s| ==> IsDigit(s[i])
  }

  function DigitChar(d: nat): (c: char)
    requires d < 10
    ensures IsDigit(c) && c as int - '0' as int == d
  {
    ('0' as int + d) as char
  }

  /** The number a string of digits denotes, leading zeros allowed. */
  function DigitsValue(s: string): nat
    requires AllDigits(s)
    decreases |s|
  {
    if s == [] then 0 else 10 * DigitsValue(s[..|s| - 1]) + (s[|s| - 1] as int - '0' as int)
  }

  /** A canonical numeral: at least one digit and no leading zero. */
  predicate Canonical(s: string) {
    |s| >= 1 && AllDigits(s) && (|s| > 1 ==> s[0] != '0')
  }

  /** `fmt.Sprintf("%d", n)` for a non-negative n. */
  function Format(n: nat): (s: string)
    ensures Canonical(s)
    decreases n
  {
    if n < 10 then [DigitChar(n)] else Format(n / 10) + [DigitChar(n % 10)]
  }

  lemma {:induction false} FormatValue(n: nat)
    ensures DigitsValue(Format(n)) == n
  {
    if n >= 10 {
      var s := Format(n);
      assert s[..|s| - 1] == Format(n / 10);
      FormatValue(n / 10);
    }
  }

  /** A numeral without leading zero and of two or more digits is at least 10. */
  lemma {:induction false} CanonicalAtLeastTen(s: string)
    requires Canonical(s) && |s| >= 2
    ensures DigitsValue(s) >= 10
  {
    var init := s[..|s| - 1];
    assert init[0] == s[0];
    if |init| >= 2 {
      CanonicalAtLeastTen(init);
    } else {
      assert DigitsValue(init) == s[0] as int - '0' as int;
    }
  }

  /** Formatting is the inverse of reading a canonical numeral. */
  lemma {:induction false} FormatOfValue(s: string)
    requires Canonical(s)
    ensures Format(DigitsValue(s)) == s
  {
    var last := s[|s| - 1];
    var d := last as int - '0' as int;
    assert DigitChar(d) == last;
    if |s| >= 2 {
      var init := s[..|s| - 1];
      assert init[0] == s[0];
      CanonicalAtLeastTen(s);
      FormatOfValue(init);
      DivTen(DigitsValue(init), d);
      assert s == init + [last];
    }
  }

  lemma DivTen(a: nat, d: nat)
    requires d < 10
    ensures (10 * a + d) / 10 == a && (10 * a + d) % 10 == d
  {
  }

  /** Distinct numbers have distinct decimal text. */
  lemma FormatInjective(m: nat, n: nat)
    ensures Format(m) == Format(n) <==> m == n
  {
    FormatValue(m);
    FormatValue(n);
  }

  /** What a `strconv` parse function returns: the value, a syntax error
      (value 0), or a range error carrying the clamped value Go returns
      alongside it. */
  datatype Parsed = Value(n: int) | SyntaxError | RangeError(clamped: int)

  /** The value the Go call returns when its error is discarded. */
  function Returned(p: Parsed): int {
    match p
    case Value(n) => n
    case SyntaxError => 0
    case RangeError(c) => c
  }

  function MaxUint(bitSize: nat): nat
    requires bitSize == 32 || bitSize == 64
  {
    if bitSize == 32 then 0xFFFF_FFFF else 0xFFFF_FFFF_FFFF_FFFF
  }

  /** The length of the run of digits `s` starts with. */
  function DigitRun(s: string): (k: nat)
    ensures k <= |s| && AllDigits(s[..k])
    ensures k < |s| ==> !IsDigit(s[k])
  {
    if s == [] || !IsDigit(s[0]) then 0
    else
      var k := 1 + DigitRun(s[1..]);
      assert s[..k] == [s[0]] + s[1..][..k - 1];
      k
  }

  /** The value read so far never decreases as more digits are read, so a
      digit run passes a bound somewhere inside it exactly when its whole
      value is past the bound. */
  lemma {:induction false} DigitsValueMonotone(s: string, i: nat, j: nat)
    requires AllDigits(s) && i <= j <= |s|
    ensures DigitsValue(s[..i]) <= DigitsValue(s[..j])
    decreases j - i
  {
    if i < j {
      DigitsValueMonotone(s, i, j - 1);
      assert s[..j][..j - 1] == s[..j - 1];
    }
  }

  /** `strconv.ParseUint(s, 10, bitSize)`. It reads left to right and stops
      at the first problem: a digit that takes the value past the maximum is
      a range error (value clamped to the maximum), a character that is not
      a digit is a syntax error. No sign, no underscore; leading zeros are
      allowed; "" is a syntax error. */
  function ParseUint(s: string, bitSize: nat): (r: Parsed)
    requires bitSize == 32 || bitSize == 64
    ensures r.Value? <==> s != "" && AllDigits(s) && DigitsValue(s) <= MaxUint(bitSize)
    ensures r.Value? ==> r.n == DigitsValue(s)
    ensures r.RangeError? <==> DigitsValue(s[..DigitRun(s)]) > MaxUint(bitSize)
    ensures r.RangeError? ==> r.clamped == MaxUint(bitSize)
    ensures r.SyntaxError? <==> (s == "" || !AllDigits(s)) && DigitsValue(s[..DigitRun(s)]) <= MaxUint(bitSize)
  {
    var k := DigitRun(s);
    assert k == |s| <==> AllDigits(s);
    assert k == |s| ==> s[..k] == s;
    if DigitsValue(s[..k]) > MaxUint(bitSize) then RangeError(MaxUint(bitSize))
    else if s == [] || k < |s| then SyntaxError
    else Value(DigitsValue(s))
  }

  lemma {:induction false} DigitRunAppend(a: string, b: string)
    requires AllDigits(a) && (b == [] || !IsDigit(b[0]))
    ensures DigitRun(a + b) == |a| && (a + b)[..|a|] == a
  {
    if a != [] {
      assert (a + b)[1..] == a[1..] + b;
      DigitRunAppend(a[1..], b);
    }
  }

  /** A number too large for the bit size is a range error whatever text
      follows it: "4294967296x" at 32 bits is out of range, not a syntax
      error. */
  lemma OverflowBeforeJunk(n: nat, rest: string, bitSize: nat)
    requires bitSize == 32 || bitSize == 64
    requires n > MaxUint(bitSize) && (rest == [] || !IsDigit(rest[0]))
    ensures ParseUint(Format(n) + rest, bitSize) == RangeError(MaxUint(bitSize))
  {
    DigitRunAppend(Format(n), rest);
    FormatValue(n);
  }

  /** Every number that fits is parsed back from its own text. */
  lemma ParseFormat(n: nat, bitSize: nat)
    requires bitSize == 32 || bitSize == 64
    ensures ParseUint(Format(n), bitSize) == if n <= MaxUint(bitSize) then Value(n) else RangeError(MaxUint(bitSize))
  {
    FormatValue(n);
  }

  /** A parsed canonical numeral is the text of the value it parses to. */
  lemma FormatParse(s: string, bitSize: nat)
    requires bitSize == 32 || bitSize == 64
    requires Canonical(s) && ParseUint(s, bitSize).Value?
    ensures Format(ParseUint(s, bitSize).n) == s
  {
    FormatOfValue(s);
  }

  const MinInt64: int := -0x8000_0000_0000_0000
  const MaxInt64: int := 0x7FFF_FFFF_FFFF_FFFF

  /** The digits `ParseInt` hands to `ParseUint`: `s` without a leading sign. */
  function Magnitude(s: string): string {
    if s != [] && (s[0] == '+' || s[0] == '-') then s[1..] else s
  }

  predicate Negative(s: string) {
    s != [] && s[0] == '-'
  }

  /** `strconv.ParseInt(s, 10, 64)`: an optional sign, then what `ParseUint`
      accepts; a magnitude past the int64 range clamps to the nearest end. */
  function ParseInt64(s: string): (r: Parsed)
    ensures s == "" ==> r == SyntaxError
    ensures r.SyntaxError? <==> ParseUint(Magnitude(s), 64).SyntaxError?
    ensures r.Value? <==>
      var u := ParseUint(Magnitude(s), 64);
      u.Value? && (if Negative(s) then u.n <= -MinInt64 else u.n <= MaxInt64)
    ensures r.Value? ==>
      var u := ParseUint(Magnitude(s), 64);
      u.Value? && r.n == (if Negative(s) then -u.n else u.n)
    ensures r.Value? ==> MinInt64 <= r.n <= MaxInt64
    ensures r.RangeError? ==> r.clamped == if Negative(s) then MinInt64 else MaxInt64
  {
    if s == [] then SyntaxError
    else
      var neg := s[0] == '-';
      var digits := if s[0] == '+' || s[0] == '-' then s[1..] else s;
      match ParseUint(digits, 64)
      case SyntaxError => SyntaxError
      case Value(u) =>
        if !neg && u > MaxInt64 then RangeError(MaxInt64)
        else if neg && u > -MinInt64 then RangeError(MinInt64)
        else Value(if neg then -u else u)
      case RangeError(u) =>
        if neg then RangeError(MinInt64) else RangeError(MaxInt64)
  }

  /** Signed round trip: every int64 is parsed back from its decimal text. */
  lemma ParseInt64Format(n: int)
    requires MinInt64 <= n <= MaxInt64
    ensures n >= 0 ==> ParseInt64(Format(n)) == Value(n)
    ensures n < 0 ==> ParseInt64("-" + Format(-n)) == Value(n)
  {
    if n >= 0 {
      FormatValue(n);
      assert Format(n)[0] != '-' && Format(n)[0] != '+';
    } else {
      FormatValue(-n);
      assert ("-" + Format(-n))[1..] == Format(-n);
    }
  }
}
