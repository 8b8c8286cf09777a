/**
  Decimal integers as the client reads and writes them: Go's
  `strconv.ParseInt(s, 10, 64)` (used on the `X-RateLimit-Reset` header) and
  the `%d` verb of `fmt.Sprintf` on a signed integer (used in error texts).
  Go strings are bytes; here a string is a sequence of characters, and every
  character outside '0'..'9' behaves as a non-digit byte does in Go.
 */
module Strconv {

  const MaxUint64: int := 0xFFFF_FFFF_FFFF_FFFF
  const MaxInt64: int := 0x7FFF_FFFF_FFFF_FFFF
  const MinInt64: int := -0x8000_0000_0000_0000

  /** Go's int64. */
  type Int64 = n: int | MinInt64 <= n <= MaxInt64

  /** The smallest n for which n * 10 exceeds MaxUint64 (Go's `cutoff` for base 10). */
  const Cutoff10: int := MaxUint64 / 10 + 1

  /** The three outcomes of a strconv parse: nil, ErrSyntax or ErrRange. */
  datatype NumError = NoError | ErrSyntax | ErrRange

  /** The (value, error) pair a strconv parse returns. */
  datatype Parsed = Parsed(value: int, err: NumError)

  predicate IsDigit(c: char) {
    '0' <= c <= '9'
  }

  predicate AllDigits(s: string) {
    forall i :: 0 <= i < |s| ==> IsDigit(s[i])
  }

  function DigitValue(c: char): (d: nat)
    requires IsDigit(c)
    ensures d < 10
  {
    c as int - '0' as int
  }

  function DigitChar(d: nat): (c: char)
    requires d < 10
    ensures IsDigit(c) && DigitValue(c) == d
  {
    (d + '0' as int) as char
  }

  /** The number a string of decimal digits denotes, most significant digit first. */
  function DigitsValue(s: string): nat
    requires AllDigits(s)
  {
    if s == [] then 0 else DigitsValue(s[..|s| - 1]) * 10 + DigitValue(s[|s| - 1])
  }

  // ---------------------------------------------------------------------------
  // Parsing, as strconv.ParseUint and strconv.ParseInt do it for base 10, 64 bits
  // ---------------------------------------------------------------------------

  /**
    The digit loop of ParseUint from position `i` with accumulator `n`. It stops
    at the first non-digit (syntax error, value 0) or as soon as the next
    accumulator would not fit in 64 bits (range error, value MaxUint64), which
    can happen before a later non-digit is seen.
   */
  function ScanUint(s: string, i: nat, n: nat): (r: Parsed)
    requires i <= |s| && n <= MaxUint64
    ensures 0 <= r.value <= MaxUint64
    ensures r.err == ErrSyntax ==> r.value == 0
    ensures r.err == ErrRange ==> r.value == MaxUint64
    decreases |s| - i
  {
    if i == |s| then Parsed(n, NoError)
    else if !IsDigit(s[i]) then Parsed(0, ErrSyntax)
    else if n >= Cutoff10 then Parsed(MaxUint64, ErrRange)
    // Go tests `n1 < n` for a wrapped-around sum; with unbounded integers that is `n1 > MaxUint64`.
    else if n * 10 + DigitValue(s[i]) > MaxUint64 then Parsed(MaxUint64, ErrRange)
    else ScanUint(s, i + 1, n * 10 + DigitValue(s[i]))
  }

  /** strconv.ParseUint(s, 10, 64). */
  function ParseUint(s: string): (r: Parsed)
    ensures 0 <= r.value <= MaxUint64
    ensures r.err == ErrSyntax ==> r.value == 0
    ensures r.err == ErrRange ==> r.value == MaxUint64
  {
    if s == [] then Parsed(0, ErrSyntax) else ScanUint(s, 0, 0)
  }

  /** strconv.ParseInt(s, 10, 64): an optional sign, then ParseUint, then the signed range check. */
  function ParseInt(s: string): (r: Parsed)
    ensures MinInt64 <= r.value <= MaxInt64
    ensures r.err == ErrSyntax ==> r.value == 0
    ensures r.err == ErrRange ==> r.value == MinInt64 || r.value == MaxInt64
  {
    if s == [] then Parsed(0, ErrSyntax)
    else
      var neg := s[0] == '-';
      var u := ParseUint(Unsigned(s));
      if u.err == ErrSyntax then Parsed(0, ErrSyntax)
      else if !neg && u.value >= -MinInt64 then Parsed(MaxInt64, ErrRange)
      else if neg && u.value > -MinInt64 then Parsed(MinInt64, ErrRange)
      else Parsed(if neg then -u.value else u.value, NoError)
  }

  /** The text after an optional leading '+' or '-'. */
  function Unsigned(s: string): string {
    if s != [] && (s[0] == '+' || s[0] == '-') then s[1..] else s
  }

  predicate Negative(s: string) {
    s != [] && s[0] == '-'
  }

  /** Base-10 integer syntax: an optional sign followed by one or more digits. */
  predicate WellFormed(s: string) {
    Unsigned(s) != [] && AllDigits(Unsigned(s))
  }

  /** The exact integer a well-formed text denotes. */
  function SignedValue(s: string): int
    requires WellFormed(s)
  {
    var magnitude: int := DigitsValue(Unsigned(s));
    if Negative(s) then -magnitude else magnitude
  }

  /** The nearest int64 to `v`. */
  function Saturate(v: int): Int64 {
    if v > MaxInt64 then MaxInt64 else if v < MinInt64 then MinInt64 else v
  }

  /**
    Reference meaning of ParseUint on a non-empty `s` whose first non-digit is at
    `j` (or `j == |s|`): the leading digits overflow, or a non-digit follows
    them, or the whole text is a number.
   */
  function LeadingDigitsOutcome(s: string, j: nat): Parsed
    requires j <= |s| && AllDigits(s[..j])
  {
    if DigitsValue(s[..j]) > MaxUint64 then Parsed(MaxUint64, ErrRange)
    else if j < |s| then Parsed(0, ErrSyntax)
    else Parsed(DigitsValue(s[..j]), NoError)
  }

  /** The index of the first non-digit of `s`, or `|s|` when it has none. */
  function FirstNonDigit(s: string): (j: nat)
    ensures j <= |s| && AllDigits(s[..j])
    ensures j < |s| ==> !IsDigit(s[j])
  {
    if s == [] || !IsDigit(s[0]) then 0
    else
      var k := FirstNonDigit(s[1..]);
      assert s[..k + 1] == [s[0]] + s[1..][..k];
      k + 1
  }

  /** The longest prefix of `s` made of digits. */
  function LeadingDigits(s: string): (d: string)
    ensures AllDigits(d) && d <= s
    ensures |d| < |s| ==> !IsDigit(s[|d|])
  {
    s[..FirstNonDigit(s)]
  }

  lemma PrefixDigits(s: string, i: nat, j: nat)
    requires i <= j <= |s| && AllDigits(s[..j])
    ensures AllDigits(s[..i])
  {
    assert forall k :: 0 <= k < i ==> s[..i][k] == s[..j][k];
  }

  /** Appending one digit multiplies the value by ten and adds the digit. */
  lemma PrefixValueStep(s: string, i: nat)
    requires i < |s| && AllDigits(s[..i + 1])
    ensures AllDigits(s[..i])
    ensures DigitsValue(s[..i + 1]) == DigitsValue(s[..i]) * 10 + DigitValue(s[i])
  {
    PrefixDigits(s, i, i + 1);
    assert s[..i + 1][..i] == s[..i];
  }

  /** The value of a digit prefix never decreases as the prefix grows. */
  lemma {:induction false} PrefixValueMonotone(s: string, i: nat, j: nat)
    requires i <= j <= |s| && AllDigits(s[..j])
    ensures AllDigits(s[..i]) && DigitsValue(s[..i]) <= DigitsValue(s[..j])
    decreases j - i
  {
    PrefixDigits(s, i, j);
    if i < j {
      PrefixValueStep(s, j - 1);
      PrefixValueMonotone(s, i, j - 1);
    }
  }

  /** The digit loop, started on a prefix it has accepted so far, agrees with the reference. */
  lemma {:induction false} ScanMatchesReference(s: string, j: nat, i: nat, n: nat)
    requires i <= j <= |s| && AllDigits(s[..j]) && (j < |s| ==> !IsDigit(s[j]))
    requires AllDigits(s[..i]) && n == DigitsValue(s[..i]) && n <= MaxUint64
    ensures ScanUint(s, i, n) == LeadingDigitsOutcome(s, j)
    decreases |s| - i
  {
    if i == |s| {
      assert j == i;
    } else if !IsDigit(s[i]) {
      assert j == i;
    } else {
      assert i < j;
      PrefixDigits(s, i + 1, j);
      PrefixValueStep(s, i);
      PrefixValueMonotone(s, i + 1, j);
      var n1 := n * 10 + DigitValue(s[i]);
      if n >= Cutoff10 || n1 > MaxUint64 {
        assert DigitsValue(s[..j]) > MaxUint64;
      } else {
        ScanMatchesReference(s, j, i + 1, n1);
      }
    }
  }

  /** ParseUint in terms of the leading digits of its input. */
  lemma ParseUintMeaning(s: string, j: nat)
    requires j <= |s| && AllDigits(s[..j]) && (j < |s| ==> !IsDigit(s[j]))
    ensures ParseUint(s) == if s == [] then Parsed(0, ErrSyntax) else LeadingDigitsOutcome(s, j)
  {
    if s != [] {
      assert s[..0] == [];
      ScanMatchesReference(s, j, 0, 0);
    }
  }

  /** On a digit string ParseUint yields its value, or saturates when it does not fit in 64 bits. */
  lemma ParseUintDigits(s: string)
    requires s != [] && AllDigits(s)
    ensures ParseUint(s) == if DigitsValue(s) <= MaxUint64 then Parsed(DigitsValue(s), NoError)
                            else Parsed(MaxUint64, ErrRange)
  {
    assert s[..|s|] == s;
    ParseUintMeaning(s, |s|);
  }

  /** A well-formed text parses to its value clamped to int64, without error exactly when it fits. */
  lemma ParseIntWellFormed(s: string)
    requires WellFormed(s)
    ensures ParseInt(s).value == Saturate(SignedValue(s))
    ensures ParseInt(s).err == NoError <==> MinInt64 <= SignedValue(s) <= MaxInt64
    ensures ParseInt(s).err != NoError ==> ParseInt(s).err == ErrRange
  {
    ParseUintDigits(Unsigned(s));
  }

  /**
    A text that is not well formed is a syntax error with value 0, unless its
    leading digits already overflow 64 bits, in which case Go reports a range
    error and saturates towards the sign.
   */
  lemma ParseIntMalformed(s: string)
    requires !WellFormed(s)
    ensures ParseInt(s) == if DigitsValue(LeadingDigits(Unsigned(s))) > MaxUint64
                           then Parsed(if Negative(s) then MinInt64 else MaxInt64, ErrRange)
                           else Parsed(0, ErrSyntax)
  {
    var u := Unsigned(s);
    ParseUintMeaning(u, FirstNonDigit(u));
  }

  /** Every text parses as one of the two cases above: the complete meaning of ParseInt. */
  lemma ParseIntMeaning(s: string)
    ensures WellFormed(s) ==>
              ParseInt(s) == Parsed(Saturate(SignedValue(s)),
                                    if MinInt64 <= SignedValue(s) <= MaxInt64 then NoError else ErrRange)
    ensures !WellFormed(s) ==>
              ParseInt(s) == if DigitsValue(LeadingDigits(Unsigned(s))) > MaxUint64
                             then Parsed(if Negative(s) then MinInt64 else MaxInt64, ErrRange)
                             else Parsed(0, ErrSyntax)
  {
    if WellFormed(s) {
      ParseIntWellFormed(s);
    } else {
      ParseIntMalformed(s);
    }
  }

  /** An empty text, a bare sign, or a text whose first character after the sign is not a digit parses to 0. */
  lemma ParseIntNonNumeric(s: string)
    requires Unsigned(s) == [] || !IsDigit(Unsigned(s)[0])
    ensures ParseInt(s) == Parsed(0, ErrSyntax)
  {
    ParseIntMalformed(s);
  }

  // ---------------------------------------------------------------------------
  // Formatting, as fmt's %d does it
  // ---------------------------------------------------------------------------

  /** The decimal digits of `n`, without leading zeros. */
  function FormatNat(n: nat): (r: string)
    ensures 1 <= |r| && AllDigits(r)
    ensures r[0] == '0' <==> n == 0
    ensures |r| == 1 <==> n < 10
    decreases n
  {
    if n < 10 then [DigitChar(n)] else FormatNat(n / 10) + [DigitChar(n % 10)]
  }

  /** fmt.Sprintf("%d", n): a '-' for negative values, then the digits of the magnitude. */
  function FormatInt(n: int): (r: string)
    ensures 1 <= |r|
    ensures n == 0 <==> r == "0"
    ensures n >= 0 ==> AllDigits(r) && (n > 0 ==> r[0] != '0')
    ensures n < 0 ==> 2 <= |r| && r[0] == '-' && AllDigits(r[1..]) && r[1] != '0'
  {
    if n < 0 then "-" + FormatNat(-n) else FormatNat(n)
  }

  /** Reading the digits FormatNat writes gives the number back. */
  lemma {:induction false} FormatNatValue(n: nat)
    ensures DigitsValue(FormatNat(n)) == n
    decreases n
  {
    var r := FormatNat(n);
    if n < 10 {
      assert r[..|r| - 1] == [];
    } else {
      FormatNatValue(n / 10);
      assert r[..|r| - 1] == FormatNat(n / 10);
    }
  }

  /** Every formatted integer is well formed and denotes exactly that integer. */
  lemma FormatIntMeaning(n: int)
    ensures WellFormed(FormatInt(n)) && SignedValue(FormatInt(n)) == n
  {
    var r := FormatInt(n);
    if n < 0 {
      assert Unsigned(r) == FormatNat(-n);
      FormatNatValue(-n);
    } else {
      assert IsDigit(r[0]);
      assert Unsigned(r) == FormatNat(n);
      FormatNatValue(n);
    }
  }

  /** Round trip: ParseInt reads back every int64 that %d writes, without error. */
  lemma FormatIntParses(n: Int64)
    ensures ParseInt(FormatInt(n)) == Parsed(n, NoError)
  {
    FormatIntMeaning(n);
    ParseIntWellFormed(FormatInt(n));
  }

  /** Distinct integers have distinct decimal texts. */
  lemma FormatIntInjective(a: int, b: int)
    requires FormatInt(a) == FormatInt(b)
    ensures a == b
  {
    FormatIntMeaning(a);
    FormatIntMeaning(b);
  }
}
