/**
  Decimal integer parsing as Go's `strconv.Atoi` performs it on a 64-bit
  platform, which is what `parseState` relies on for the `song` and
  `nextsong` status attributes.

  The functions `UintResult` and `IntResult` state what `ParseUint(s, 10, 64)`
  and `ParseInt(s, 10, 0)` return (value and error kind); the methods
  `ParseUint`, `ParseInt` and `Atoi` follow the library's loops step by step
  and are proved to compute exactly those results.  Integers are unbounded
  here, so the uint64 and int64 limits are written out explicitly.
*/
module Strconv {

  /** 1<<64 - 1, the largest uint64. */
  const MaxUint64: int := 0xFFFF_FFFF_FFFF_FFFF
  /** 1<<63, the magnitude of the smallest int64. */
  const Cutoff: int := 0x8000_0000_0000_0000
  const MaxInt64: int := Cutoff - 1
  const MinInt64: int := -Cutoff

  /** The `Err` field of a `*NumError`, or no error at all. */
  datatype NumError = NoError | ErrSyntax | ErrRange

  /** The (value, error) pair a parse function returns. */
  datatype Parsed = Parsed(value: int, err: NumError)

  predicate IsDigit(c: char) {
    '0' <= c <= '9'
  }

  predicate AllDigits(s: string) {
    forall i :: 0 <= i < |s| ==> IsDigit(s[i])
  }

  function DigitValue(c: char): nat
    requires IsDigit(c)
  {
    c as int - '0' as int
  }

  /** The number a string of decimal digits denotes (read most significant first). */
  function DecimalValue(ds: string): nat
    requires AllDigits(ds)
  {
    if ds == [] then 0 else 10 * DecimalValue(ds[..|ds| - 1]) + DigitValue(ds[|ds| - 1])
  }

  /** The length of the longest prefix of `s` made of decimal digits. */
  function DigitPrefixLen(s: string): (k: nat)
    ensures k <= |s| && AllDigits(s[..k])
    ensures k < |s| ==> !IsDigit(s[k])
  {
    if s == [] || !IsDigit(s[0]) then 0
    else
      1 + DigitPrefixLen(s[1..])
  }

  /** A leading '+' or '-' is a sign; the rest is the digit part. */
  predicate Negative(s: string) {
    |s| > 0 && s[0] == '-'
  }

  function Unsigned(s: string): string {
    if |s| > 0 && (s[0] == '+' || s[0] == '-') then s[1..] else s
  }

  /** The digits the parser reads before it meets the first non-digit. */
  function LeadingDigits(s: string): (ds: string)
    ensures AllDigits(ds)
  {
    Unsigned(s)[..DigitPrefixLen(Unsigned(s))]
  }

  /** What `Atoi` accepts without error: an optional sign and one or more digits. */
  predicate IsDecimal(s: string) {
    |Unsigned(s)| > 0 && AllDigits(Unsigned(s))
  }

  function SignedValue(s: string): int
    requires IsDecimal(s)
  {
    var magnitude: int := DecimalValue(Unsigned(s));
    if Negative(s) then -magnitude else magnitude
  }

  /**
    The result of `ParseUint(s, 10, 64)`.  The scan stops at the first
    non-digit (syntax error, value 0) unless the digits before it already
    exceed the uint64 range, in which case the range error (value MaxUint64)
    is reported first.
  */
  function UintResult(s: string): (r: Parsed)
    ensures 0 <= r.value <= MaxUint64
    ensures r.err == ErrSyntax ==> r.value == 0
    ensures r.err == ErrRange ==> r.value == MaxUint64
  {
    if s == [] then Parsed(0, ErrSyntax)
    else
      var k := DigitPrefixLen(s);
      if DecimalValue(s[..k]) > MaxUint64 then Parsed(MaxUint64, ErrRange)
      else if k < |s| then Parsed(0, ErrSyntax)
      else
        assert s[..k] == s;
        Parsed(DecimalValue(s), NoError)
  }

  /**
    The result of `ParseInt(s, 10, 0)` with 64-bit `int`: the sign is taken
    off, the rest is parsed as a uint64, and a magnitude outside the int64
    range is clamped to the nearest bound with a range error.
  */
  function IntResult(s: string): (r: Parsed)
    ensures MinInt64 <= r.value <= MaxInt64
    ensures r.err == ErrSyntax ==> r.value == 0
  {
    if s == [] then Parsed(0, ErrSyntax)
    else
      var p := UintResult(Unsigned(s));
      if p.err == ErrSyntax then Parsed(0, ErrSyntax)
      else if !Negative(s) && p.value >= Cutoff then Parsed(MaxInt64, ErrRange)
      else if Negative(s) && p.value > Cutoff then Parsed(MinInt64, ErrRange)
      else Parsed(if Negative(s) then -p.value else p.value, NoError)
  }

  /**
    `n, _ := strconv.Atoi(s)`: the value with the error ignored.  It is the
    number written when the string is a numeral in int64 range, and always
    an int64.
  */
  function AtoiValue(s: string): (n: int)
    ensures MinInt64 <= n <= MaxInt64
    ensures IsDecimal(s) && MinInt64 <= SignedValue(s) <= MaxInt64 ==> n == SignedValue(s)
  {
    IntResultOk(s);
    IntResult(s).value
  }

  // ---------------------------------------------------------------------
  // Facts about digit strings

  lemma {:induction false} DecimalValuePrefix(ds: string, j: nat)
    requires AllDigits(ds) && j <= |ds|
    ensures DecimalValue(ds[..j]) <= DecimalValue(ds)
    decreases |ds|
  {
    if j < |ds| {
      var front := ds[..|ds| - 1];
      assert front[..j] == ds[..j];
      DecimalValuePrefix(front, j);
    } else {
      assert ds[..j] == ds;
    }
  }

  lemma {:induction false} DecimalValueBound(ds: string)
    requires AllDigits(ds)
    ensures DecimalValue(ds) < Pow10(|ds|)
    decreases |ds|
  {
    if ds != [] {
      DecimalValueBound(ds[..|ds| - 1]);
    }
  }

  function Pow10(n: nat): (p: nat)
    ensures p >= 1
  {
    if n == 0 then 1 else 10 * Pow10(n - 1)
  }

  lemma {:induction false} Pow10Monotone(m: nat, n: nat)
    requires m <= n
    ensures Pow10(m) <= Pow10(n)
    decreases n
  {
    if m < n {
      Pow10Monotone(m, n - 1);
    }
  }

  /** At most 18 digits always fit in an int64 (the reason for Atoi's fast path). */
  lemma ShortDigitsFit(ds: string)
    requires AllDigits(ds) && |ds| <= 18
    ensures DecimalValue(ds) < Cutoff
  {
    DecimalValueBound(ds);
    Pow10Monotone(|ds|, 18);
    assert Pow10(6) == 1_000_000;
    assert Pow10(12) == 1_000_000_000_000;
    assert Pow10(18) == 1_000_000_000_000_000_000;
  }

  lemma {:induction false} DigitPrefixLenAt(s: string, i: nat)
    requires i <= |s| && AllDigits(s[..i])
    requires i == |s| || !IsDigit(s[i])
    ensures DigitPrefixLen(s) == i
    decreases i
  {
    if i > 0 {
      assert s[1..][..i - 1] == s[..i][1..];
      DigitPrefixLenAt(s[1..], i - 1);
    }
  }

  lemma {:induction false} DigitPrefixLenAtLeast(s: string, i: nat)
    requires i <= |s| && AllDigits(s[..i])
    ensures i <= DigitPrefixLen(s)
    decreases i
  {
    if i > 0 {
      assert s[1..][..i - 1] == s[..i][1..];
      DigitPrefixLenAtLeast(s[1..], i - 1);
    }
  }

  // ---------------------------------------------------------------------
  // What Atoi returns, case by case

  /** Exactly the well-formed, in-range numerals parse without error, to their value. */
  lemma IntResultOk(s: string)
    ensures IntResult(s).err == NoError <==> IsDecimal(s) && MinInt64 <= SignedValue(s) <= MaxInt64
    ensures IntResult(s).err == NoError ==> IntResult(s).value == SignedValue(s)
  {
    var u := Unsigned(s);
    if IsDecimal(s) {
      DigitPrefixLenAt(u, |u|);
      assert u[..|u|] == u;
    } else if u != [] {
      assert DigitPrefixLen(u) < |u|;
    }
  }

  /** Anything else gives 0 with a syntax error, unless its leading digits overflow uint64. */
  lemma IntResultMalformed(s: string)
    requires !IsDecimal(s)
    requires DecimalValue(LeadingDigits(s)) <= MaxUint64
    ensures IntResult(s) == Parsed(0, ErrSyntax)
  {
    var u := Unsigned(s);
    if u != [] {
      assert DigitPrefixLen(u) < |u|;
    }
  }

  /**
    A well-formed numeral whose value lies outside int64 (but whose digits
    fit uint64) gives the int64 bound on its side with a range error.
  */
  lemma IntResultOutOfRange(s: string)
    requires IsDecimal(s) && !(MinInt64 <= SignedValue(s) <= MaxInt64)
    ensures IntResult(s) == Parsed(if Negative(s) then MinInt64 else MaxInt64, ErrRange)
  {
    var u := Unsigned(s);
    DigitPrefixLenAt(u, |u|);
    assert u[..|u|] == u;
  }

  /**
    Leading digits beyond uint64 give the clamped bound with a range error,
    whatever follows them (the overflow is detected before the bad character).
  */
  lemma IntResultOverflow(s: string)
    requires DecimalValue(LeadingDigits(s)) > MaxUint64
    ensures IntResult(s) == Parsed(if Negative(s) then MinInt64 else MaxInt64, ErrRange)
  {
  }

  /** The inputs the status decoder meets in practice. */
  lemma AtoiEdgeCases()
    ensures AtoiValue("") == 0 && AtoiValue("+") == 0 && AtoiValue("-") == 0
    ensures AtoiValue(" 7") == 0 && AtoiValue("7 ") == 0 && AtoiValue("0x1") == 0
    ensures AtoiValue("+7") == 7 && AtoiValue("-7") == -7 && AtoiValue("007") == 7
  {
    IntResultMalformed(" 7");
    IntResultMalformed("7 ");
    assert !IsDigit("0x1"[1]);
    DigitPrefixLenAt("0x1", 1);
    assert LeadingDigits("0x1") == "0";
    IntResultMalformed("0x1");
    IntResultOk("+7");
    IntResultOk("-7");
    assert "007"[..2] == "00" && "00"[..1] == "0";
    IntResultOk("007");
  }

  // ---------------------------------------------------------------------
  // Formatting as `strconv.Itoa` does, the inverse of parsing

  function DigitChar(d: nat): (c: char)
    requires d < 10
    ensures IsDigit(c) && DigitValue(c) == d
  {
    ('0' as int + d) as char
  }

  /** The shortest decimal numeral of `n`. */
  function FormatNat(n: nat): (s: string)
    ensures |s| > 0 && AllDigits(s) && DecimalValue(s) == n
    ensures |s| > 1 ==> s[0] != '0'
    decreases n
  {
    if n < 10 then [DigitChar(n)]
    else
      var front := FormatNat(n / 10);
      var s := front + [DigitChar(n % 10)];
      assert s[..|s| - 1] == front;
      s
  }

  function FormatInt(n: int): string {
    if n < 0 then "-" + FormatNat(-n) else FormatNat(n)
  }

  /** Every int64 survives formatting followed by `Atoi`. */
  lemma FormatIntRoundTrip(n: int)
    requires MinInt64 <= n <= MaxInt64
    ensures IntResult(FormatInt(n)) == Parsed(n, NoError)
    ensures AtoiValue(FormatInt(n)) == n
  {
    var s := FormatInt(n);
    if n < 0 {
      assert Unsigned(s) == FormatNat(-n);
    } else {
      assert Unsigned(s) == FormatNat(n);
    }
    IntResultOk(s);
  }

  // ---------------------------------------------------------------------
  // The library's loops

  /** `ParseUint(s, 10, 64)`: one digit at a time, checking for overflow before each step. */
  method ParseUint(s: string) returns (n: int, err: NumError)
    ensures Parsed(n, err) == UintResult(s)
  {
    if s == [] {
      return 0, ErrSyntax;
    }
    n := 0;
    var i := 0;
    while i < |s|
      invariant 0 <= i <= |s|
      invariant AllDigits(s[..i]) && n == DecimalValue(s[..i]) && n <= MaxUint64
    {
      var c := s[i];
      if !IsDigit(c) {
        DigitPrefixLenAt(s, i);
        return 0, ErrSyntax;
      }
      assert s[..i + 1][..i] == s[..i];
      assert DecimalValue(s[..i + 1]) == 10 * n + DigitValue(c);
      if n >= MaxUint64 / 10 + 1 {
        // n*10 would overflow
        OverflowReported(s, i + 1);
        return MaxUint64, ErrRange;
      }
      n := n * 10;
      var n1 := (n + DigitValue(c)) % (MaxUint64 + 1);
      if n1 < n || n1 > MaxUint64 {
        // n+d overflowed
        OverflowReported(s, i + 1);
        return MaxUint64, ErrRange;
      }
      n := n1;
      i := i + 1;
    }
    DigitPrefixLenAt(s, i);
    assert s[..i] == s;
    return n, NoError;
  }

  /** Once a digit prefix exceeds uint64, so does the whole leading digit run. */
  lemma OverflowReported(s: string, j: nat)
    requires 0 < j <= |s| && AllDigits(s[..j]) && DecimalValue(s[..j]) > MaxUint64
    ensures UintResult(s) == Parsed(MaxUint64, ErrRange)
  {
    DigitPrefixLenAtLeast(s, j);
    var k := DigitPrefixLen(s);
    assert s[..k][..j] == s[..j];
    DecimalValuePrefix(s[..k], j);
  }

  /** `ParseInt(s, 10, 0)`: strip the sign, parse the magnitude, clamp to int64. */
  method ParseInt(s: string) returns (n: int, err: NumError)
    ensures Parsed(n, err) == IntResult(s)
  {
    if s == [] {
      return 0, ErrSyntax;
    }
    var neg := false;
    var u := s;
    if s[0] == '+' {
      u := s[1..];
    } else if s[0] == '-' {
      neg := true;
      u := s[1..];
    }
    var un, e := ParseUint(u);
    if e == ErrSyntax {
      return 0, e;
    }
    if !neg && un >= Cutoff {
      return Cutoff - 1, ErrRange;
    }
    if neg && un > Cutoff {
      return -Cutoff, ErrRange;
    }
    n := un;
    if neg {
      n := -n;
    }
    return n, NoError;
  }

  /**
    `Atoi(s)`: strings of 1 to 18 characters take a fast path that cannot
    overflow; everything else goes through `ParseInt`.  Both paths agree
    with `IntResult`.
  */
  method Atoi(s: string) returns (n: int, err: NumError)
    ensures Parsed(n, err) == IntResult(s)
  {
    if 0 < |s| < 19 {
      var t := s;
      if s[0] == '-' || s[0] == '+' {
        t := s[1..];
        if |t| < 1 {
          return 0, ErrSyntax;
        }
      }
      assert t == Unsigned(s);
      n := 0;
      var i := 0;
      while i < |t|
        invariant 0 <= i <= |t|
        invariant AllDigits(t[..i]) && n == DecimalValue(t[..i])
      {
        if !IsDigit(t[i]) {
          DigitPrefixLenAt(t, i);
          ShortDigitsFit(t[..i]);
          return 0, ErrSyntax;
        }
        assert t[..i + 1][..i] == t[..i];
        n := n * 10 + DigitValue(t[i]);
        i := i + 1;
      }
      assert t[..i] == t;
      DigitPrefixLenAt(t, i);
      ShortDigitsFit(t);
      if s[0] == '-' {
        n := -n;
      }
      return n, NoError;
    }
    n, err := ParseInt(s);
  }
}
