/**
 * Go's `strconv.ParseInt(s, 10, 64)` and `strconv.FormatInt(n, 10)` (which is
 * also what `fmt.Sprintf("%d", n)` prints for an int64), on mathematical
 * integers with the int64 and uint64 bounds written out.
 */
module GoStrconv {
  import opened Wrappers

  const MaxUint64: nat := 0xFFFF_FFFF_FFFF_FFFF
  const MaxInt64: int := 0x7FFF_FFFF_FFFF_FFFF
  const MinInt64: int := -0x8000_0000_0000_0000

  /** Go's int64. */
  type Int64 = x: int | MinInt64 <= x <= MaxInt64

  /** ParseUint's `cutoff`: the smallest n for which n * 10 overflows a uint64. */
  const Uint64Cutoff: nat := MaxUint64 / 10 + 1

  /** The two sentinel errors `strconv.ErrSyntax` and `strconv.ErrRange`. */
  datatype NumErrorKind = ErrSyntax | ErrRange

  /** `*strconv.NumError`: the function name, the input and the cause. */
  datatype NumError = NumError(func: string, num: string, err: NumErrorKind) {
    /** `NumError.Error()`; the input is quoted (see GoStrings.Quote for what is left out). */
    function Error(): string {
      "strconv." + func + ": parsing " + "\"" + num + "\"" + ": "
      + (if err == ErrSyntax then "invalid syntax" else "value out of range")
    }
  }

  predicate IsDigit(c: char) { '0' <= c <= '9' }

  function DigitValue(c: char): (d: nat)
    requires IsDigit(c)
    ensures d < 10
  {
    c as int - '0' as int
  }

  function DigitChar(d: nat): (c: char)
    requires d < 10
    ensures IsDigit(c) && DigitValue(c) == d
  {
    ('0' as int + d) as char
  }

  predicate AllDigits(s: string) {
    forall i :: 0 <= i < |s| ==> IsDigit(s[i])
  }

  /** The number a string of decimal digits denotes (reference definition, read right to left). */
  function DigitsValue(s: string): nat
    requires AllDigits(s)
    decreases |s|
  {
    if s == [] then 0 else DigitsValue(s[..|s| - 1]) * 10 + DigitValue(s[|s| - 1])
  }

  /** The optional leading sign ParseInt removes: `+` or `-`. */
  predicate HasSign(s: string) { |s| > 0 && (s[0] == '+' || s[0] == '-') }

  function Unsigned(s: string): string {
    if HasSign(s) then s[1..] else s
  }

  /** Reference syntax accepted by ParseInt in base 10: `[+-]?[0-9]+`. */
  predicate IsDecimal(s: string) {
    |Unsigned(s)| > 0 && AllDigits(Unsigned(s))
  }

  /** Reference value of a decimal string. */
  function DecimalValue(s: string): int
    requires IsDecimal(s)
  {
    if s[0] == '-' then -(DigitsValue(Unsigned(s)) as int) else DigitsValue(Unsigned(s))
  }

  /**
   * The digit loop of `ParseUint(s, 10, 64)` from position i with accumulated
   * value n. Like Go, it stops at the first character that is not a digit
   * (syntax error) or at the first step that overflows a uint64 (range
   * error), whichever comes first. Go's wrap-around test `n1 < n` is
   * `n1 > MaxUint64` here.
   */
  function ScanDigits(s: string, i: nat, n: nat): Result<nat, NumErrorKind>
    requires i <= |s| && n <= MaxUint64
    decreases |s| - i
  {
    if i == |s| then Success(n)
    else if !IsDigit(s[i]) then Failure(ErrSyntax)
    else if n >= Uint64Cutoff then Failure(ErrRange)
    else if n * 10 + DigitValue(s[i]) > MaxUint64 then Failure(ErrRange)
    else ScanDigits(s, i + 1, n * 10 + DigitValue(s[i]))
  }

  /** `strconv.ParseUint(s, 10, 64)`, returning only the error's cause. */
  function ParseUint64(s: string): (r: Result<nat, NumErrorKind>)
    ensures r.Success? <==> |s| > 0 && AllDigits(s) && DigitsValue(s) <= MaxUint64
    ensures r.Success? ==> r.value == DigitsValue(s)
    ensures |s| > 0 && AllDigits(s) && DigitsValue(s) > MaxUint64 ==> r == Failure(ErrRange)
  {
    if s == [] then Failure(ErrSyntax)
    else
      assert s[..0] == [];
      ScanCorrect(s, 0, 0);
      ScanDigits(s, 0, 0)
  }

  /**
   * `strconv.ParseInt(s, 10, 64)`: an optional sign, then ParseUint, then the
   * int64 range check. Every error carries Func "ParseInt" and the whole input.
   */
  function ParseInt64(s: string): (r: Result<Int64, NumError>)
    ensures r.Success? <==> IsDecimal(s) && MinInt64 <= DecimalValue(s) <= MaxInt64
    ensures r.Success? ==> r.value == DecimalValue(s)
    ensures r.Failure? ==> r.error.func == "ParseInt" && r.error.num == s
    ensures r.Failure? && IsDecimal(s) ==> r.error.err == ErrRange
    ensures |Unsigned(s)| == 0 || !IsDigit(Unsigned(s)[0]) ==> r == Failure(NumError("ParseInt", s, ErrSyntax))
  {
    if s == [] then Failure(NumError("ParseInt", s, ErrSyntax))
    else
      var neg := s[0] == '-';
      match ParseUint64(Unsigned(s))
      case Failure(ErrSyntax) => Failure(NumError("ParseInt", s, ErrSyntax))
      case Failure(ErrRange) => Failure(NumError("ParseInt", s, ErrRange))
      case Success(un) =>
        if !neg && un >= 0x8000_0000_0000_0000 then Failure(NumError("ParseInt", s, ErrRange))
        else if neg && un > 0x8000_0000_0000_0000 then Failure(NumError("ParseInt", s, ErrRange))
        else Success(if neg then -(un as int) else un)
  }

  /** Decimal digits of a natural number, without leading zeros. */
  function NatDigits(n: nat): string
    decreases n
  {
    if n < 10 then [DigitChar(n)] else NatDigits(n / 10) + [DigitChar(n % 10)]
  }

  /** `strconv.FormatInt(n, 10)`, the form `%d` prints: a `-` for negatives, never a `+`. */
  function FormatInt64(n: Int64): string {
    if n < 0 then "-" + NatDigits(-(n as int)) else NatDigits(n)
  }

  // ---------------------------------------------------------------------------
  // Proofs

  lemma {:induction false} DigitsValuePrefix(s: string, j: nat)
    requires AllDigits(s) && j <= |s|
    ensures AllDigits(s[..j]) && DigitsValue(s[..j]) <= DigitsValue(s)
    decreases |s| - j
  {
    if j < |s| {
      DigitsValuePrefix(s, j + 1);
      assert s[..j + 1][..j] == s[..j];
    } else {
      assert s[..j] == s;
    }
  }

  /** The digit loop computes DigitsValue, and fails with a range error exactly when an all-digit input overflows. */
  lemma {:induction false} ScanCorrect(s: string, i: nat, n: nat)
    requires i <= |s| && n <= MaxUint64
    requires AllDigits(s[..i]) && n == DigitsValue(s[..i])
    ensures ScanDigits(s, i, n).Success? <==> AllDigits(s) && DigitsValue(s) <= MaxUint64
    ensures ScanDigits(s, i, n).Success? ==> ScanDigits(s, i, n).value == DigitsValue(s)
    ensures AllDigits(s) && DigitsValue(s) > MaxUint64 ==> ScanDigits(s, i, n) == Failure(ErrRange)
    decreases |s| - i
  {
    if i == |s| {
      assert s[..i] == s;
    } else if !IsDigit(s[i]) {
      assert !AllDigits(s);
    } else {
      var n1 := n * 10 + DigitValue(s[i]);
      assert s[..i + 1][..i] == s[..i];
      assert AllDigits(s[..i + 1]) && DigitsValue(s[..i + 1]) == n1;
      if n >= Uint64Cutoff || n1 > MaxUint64 {
        if AllDigits(s) {
          DigitsValuePrefix(s, i + 1);
        }
      } else {
        ScanCorrect(s, i + 1, n1);
      }
    }
  }

  lemma {:induction false} NatDigitsCorrect(n: nat)
    ensures |NatDigits(n)| > 0 && AllDigits(NatDigits(n))
    ensures IsDigit(NatDigits(n)[0])
    ensures DigitsValue(NatDigits(n)) == n
    decreases n
  {
    if n >= 10 {
      NatDigitsCorrect(n / 10);
      var s := NatDigits(n);
      assert s[..|s| - 1] == NatDigits(n / 10);
    }
  }

  /**
   * The digit loop meets the first non-digit, at k, only if the digits before
   * it fit a uint64: it reports a range error exactly when that prefix
   * overflows, and otherwise the syntax error at k.
   */
  lemma {:induction false} ScanStopsAt(s: string, i: nat, n: nat, k: nat)
    requires i <= k < |s| && !IsDigit(s[k]) && AllDigits(s[..k])
    requires n <= MaxUint64 && AllDigits(s[..i]) && n == DigitsValue(s[..i])
    ensures ScanDigits(s, i, n) == Failure(if DigitsValue(s[..k]) > MaxUint64 then ErrRange else ErrSyntax)
    decreases k - i
  {
    if i == k {
    } else {
      assert s[i] == s[..k][i];
      var n1 := n * 10 + DigitValue(s[i]);
      assert s[..i + 1][..i] == s[..i];
      assert AllDigits(s[..i + 1]) && DigitsValue(s[..i + 1]) == n1;
      assert s[..k][..i + 1] == s[..i + 1];
      DigitsValuePrefix(s[..k], i + 1);
      if n >= Uint64Cutoff || n1 > MaxUint64 {
      } else {
        ScanStopsAt(s, i + 1, n1, k);
      }
    }
  }

  /**
   * The kind of a ParseInt error on an input with a non-digit after the
   * sign: a range error exactly when the digits before the first non-digit
   * already overflow a uint64 (so "99999999999999999999x" is out of range),
   * and a syntax error otherwise.
   */
  lemma ParseInt64ErrorKind(s: string, k: nat)
    requires k < |Unsigned(s)| && !IsDigit(Unsigned(s)[k]) && AllDigits(Unsigned(s)[..k])
    ensures ParseInt64(s) ==
      Failure(NumError("ParseInt", s, if DigitsValue(Unsigned(s)[..k]) > MaxUint64 then ErrRange else ErrSyntax))
  {
    var u := Unsigned(s);
    assert u[..0] == [];
    ScanStopsAt(u, 0, 0, k);
  }

  /** FormatInt64 prints a decimal string denoting n, made of digits and at most a leading '-'. */
  lemma FormatIsDecimal(n: Int64)
    ensures IsDecimal(FormatInt64(n)) && DecimalValue(FormatInt64(n)) == n
    ensures forall i :: 0 <= i < |FormatInt64(n)| ==> IsDigit(FormatInt64(n)[i]) || (i == 0 && FormatInt64(n)[i] == '-')
  {
    NatDigitsCorrect(if n < 0 then -(n as int) else n);
    if n < 0 {
      assert Unsigned(FormatInt64(n)) == NatDigits(-(n as int));
    } else {
      assert Unsigned(FormatInt64(n)) == NatDigits(n);
    }
  }

  /** Round trip: ParseInt gives back every int64 that `%d` printed. */
  lemma FormatParseRoundTrip(n: Int64)
    ensures ParseInt64(FormatInt64(n)) == Success(n)
  {
    FormatIsDecimal(n);
  }

  /** `%d` never prints the `/` that separates the parts of an import identifier. */
  lemma FormatHasNoSlash(n: Int64)
    ensures '/' !in FormatInt64(n)
  {
    FormatIsDecimal(n);
  }
}
