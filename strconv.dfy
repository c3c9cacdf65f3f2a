/**
 * The parts of Go's `strconv` package that the catalog-id codec relies on:
 * `Atoi` (the decoder's index parser, on a 64-bit platform) and `Itoa` for
 * non-negative values (how an index is written into an id).
 */
module Strconv {
  import opened Wrappers

  const MaxUint64: int := 0xFFFF_FFFF_FFFF_FFFF
  const MaxInt64: int := 0x7FFF_FFFF_FFFF_FFFF
  const MinInt64: int := -0x8000_0000_0000_0000

  /** `strconv.ErrSyntax` and `strconv.ErrRange`. */
  datatype NumErrorKind = ErrSyntax | ErrRange

  /** `*strconv.NumError`: the failing function, the input and the reason. */
  datatype NumError = NumError(func: string, num: string, err: NumErrorKind)

  predicate IsDigit(c: char) {
    '0' <= c <= '9'
  }

  predicate AllDigits(s: string) {
    forall i :: 0 <= i < |s| ==> IsDigit(s[i])
  }

  function DigitValue(c: char): (d: nat)
    requires IsDigit(c)
    ensures d < 10
  {
    c as int - '0' as int
  }

  function DigitChar(d: nat): (c: char)
    requires d < 10
    ensures IsDigit(c) && DigitValue(c) == d
  {
    ('0' as int + d) as char
  }

  /** The number a string of decimal digits denotes, most significant digit first. */
  function DigitsValue(s: string): nat
    requires AllDigits(s)
  {
    if s == [] then 0 else DigitsValue(s[..|s| - 1]) * 10 + DigitValue(s[|s| - 1])
  }

  function Pow10(k: nat): nat {
    if k == 0 then 1 else 10 * Pow10(k - 1)
  }

  /** A string of `k` digits denotes a number below 10^k. */
  lemma {:induction false} DigitsValueBound(s: string)
    requires AllDigits(s)
    ensures DigitsValue(s) < Pow10(|s|)
  {
    if s != [] {
      var prefix := s[..|s| - 1];
      assert AllDigits(prefix) by {
        forall i | 0 <= i < |prefix| ensures IsDigit(prefix[i]) { assert prefix[i] == s[i]; }
      }
      DigitsValueBound(prefix);
    }
  }

  /** At most 19 digits never leave the uint64 range. */
  lemma NineteenDigitsFit(s: string)
    requires AllDigits(s) && |s| <= 19
    ensures DigitsValue(s) <= MaxUint64
  {
    DigitsValueBound(s);
    Pow10Monotone(|s|, 19);
    assert Pow10(9) == 1_000_000_000;
    assert Pow10(19) == 10_000_000_000 * Pow10(9);
  }

  /** At most 18 digits never leave the int64 range. */
  lemma EighteenDigitsFit(s: string)
    ensures |s| <= 18 && AllDigits(s) ==> DigitsValue(s) <= MaxInt64
  {
    if |s| <= 18 && AllDigits(s) {
      DigitsValueBound(s);
      Pow10Monotone(|s|, 18);
      assert Pow10(9) == 1_000_000_000;
      assert Pow10(18) == 1_000_000_000 * Pow10(9);
    }
  }

  lemma {:induction false} Pow10Monotone(j: nat, k: nat)
    requires j <= k
    ensures Pow10(j) <= Pow10(k)
  {
    if j < k { Pow10Monotone(j, k - 1); }
  }

  /** An optional `+` or `-` followed by at least one decimal digit. */
  predicate IsDecimal(s: string) {
    && |s| > 0
    && var digits := if s[0] == '+' || s[0] == '-' then s[1..] else s;
       |digits| > 0 && AllDigits(digits)
  }

  /** The (unbounded) integer a decimal string denotes; reference meaning for `Atoi`. */
  function DecimalValue(s: string): int
    requires IsDecimal(s)
  {
    var magnitude: int := if s[0] == '-' || s[0] == '+' then DigitsValue(s[1..]) else DigitsValue(s);
    if s[0] == '-' then -magnitude else magnitude
  }

  /**
   * The digit loop of `strconv.ParseUint` in base 10 with a 64-bit result,
   * read left to right: the first character that is not a digit is a syntax
   * error, and a prefix whose value exceeds the uint64 range is a range error,
   * whichever comes first.
   */
  function ParseDigits(s: string): (r: Result<nat, NumErrorKind>)
    decreases |s|
    ensures r.Ok? <==> AllDigits(s) && DigitsValue(s) <= MaxUint64
    ensures r.Ok? ==> r.value == DigitsValue(s)
    ensures AllDigits(s) && DigitsValue(s) > MaxUint64 ==> r == Err(ErrRange)
  {
    if s == [] then Ok(0)
    else
      var prefix, c := s[..|s| - 1], s[|s| - 1];
      assert forall i :: 0 <= i < |prefix| ==> prefix[i] == s[i];
      match ParseDigits(prefix)
      case Err(e) => Err(e)
      case Ok(v) =>
        if !IsDigit(c) then Err(ErrSyntax)
        else if v * 10 + DigitValue(c) > MaxUint64 then Err(ErrRange)
        else Ok(v * 10 + DigitValue(c))
  }

  /** At most 19 characters can only fail the digit loop with a syntax error. */
  lemma {:induction false} ShortDigitsNoRange(s: string)
    ensures |s| <= 19 ==> ParseDigits(s) != Err(ErrRange)
  {
    if 0 < |s| <= 19 {
      var prefix := s[..|s| - 1];
      ShortDigitsNoRange(prefix);
      if AllDigits(s) {
        NineteenDigitsFit(s);
      }
    }
  }

  /**
   * `strconv.Atoi` on a 64-bit platform: an optional sign, then decimal digits
   * (leading zeros allowed), and the value must fit in an int64. Go's fast path
   * for inputs shorter than 19 bytes gives the same answers as this general
   * path, because at most 18 digits can never leave the int64 range.
   */
  function Atoi(s: string): (r: Result<int, NumError>)
    ensures r.Ok? <==> IsDecimal(s) && MinInt64 <= DecimalValue(s) <= MaxInt64
    ensures r.Ok? ==> r.value == DecimalValue(s)
    ensures r.Err? ==> r.error.func == "Atoi" && r.error.num == s
    ensures |s| < 19 ==> (r.Ok? <==> IsDecimal(s))
    ensures |s| < 19 && r.Err? ==> r.error.err == ErrSyntax
    ensures IsDecimal(s) && !(MinInt64 <= DecimalValue(s) <= MaxInt64) ==> r.Err? && r.error.err == ErrRange
  {
    if s == [] then Err(NumError("Atoi", s, ErrSyntax))
    else
      var neg := s[0] == '-';
      var digits := if s[0] == '+' || s[0] == '-' then s[1..] else s;
      if digits == [] then Err(NumError("Atoi", s, ErrSyntax))
      else
        ShortDigitsNoRange(digits);
        EighteenDigitsFit(digits);
        match ParseDigits(digits)
        case Err(k) =>
          assert |s| < 19 ==> k == ErrSyntax;
          Err(NumError("Atoi", s, k))
        case Ok(u) =>
          if !neg && u > MaxInt64 then Err(NumError("Atoi", s, ErrRange))
          else if neg && u > -MinInt64 then Err(NumError("Atoi", s, ErrRange))
          else
            var v: int := u;
            Ok(if neg then -v else v)
  }

  /** `strconv.Itoa` for a non-negative value: the shortest decimal form, no sign. */
  function Itoa(n: nat): (r: string)
    decreases n
    ensures |r| > 0 && AllDigits(r) && DigitsValue(r) == n
    ensures |r| > 1 ==> r[0] != '0'
  {
    if n < 10 then [DigitChar(n)]
    else
      var r := Itoa(n / 10) + [DigitChar(n % 10)];
      assert r[..|r| - 1] == Itoa(n / 10);
      r
  }

  /** Parsing what `Itoa` wrote gives the value back, for every value an int can hold. */
  lemma AtoiItoa(n: nat)
    requires n <= MaxInt64
    ensures Atoi(Itoa(n)) == Ok(n)
  {
    var s := Itoa(n);
    assert IsDigit(s[0]);
    assert IsDecimal(s);
  }

  /** `Atoi` is not canonical: a leading `+` or leading zeros are accepted. */
  lemma AtoiAcceptsSignAndZeros()
    ensures Atoi("01") == Ok(1)
    ensures Atoi("+1") == Ok(1)
    ensures Atoi("-1") == Ok(-1)
    ensures Atoi("") == Err(NumError("Atoi", "", ErrSyntax))
    ensures Atoi("-") == Err(NumError("Atoi", "-", ErrSyntax))
  {
    assert DigitsValue("0") == 0;
    assert "01"[..1] == "0";
    assert DigitsValue("01") == 1;
    assert "+1"[1..] == "1";
    assert "-1"[1..] == "1";
    assert IsDecimal("-1");
  }
}
