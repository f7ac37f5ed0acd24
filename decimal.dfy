/**
 * strconv.ParseUint(s, 10, 32), the parse startSurf applies to the first
 * line surf prints: a non-empty run of decimal digits, no sign, no prefix,
 * no underscores, with a value that fits in 32 bits.
 */
module Decimal {
  import opened Wrappers
  import opened XModel

  predicate IsDigit(c: char) {
    '0' <= c <= '9'
  }

  predicate AllDigits(s: string) {
    forall i :: 0 <= i < |s| ==> IsDigit(s[i])
  }

  /** The number a string of decimal digits denotes, most significant digit first. */
  function DecimalValue(s: string): (n: nat)
    requires AllDigits(s)
  {
    if s == [] then 0
    else DecimalValue(s[..|s| - 1]) * 10 + (s[|s| - 1] as int - '0' as int)
  }

  /** The strings ParseUint(s, 10, 32) accepts. */
  predicate IsUint32(s: string) {
    s != [] && AllDigits(s) && DecimalValue(s) <= MaxUint32
  }

  /** The two failures of strconv's NumError: ErrSyntax and ErrRange. */
  datatype NumError = ErrSyntax | ErrRange

  /** A digits-only prefix of `s` already exceeds the 32-bit maximum. */
  predicate OverflowsAt(s: string, k: nat) {
    0 < k <= |s| && AllDigits(s[..k]) && DecimalValue(s[..k]) > MaxUint32
  }

  /** `s` has a character that is not a digit while the value read before it still fits. */
  predicate BadDigitAt(s: string, k: nat) {
    k < |s| && !IsDigit(s[k]) && AllDigits(s[..k]) && DecimalValue(s[..k]) <= MaxUint32
  }

  /** Some digits-only prefix of `s` exceeds the 32-bit maximum. */
  ghost predicate Overflows(s: string) {
    exists k :: OverflowsAt(s, k)
  }

  /**
   * ParseUint(s, 10, 32): reads the digits left to right and stops at the
   * first character that is not a digit (ErrSyntax) or at the first digit
   * that takes the value past 2^32 - 1 (ErrRange). strconv's extra checks
   * against uint64 overflow cannot fire with a 32-bit maximum and are left out.
   */
  method ParseUint32(s: string) returns (r: Result<XID, NumError>)
    ensures r.Ok? <==> IsUint32(s)
    ensures r.Ok? ==> r.value == DecimalValue(s)
    ensures r == Err(ErrRange) ==> exists k :: OverflowsAt(s, k)
    ensures r == Err(ErrSyntax) ==> s == [] || exists k :: BadDigitAt(s, k)
    ensures r.Err? ==> (r.error == ErrRange <==> Overflows(s))
  {
    if s == [] {
      return Err(ErrSyntax);
    }
    var n: nat := 0;
    var i := 0;
    while i < |s|
      invariant 0 <= i <= |s|
      invariant AllDigits(s[..i])
      invariant n == DecimalValue(s[..i]) <= MaxUint32
    {
      var c := s[i];
      if !IsDigit(c) {
        assert BadDigitAt(s, i);
        forall k ensures !OverflowsAt(s, k) {
          if OverflowsAt(s, k) {
            ParseErrorsExclusive(s, k, i);
          }
        }
        return Err(ErrSyntax);
      }
      var n1 := n * 10 + (c as int - '0' as int);
      assert s[..i + 1][..i] == s[..i];
      if n1 > MaxUint32 {
        assert OverflowsAt(s, i + 1);
        if AllDigits(s) {
          assert s[..|s|] == s;
          ValueMonotone(s, i + 1, |s|);
        }
        return Err(ErrRange);
      }
      n := n1;
      i := i + 1;
    }
    assert s[..i] == s;
    return Ok(n);
  }

  /** Along a run of digits the value read so far never decreases. */
  lemma {:induction false} ValueMonotone(s: string, j: nat, k: nat)
    requires j <= k <= |s| && AllDigits(s[..k])
    ensures AllDigits(s[..j]) && DecimalValue(s[..j]) <= DecimalValue(s[..k])
    decreases k - j
  {
    if j < k {
      assert s[..k][..k - 1] == s[..k - 1];
      ValueMonotone(s, j, k - 1);
    }
  }

  /**
   * The two error conditions of ParseUint32 exclude each other, so its
   * contract fixes the result for every input.
   */
  lemma ParseErrorsExclusive(s: string, j: nat, k: nat)
    requires OverflowsAt(s, j)
    ensures !BadDigitAt(s, k)
  {
    if BadDigitAt(s, k) {
      if j <= k {
        ValueMonotone(s, j, k);
      }
    }
  }

  /** The decimal representation of a natural number, without leading zeros. */
  function FormatDecimal(n: nat): (s: string)
    ensures s != [] && AllDigits(s)
  {
    if n < 10 then [('0' as int + n) as char]
    else FormatDecimal(n / 10) + [('0' as int + n % 10) as char]
  }

  /** Parsing the decimal representation of a number gives the number back. */
  lemma {:induction false} FormatDecimalRoundTrip(n: nat)
    ensures DecimalValue(FormatDecimal(n)) == n
    ensures n <= MaxUint32 ==> IsUint32(FormatDecimal(n))
  {
    if n >= 10 {
      FormatDecimalRoundTrip(n / 10);
      var s := FormatDecimal(n);
      assert s[..|s| - 1] == FormatDecimal(n / 10);
    }
  }
}
