/** Character-sequence helpers shared by the model: ASCII case handling, the
    prefix and suffix tests of Rust's `str`, and Rust's parsing of unsigned
    decimal integers (`str::parse::<u32>()` and `str::parse::<u64>()`). */
module Text {
  import opened Wrappers

  /** One past the largest `u32`. */
  const U32_LIMIT: nat := 0x1_0000_0000
  /** One past the largest `u64`. */
  const U64_LIMIT: nat := 0x1_0000_0000_0000_0000

  function AsciiLower(c: char): char {
    if 'A' <= c <= 'Z' then (c as int + 32) as char else c
  }

  function AsciiUpper(c: char): char {
    if 'a' <= c <= 'z' then (c as int - 32) as char else c
  }

  /** `s` with every ASCII upper-case letter lowered; other characters kept. */
  function LowerAscii(s: string): string {
    seq(|s|, i requires 0 <= i < |s| => AsciiLower(s[i]))
  }

  /** `s` with every ASCII lower-case letter raised; other characters kept. */
  function UpperAscii(s: string): string {
    seq(|s|, i requires 0 <= i < |s| => AsciiUpper(s[i]))
  }

  /** Rust's `str::eq_ignore_ascii_case`. */
  predicate EqIgnoreAsciiCase(a: string, b: string) {
    |a| == |b| && forall i :: 0 <= i < |a| ==> AsciiLower(a[i]) == AsciiLower(b[i])
  }

  /** Comparing without ASCII case is comparing the lowered forms; hence it is
      an equivalence relation. */
  lemma EqIgnoreAsciiCaseIsLowerEquality(a: string, b: string)
    ensures EqIgnoreAsciiCase(a, b) <==> LowerAscii(a) == LowerAscii(b)
  {
    if LowerAscii(a) == LowerAscii(b) {
      assert |a| == |LowerAscii(a)| == |LowerAscii(b)| == |b|;
      forall i | 0 <= i < |a| ensures AsciiLower(a[i]) == AsciiLower(b[i]) {
        assert LowerAscii(a)[i] == LowerAscii(b)[i];
      }
    }
  }

  /** Rust's `str::starts_with` for a string pattern. */
  predicate StartsWith(s: string, prefix: string) {
    |prefix| <= |s| && s[..|prefix|] == prefix
  }

  /** Rust's `str::ends_with` for a string pattern. */
  predicate EndsWith(s: string, suffix: string) {
    |suffix| <= |s| && s[|s| - |suffix|..] == suffix
  }

  predicate IsDigit(c: char) {
    '0' <= c <= '9'
  }

  predicate AllDigits(s: string) {
    forall i :: 0 <= i < |s| ==> IsDigit(s[i])
  }

  function DigitValue(c: char): nat
    requires IsDigit(c)
  {
    c as int - '0' as int
  }

  function DigitChar(d: nat): char
    requires d < 10
  {
    (d + '0' as int) as char
  }

  /** The value of a run of decimal digits, most significant first. */
  function DigitsValue(s: string): nat
    requires AllDigits(s)
  {
    if s == [] then 0 else 10 * DigitsValue(s[..|s| - 1]) + DigitValue(s[|s| - 1])
  }

  /** A run of decimal digits read most significant first, the way Rust
      accumulates it: None for an empty run, a non-digit, or a value that
      reaches `limit` at any step. */
  function ParseDigits(s: string, limit: nat): (r: Option<nat>)
    ensures r.Some? ==> r.value < limit
  {
    if s == [] || !IsDigit(s[|s| - 1]) then None
    else
      var prefix := s[..|s| - 1];
      var d := DigitValue(s[|s| - 1]);
      if prefix == [] then
        (if d < limit then Some(d) else None)
      else
        match ParseDigits(prefix, limit)
        case None => None
        case Some(p) => if 10 * p + d < limit then Some(10 * p + d) else None
  }

  /** Reading digits succeeds exactly on a non-empty run of digits whose
      value is below the limit, and yields that value. */
  lemma {:induction false} ParseDigitsValue(s: string, limit: nat)
    ensures ParseDigits(s, limit).Some? <==> s != [] && AllDigits(s) && DigitsValue(s) < limit
    ensures ParseDigits(s, limit).Some? ==> ParseDigits(s, limit).value == DigitsValue(s)
  {
    if s != [] && IsDigit(s[|s| - 1]) {
      var prefix := s[..|s| - 1];
      if prefix != [] {
        ParseDigitsValue(prefix, limit);
        if AllDigits(s) {
          assert AllDigits(prefix) by {
            forall k | 0 <= k < |prefix| ensures IsDigit(prefix[k]) {
              assert prefix[k] == s[k];
            }
          }
        }
      } else {
        assert AllDigits(s);
      }
    }
  }

  /** Rust's `str::parse` for an unsigned integer type whose values are below
      `limit`: an optional leading `+`, then at least one ASCII digit and
      nothing else; a value that does not fit is an error (None). */
  function ParseUnsigned(s: string, limit: nat): (r: Option<nat>)
    ensures r.Some? ==> r.value < limit
  {
    ParseDigits(if |s| > 0 && s[0] == '+' then s[1..] else s, limit)
  }

  /** The text `ParseUnsigned` reads as digits: `s` without one leading `+`. */
  function UnsignedDigits(s: string): string {
    if |s| > 0 && s[0] == '+' then s[1..] else s
  }

  /** Reading an unsigned number succeeds exactly when what follows the
      optional `+` is a non-empty run of digits whose value is below the
      limit, and yields that value. */
  lemma ParseUnsignedValue(s: string, limit: nat)
    ensures ParseUnsigned(s, limit).Some? <==>
      UnsignedDigits(s) != [] && AllDigits(UnsignedDigits(s)) && DigitsValue(UnsignedDigits(s)) < limit
    ensures ParseUnsigned(s, limit).Some? ==> ParseUnsigned(s, limit).value == DigitsValue(UnsignedDigits(s))
  {
    ParseDigitsValue(UnsignedDigits(s), limit);
  }

  /** The decimal rendering of `n` (Rust's `to_string` on an unsigned integer). */
  function NatToDecimal(n: nat): (s: string)
    ensures |s| > 0 && AllDigits(s)
  {
    if n < 10 then [DigitChar(n)] else NatToDecimal(n / 10) + [DigitChar(n % 10)]
  }

  lemma {:induction false} DecimalValue(n: nat)
    ensures DigitsValue(NatToDecimal(n)) == n
  {
    if n >= 10 {
      var s := NatToDecimal(n);
      assert s[..|s| - 1] == NatToDecimal(n / 10);
      DecimalValue(n / 10);
    }
  }

  /** Parsing the decimal rendering of a representable number gives it back. */
  lemma ParseDecimalRoundTrip(n: nat, limit: nat)
    requires n < limit
    ensures ParseUnsigned(NatToDecimal(n), limit) == Some(n)
  {
    DecimalValue(n);
    ParseDigitsValue(NatToDecimal(n), limit);
  }

  /** Text that is no unsigned number whatever the limit: empty, a bare
      sign, a leading minus, or a non-digit anywhere but a leading `+`. */
  predicate NotUnsigned(s: string) {
    s == [] || s == "+" || (|s| > 0 && s[0] == '-')
    || (exists i :: 0 < i < |s| && !IsDigit(s[i]))
    || (|s| > 0 && s[0] != '+' && !IsDigit(s[0]))
  }

  /** The empty string, a bare sign, a minus sign and any non-digit are all
      rejected. */
  lemma ParseRejects(s: string, limit: nat)
    requires NotUnsigned(s)
    ensures ParseUnsigned(s, limit) == None
  {
    var d := UnsignedDigits(s);
    ParseDigitsValue(d, limit);
    if |s| > 0 && s[0] == '+' {
      if exists i :: 0 < i < |s| && !IsDigit(s[i]) {
        var i :| 0 < i < |s| && !IsDigit(s[i]);
        assert d[i - 1] == s[i];
      }
    }
  }
}
