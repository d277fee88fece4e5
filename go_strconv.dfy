/**
 * The parts of Go's `strconv` package that the mount parser relies on
 * (`ParseBool`, `Atoi`) and the `uint64(...)` conversion it applies to
 * the parsed numbers. Go's `int` is taken to be 64 bits wide.
 */
module GoStrconv {
  import opened Wrappers
  import opened GoInts

  const TrueSpellings: set<string> := {"1", "t", "T", "TRUE", "true", "True"}
  const FalseSpellings: set<string> := {"0", "f", "F", "FALSE", "false", "False"}

  /** `strconv.ParseBool`: exactly twelve spellings are accepted, anything else is a syntax error. */
  function ParseBool(s: string): (r: Option<bool>)
    ensures r == Some(true) <==> s in TrueSpellings
    ensures r == Some(false) <==> s in FalseSpellings
    ensures r == None <==> s !in TrueSpellings + FalseSpellings
  {
    if s == "1" || s == "t" || s == "T" || s == "true" || s == "TRUE" || s == "True" then Some(true)
    else if s == "0" || s == "f" || s == "F" || s == "false" || s == "FALSE" || s == "False" then Some(false)
    else None
  }

  predicate IsDigit(c: char) {
    '0' <= c <= '9'
  }

  predicate AllDigits(s: string) {
    forall i :: 0 <= i < |s| ==> IsDigit(s[i])
  }

  /** The number a non-empty run of decimal digits denotes, most significant first. */
  function DecimalValue(digits: string): nat
    requires AllDigits(digits)
  {
    if |digits| == 0 then 0
    else DecimalValue(digits[..|digits| - 1]) * 10 + (digits[|digits| - 1] as int - '0' as int)
  }

  /**
   * `strconv.Atoi` on a 64-bit platform: an optional `+` or `-`, then at least one
   * decimal digit, denoting a value that fits in 64 signed bits.
   */
  function Atoi(s: string): (r: Option<int64>)
    ensures r.Some? ==> |s| > 0 && (IsDigit(s[0]) || s[0] == '+' || s[0] == '-')
    ensures r.Some? ==> forall i :: 0 < i < |s| ==> IsDigit(s[i])
    ensures r.Some? ==> IsDigit(s[|s| - 1])
    ensures r.Some? && s[0] == '-' ==> r.value <= 0
    ensures r.Some? && s[0] != '-' ==> r.value >= 0
  {
    var signed := |s| > 0 && (s[0] == '+' || s[0] == '-');
    var digits := if signed then s[1..] else s;
    if |digits| == 0 || !AllDigits(digits) then None
    else
      var n: int := if |s| > 0 && s[0] == '-' then -(DecimalValue(digits) as int) else DecimalValue(digits);
      if -0x8000_0000_0000_0000 <= n < 0x8000_0000_0000_0000 then Some(n as int64) else None
  }

  /** Decimal digits of `n` with no leading zero: the reference formatting (`strconv.Itoa`) that Atoi inverts. */
  function FormatDecimal(n: nat): (digits: string)
    ensures |digits| > 0 && AllDigits(digits)
  {
    var last := [('0' as int + n % 10) as char];
    if n < 10 then last else FormatDecimal(n / 10) + last
  }

  function Itoa(n: int64): string {
    if n < 0 then "-" + FormatDecimal(-(n as int)) else FormatDecimal(n as int)
  }

  lemma {:induction false} DecimalValueOfFormat(n: nat)
    ensures DecimalValue(FormatDecimal(n)) == n
  {
    var digits := FormatDecimal(n);
    if n >= 10 {
      DecimalValueOfFormat(n / 10);
      assert digits[..|digits| - 1] == FormatDecimal(n / 10);
    }
  }

  /** Every 64-bit integer written in decimal, negative ones included, is read back by Atoi unchanged. */
  lemma AtoiItoa(n: int64)
    ensures Atoi(Itoa(n)) == Some(n)
  {
    var s := Itoa(n);
    if n < 0 {
      DecimalValueOfFormat(-(n as int));
      assert s[1..] == FormatDecimal(-(n as int));
    } else {
      DecimalValueOfFormat(n as int);
    }
  }

  /** The Go conversion `uint64(x)` of a signed value: reinterpretation modulo 2^64. */
  function ToUint64(x: int64): (r: uint64)
    ensures (r as int - x as int) % TwoTo64 == 0
    ensures x >= 0 ==> r as int == x as int
  {
    if x < 0 then (x as int + TwoTo64) as uint64 else x as int as uint64
  }
}
