/**
 * The parts of the Java standard library the task entity relies on:
 * `String.trim`, `Long.parseLong` and `String.hashCode`, stated over
 * Dafny strings (one `char` per Java character).
 */
module JavaLang {
  import opened Wrappers

  /** `trim().isEmpty()` in specification form: every character is at most U+0020. */
  predicate IsBlank(s: string) {
    forall i :: 0 <= i < |s| ==> s[i] <= ' '
  }

  /** Drops the leading characters that are at most U+0020. */
  function TrimStart(s: string): (r: string)
    ensures |r| <= |s|
    ensures forall i :: 0 <= i < |s| - |r| ==> s[i] <= ' '
    ensures r == [] || r[0] > ' '
    ensures r == [] <==> IsBlank(s)
    ensures r != [] ==> r[|r| - 1] == s[|s| - 1]
  {
    if |s| > 0 && s[0] <= ' ' then TrimStart(s[1..]) else s
  }

  /** Drops the trailing characters that are at most U+0020. */
  function TrimEnd(s: string): (r: string)
    ensures |r| <= |s|
    ensures forall i :: |r| <= i < |s| ==> s[i] <= ' '
    ensures r == [] || r[|r| - 1] > ' '
    ensures r == [] <==> IsBlank(s)
    ensures r != [] ==> r[0] == s[0]
  {
    if |s| > 0 && s[|s| - 1] <= ' ' then TrimEnd(s[..|s| - 1]) else s
  }

  /** `String.trim`: removes every leading and trailing character at most U+0020. */
  function Trim(s: string): (r: string)
    ensures r == [] <==> IsBlank(s)
    ensures r != [] ==> r[0] > ' ' && r[|r| - 1] > ' '
    ensures |r| <= |s|
  {
    TrimEnd(TrimStart(s))
  }

  const MinLong: int := -0x8000_0000_0000_0000
  const MaxLong: int := 0x7FFF_FFFF_FFFF_FFFF

  predicate IsDigit(c: char) {
    '0' <= c <= '9'
  }

  predicate AllDigits(s: string) {
    forall i :: 0 <= i < |s| ==> IsDigit(s[i])
  }

  /** The value of a string of ASCII decimal digits, most significant first. */
  function DigitsValue(s: string): nat
    requires AllDigits(s)
  {
    if s == [] then 0
    else 10 * DigitsValue(s[..|s| - 1]) + (s[|s| - 1] as int - '0' as int)
  }

  /**
   * `Long.parseLong(s)` with radix 10: an optional `+` or `-`, then one or more
   * digits, and a value that fits a signed 64-bit integer. `None` stands for
   * the `NumberFormatException`, which is also what a `null` argument gets.
   */
  function ParseLong(s: Option<string>): (r: Option<int>)
    ensures r.Some? ==> MinLong <= r.value <= MaxLong
  {
    if s.None? || |s.value| == 0 then None
    else
      var str := s.value;
      var digits := if str[0] == '-' || str[0] == '+' then str[1..] else str;
      if |digits| == 0 || !AllDigits(digits) then None
      else
        var n: int := DigitsValue(digits);
        var v := if str[0] == '-' then -n else n;
        if MinLong <= v <= MaxLong then Some(v) else None
  }

  /** A string that parses holds no character at most U+0020, so `" 12"` does not parse. */
  lemma ParsedHasNoSpace(s: string)
    requires ParseLong(Some(s)).Some?
    ensures forall i :: 0 <= i < |s| ==> s[i] > ' '
    ensures |s| > 0 && s[0] > ' '
  {

  }

  lemma {:induction false} DigitsValueBound(s: string)
    requires AllDigits(s)
    ensures DigitsValue(s) < Pow10(|s|)
  {
    if s != [] {
      DigitsValueBound(s[..|s| - 1]);
    }
  }

  function Pow10(n: nat): (r: nat)
    ensures r > 0
  {
    if n == 0 then 1 else 10 * Pow10(n - 1)
  }

  /** Any unsigned string of one to eighteen digits is a valid `long` (10^18 < 2^63). */
  lemma ShortDigitsParse(s: string)
    requires 0 < |s| <= 18 && AllDigits(s)
    ensures ParseLong(Some(s)) == Some(DigitsValue(s))
  {
    DigitsValueBound(s);
    Pow10Monotone(|s|, 18);
    assert Pow10(6) == 1_000_000;
    assert Pow10(12) == 1_000_000_000_000;
    assert Pow10(18) == 1_000_000_000_000_000_000;
  }

  lemma {:induction false} Pow10Monotone(a: nat, b: nat)
    requires a <= b
    ensures Pow10(a) <= Pow10(b)
  {
    if a < b {
      Pow10Monotone(a, b - 1);
    }
  }

  /** A string whose first character is above U+0020 is not blank. */
  lemma NotBlankByFirst(s: string)
    requires |s| > 0 && s[0] > ' '
    ensures !IsBlank(s)
  {
  }

  /** The decimal digits of `n`, with no leading zero (`Long.toString` of a non-negative value). */
  function NatToDigits(n: nat): (r: string)
    ensures |r| > 0
  {
    if n < 10 then [('0' as int + n) as char]
    else NatToDigits(n / 10) + [('0' as int + n % 10) as char]
  }

  /** `Long.toString(v)`: the canonical decimal form. */
  function LongToString(v: int): string {
    if v < 0 then "-" + NatToDigits(-v) else NatToDigits(v)
  }

  lemma {:induction false} NatToDigitsValue(n: nat)
    ensures AllDigits(NatToDigits(n))
    ensures DigitsValue(NatToDigits(n)) == n
  {
    var r := NatToDigits(n);
    if n >= 10 {
      NatToDigitsValue(n / 10);
      assert r[..|r| - 1] == NatToDigits(n / 10);
    }
  }

  /** Every 64-bit value, written in canonical decimal form, parses back to itself. */
  lemma ParseLongToString(v: int)
    requires MinLong <= v <= MaxLong
    ensures ParseLong(Some(LongToString(v))) == Some(v)
  {
    if v < 0 {
      NatToDigitsValue(-v);
      assert LongToString(v)[1..] == NatToDigits(-v);
    } else {
      NatToDigitsValue(v);
    }
  }

  /**
   * Outside [-2^63, 2^63-1] the canonical decimal form does not parse: in particular
   * 2^63 = MaxLong + 1 and -2^63 - 1 = MinLong - 1, the values one past each end.
   */
  lemma ParseLongOutOfRange(v: int)
    requires v < MinLong || MaxLong < v
    ensures ParseLong(Some(LongToString(v))) == None
  {
    if v < 0 {
      NatToDigitsValue(-v);
      assert LongToString(v)[1..] == NatToDigits(-v);
    } else {
      NatToDigitsValue(v);
    }
  }

  /** The width boundary: the two ends parse, the values one past them do not. */
  lemma ParseLongBoundary()
    ensures ParseLong(Some(LongToString(MaxLong))) == Some(MaxLong)
    ensures ParseLong(Some(LongToString(MinLong))) == Some(MinLong)
    ensures ParseLong(Some(LongToString(MaxLong + 1))) == None
    ensures ParseLong(Some(LongToString(MinLong - 1))) == None
  {
    ParseLongToString(MaxLong);
    ParseLongToString(MinLong);
    ParseLongOutOfRange(MaxLong + 1);
    ParseLongOutOfRange(MinLong - 1);
  }

  /** `Long.parseLong` accepts non-canonical forms: a leading `+` and leading zeros. */
  lemma ParseLongNonCanonical()
    ensures ParseLong(Some("+1")) == Some(1)
    ensures ParseLong(Some("007")) == Some(7)
    ensures ParseLong(Some("-0")) == Some(0)
  {
    assert "+1"[1..] == "1" && "1"[..0] == [];
    assert "-0"[1..] == "0";
    assert "007"[..2] == "00" && "00"[..1] == "0";
  }

  /** Strings a 64-bit parse rejects: a surrounding space, no digits, a lone sign, a letter, null. */
  lemma ParseLongRejects()
    ensures ParseLong(Some(" 12")) == None
    ensures ParseLong(Some("12 ")) == None
    ensures ParseLong(Some("")) == None
    ensures ParseLong(Some("-")) == None
    ensures ParseLong(Some("abc")) == None
    ensures ParseLong(None) == None
  {
  }

  const TwoTo32: int := 0x1_0000_0000

  /** Java `int` arithmetic: reduce modulo 2^32 into [-2^31, 2^31). */
  function WrapInt(x: int): (r: int)
    ensures -0x8000_0000 <= r < 0x8000_0000
    ensures (r - x) % TwoTo32 == 0
  {
    var m := x % TwoTo32;
    if m >= 0x8000_0000 then m - TwoTo32 else m
  }

  /** `String.hashCode`: s[0]*31^(n-1) + ... + s[n-1], in wrapping `int` arithmetic. */
  function StringHash(s: string): (r: int)
    ensures -0x8000_0000 <= r < 0x8000_0000
    ensures s == [] ==> r == 0
  {
    if s == [] then 0 else WrapInt(31 * StringHash(s[..|s| - 1]) + s[|s| - 1] as int)
  }

  /** `"100".hashCode()` is '1' * 31^2 + '0' * 31 + '0' = 49 * 961 + 48 * 31 + 48. */
  lemma StringHashExample()
    ensures StringHash("100") == 48625
  {
    assert "100"[..2] == "10" && "10"[..1] == "1" && "1"[..0] == [];
    WrapIntInRange(49);
    assert StringHash("1") == 49;
    WrapIntInRange(31 * 49 + 48);
    assert StringHash("10") == 1567;
    WrapIntInRange(31 * 1567 + 48);
  }

  /** Wrapping leaves a value already in `int` range unchanged. */
  lemma WrapIntInRange(x: int)
    requires -0x8000_0000 <= x < 0x8000_0000
    ensures WrapInt(x) == x
  {
  }
}
