/** Character classes and string operations the program takes from Rust's
    `str`/`char` API, written out for the ASCII-plus-whitespace fragment the
    model covers. Strings are sequences of characters; lower-casing folds only
    `A`-`Z`. */
module Text {
  import opened Outcomes

  /** `char::is_whitespace`: the Unicode White_Space code points. */
  predicate IsWhitespace(c: char) {
    var n := c as int;
    (0x09 <= n <= 0x0D) || n == 0x20 || n == 0x85 || n == 0xA0 || n == 0x1680
    || (0x2000 <= n <= 0x200A) || n == 0x2028 || n == 0x2029 || n == 0x202F
    || n == 0x205F || n == 0x3000
  }

  /** `char::is_control`: general category Cc. */
  predicate IsControl(c: char) {
    c as int <= 0x1F || (0x7F <= c as int <= 0x9F)
  }

  predicate IsAsciiDigit(c: char) {
    '0' <= c <= '9'
  }

  function LowerChar(c: char): (r: char)
    ensures 'A' <= c <= 'Z' ==> 'a' <= r <= 'z' && r as int - c as int == 32
    ensures !('A' <= c <= 'Z') ==> r == c
  {
    if 'A' <= c <= 'Z' then (c as int + 32) as char else c
  }

  /** `to_lowercase`, restricted to ASCII letters. */
  function Lower(s: string): (r: string)
    ensures |r| == |s|
    ensures forall i | 0 <= i < |s| :: r[i] == LowerChar(s[i])
  {
    seq(|s|, i requires 0 <= i < |s| => LowerChar(s[i]))
  }

  /** Lower-casing works character by character, so it splits over `+`. */
  lemma LowerAppend(s: string, t: string)
    ensures Lower(s + t) == Lower(s) + Lower(t)
  {
  }

  lemma LowerIdempotent(s: string)
    ensures Lower(Lower(s)) == Lower(s)
  {
  }

  /** `trim_start`: drops leading whitespace. */
  function TrimStart(s: string): (r: string)
    ensures |r| <= |s| && r == s[|s| - |r|..]
    ensures forall i | 0 <= i < |s| - |r| :: IsWhitespace(s[i])
    ensures |r| > 0 ==> !IsWhitespace(r[0])
    decreases |s|
  {
    if |s| > 0 && IsWhitespace(s[0]) then TrimStart(s[1..]) else s
  }

  /** `trim_end`: drops trailing whitespace. */
  function TrimEnd(s: string): (r: string)
    ensures |r| <= |s| && r == s[..|r|]
    ensures forall i | |r| <= i < |s| :: IsWhitespace(s[i])
    ensures |r| > 0 ==> !IsWhitespace(r[|r| - 1])
    decreases |s|
  {
    if |s| > 0 && IsWhitespace(s[|s| - 1]) then TrimEnd(s[..|s| - 1]) else s
  }

  /** `r` is the slice of `s` that starts at offset `a`, with only
      whitespace before it and after it. */
  predicate TrimmedAt(s: string, r: string, a: int) {
    && 0 <= a <= |s| - |r|
    && r == s[a..a + |r|]
    && (forall k | 0 <= k < a :: IsWhitespace(s[k]))
    && (forall k | a + |r| <= k < |s| :: IsWhitespace(s[k]))
  }

  /** `trim`: drops whitespace at both ends. The result is the slice of
      the input between a whitespace prefix and a whitespace suffix. */
  function Trim(s: string): (r: string)
    ensures |r| <= |s|
    ensures |r| > 0 ==> !IsWhitespace(r[0]) && !IsWhitespace(r[|r| - 1])
    ensures exists a :: TrimmedAt(s, r, a)
  {
    TrimSlice(s);
    TrimEnd(TrimStart(s))
  }

  /** Trimming the start then the end keeps the slice of the input that
      begins where the leading whitespace ends. */
  lemma TrimSlice(s: string)
    ensures TrimmedAt(s, TrimEnd(TrimStart(s)), |s| - |TrimStart(s)|)
  {
    SuffixPrefixSlice(s, TrimStart(s), TrimEnd(TrimStart(s)));
  }

  /** A prefix `r` of a suffix `t` of `s` is a slice of `s`; whitespace
      dropped from either end of `t`'s way is whitespace of `s`. */
  lemma SuffixPrefixSlice(s: string, t: string, r: string)
    requires |t| <= |s| && t == s[|s| - |t|..]
    requires forall i | 0 <= i < |s| - |t| :: IsWhitespace(s[i])
    requires |r| <= |t| && r == t[..|r|]
    requires forall i | |r| <= i < |t| :: IsWhitespace(t[i])
    ensures TrimmedAt(s, r, |s| - |t|)
  {
    var a := |s| - |t|;
    assert r == s[a..a + |r|];
    forall k | a + |r| <= k < |s|
      ensures IsWhitespace(s[k])
    {
      assert s[k] == t[k - a];
    }
  }

  /** `s.trim().is_empty()`. */
  predicate IsBlank(s: string) {
    Trim(s) == []
  }

  /** A string is blank exactly when every character in it is whitespace. */
  lemma BlankIffAllWhitespace(s: string)
    ensures IsBlank(s) <==> forall i | 0 <= i < |s| :: IsWhitespace(s[i])
  {
    var t := TrimStart(s);
    if !forall i | 0 <= i < |s| :: IsWhitespace(s[i]) {
      var i :| 0 <= i < |s| && !IsWhitespace(s[i]);
      assert |t| > 0 && t[0] == s[|s| - |t|];
      assert !IsWhitespace(t[0]);
    }
  }

  predicate StartsWith(s: string, prefix: string) {
    |prefix| <= |s| && s[..|prefix|] == prefix
  }

  /** `str::ends_with` with a string pattern. */
  predicate EndsWith(s: string, suffix: string) {
    |suffix| <= |s| && s[|s| - |suffix|..] == suffix
  }

  /** A suffix no longer than the appended part is decided by that part. */
  lemma EndsWithAppend(s: string, t: string, suffix: string)
    requires |suffix| <= |t|
    ensures EndsWith(s + t, suffix) <==> EndsWith(t, suffix)
  {
    assert (s + t)[|s + t| - |suffix|..] == t[|t| - |suffix|..];
  }

  /** `str::contains` with a string pattern. */
  predicate Contains(s: string, needle: string) {
    exists i | 0 <= i <= |s| - |needle| :: StartsWith(s[i..], needle)
  }

  lemma ContainsEmpty(s: string)
    ensures Contains(s, "")
  {
    assert StartsWith(s[0..], "");
  }

  /** `" ".repeat(n)` and friends. */
  function Repeat(c: char, n: nat): (r: string)
    ensures |r| == n
    ensures forall i | 0 <= i < n :: r[i] == c
  {
    seq(n, _ => c)
  }

  function DigitChar(d: nat): (c: char)
    requires d < 10
    ensures IsAsciiDigit(c) && c as int - '0' as int == d
  {
    ('0' as int + d) as char
  }

  /** Decimal rendering of a natural number, no leading zeros. */
  function NatToString(n: nat): (r: string)
    ensures |r| > 0
    ensures forall i | 0 <= i < |r| :: IsAsciiDigit(r[i])
    ensures |r| > 1 ==> r[0] != '0'
    decreases n
  {
    if n < 10 then [DigitChar(n)] else NatToString(n / 10) + [DigitChar(n % 10)]
  }

  /** `i64::to_string`. */
  function IntToString(n: int): (r: string)
    ensures |r| > 0
    ensures n >= 0 <==> IsAsciiDigit(r[0])
  {
    if n < 0 then "-" + NatToString(-n) else NatToString(n)
  }

  /** Trimming keeps a string that starts and ends with a non-space. */
  lemma TrimUnpadded(s: string)
    requires |s| > 0 && !IsWhitespace(s[0]) && !IsWhitespace(s[|s| - 1])
    ensures Trim(s) == s
  {
    assert TrimStart(s) == s;
  }

  /** A rendered integer has no surrounding whitespace, so trimming keeps it. */
  lemma TrimIntToString(n: int)
    ensures Trim(IntToString(n)) == IntToString(n)
  {
    var r := IntToString(n);
    var digits := NatToString(if n < 0 then -n else n);
    assert r[|r| - 1] == digits[|digits| - 1];
    assert IsAsciiDigit(r[|r| - 1]);
    assert r[0] == '-' || IsAsciiDigit(r[0]);
    TrimUnpadded(r);
  }

  /** `format!("{:02}", n)`: the decimal rendering, padded with a zero to
      a width of two. The sign counts toward the width, so only `0`..`9`
      gain a zero and `-5` stays `-5`. */
  function Pad2(n: int): (r: string)
    ensures |r| >= 2
    ensures |IntToString(n)| >= 2 ==> r == IntToString(n)
    ensures |IntToString(n)| < 2 ==> r == "0" + IntToString(n)
  {
    if 0 <= n < 10 then "0" + NatToString(n) else IntToString(n)
  }

  // ---------------------------------------------------------------------
  // `str::parse::<i64>`
  // ---------------------------------------------------------------------

  const I64_MIN: int := -0x8000_0000_0000_0000
  const I64_MAX: int := 0x7FFF_FFFF_FFFF_FFFF

  const MSG_EMPTY := "cannot parse integer from empty string"
  const MSG_INVALID := "invalid digit found in string"
  const MSG_POS_OVERFLOW := "number too large to fit in target type"
  const MSG_NEG_OVERFLOW := "number too small to fit in target type"

  /** Accumulates the digits `s[i..]` onto `acc` the way the standard
      library does: one checked multiply-add per digit, stopping at the
      first non-digit or the first overflow. `negative` accumulates
      downwards from zero. */
  function ParseDigits(s: string, i: nat, acc: int, negative: bool): Result<int>
    requires i <= |s|
    decreases |s| - i
  {
    if i == |s| then Ok(acc)
    else if !IsAsciiDigit(s[i]) then Err(Fail(MSG_INVALID))
    else
      var d := s[i] as int - '0' as int;
      var next := if negative then acc * 10 - d else acc * 10 + d;
      if next > I64_MAX then Err(Fail(MSG_POS_OVERFLOW))
      else if next < I64_MIN then Err(Fail(MSG_NEG_OVERFLOW))
      else ParseDigits(s, i + 1, next, negative)
  }

  /** `s.parse::<i64>()`: an optional `+` or `-` followed by at least one
      decimal digit, within the 64-bit range. */
  function ParseI64(s: string): Result<int> {
    if |s| == 0 then Err(Fail(MSG_EMPTY))
    else if (s[0] == '+' || s[0] == '-') && |s| == 1 then Err(Fail(MSG_INVALID))
    else if s[0] == '+' then ParseDigits(s, 1, 0, false)
    else if s[0] == '-' then ParseDigits(s, 1, 0, true)
    else ParseDigits(s, 0, 0, false)
  }

  function DigitValue(c: char): (d: nat)
    requires IsAsciiDigit(c)
    ensures d < 10
  {
    c as int - '0' as int
  }

  /** Left-to-right decimal value of `t` appended to the digits already
      read into `acc`. */
  function Fold(acc: nat, t: string): nat
    requires forall k | 0 <= k < |t| :: IsAsciiDigit(t[k])
    decreases |t|
  {
    if |t| == 0 then acc else Fold(acc * 10 + DigitValue(t[0]), t[1..])
  }

  lemma {:induction false} FoldGrows(acc: nat, t: string)
    requires forall k | 0 <= k < |t| :: IsAsciiDigit(t[k])
    ensures Fold(acc, t) >= acc
    decreases |t|
  {
    if |t| > 0 {
      FoldGrows(acc * 10 + DigitValue(t[0]), t[1..]);
    }
  }

  lemma {:induction false} FoldSnoc(acc: nat, t: string, c: char)
    requires forall k | 0 <= k < |t| :: IsAsciiDigit(t[k])
    requires IsAsciiDigit(c)
    ensures Fold(acc, t + [c]) == Fold(acc, t) * 10 + DigitValue(c)
    decreases |t|
  {
    if |t| == 0 {
      assert ([] + [c])[1..] == [];
    } else {
      assert (t + [c])[1..] == t[1..] + [c];
      FoldSnoc(acc * 10 + DigitValue(t[0]), t[1..], c);
    }
  }

  /** `NatToString` is read back by the digit fold. */
  lemma {:induction false} FoldNatToString(n: nat)
    ensures Fold(0, NatToString(n)) == n
    decreases n
  {
    if n < 10 {
      assert [DigitChar(n)][1..] == [];
    } else {
      FoldNatToString(n / 10);
      FoldSnoc(0, NatToString(n / 10), DigitChar(n % 10));
    }
  }

  lemma {:induction false} ParseDigitsOfDigits(s: string, i: nat, acc: int, negative: bool)
    requires i <= |s|
    requires forall k | i <= k < |s| :: IsAsciiDigit(s[k])
    requires if negative then acc <= 0 else acc >= 0
    requires negative ==> Fold(-acc, s[i..]) <= -I64_MIN
    requires !negative ==> Fold(acc, s[i..]) <= I64_MAX
    ensures negative ==> ParseDigits(s, i, acc, negative) == Ok(-(Fold(-acc, s[i..]) as int))
    ensures !negative ==> ParseDigits(s, i, acc, negative) == Ok(Fold(acc, s[i..]))
    decreases |s| - i
  {
    if i < |s| {
      var d := DigitValue(s[i]);
      var m: nat := if negative then -acc else acc;
      var m' := m * 10 + d;
      assert s[i..][1..] == s[i + 1..];
      assert Fold(m, s[i..]) == Fold(m', s[i + 1..]);
      FoldGrows(m', s[i + 1..]);
      var next := if negative then acc * 10 - d else acc * 10 + d;
      ParseDigitsOfDigits(s, i + 1, next, negative);
    }
  }

  /** Rendering a 64-bit integer and parsing it back yields the integer. */
  lemma ParseIntToString(n: int)
    requires I64_MIN <= n <= I64_MAX
    ensures ParseI64(IntToString(n)) == Ok(n)
  {
    var digits := NatToString(if n < 0 then -n else n);
    FoldNatToString(if n < 0 then -n else n);
    if n < 0 {
      var s := "-" + digits;
      assert s[1..] == digits;
      ParseDigitsOfDigits(s, 1, 0, true);
    } else {
      assert digits[0..] == digits;
      ParseDigitsOfDigits(digits, 0, 0, false);
    }
  }

  /** A padded number reads back as the number: the leading zero that
      `{:02}` may add does not change its value. */
  lemma Pad2RoundTrip(n: int)
    requires I64_MIN <= n <= I64_MAX
    ensures ParseI64(Pad2(n)) == Ok(n)
  {
    if 0 <= n < 10 {
      var r := Pad2(n);
      assert r == ['0', DigitChar(n)];
      assert ParseDigits(r, 2, n, false) == Ok(n);
      assert ParseDigits(r, 1, 0, false) == Ok(n);
    } else {
      ParseIntToString(n);
    }
  }
}
