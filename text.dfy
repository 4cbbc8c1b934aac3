/**
 * The Kotlin standard-library string operations the app relies on, over
 * `string` (a sequence of Unicode scalar values).
 */
module Text {
  import opened Optional

  /** Kotlin's `Char.isWhitespace()` on the JVM: `Character.isWhitespace` or `Character.isSpaceChar`. */
  predicate IsWhitespace(c: char) {
    c == ' ' || '\t' <= c <= '\r' || '\U{1C}' <= c <= '\U{1F}' || c == '\U{A0}' || c == '\U{1680}'
    || '\U{2000}' <= c <= '\U{200A}' || c == '\U{2028}' || c == '\U{2029}' || c == '\U{202F}'
    || c == '\U{205F}' || c == '\U{3000}'
  }

  /** Kotlin's `isBlank()`: empty or whitespace only. */
  predicate IsBlank(s: string) {
    forall i :: 0 <= i < |s| ==> IsWhitespace(s[i])
  }

  /** The first index from `i` on that is not whitespace, or the length. */
  function SkipWhitespace(s: string, i: nat): (k: nat)
    requires i <= |s|
    ensures i <= k <= |s|
    ensures forall j :: i <= j < k ==> IsWhitespace(s[j])
    ensures k < |s| ==> !IsWhitespace(s[k])
    decreases |s| - i
  {
    if i == |s| || !IsWhitespace(s[i]) then i else SkipWhitespace(s, i + 1)
  }

  /** The end of the text before `j` once its trailing whitespace is dropped. */
  function SkipWhitespaceBack(s: string, j: nat): (k: nat)
    requires j <= |s|
    ensures k <= j
    ensures forall m :: k <= m < j ==> IsWhitespace(s[m])
    ensures k > 0 ==> !IsWhitespace(s[k - 1])
    decreases j
  {
    if j == 0 || !IsWhitespace(s[j - 1]) then j else SkipWhitespaceBack(s, j - 1)
  }

  /** Leading whitespace removed: the longest blank prefix goes. */
  function TrimStart(s: string): (r: string)
    ensures |r| <= |s| && r == s[|s| - |r|..]
    ensures forall i :: 0 <= i < |s| - |r| ==> IsWhitespace(s[i])
    ensures r == [] || !IsWhitespace(r[0])
  {
    var k := SkipWhitespace(s, 0);
    assert k < |s| ==> s[k..][0] == s[k];
    s[k..]
  }

  /** Trailing whitespace removed: the longest blank suffix goes. */
  function TrimEnd(s: string): (r: string)
    ensures |r| <= |s| && r == s[..|r|]
    ensures forall i :: |r| <= i < |s| ==> IsWhitespace(s[i])
    ensures r == [] || !IsWhitespace(r[|r| - 1])
  {
    var k := SkipWhitespaceBack(s, |s|);
    assert k > 0 ==> s[..k][k - 1] == s[k - 1];
    s[..k]
  }

  /** Kotlin's `trim()`. */
  function Trim(s: string): (r: string)
    ensures |r| <= |s|
    ensures r == [] || (!IsWhitespace(r[0]) && !IsWhitespace(r[|r| - 1]))
    ensures r == [] <==> IsBlank(s)
  {
    var t := TrimStart(s);
    var r := TrimEnd(t);
    assert r == [] ==> IsBlank(s) by {
      var d := |s| - |t|;
      assert forall i :: d <= i < |s| ==> s[i] == t[i - d];
    }
    BlankTrimsToEmpty(s);
    r
  }

  lemma BlankTrimsToEmpty(s: string)
    ensures IsBlank(s) ==> TrimStart(s) == []
  {
  }

  /** Trimming twice is trimming once. */
  lemma TrimIdempotent(s: string)
    ensures Trim(Trim(s)) == Trim(s)
  {
    var r := Trim(s);
    if r != [] {
      assert !IsWhitespace(r[0]) && !IsWhitespace(r[|r| - 1]);
      assert TrimStart(r) == r;
      assert TrimEnd(r) == r;
    }
    assert Trim(r) == TrimEnd(TrimStart(r));
  }

  predicate StartsWith(s: string, prefix: string) {
    |prefix| <= |s| && s[..|prefix|] == prefix
  }

  predicate EndsWith(s: string, suffix: string) {
    |suffix| <= |s| && s[|s| - |suffix|..] == suffix
  }

  /** Kotlin's `removeSuffix(suffix)`: the suffix is cut once, if present. */
  function RemoveSuffix(s: string, suffix: string): (r: string)
    ensures EndsWith(s, suffix) ==> r + suffix == s
    ensures !EndsWith(s, suffix) ==> r == s
  {
    if EndsWith(s, suffix) then s[..|s| - |suffix|] else s
  }

  /** Kotlin's `contains(other)`: `other` occurs somewhere in `s`. */
  predicate Contains(s: string, other: string)
    decreases |s|
  {
    StartsWith(s, other) || (s != [] && Contains(s[1..], other))
  }

  /** An occurrence at `k` is an occurrence. */
  lemma {:induction false} ContainsAt(s: string, other: string, k: nat)
    requires k <= |s| && StartsWith(s[k..], other)
    ensures Contains(s, other)
    decreases k
  {
    if k > 0 {
      assert s[1..][k - 1..] == s[k..];
      ContainsAt(s[1..], other, k - 1);
    }
  }

  predicate IsAsciiUpper(c: char) { 'A' <= c <= 'Z' }
  predicate IsAsciiLower(c: char) { 'a' <= c <= 'z' }

  function ToLowerAscii(c: char): (r: char)
    ensures !IsAsciiUpper(r)
    ensures !IsAsciiUpper(c) ==> r == c
  {
    if IsAsciiUpper(c) then (c as int + 32) as char else c
  }

  function LowercaseAscii(s: string): (r: string)
    ensures |r| == |s|
    ensures forall i :: 0 <= i < |s| ==> r[i] == ToLowerAscii(s[i])
  {
    seq(|s|, i requires 0 <= i < |s| => ToLowerAscii(s[i]))
  }

  /**
   * Kotlin's `Char.equals(other, ignoreCase = true)` when `other` is ASCII:
   * equal up to ASCII case, or one of the non-ASCII letters whose upper- or
   * lower-case form is an ASCII letter (dotted and dotless i, long s, Kelvin sign).
   */
  predicate EqualsIgnoreCase(c: char, other: char) {
    c == other
    || ToLowerAscii(c) == ToLowerAscii(other)
    || ((other == 'i' || other == 'I') && (c == '\U{130}' || c == '\U{131}'))
    || ((other == 's' || other == 'S') && c == '\U{17F}')
    || ((other == 'k' || other == 'K') && c == '\U{212A}')
  }

  predicate StartsWithIgnoreCase(s: string, prefix: string) {
    |prefix| <= |s| && forall i :: 0 <= i < |prefix| ==> EqualsIgnoreCase(s[i], prefix[i])
  }

  /** Kotlin's `contains(other, ignoreCase = true)`. */
  predicate ContainsIgnoreCase(s: string, other: string)
    decreases |s|
  {
    StartsWithIgnoreCase(s, other) || (s != [] && ContainsIgnoreCase(s[1..], other))
  }

  /** How many UTF-16 code units a character takes: two outside the Basic Multilingual Plane. */
  function Utf16Units(c: char): (n: nat)
    ensures n == 1 <==> c as int < 0x1_0000
    ensures n == 1 || n == 2
  {
    if c as int < 0x1_0000 then 1 else 2
  }

  /** The length of a string as Kotlin counts it, in UTF-16 code units. */
  function Utf16Length(s: string): (n: nat)
    ensures |s| <= n <= 2 * |s|
  {
    if s == [] then 0 else Utf16Units(s[0]) + Utf16Length(s[1..])
  }

  /**
   * Kotlin's `take(n)` on the characters of `s`: the longest prefix of whole
   * characters that fits in `n` UTF-16 code units.
   */
  function TakeUnits(s: string, n: nat): (r: string)
    ensures |r| <= |s| && r == s[..|r|]
    ensures Utf16Length(r) <= n
    ensures |r| < |s| ==> Utf16Length(r) + Utf16Units(s[|r|]) > n
    ensures Utf16Length(s) <= n ==> r == s
    decreases |s|
  {
    if s == [] || Utf16Units(s[0]) > n then []
    else
      var rest := TakeUnits(s[1..], n - Utf16Units(s[0]));
      var r := [s[0]] + rest;
      assert r[0] == s[0] && r[1..] == rest;
      assert |r| < |s| ==> s[|r|] == s[1..][|rest|];
      assert s == [s[0]] + s[1..];
      r
  }

  /** Within the Basic Multilingual Plane a code unit is a character, so the cut keeps the first `n` characters. */
  lemma {:induction false} TakeUnitsInBmp(s: string, n: nat)
    requires forall i :: 0 <= i < |s| ==> s[i] as int < 0x1_0000
    ensures TakeUnits(s, n) == if |s| <= n then s else s[..n]
    decreases |s|
  {
    if s != [] {
      assert Utf16Units(s[0]) == 1;
      if n > 0 {
        var t := s[1..];
        assert forall i :: 0 <= i < |t| ==> t[i] == s[i + 1];
        TakeUnitsInBmp(t, n - 1);
        assert TakeUnits(s, n) == [s[0]] + TakeUnits(t, n - 1);
        if |s| <= n {
          assert s == [s[0]] + t;
        } else {
          assert s[..n] == [s[0]] + t[..n - 1];
        }
      }
    }
  }

  predicate IsDigit(c: char) { '0' <= c <= '9' }

  predicate AllDigits(s: string) {
    forall i :: 0 <= i < |s| ==> IsDigit(s[i])
  }

  function DigitChar(d: nat): (c: char)
    requires d < 10
    ensures IsDigit(c)
  {
    ('0' as int + d) as char
  }

  function NatToString(n: nat): (r: string)
    ensures r != [] && AllDigits(r)
  {
    if n < 10 then [DigitChar(n)] else NatToString(n / 10) + [DigitChar(n % 10)]
  }

  /** Kotlin's `Int.toString()`, as string templates print an integer. */
  function IntToString(n: int): string {
    if n < 0 then "-" + NatToString(-n) else NatToString(n)
  }

  /** How a string template prints a nullable string: `null` prints as "null". */
  function Interp(s: Option<string>): string {
    s.GetOr("null")
  }

  /** Kotlin's `joinToString(separator)`. */
  function Join(parts: seq<string>, separator: string): (r: string)
    ensures parts == [] ==> r == []
    ensures |parts| == 1 ==> r == parts[0]
  {
    if parts == [] then []
    else if |parts| == 1 then parts[0]
    else parts[0] + separator + Join(parts[1..], separator)
  }
}
