/** String utilities shared by both services: the .NET notion of white space,
    String.Trim, invariant lower-casing of ASCII letters and decimal rendering
    of integers. */
module Text {

  /** `Char.IsWhiteSpace` of .NET: the Unicode separators (Zs, Zl, Zp), the
      control characters U+0009 to U+000D, U+0085 and U+00A0. */
  predicate IsWhiteSpace(c: char) {
    || ('\U{9}' <= c <= '\U{D}')
    || c == ' '
    || c == '\U{85}'
    || c == '\U{A0}'
    || c == '\U{1680}'
    || ('\U{2000}' <= c <= '\U{200A}')
    || c == '\U{2028}'
    || c == '\U{2029}'
    || c == '\U{202F}'
    || c == '\U{205F}'
    || c == '\U{3000}'
  }

  /** Every character of `s` at an index in [lo, hi) is white space. */
  predicate WhiteSpaceBetween(s: string, lo: int, hi: int) {
    forall i :: lo <= i < hi && 0 <= i < |s| ==> IsWhiteSpace(s[i])
  }

  /** `String.IsNullOrWhiteSpace` for a non-null string: empty or white space only. */
  predicate AllWhiteSpace(s: string) {
    WhiteSpaceBetween(s, 0, |s|)
  }

  /** `IsNullOrWhiteSpace` holds exactly when every character of the string is
      white space, the empty string included. */
  lemma {:induction false} AllWhiteSpaceMeans(s: string)
    ensures AllWhiteSpace(s) <==> forall c :: c in s ==> IsWhiteSpace(c)
  {
    if AllWhiteSpace(s) {
      forall c | c in s ensures IsWhiteSpace(c) {
        var k :| 0 <= k < |s| && s[k] == c;
      }
    }
  }

  /** The first index at or after `i` that does not hold white space (or |s|). */
  function SkipLeading(s: string, i: nat): (k: nat)
    requires i <= |s|
    ensures i <= k <= |s| && WhiteSpaceBetween(s, i, k)
    ensures k == |s| || !IsWhiteSpace(s[k])
    decreases |s| - i
  {
    if i == |s| || !IsWhiteSpace(s[i]) then i else SkipLeading(s, i + 1)
  }

  /** The end of `s[lo..j]` once its trailing white space is dropped. */
  function SkipTrailing(s: string, lo: nat, j: nat): (k: nat)
    requires lo <= j <= |s|
    ensures lo <= k <= j && WhiteSpaceBetween(s, k, j)
    ensures k == lo || !IsWhiteSpace(s[k - 1])
  {
    if j == lo || !IsWhiteSpace(s[j - 1]) then j else SkipTrailing(s, lo, j - 1)
  }

  /** `String.Trim()`: the slice of `s` left once white space is removed from both
      ends. `k` is where `String.TrimStart()` would start. */
  function Trim(s: string): (r: string)
    ensures r == [] <==> AllWhiteSpace(s)
    ensures r != [] ==> !IsWhiteSpace(r[0]) && !IsWhiteSpace(r[|r| - 1])
  {
    var k := SkipLeading(s, 0);
    s[k..SkipTrailing(s, k, |s|)]
  }

  /** `Trim` drops exactly the leading run of white space and the trailing run, and
      keeps the characters between them in order. */
  lemma {:induction false} TrimIsInfix(s: string)
    ensures var k := SkipLeading(s, 0);
            var r := Trim(s);
            && k + |r| <= |s| && r == s[k..k + |r|]
            && WhiteSpaceBetween(s, 0, k) && WhiteSpaceBetween(s, k + |r|, |s|)
  {
  }

  /** Lower-casing of one character, for the ASCII letters only. */
  function LowerChar(c: char): char {
    if 'A' <= c <= 'Z' then (c as int - 'A' as int + 'a' as int) as char else c
  }

  /** `ToLowerInvariant` / `str.lower`, restricted to the ASCII letters. */
  function LowerAscii(s: string): (r: string)
    ensures |r| == |s|
    decreases |s|
  {
    if |s| == 0 then [] else [LowerChar(s[0])] + LowerAscii(s[1..])
  }

  /** Lower-casing works character by character. */
  lemma {:induction false} LowerAsciiAt(s: string)
    ensures forall i :: 0 <= i < |s| ==> LowerAscii(s)[i] == LowerChar(s[i])
    decreases |s|
  {
    if |s| > 0 {
      LowerAsciiAt(s[1..]);
      forall i | 1 <= i < |s| ensures LowerAscii(s)[i] == LowerChar(s[i]) {
        assert LowerAscii(s)[i] == LowerAscii(s[1..])[i - 1];
        assert s[1..][i - 1] == s[i];
      }
    }
  }

  /** Lower-casing commutes with taking a suffix. */
  lemma {:induction false} LowerAsciiSuffix(s: string, k: nat)
    requires k <= |s|
    ensures LowerAscii(s[k..]) == LowerAscii(s)[k..]
    decreases k
  {
    if k == 0 {
      assert s[k..] == s;
    } else {
      LowerAsciiSuffix(s[1..], k - 1);
      assert s[1..][k - 1..] == s[k..];
    }
  }

  /** `Enumerable.Contains` and Python's `in` on a list of strings, checked element
      by element from the front. */
  function Contains(list: seq<string>, x: string): bool
    decreases |list|
  {
    |list| > 0 && (list[0] == x || Contains(list[1..], x))
  }

  /** The element-by-element check is membership. */
  lemma {:induction false} ContainsIsMembership(list: seq<string>, x: string)
    ensures Contains(list, x) <==> x in list
    decreases |list|
  {
    if |list| > 0 {
      ContainsIsMembership(list[1..], x);
      assert list == [list[0]] + list[1..];
    }
  }

  /** Every element of the list is found. */
  lemma {:induction false} ContainsAt(list: seq<string>, k: nat)
    requires k < |list|
    ensures Contains(list, list[k])
    decreases k
  {
    if k > 0 {
      ContainsAt(list[1..], k - 1);
      assert list[1..][k - 1] == list[k];
    }
  }

  /** A string that differs from every element at position `i` is not found. */
  lemma {:induction false} ContainsNone(list: seq<string>, x: string, i: nat)
    requires i < |x|
    requires forall k :: 0 <= k < |list| ==> i < |list[k]| && list[k][i] != x[i]
    ensures !Contains(list, x)
    decreases |list|
  {
    if |list| > 0 {
      forall k | 0 <= k < |list| - 1 ensures i < |list[1..][k]| && list[1..][k][i] != x[i] {
        assert list[1..][k] == list[k + 1];
      }
      ContainsNone(list[1..], x, i);
    }
  }

  /** No character of `s` is `c`. */
  predicate Lacks(s: string, c: char) {
    forall m :: 0 <= m < |s| ==> s[m] != c
  }

  /** `s` ends with `t`. */
  predicate HasSuffix(s: string, t: string) {
    |t| <= |s| && s[|s| - |t|..] == t
  }

  /** Index of the last occurrence of `c` in `s[..j]`, or -1. */
  function LastIndexBefore(s: string, c: char, j: nat): (r: int)
    requires j <= |s|
    ensures -1 <= r < j
    ensures 0 <= r ==> s[r] == c
  {
    if j == 0 then -1
    else if s[j - 1] == c then j - 1
    else LastIndexBefore(s, c, j - 1)
  }

  /** No `c` in `s[..j]` comes after the index `LastIndexBefore` finds. */
  lemma {:induction false} NoneAfterLastBefore(s: string, c: char, j: nat)
    requires j <= |s|
    ensures forall m :: LastIndexBefore(s, c, j) < m < j ==> s[m] != c
    decreases j
  {
    if j > 0 && s[j - 1] != c {
      NoneAfterLastBefore(s, c, j - 1);
    }
  }

  /** Index of the last occurrence of `c` in `s`, or -1 (`LastIndexOf`, `rfind`). */
  function LastIndexOf(s: string, c: char): (r: int)
    ensures -1 <= r < |s|
    ensures 0 <= r ==> s[r] == c
  {
    LastIndexBefore(s, c, |s|)
  }

  /** No `c` comes after the index `LastIndexOf` finds. */
  lemma {:induction false} NoneAfterLast(s: string, c: char)
    ensures forall m :: LastIndexOf(s, c) < m < |s| ==> s[m] != c
  {
    NoneAfterLastBefore(s, c, |s|);
  }

  /** `k` is the last index of `c` when `c` is there and nowhere after it. */
  lemma {:induction false} LastIndexIs(s: string, c: char, k: nat)
    requires k < |s| && s[k] == c
    requires forall m :: k < m < |s| ==> s[m] != c
    ensures LastIndexOf(s, c) == k
  {
    LastBeforeIs(s, c, k, |s|);
  }

  lemma {:induction false} LastBeforeIs(s: string, c: char, k: nat, j: nat)
    requires k < j <= |s| && s[k] == c
    requires forall m :: k < m < j ==> s[m] != c
    ensures LastIndexBefore(s, c, j) == k
    decreases j
  {
    if j - 1 != k {
      LastBeforeIs(s, c, k, j - 1);
    }
  }

  /** The same, with the tail from `k` on holding `c` only at its start. */
  lemma {:induction false} LastIndexAtTail(s: string, c: char, k: nat)
    requires k < |s| && s[k..][0] == c
    requires forall m :: 1 <= m < |s[k..]| ==> s[k..][m] != c
    ensures LastIndexOf(s, c) == k
  {
    forall m | k < m < |s| ensures s[m] != c {
      assert s[m] == s[k..][m - k];
    }
    LastIndexIs(s, c, k);
  }

  /** Decimal digits of a natural number. */
  function NatToString(n: nat): string {
    var d := ['0' + (n % 10) as char];
    if n < 10 then d else NatToString(n / 10) + d
  }

  /** The invariant-culture rendering of an integer used in string interpolation. */
  function IntToString(i: int): string {
    if i < 0 then "-" + NatToString(-i) else NatToString(i)
  }

  /** A decimal digit. */
  predicate IsDigit(c: char) {
    '0' <= c <= '9'
  }

  /** The value of a string of decimal digits, read left to right. */
  function DecimalValue(s: string): int {
    if |s| == 0 then 0
    else DecimalValue(s[..|s| - 1]) * 10 + (s[|s| - 1] as int - '0' as int)
  }

  /** The rendering of a natural number is a non-empty string of digits with no
      leading zero, and reading it back gives the number. */
  lemma {:induction false} NatToStringRoundTrip(n: nat)
    ensures var r := NatToString(n);
            && 0 < |r|
            && (forall k :: 0 <= k < |r| ==> IsDigit(r[k]))
            && (r[0] == '0' ==> n == 0)
            && DecimalValue(r) == n
    decreases n
  {
    var d := ['0' + (n % 10) as char];
    if n >= 10 {
      var h := NatToString(n / 10);
      NatToStringRoundTrip(n / 10);
      var r := h + d;
      assert r[..|r| - 1] == h;
      assert r[0] == h[0];
      assert forall k :: 0 <= k < |r| ==> r[k] == (if k < |h| then h[k] else d[0]);
    }
  }

  /** The rendering of an integer is its magnitude's rendering, preceded by '-'
      exactly when it is negative. */
  lemma {:induction false} IntToStringRoundTrip(i: int)
    ensures var r := IntToString(i);
            && 0 < |r|
            && (r[0] == '-' <==> i < 0)
            && (i < 0 ==> DecimalValue(r[1..]) == -i)
            && (0 <= i ==> DecimalValue(r) == i)
  {
    if i < 0 {
      NatToStringRoundTrip(-i);
      assert IntToString(i)[1..] == NatToString(-i);
    } else {
      NatToStringRoundTrip(i);
      assert IsDigit(NatToString(i)[0]);
    }
  }

  /** `e` has the shape ".xyz": a '.', then at least one character, none a '.'. */
  predicate ExtensionShape(e: string) {
    && |e| >= 2 && e[0] == '.'
    && forall m :: 1 <= m < |e| ==> e[m] != '.'
  }

  /** A string whose lower-casing is extension-shaped is itself shaped so: it
      starts with its only '.'. */
  lemma {:induction false} DotsOfLowered(t: string, e: string)
    requires ExtensionShape(e) && LowerAscii(t) == e
    ensures |t| >= 2 && t[0] == '.'
    ensures forall m :: 1 <= m < |t| ==> t[m] != '.'
  {
    LowerAsciiAt(t);
    assert LowerChar(t[0]) == e[0];
    forall m | 1 <= m < |t| ensures t[m] != '.' {
      assert LowerChar(t[m]) == e[m];
    }
  }

  /** If the lower-cased name ends with an extension-shaped `e`, the last '.' of
      the name is where `e` starts. */
  lemma {:induction false} LastDotOfSuffix(name: string, e: string)
    requires ExtensionShape(e) && HasSuffix(LowerAscii(name), e)
    ensures LastIndexOf(name, '.') == |name| - |e|
    ensures LowerAscii(name[|name| - |e|..]) == e
  {
    var j := |LowerAscii(name)| - |e|;
    assert LowerAscii(name[j..]) == e by {
      LowerAsciiSuffix(name, j);
    }
    assert LastIndexOf(name, '.') == j by {
      DotsOfLowered(name[j..], e);
      LastIndexAtTail(name, '.', j);
    }
  }

  /** Conversely, the lower-cased tail from the last '.' being `e` means the
      lower-cased name ends with `e`. */
  lemma {:induction false} SuffixOfLastDot(name: string, e: string)
    requires 0 <= LastIndexOf(name, '.')
    requires LowerAscii(name[LastIndexOf(name, '.')..]) == e
    ensures HasSuffix(LowerAscii(name), e)
  {
    LowerAsciiSuffix(name, LastIndexOf(name, '.'));
  }
}
