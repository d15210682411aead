/**
 * The few JavaScript string operations the application relies on:
 * `String.prototype.trim`, `endsWith` and `substring`, with their ECMAScript meaning.
 */
module JsString {

  /** The characters `trim` removes: ECMAScript WhiteSpace and LineTerminator. */
  predicate IsWhiteSpace(c: char) {
    || c == '\t' || c == '\n' || c == '\U{000B}' || c == '\U{000C}' || c == '\r' || c == ' '
    || c == '\U{00A0}' || c == '\U{1680}' || ('\U{2000}' <= c <= '\U{200A}')
    || c == '\U{2028}' || c == '\U{2029}' || c == '\U{202F}' || c == '\U{205F}'
    || c == '\U{3000}' || c == '\U{FEFF}'
  }

  /** Every character of `s` is white space (vacuously true of ""). */
  predicate AllWhiteSpace(s: string) {
    forall i :: 0 <= i < |s| ==> IsWhiteSpace(s[i])
  }

  /** `s` with its leading white space removed: the longest suffix that starts with a non-space. */
  function TrimStart(s: string): (r: string)
    ensures |r| <= |s| && r == s[|s| - |r|..]
    ensures AllWhiteSpace(s[..|s| - |r|])
    ensures r == [] || !IsWhiteSpace(r[0])
  {
    if |s| > 0 && IsWhiteSpace(s[0]) then
      var r := TrimStart(s[1..]);
      assert s[..|s| - |r|] == [s[0]] + s[1..][..|s| - 1 - |r|];
      r
    else s
  }

  /** `s` with its trailing white space removed: the longest prefix that ends with a non-space. */
  function TrimEnd(s: string): (r: string)
    ensures |r| <= |s| && r == s[..|r|]
    ensures AllWhiteSpace(s[|r|..])
    ensures r == [] || !IsWhiteSpace(r[|r| - 1])
  {
    if |s| > 0 && IsWhiteSpace(s[|s| - 1]) then
      var r := TrimEnd(s[..|s| - 1]);
      assert s[|r|..] == s[..|s| - 1][|r|..] + [s[|s| - 1]];
      r
    else s
  }

  /**
   * `s.trim()`: the part of `s` left between its leading and its trailing white space,
   * which starts and ends with a non-space (or is empty).
   */
  function Trim(s: string): (r: string)
    ensures |r| <= |s|
    ensures exists k :: SplitsAround(s, r, k)
    ensures r == [] || (!IsWhiteSpace(r[0]) && !IsWhiteSpace(r[|r| - 1]))
  {
    TrimSplits(s);
    TrimEnd(TrimStart(s))
  }

  /** Trimming both ends leaves the middle of `s`, bordered by the white space removed. */
  lemma TrimSplits(s: string)
    ensures SplitsAround(s, TrimEnd(TrimStart(s)), |s| - |TrimStart(s)|)
    ensures var r := TrimEnd(TrimStart(s)); r == [] || r[0] == TrimStart(s)[0]
  {
    var t := TrimStart(s);
    PrefixOfSuffix(s, |s| - |t|, t, TrimEnd(t));
  }

  /**
   * If `s` is white space up to `k` and `t` is the rest, then a prefix `r` of `t` followed
   * by white space splits `s` around `r`.
   */
  lemma PrefixOfSuffix(s: string, k: nat, t: string, r: string)
    requires k <= |s| && t == s[k..] && AllWhiteSpace(s[..k])
    requires |r| <= |t| && r == t[..|r|] && AllWhiteSpace(t[|r|..])
    ensures SplitsAround(s, r, k)
  {
    assert s[k + |r|..] == t[|r|..];
  }

  /** `s` is white space, then `r` starting at index `k`, then white space again. */
  predicate SplitsAround(s: string, r: string, k: int) {
    && 0 <= k <= |s| - |r|
    && r == s[k..k + |r|]
    && AllWhiteSpace(s[..k])
    && AllWhiteSpace(s[k + |r|..])
  }

  /** `s` holds nothing but white space. */
  predicate IsBlank(s: string) {
    AllWhiteSpace(s)
  }

  /** `!s.trim()` holds, i.e. the trimmed string is the empty string, exactly when `s` is blank. */
  lemma TrimEmptyIffBlank(s: string)
    ensures Trim(s) == "" <==> IsBlank(s)
  {
    var t := TrimStart(s);
    var k := |s| - |t|;
    if AllWhiteSpace(s) {
      TrimStartOfWhiteSpace(s);
    }
    if Trim(s) == "" {
      assert AllWhiteSpace(t) by {
        assert t[|TrimEnd(t)|..] == t;
      }
      assert t == [];
      assert s[..k] == s;
    }
  }

  /** Trimming the start of an all-white-space string leaves nothing. */
  lemma {:induction false} TrimStartOfWhiteSpace(s: string)
    requires AllWhiteSpace(s)
    ensures TrimStart(s) == []
  {
    if |s| > 0 {
      assert AllWhiteSpace(s[1..]) by {
        forall i | 0 <= i < |s[1..]| ensures IsWhiteSpace(s[1..][i]) {
          assert s[1..][i] == s[i + 1];
        }
      }
      TrimStartOfWhiteSpace(s[1..]);
    }
  }

  /** `s.endsWith(suffix)`: `s` is some string followed by `suffix`. */
  predicate EndsWith(s: string, suffix: string)
    ensures EndsWith(s, suffix) <==> exists b :: s == b + suffix
  {
    if |suffix| <= |s| && s[|s| - |suffix|..] == suffix then
      assert s == s[..|s| - |suffix|] + suffix;
      true
    else
      assert forall b :: (b + suffix)[|b|..] == suffix;
      false
  }

  /** `s.substring(start, end)`: both bounds are clamped to [0, |s|] and swapped if reversed. */
  function Substring(s: string, start: int, end: int): (r: string)
    ensures |r| <= |s|
    ensures 0 <= start <= end <= |s| ==> r == s[start..end]
    ensures end <= 0 && start <= 0 ==> r == []
    ensures |s| <= start && |s| <= end ==> r == []
  {
    var a := Clamp(start, |s|);
    var b := Clamp(end, |s|);
    if a <= b then s[a..b] else s[b..a]
  }

  /** `x` clamped to the range [0, n]. */
  function Clamp(x: int, n: nat): (r: nat)
    ensures r <= n
    ensures 0 <= x <= n ==> r == x
  {
    if x < 0 then 0 else if x > n then n else x
  }

  /** The order of the two bounds does not matter. */
  lemma SubstringBoundsSwap(s: string, start: int, end: int)
    ensures Substring(s, start, end) == Substring(s, end, start)
  {
  }

  /** A substring from index 0 to a non-negative `n` is the prefix of length min(|s|, n). */
  lemma SubstringFromZero(s: string, n: nat)
    ensures Substring(s, 0, n) == s[..if |s| <= n then |s| else n]
  {
  }
}
