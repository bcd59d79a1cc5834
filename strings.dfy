/**
 * The few JavaScript string operations the client relies on, over `string`
 * (a sequence of Unicode scalar values): `trim`, `includes`, `split(sep)[k]`
 * for the parts the client reads, and `toLowerCase` on ASCII letters.
 */
module Strings {
  import opened Wrappers

  /** ECMAScript WhiteSpace and LineTerminator code points: what `String.prototype.trim` removes. */
  predicate IsWhitespace(c: char)
  {
    || c == '\t' || c == '\n' || c == '\U{B}' || c == '\U{C}' || c == '\r' || c == ' '
    || c == '\U{A0}' || c == '\U{1680}' || ('\U{2000}' <= c <= '\U{200A}')
    || c == '\U{2028}' || c == '\U{2029}' || c == '\U{202F}' || c == '\U{205F}'
    || c == '\U{3000}' || c == '\U{FEFF}'
  }

  ghost predicate AllWhitespace(s: string)
  {
    forall i :: 0 <= i < |s| ==> IsWhitespace(s[i])
  }

  /** `s` neither starts nor ends with whitespace. */
  ghost predicate IsTrimmed(s: string)
  {
    s == [] || (!IsWhitespace(s[0]) && !IsWhitespace(s[|s| - 1]))
  }

  /** Every character of `s` from `lo` up to `hi` is whitespace. */
  ghost predicate WhitespaceBetween(s: string, lo: nat, hi: nat)
    requires lo <= hi <= |s|
  {
    forall j :: lo <= j < hi ==> IsWhitespace(s[j])
  }

  /** Where the text of `s` starts when scanning from `k`: past the whitespace, at the first other character. */
  function StartOfText(s: string, k: nat): (r: nat)
    requires k <= |s|
    ensures k <= r <= |s|
    ensures WhitespaceBetween(s, k, r)
    ensures r == |s| || !IsWhitespace(s[r])
    decreases |s| - k
  {
    if k < |s| && IsWhitespace(s[k]) then StartOfText(s, k + 1) else k
  }

  /** Where the text of `s` ends when scanning back from `k` (not below `lo`): just after the last other character. */
  function EndOfText(s: string, lo: nat, k: nat): (r: nat)
    requires lo <= k <= |s|
    ensures lo <= r <= k
    ensures WhitespaceBetween(s, r, k)
    ensures r == lo || !IsWhitespace(s[r - 1])
    decreases k
  {
    if k > lo && IsWhitespace(s[k - 1]) then EndOfText(s, lo, k - 1) else k
  }

  /**
   * JavaScript's `s.trim()`: the result is the slice `s[i..i + |r|]` of `s`, everything
   * outside the slice is whitespace, and the slice neither starts nor ends with whitespace.
   */
  function Trim(s: string): (r: string)
    ensures exists i :: 0 <= i <= |s| - |r| && r == s[i..i + |r|]
                        && WhitespaceBetween(s, 0, i) && WhitespaceBetween(s, i + |r|, |s|)
    ensures IsTrimmed(r)
  {
    var a := StartOfText(s, 0);
    var e := EndOfText(s, a, |s|);
    assert WhitespaceBetween(s, 0, a) && WhitespaceBetween(s, e, |s|);
    s[a..e]
  }

  /** A string that is already trimmed is its own trim. */
  lemma TrimOfTrimmed(s: string)
    requires IsTrimmed(s)
    ensures Trim(s) == s
  {
  }

  /** Trimming twice is trimming once. */
  lemma TrimIdempotent(s: string)
    ensures Trim(Trim(s)) == Trim(s)
  {
    TrimOfTrimmed(Trim(s));
  }

  /** The trim is empty exactly when the string is whitespace only. */
  lemma TrimEmptyIff(s: string)
    ensures Trim(s) == [] <==> AllWhitespace(s)
  {
    if Trim(s) == [] {
      var i :| 0 <= i <= |s| && WhitespaceBetween(s, 0, i) && WhitespaceBetween(s, i, |s|);
      forall k | 0 <= k < |s| ensures IsWhitespace(s[k]) {
        if k < i { assert WhitespaceBetween(s, 0, i); } else { assert WhitespaceBetween(s, i, |s|); }
      }
    }
  }

  /** `pat` occurs in `s` starting at position `i`. */
  predicate OccursAt(s: string, pat: string, i: nat)
  {
    i + |pat| <= |s| && s[i..i + |pat|] == pat
  }

  /** `pat` occurs somewhere in `s`: JavaScript's `s.includes(pat)`. */
  ghost predicate Occurs(s: string, pat: string)
  {
    exists i: nat :: OccursAt(s, pat, i)
  }

  /** The first position at or after `k` where `pat` occurs in `s`, if any. */
  function IndexOfFrom(s: string, pat: string, k: nat): (r: Option<nat>)
    requires k <= |s|
    ensures r.Some? ==> k <= r.value && OccursAt(s, pat, r.value)
    ensures r.Some? ==> forall j: nat :: k <= j < r.value ==> !OccursAt(s, pat, j)
    ensures r.None? ==> forall j: nat :: k <= j ==> !OccursAt(s, pat, j)
    decreases |s| - k
  {
    if OccursAt(s, pat, k) then Some(k)
    else if k == |s| then None
    else IndexOfFrom(s, pat, k + 1)
  }

  /** The position of the first occurrence of `pat` in `s`: JavaScript's `s.indexOf(pat)`, absent for -1. */
  function IndexOf(s: string, pat: string): (r: Option<nat>)
    ensures r.Some? <==> Occurs(s, pat)
    ensures r.Some? ==> OccursAt(s, pat, r.value) && forall j: nat :: j < r.value ==> !OccursAt(s, pat, j)
  {
    IndexOfFrom(s, pat, 0)
  }

  /**
   * The text before the first occurrence of `sep`, or all of `s` when there is none:
   * JavaScript's `s.split(sep)[0]`. It is a prefix of `s` in which `sep` does not occur,
   * and no occurrence of `sep` in `s` starts before its end.
   */
  function Before(s: string, sep: string): (r: string)
    requires sep != []
    ensures |r| <= |s| && r == s[..|r|]
    ensures !Occurs(r, sep)
    ensures r == s <==> !Occurs(s, sep)
    ensures |r| < |s| ==> OccursAt(s, sep, |r|)
    ensures forall k: nat :: k < |r| ==> !OccursAt(s, sep, k)
  {
    match IndexOf(s, sep)
    case None => s
    case Some(j) =>
      assert !Occurs(s[..j], sep) by {
        forall k: nat | k + |sep| <= j ensures !OccursAt(s[..j], sep, k) {
          assert s[..j][k..k + |sep|] == s[k..k + |sep|];
          assert !OccursAt(s, sep, k);
        }
      }
      s[..j]
  }

  /**
   * The part of `s` between the first and the second occurrence of `sep` (or the end):
   * JavaScript's `s.split(sep)[1]` when `sep` occurs in `s`.
   */
  function SecondPart(s: string, sep: string): (r: string)
    requires sep != [] && Occurs(s, sep)
    ensures var after := s[IndexOf(s, sep).value + |sep|..];
      && IsPrefixOf(r, after) && !Occurs(r, sep)
      && (|r| == |after| || OccursAt(after, sep, |r|))
      && (forall k: nat :: k < |r| ==> !OccursAt(after, sep, k))
  {
    var i := IndexOf(s, sep).value;
    Before(s[i + |sep|..], sep)
  }

  /**
   * `pat` occurs first right after `prefix` in `prefix + pat + rest` when no occurrence
   * starts inside `prefix`, that is, none occurs in `prefix` followed by `pat` less its last character.
   */
  lemma {:induction false} IndexOfAfterPrefix(prefix: string, pat: string, rest: string)
    requires pat != [] && !Occurs(prefix + pat[..|pat| - 1], pat)
    ensures IndexOf(prefix + pat + rest, pat) == Some(|prefix|)
  {
    var s := prefix + pat + rest;
    var head := prefix + pat[..|pat| - 1];
    assert s[|prefix|..|prefix| + |pat|] == pat;
    assert OccursAt(s, pat, |prefix|);
    forall j: nat | j < |prefix| ensures !OccursAt(s, pat, j) {
      assert s[..|head|] == head;
      assert s[j..j + |pat|] == head[j..j + |pat|];
      assert !OccursAt(head, pat, j);
    }
  }

  /** Cutting at a one-character separator stops at its first occurrence. */
  lemma BeforeFirstChar(s: string, c: char, n: nat)
    requires n < |s| && s[n] == c && !Occurs(s[..n], [c])
    ensures Before(s, [c]) == s[..n]
  {
    var r := Before(s, [c]);
    forall j: nat | j < n ensures !OccursAt(s, [c], j) {
      assert s[..n][j..j + 1] == s[j..j + 1] && !OccursAt(s[..n], [c], j);
    }
    assert s[n..n + 1] == [c];
    assert !OccursAt(r, [c], n);
  }

  /** When no separator starts at or before `n`, the cut keeps more than `n` characters (or all of them). */
  lemma BeforeBeyond(s: string, sep: string, n: nat)
    requires sep != [] && n <= |s|
    requires forall k: nat :: k <= n ==> !OccursAt(s, sep, k)
    ensures n < |Before(s, sep)| || Before(s, sep) == s
  {
  }

  predicate IsPrefixOf(p: string, s: string)
  {
    |p| <= |s| && s[..|p|] == p
  }

  /** JavaScript's `toLowerCase` on one character, for the ASCII letters. */
  function LowerChar(c: char): (r: char)
    ensures 'A' <= c <= 'Z' ==> r as int == c as int + 32
    ensures !('A' <= c <= 'Z') ==> r == c
  {
    if 'A' <= c <= 'Z' then (c as int + 32) as char else c
  }

  /** `toLowerCase` on a whole string, character by character. */
  function ToLower(s: string): (r: string)
    ensures |r| == |s|
    ensures forall i :: 0 <= i < |s| ==> r[i] == LowerChar(s[i])
  {
    if s == [] then [] else [LowerChar(s[0])] + ToLower(s[1..])
  }

  /** A string is the lower-casing of `s` when it agrees with `LowerChar` at every position. */
  lemma ToLowerIs(s: string, t: string)
    requires |s| == |t| && forall i :: 0 <= i < |s| ==> LowerChar(s[i]) == t[i]
    ensures ToLower(s) == t
  {
  }
}
