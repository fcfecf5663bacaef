/**
 * The few `kotlin.text` operations the application relies on, restricted to
 * ASCII: `isBlank`, `trim`, `contains(…, ignoreCase = true)`, `isDigit` and
 * string templates over nullable values.
 */
module Text {
  import opened Wrappers

  /** Kotlin's `Char.isWhitespace` on ASCII: space, TAB..CR and the four
      information separators U+001C..U+001F. */
  predicate IsWhitespace(c: char) {
    c == ' ' || '\t' <= c <= '\r' || '\U{1C}' <= c <= '\U{1F}'
  }

  /** Kotlin's `isBlank`: empty or whitespace only. */
  predicate IsBlank(s: string) {
    forall i | 0 <= i < |s| :: IsWhitespace(s[i])
  }

  /** Kotlin's `Char.isDigit` on ASCII. */
  predicate IsDigit(c: char) {
    '0' <= c <= '9'
  }

  predicate AllDigits(s: string) {
    forall i | 0 <= i < |s| :: IsDigit(s[i])
  }

  /** The number of UTF-16 code units `c` takes: two for a character
      outside the Basic Multilingual Plane (a surrogate pair), one otherwise. */
  function Utf16Units(c: char): nat {
    if c as int < 0x1_0000 then 1 else 2
  }

  /** Kotlin's `String.length`, which counts UTF-16 code units. */
  function Utf16Length(s: string): (n: nat)
    ensures |s| <= n <= 2 * |s|
    ensures (forall i | 0 <= i < |s| :: s[i] as int < 0x1_0000) ==> n == |s|
    ensures (forall i | 0 <= i < |s| :: s[i] as int >= 0x1_0000) ==> n == 2 * |s|
  {
    if s == [] then 0 else Utf16Units(s[0]) + Utf16Length(s[1..])
  }

  /** A string template `"${x}"` over a nullable string renders null as "null". */
  function Show(x: Option<string>): string {
    x.GetOr("null")
  }

  /** The first index at or after `i` that does not hold whitespace (or |s|). */
  function SkipWhitespace(s: string, i: nat): (k: nat)
    requires i <= |s|
    decreases |s| - i
    ensures i <= k <= |s|
    ensures forall j | i <= j < k :: IsWhitespace(s[j])
    ensures k < |s| ==> !IsWhitespace(s[k])
  {
    if i < |s| && IsWhitespace(s[i]) then SkipWhitespace(s, i + 1) else i
  }

  /** The least index `k >= lo` such that `s[k..e]` is all whitespace. */
  function SkipWhitespaceBack(s: string, lo: nat, e: nat): (k: nat)
    requires lo <= e <= |s|
    decreases e
    ensures lo <= k <= e
    ensures forall j | k <= j < e :: IsWhitespace(s[j])
    ensures k > lo ==> !IsWhitespace(s[k - 1])
  {
    if e > lo && IsWhitespace(s[e - 1]) then SkipWhitespaceBack(s, lo, e - 1) else e
  }

  /** `r` is `s[a..b]` and only whitespace lies outside that window. */
  predicate TrimmedAt(s: string, r: string, a: nat, b: nat) {
    && a <= b <= |s| && r == s[a..b]
    && (forall j | 0 <= j < a :: IsWhitespace(s[j]))
    && (forall j | b <= j < |s| :: IsWhitespace(s[j]))
  }

  /** Kotlin's `String.trim()`: whitespace is cut from both ends, and only
      whitespace. */
  function Trim(s: string): (r: string)
    ensures exists a: nat, b: nat :: TrimmedAt(s, r, a, b)
    ensures r == [] || (!IsWhitespace(r[0]) && !IsWhitespace(r[|r| - 1]))
    ensures r == [] <==> IsBlank(s)
  {
    var a := SkipWhitespace(s, 0);
    var b := SkipWhitespaceBack(s, a, |s|);
    assert TrimmedAt(s, s[a..b], a, b);
    assert a < |s| ==> b > a;
    s[a..b]
  }

  /** Lower-cases an ASCII letter, leaves every other character alone. */
  function LowerChar(c: char): char {
    if 'A' <= c <= 'Z' then (c as int + 32) as char else c
  }

  /** Kotlin's `Char.equals(other, ignoreCase = true)` on ASCII. */
  predicate EqualsIgnoreCase(a: char, b: char) {
    LowerChar(a) == LowerChar(b)
  }

  function Lower(s: string): (r: string)
    ensures |r| == |s|
    ensures forall i | 0 <= i < |s| :: r[i] == LowerChar(s[i])
  {
    if s == [] then [] else [LowerChar(s[0])] + Lower(s[1..])
  }

  predicate OccursAt(text: string, pat: string, i: nat) {
    i + |pat| <= |text| && text[i..i + |pat|] == pat
  }

  /** The first position at or after `start` where `pat` occurs in `text`. */
  function IndexOfFrom(text: string, pat: string, start: nat): (r: Option<nat>)
    decreases |text| - start
    ensures r.Some? ==> start <= r.value && OccursAt(text, pat, r.value)
    ensures r.Some? ==> forall j | start <= j < r.value :: !OccursAt(text, pat, j)
    ensures r.None? ==> forall j | start <= j :: !OccursAt(text, pat, j)
  {
    if start + |pat| > |text| then None
    else if text[start..start + |pat|] == pat then Some(start)
    else IndexOfFrom(text, pat, start + 1)
  }

  /** Kotlin's `CharSequence.contains(other)`. */
  predicate Contains(text: string, pat: string) {
    IndexOfFrom(text, pat, 0).Some?
  }

  /** Kotlin's `contains(other, ignoreCase = true)`: a substring search on
      lower-cased copies. */
  predicate ContainsIgnoreCase(text: string, pat: string) {
    Contains(Lower(text), Lower(pat))
  }

  /** The reference reading of "contains, ignoring case": some window of
      `text` agrees with `pat` character by character, up to case. */
  predicate MatchesIgnoreCaseAt(text: string, pat: string, i: nat) {
    i + |pat| <= |text| && forall k | 0 <= k < |pat| :: EqualsIgnoreCase(text[i + k], pat[k])
  }

  lemma ContainsIgnoreCaseAtSomeIndex(text: string, pat: string)
    ensures ContainsIgnoreCase(text, pat) <==> exists i: nat :: MatchesIgnoreCaseAt(text, pat, i)
  {
    var lt, lp := Lower(text), Lower(pat);
    forall i: nat ensures OccursAt(lt, lp, i) <==> MatchesIgnoreCaseAt(text, pat, i) {
      if i + |pat| <= |text| {
        if OccursAt(lt, lp, i) {
          forall k | 0 <= k < |pat| ensures EqualsIgnoreCase(text[i + k], pat[k]) {
            assert lt[i..i + |lp|][k] == lp[k];
          }
        }
        if MatchesIgnoreCaseAt(text, pat, i) {
          assert lt[i..i + |lp|] == lp;
        }
      }
    }
    if ContainsIgnoreCase(text, pat) {
      var i := IndexOfFrom(lt, lp, 0).value;
      assert MatchesIgnoreCaseAt(text, pat, i);
    }
    if exists i: nat :: MatchesIgnoreCaseAt(text, pat, i) {
      var i: nat :| MatchesIgnoreCaseAt(text, pat, i);
      assert OccursAt(lt, lp, i);
    }
  }

  /** Trimming never changes whether a string is blank. */
  lemma TrimPreservesBlank(s: string)
    ensures IsBlank(Trim(s)) <==> IsBlank(s)
  {
    var r := Trim(s);
    if r != [] { assert !IsWhitespace(r[0]); }
  }
}
