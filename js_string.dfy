/**
 * The two JavaScript string built-ins the title resolver relies on, as ECMA-262
 * defines them: `String.prototype.trim` (section 22.1.3.32) and
 * `String.prototype.replace` with a string pattern (section 22.1.3.19), whose
 * search is the abstract operation StringIndexOf (section 6.1.4.1).
 */
module JsString {
  import opened Wrappers

  /** The WhiteSpace code points of ECMA-262 section 12.2: TAB, VT, FF, ZWNBSP and every Zs space. */
  predicate IsWhiteSpace(c: char) {
    || c == '\t' || c == '\U{000B}' || c == '\U{000C}' || c == '\U{FEFF}'
    || c == ' ' || c == '\U{00A0}' || c == '\U{1680}'
    || ('\U{2000}' <= c <= '\U{200A}')
    || c == '\U{202F}' || c == '\U{205F}' || c == '\U{3000}'
  }

  /** The LineTerminator code points of ECMA-262 section 12.3: LF, CR, LS and PS. */
  predicate IsLineTerminator(c: char) {
    c == '\n' || c == '\r' || c == '\U{2028}' || c == '\U{2029}'
  }

  /** What `trim` strips from either end of a string. */
  predicate IsTrimmable(c: char) {
    IsWhiteSpace(c) || IsLineTerminator(c)
  }

  /** A string with nothing but trimmable characters in it; the empty string is blank. */
  predicate IsBlank(s: string) {
    forall i :: 0 <= i < |s| ==> IsTrimmable(s[i])
  }

  /** The index of the first non-trimmable character at or after `k`, or `|s|` when there is none. */
  function SkipLeading(s: string, k: nat): (i: nat)
    requires k <= |s|
    decreases |s| - k
    ensures k <= i <= |s|
    ensures forall j :: k <= j < i ==> IsTrimmable(s[j])
    ensures i == |s| || !IsTrimmable(s[i])
  {
    if k < |s| && IsTrimmable(s[k]) then SkipLeading(s, k + 1) else k
  }

  /**
   * The end of the text once the trimmable characters before `e` and at or
   * after `lo` are dropped: `lo` when all of them are trimmable, and otherwise
   * the index just past the last non-trimmable one.
   */
  function SkipTrailing(s: string, lo: nat, e: nat): (j: nat)
    requires lo <= e <= |s|
    ensures lo <= j <= e
    ensures forall t :: j <= t < e ==> IsTrimmable(s[t])
    ensures j == lo || !IsTrimmable(s[j - 1])
  {
    if lo < e && IsTrimmable(s[e - 1]) then SkipTrailing(s, lo, e - 1) else e
  }

  /**
   * `s.trim()`: the string without its leading and trailing trimmable
   * characters. It is empty exactly when `s` is blank, and otherwise it
   * neither starts nor ends with a trimmable character.
   */
  function Trim(s: string): (r: string)
    ensures r == [] <==> IsBlank(s)
    ensures r != [] ==> !IsTrimmable(r[0]) && !IsTrimmable(r[|r| - 1])
  {
    var a := SkipLeading(s, 0);
    var b := SkipTrailing(s, a, |s|);
    s[a..b]
  }

  /**
   * Trim cuts a slice out of `s` and drops only trimmable characters on
   * either side of it.
   */
  lemma TrimIsSlice(s: string) returns (i: nat)
    ensures i + |Trim(s)| <= |s| && Trim(s) == s[i..i + |Trim(s)|]
    ensures forall j :: 0 <= j < i ==> IsTrimmable(s[j])
    ensures forall j :: i + |Trim(s)| <= j < |s| ==> IsTrimmable(s[j])
  {
    i := SkipLeading(s, 0);
  }

  /** `pat` sits in `s` at index `i`. */
  predicate OccursAt(s: string, pat: string, i: int) {
    0 <= i && i + |pat| <= |s| && s[i..i + |pat|] == pat
  }

  /** `i` is the leftmost index at which `pat` sits in `s`. */
  predicate IsFirstOccurrence(s: string, pat: string, i: int) {
    OccursAt(s, pat, i) && forall j :: 0 <= j < i ==> !OccursAt(s, pat, j)
  }

  /** `pat` sits somewhere in `s`. */
  predicate Contains(s: string, pat: string) {
    exists i | 0 <= i <= |s| :: OccursAt(s, pat, i)
  }

  /** StringIndexOf(s, pat, from): the least index at or after `from` at which `pat` sits, if any. */
  function IndexOfFrom(s: string, pat: string, from: nat): (r: Option<nat>)
    decreases |s| - from
    ensures r.Some? ==> from <= r.value && OccursAt(s, pat, r.value)
    ensures r.Some? ==> forall j :: from <= j < r.value ==> !OccursAt(s, pat, j)
    ensures r.None? ==> forall j :: from <= j ==> !OccursAt(s, pat, j)
  {
    if from + |pat| > |s| then None
    else if s[from..from + |pat|] == pat then Some(from)
    else IndexOfFrom(s, pat, from + 1)
  }

  /** The search `replace` performs: the first occurrence of `pat`, or none when `pat` does not occur. */
  function IndexOf(s: string, pat: string): (r: Option<nat>)
    ensures r.Some? ==> IsFirstOccurrence(s, pat, r.value)
    ensures r.None? <==> !Contains(s, pat)
  {
    IndexOfFrom(s, pat, 0)
  }

  /**
   * `s.replace(pat, "")`: the first occurrence of `pat` is cut out and any
   * later ones stay; a pattern that does not occur leaves `s` as it is, and
   * the empty pattern matches at index 0 and so changes nothing.
   */
  function RemoveFirst(s: string, pat: string): (r: string)
    ensures !Contains(s, pat) ==> r == s
    ensures forall i :: IsFirstOccurrence(s, pat, i) ==> r == s[..i] + s[i + |pat|..]
    ensures |r| == if Contains(s, pat) then |s| - |pat| else |s|
    ensures pat == [] ==> r == s
  {
    match IndexOf(s, pat)
    case None => s
    case Some(i) =>
      assert OccursAt(s, pat, i);
      assert forall j :: IsFirstOccurrence(s, pat, j) ==> j == i;
      s[..i] + s[i + |pat|..]
  }

  /**
   * A string that starts with `pat` loses exactly that leading copy, even
   * when more copies of `pat` follow.
   */
  lemma RemoveFirstOfPrefix(pat: string, rest: string)
    ensures RemoveFirst(pat + rest, pat) == rest
  {
    var s := pat + rest;
    assert s[0..|pat|] == pat;
    assert IsFirstOccurrence(s, pat, 0);
    assert s[|pat|..] == rest;
  }

  /**
   * A pattern placed after text that lacks the pattern's first character
   * first occurs right there.
   */
  lemma FirstOccurrenceAfter(before: string, pat: string, after: string)
    requires pat != [] && pat[0] !in before
    ensures IsFirstOccurrence(before + pat + after, pat, |before|)
  {
    var s := before + pat + after;
    assert s[|before|..|before| + |pat|] == pat;
    forall j | 0 <= j < |before| ensures !OccursAt(s, pat, j) {
      assert s[j] == before[j];
      assert j + |pat| <= |s| ==> s[j..j + |pat|][0] == s[j];
    }
  }
}
