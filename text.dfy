/**
 * The two JavaScript string primitives the capture engine relies on:
 * `String.prototype.trim` and the ASCII case folding that a `/i` regular
 * expression applies when every letter of its pattern is ASCII.
 */
module Text {

  /** The code points `trim` removes: the WhiteSpace and LineTerminator classes of ECMAScript. */
  predicate IsTrimmable(c: char) {
    || ('\t' <= c <= '\r') || c == ' ' || c == '\U{00A0}' || c == '\U{1680}'
    || ('\U{2000}' <= c <= '\U{200A}') || ('\U{2028}' <= c <= '\U{2029}')
    || c == '\U{202F}' || c == '\U{205F}' || c == '\U{3000}' || c == '\U{FEFF}'
  }

  /** Where the run of trimmable code points that starts at `from` ends. */
  function SkipLeading(s: string, from: nat): (i: nat)
    requires from <= |s|
    ensures from <= i <= |s|
    ensures forall k :: from <= k < i ==> IsTrimmable(s[k])
    ensures i < |s| ==> !IsTrimmable(s[i])
    decreases |s| - from
  {
    if from < |s| && IsTrimmable(s[from]) then SkipLeading(s, from + 1) else from
  }

  /** Where the run of trimmable code points that ends just before `hi` starts, going no lower than `lo`. */
  function SkipTrailing(s: string, lo: nat, hi: nat): (j: nat)
    requires lo <= hi <= |s|
    ensures lo <= j <= hi
    ensures forall k :: j <= k < hi ==> IsTrimmable(s[k])
    ensures j > lo ==> !IsTrimmable(s[j - 1])
    decreases hi
  {
    if hi > lo && IsTrimmable(s[hi - 1]) then SkipTrailing(s, lo, hi - 1) else hi
  }

  /** `r` is what is left of `s` once `i` trimmable code points are dropped in front and the rest behind. */
  predicate StripsTo(s: string, i: int, r: string) {
    && 0 <= i <= |s| - |r|
    && r == s[i..i + |r|]
    && (forall k :: 0 <= k < i ==> IsTrimmable(s[k]))
    && (forall k :: i + |r| <= k < |s| ==> IsTrimmable(s[k]))
  }

  /**
   * `s.trim()`: the slice between the end of the leading run of trimmable
   * code points and the start of the trailing one (`TrimDropsOnlyTrimmable`
   * states that only those go).
   */
  function Trim(s: string): (r: string)
    ensures |r| <= |s|
    ensures r != [] ==> !IsTrimmable(r[0]) && !IsTrimmable(r[|r| - 1])
  {
    var i := SkipLeading(s, 0);
    s[i..SkipTrailing(s, i, |s|)]
  }

  /** `trim` keeps one contiguous piece of `s` and drops only trimmable code points around it. */
  lemma TrimDropsOnlyTrimmable(s: string)
    ensures StripsTo(s, SkipLeading(s, 0), Trim(s))
  {
  }

  /** `trim` yields the empty string exactly when every code point of `s` is trimmable. */
  lemma TrimEmptyIff(s: string)
    ensures Trim(s) == [] <==> forall k :: 0 <= k < |s| ==> IsTrimmable(s[k])
  {
    var i := SkipLeading(s, 0);
    if Trim(s) == [] {
      // Nothing is kept, so the trailing run starts where the leading run ends.
      assert SkipTrailing(s, i, |s|) == i;
    }
  }

  /** A string that neither starts nor ends with a trimmable code point is left alone by `trim`. */
  lemma TrimFixed(s: string)
    requires s != [] ==> !IsTrimmable(s[0]) && !IsTrimmable(s[|s| - 1])
    ensures Trim(s) == s
  {
  }

  /** `trim` is idempotent. */
  lemma TrimIdempotent(s: string)
    ensures Trim(Trim(s)) == Trim(s)
  {
    TrimFixed(Trim(s));
  }

  /** The canonical form a case-insensitive match compares: ASCII upper case mapped to lower case. */
  function LowerAscii(c: char): char {
    if 'A' <= c <= 'Z' then (c as int + 32) as char else c
  }

  /** `s` begins with `prefix` when the two are compared case-insensitively. */
  predicate StartsWithIgnoringCase(s: string, prefix: string) {
    |prefix| <= |s| && forall i :: 0 <= i < |prefix| ==> LowerAscii(s[i]) == LowerAscii(prefix[i])
  }
}
