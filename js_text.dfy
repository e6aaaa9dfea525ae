/**
 * The two JavaScript string operations the ticket form relies on:
 * `String.prototype.trim` and `String.prototype.startsWith`.
 */
module JsText {

  /**
   * The characters `trim` strips from both ends: ECMAScript WhiteSpace
   * (TAB, VT, FF, ZWNBSP and every space separator) and LineTerminator
   * (LF, CR, LS, PS).
   */
  predicate IsTrimmable(c: char) {
    c == '\t' || c == '\n' || c == '\U{000B}' || c == '\U{000C}' || c == '\r'
    || c == ' ' || c == '\U{00A0}' || c == '\U{1680}'
    || ('\U{2000}' <= c <= '\U{200A}')
    || c == '\U{2028}' || c == '\U{2029}' || c == '\U{202F}' || c == '\U{205F}'
    || c == '\U{3000}' || c == '\U{FEFF}'
  }

  /** Every character of `s` is one that `trim` strips. */
  ghost predicate AllTrimmable(s: string) {
    forall i :: 0 <= i < |s| ==> IsTrimmable(s[i])
  }

  /** The length of the run of trimmable characters of `s` that starts at `from`. */
  function LeadingRun(s: string, from: nat): (k: nat)
    requires from <= |s|
    ensures from + k <= |s|
    ensures forall i :: from <= i < from + k ==> IsTrimmable(s[i])
    ensures from + k < |s| ==> !IsTrimmable(s[from + k])
    decreases |s| - from
  {
    if from < |s| && IsTrimmable(s[from]) then 1 + LeadingRun(s, from + 1) else 0
  }

  /** The length of the run of trimmable characters of `s[from..to]` that ends at `to`. */
  function TrailingRun(s: string, from: nat, to: nat): (k: nat)
    requires from <= to <= |s|
    ensures k <= to - from
    ensures forall i :: to - k <= i < to ==> IsTrimmable(s[i])
    ensures k < to - from ==> !IsTrimmable(s[to - 1 - k])
  {
    if from < to && IsTrimmable(s[to - 1]) then 1 + TrailingRun(s, from, to - 1) else 0
  }

  /**
   * `s.trim()`: `s` without its leading and trailing trimmable characters.
   * The result is the piece of `s` right after the leading run, followed
   * only by trimmable characters, and starts and ends with kept ones.
   */
  function Trim(s: string): (r: string)
    ensures |r| <= |s|
    ensures r == "" <==> AllTrimmable(s)
    ensures r != "" ==> !IsTrimmable(r[0]) && !IsTrimmable(r[|r| - 1])
    ensures LeadingRun(s, 0) + |r| <= |s|
    ensures r == s[LeadingRun(s, 0)..LeadingRun(s, 0) + |r|]
    ensures forall i :: LeadingRun(s, 0) + |r| <= i < |s| ==> IsTrimmable(s[i])
  {
    var lead := LeadingRun(s, 0);
    var trail := TrailingRun(s, lead, |s|);
    // A kept character right after the leading run ends the trailing run before it.
    assert lead < |s| ==> trail < |s| - lead;
    assert lead == |s| ==> AllTrimmable(s);
    s[lead..|s| - trail]
  }

  /** Trimming twice is the same as trimming once. */
  lemma TrimIdempotent(s: string)
    ensures Trim(Trim(s)) == Trim(s)
  {
  }

  /** `s.startsWith(prefix)`: the text begins with the prefix, character by character. */
  predicate StartsWith(s: string, prefix: string): (b: bool)
    ensures b <==> |prefix| <= |s| && forall i :: 0 <= i < |prefix| ==> s[i] == prefix[i]
    ensures b ==> s == prefix + s[|prefix|..]
  {
    |prefix| <= |s| && s[..|prefix|] == prefix
  }
}
