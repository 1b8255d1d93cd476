/**
 * Go's `strings.TrimSpace` over Unicode code points: leading and trailing
 * characters for which `unicode.IsSpace` holds are removed.
 */
module Text {

  /** The single white-space code points of `unicode.IsSpace`, besides the range U+2000..U+200A. */
  const SpaceChars: set<char> := {
    ' ', '\t', '\n', '\r', '\U{000B}', '\U{000C}', '\U{0085}', '\U{00A0}',
    '\U{1680}', '\U{2028}', '\U{2029}', '\U{202F}', '\U{205F}', '\U{3000}'
  }

  /** `unicode.IsSpace`: the Latin-1 spaces and the other Unicode White_Space code points. */
  predicate IsSpace(c: char) {
    c in SpaceChars || '\U{2000}' <= c <= '\U{200A}'
  }

  /** Every character of `s` is white space (the empty string included). */
  predicate AllSpace(s: string) {
    forall i :: 0 <= i < |s| ==> IsSpace(s[i])
  }

  /** The index of the first character of `s` that is not white space, or |s| when there is none. */
  function TrimStart(s: string): (k: nat)
    ensures k <= |s|
    ensures forall i :: 0 <= i < k ==> IsSpace(s[i])
    ensures k < |s| ==> !IsSpace(s[k])
  {
    if |s| > 0 && IsSpace(s[0]) then 1 + TrimStart(s[1..]) else 0
  }

  /**
   * Scanning back from `e` to `k`, over a tail `s[e..]` already known to be white
   * space: the end of the last character at or after `k` that is not white space,
   * or `k` when there is none.
   */
  function TrimEnd(s: string, k: nat, e: nat): (end: nat)
    requires k <= e <= |s|
    requires forall i :: e <= i < |s| ==> IsSpace(s[i])
    ensures k <= end <= e
    ensures forall i :: end <= i < |s| ==> IsSpace(s[i])
    ensures end > k ==> !IsSpace(s[end - 1])
    decreases e
  {
    if e > k && IsSpace(s[e - 1]) then TrimEnd(s, k, e - 1) else e
  }

  /**
   * `strings.TrimSpace`: the slice of `s` left after dropping all of its leading and
   * all of its trailing white space; neither end of the slice is white space.
   */
  function TrimSpace(s: string): (r: string)
    ensures TrimStart(s) + |r| <= |s|
    ensures r == s[TrimStart(s)..TrimStart(s) + |r|]
    ensures forall i :: 0 <= i < TrimStart(s) ==> IsSpace(s[i])
    ensures forall i :: TrimStart(s) + |r| <= i < |s| ==> IsSpace(s[i])
    ensures r != [] ==> !IsSpace(r[0]) && !IsSpace(r[|r| - 1])
  {
    var k := TrimStart(s);
    s[k..TrimEnd(s, k, |s|)]
  }

  /** A value trims to the empty string exactly when it is made of white space only. */
  lemma TrimSpaceEmptyIff(s: string)
    ensures TrimSpace(s) == "" <==> AllSpace(s)
  {
    var k := TrimStart(s);
    var r := TrimSpace(s);
    if r != "" {
      assert s[k] == r[0];
    }
  }
}
