/**
 * The part of java.lang.String the plugin relies on: trim(), isEmpty(), and
 * the way string concatenation renders a null reference. A Java string is a
 * sequence of UTF-16 code units; here it is a seq<char>, a sequence of
 * Unicode scalar values, so a character outside the Basic Multilingual Plane
 * is one char here and two code units in Java.
 */
module JavaStrings {
  import opened Wrappers

  /** String.trim() removes every leading and trailing char at or below U+0020. */
  predicate Trimmable(c: char) {
    c <= ' '
  }

  /** Reference definition: every char of `s` is one that trim() removes. */
  predicate AllTrimmable(s: string) {
    forall i :: 0 <= i < |s| ==> Trimmable(s[i])
  }

  /** The leading scan of trim(): drop chars from the front while they are trimmable. */
  function TrimStart(s: string): (r: string)
    ensures |r| <= |s| && r == s[|s| - |r|..]
    ensures forall i :: 0 <= i < |s| - |r| ==> Trimmable(s[i])
    ensures r != [] ==> !Trimmable(r[0])
  {
    if |s| > 0 && Trimmable(s[0]) then TrimStart(s[1..]) else s
  }

  /** The trailing scan of trim(): drop chars from the back while they are trimmable. */
  function TrimEnd(s: string): (r: string)
    ensures |r| <= |s| && r == s[..|r|]
    ensures forall i :: |r| <= i < |s| ==> Trimmable(s[i])
    ensures r != [] ==> !Trimmable(r[|r| - 1])
  {
    if |s| > 0 && Trimmable(s[|s| - 1]) then TrimEnd(s[..|s| - 1]) else s
  }

  /** String.trim(): the leading scan first, then the trailing scan on what is left. */
  function Trim(s: string): string {
    TrimEnd(TrimStart(s))
  }

  /** `text.trim().isEmpty()` */
  predicate IsBlank(s: string) {
    |Trim(s)| == 0
  }

  /** A string is blank in Java's sense exactly when every char of it is at or below U+0020. */
  lemma BlankIffAllTrimmable(s: string)
    ensures IsBlank(s) <==> AllTrimmable(s)
  {
    // Follows from the contracts of TrimStart and TrimEnd: when the leading
    // scan leaves anything, its first char is not trimmable, so the trailing
    // scan stops at or after it.
  }

  /** How `"..." + s` renders `s` when it may be null. */
  function Render(s: Option<string>): (r: string)
    ensures s.Some? ==> r == s.value
    ensures s.None? ==> r == "null"
  {
    match s
    case Some(v) => v
    case None => "null"
  }
}
