/** Path.Combine as the logger uses it on Windows: joins components with a
    backslash, skips empty ones and restarts at a rooted one. */
module Paths {

  const DirectorySeparator: char := '\\'
  const AltDirectorySeparator: char := '/'
  const VolumeSeparator: char := ':'

  predicate IsSeparator(c: char) {
    c == DirectorySeparator || c == AltDirectorySeparator
  }

  /** A path that starts at a root: "\x", "/x" or a drive such as "C:x". */
  predicate IsRooted(p: string) {
    (|p| >= 1 && IsSeparator(p[0])) || (|p| >= 2 && p[1] == VolumeSeparator)
  }

  /** An empty component leaves the other path; a rooted `b` replaces `a`;
      otherwise `a` stays in front, followed by a separator when it has none. */
  function Combine(a: string, b: string): (r: string)
    ensures b == [] ==> r == a
    ensures a == [] ==> r == b
    ensures b != [] && IsRooted(b) ==> r == b
    ensures b != [] && !IsRooted(b) ==> |a| < |r| && r[..|a|] == a
  {
    if b == [] then a
    else if a == [] then b
    else if IsRooted(b) then b
    else if IsSeparator(a[|a| - 1]) || a[|a| - 1] == VolumeSeparator then a + b
    else a + [DirectorySeparator] + b
  }

  predicate EndsWith(s: string, suffix: string) {
    |suffix| <= |s| && s[|s| - |suffix|..] == suffix
  }

  /** A relative, non-empty last component is always the tail of the combined path. */
  lemma CombineEndsWith(a: string, b: string)
    requires b != [] && !IsRooted(b)
    ensures EndsWith(Combine(a, b), b)
  {
  }

  /** Under one parent, relative components give equal paths only when they
      are equal: what precedes the component depends on the parent alone. */
  lemma CombineInjective(a: string, b1: string, b2: string)
    requires b1 != [] && !IsRooted(b1) && b2 != [] && !IsRooted(b2)
    ensures Combine(a, b1) == Combine(a, b2) <==> b1 == b2
  {
    CombineEndsWith(a, b1);
    CombineEndsWith(a, b2);
  }
}
