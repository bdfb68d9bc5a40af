/** Small facts about strings as sequences of characters: prefixes, suffixes
    and the first occurrence of a separator. Used to invert the fixed
    `__str__` renderings of the models. */
module Text {
  import opened Wrappers

  predicate HasPrefix(s: string, p: string) {
    |p| <= |s| && s[..|p|] == p
  }

  predicate HasSuffix(s: string, p: string) {
    |p| <= |s| && s[|s| - |p|..] == p
  }

  /** `s` with the prefix `p` removed, when `s` starts with `p`. */
  function StripPrefix(s: string, p: string): (r: Option<string>)
    ensures r.Some? <==> HasPrefix(s, p)
    ensures r.Some? ==> p + r.value == s
  {
    if HasPrefix(s, p) then
      assert p + s[|p|..] == s[..|p|] + s[|p|..];
      Some(s[|p|..])
    else None
  }

  /** `s` with the suffix `p` removed, when `s` ends with `p`. */
  function StripSuffix(s: string, p: string): (r: Option<string>)
    ensures r.Some? <==> HasSuffix(s, p)
    ensures r.Some? ==> r.value + p == s
  {
    if HasSuffix(s, p) then
      assert s[..|s| - |p|] + s[|s| - |p|..] == s;
      Some(s[..|s| - |p|])
    else None
  }

  lemma StripPrefixOfConcat(x: string, y: string)
    ensures StripPrefix(x + y, x) == Some(y)
  {
    assert (x + y)[..|x|] == x;
    assert (x + y)[|x|..] == y;
  }

  lemma StripSuffixOfConcat(x: string, y: string)
    ensures StripSuffix(x + y, y) == Some(x)
  {
    assert (x + y)[|x|..] == y;
    assert (x + y)[..|x|] == x;
  }

  /** A string ending in `y` does not end in a `p` whose last character differs from `y`'s. */
  lemma SuffixMismatch(x: string, y: string, p: string)
    requires |y| > 0 && |p| > 0 && y[|y| - 1] != p[|p| - 1]
    ensures StripSuffix(x + y, p) == None
  {
  }

  predicate OccursAt(s: string, pat: string, i: nat) {
    i + |pat| <= |s| && s[i..i + |pat|] == pat
  }

  /** The first position at or after `from` where `pat` occurs in `s`. */
  function IndexOf(s: string, pat: string, from: nat): (r: Option<nat>)
    ensures r.Some? ==> from <= r.value && OccursAt(s, pat, r.value)
    ensures r.Some? ==> forall j :: from <= j < r.value ==> !OccursAt(s, pat, j)
    ensures r.None? ==> forall j :: from <= j ==> !OccursAt(s, pat, j)
    decreases |s| - from
  {
    if from + |pat| > |s| then None
    else if s[from..from + |pat|] == pat then Some(from)
    else IndexOf(s, pat, from + 1)
  }

  /** An occurrence that starts inside `x` and fits in `x + y` is seen the same in any extension. */
  lemma OccursAtExtended(x: string, z: string, pat: string, i: nat)
    requires i + |pat| <= |x|
    ensures OccursAt(x + z, pat, i) == OccursAt(x, pat, i)
  {
    assert (x + z)[i..i + |pat|] == x[i..i + |pat|];
  }

  // ---------------------------------------------------------------------
  // Python's `str.strip()` with no argument, as Django's form CharField
  // applies it to submitted text.

  /** The characters Python's `str.isspace` accepts. */
  const WHITESPACE: set<char> := {
    '\t', '\n', '\U{000B}', '\U{000C}', '\r', '\U{001C}', '\U{001D}', '\U{001E}', '\U{001F}', ' ',
    '\U{0085}', '\U{00A0}', '\U{1680}', '\U{2000}', '\U{2001}', '\U{2002}', '\U{2003}', '\U{2004}',
    '\U{2005}', '\U{2006}', '\U{2007}', '\U{2008}', '\U{2009}', '\U{200A}', '\U{2028}', '\U{2029}',
    '\U{202F}', '\U{205F}', '\U{3000}'}

  predicate IsSpace(c: char) {
    c in WHITESPACE
  }

  /** The first index at or after `i` that does not hold whitespace (or `|s|`). */
  function SkipSpace(s: string, i: nat): (j: nat)
    requires i <= |s|
    ensures i <= j <= |s|
    ensures forall k :: i <= k < j ==> IsSpace(s[k])
    ensures j < |s| ==> !IsSpace(s[j])
    decreases |s| - i
  {
    if i < |s| && IsSpace(s[i]) then SkipSpace(s, i + 1) else i
  }

  /** The index just after the last character before `j`, and not before
      `lo`, that does not hold whitespace (or `lo`). */
  function SkipSpaceBack(s: string, lo: nat, j: nat): (e: nat)
    requires lo <= j <= |s|
    ensures lo <= e <= j
    ensures forall k :: e <= k < j ==> IsSpace(s[k])
    ensures lo < e ==> !IsSpace(s[e - 1])
    decreases j
  {
    if lo < j && IsSpace(s[j - 1]) then SkipSpaceBack(s, lo, j - 1) else j
  }

  /** How many whitespace characters `s` starts with. */
  function Lead(s: string): (n: nat)
    ensures n <= |s|
  {
    SkipSpace(s, 0)
  }

  /** `s.strip()`: the infix of `s` that starts after its leading whitespace
      and is followed only by whitespace. */
  function Trim(s: string): (r: string)
    ensures Lead(s) + |r| <= |s| && r == s[Lead(s)..Lead(s) + |r|]
    ensures forall k :: 0 <= k < Lead(s) ==> IsSpace(s[k])
    ensures forall k :: Lead(s) + |r| <= k < |s| ==> IsSpace(s[k])
    ensures r != [] ==> !IsSpace(r[0]) && !IsSpace(r[|r| - 1])
    ensures r == [] <==> forall k :: 0 <= k < |s| ==> IsSpace(s[k])
  {
    s[Lead(s)..SkipSpaceBack(s, Lead(s), |s|)]
  }

  /** Text without whitespace at either end is left as it is. */
  lemma TrimKeepsUnpadded(s: string)
    requires s != [] && !IsSpace(s[0]) && !IsSpace(s[|s| - 1])
    ensures Trim(s) == s
  {
  }

  /** Stripping twice is stripping once. */
  lemma TrimIdempotent(s: string)
    ensures Trim(Trim(s)) == Trim(s)
  {
    if Trim(s) != [] {
      TrimKeepsUnpadded(Trim(s));
    }
  }
}
