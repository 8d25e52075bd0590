/**
 * The JavaScript string operations the controllers and import scripts rely on:
 * `trim`, `indexOf`, `split(sep)[0]` / `split(sep)[1]`, `includes` and `substring(0, n)`,
 * over strings of Unicode scalar values.
 */
module JsText {
  import opened Wrappers

  /** The code points JavaScript counts as white space or line terminators: the set that
      `String.prototype.trim` removes and that the regular-expression class `\s` matches. */
  predicate IsSpace(c: char) {
    || c == '\t' || c == '\n' || c == '\U{000B}' || c == '\U{000C}' || c == '\r' || c == ' '
    || c == '\U{00A0}' || c == '\U{1680}' || ('\U{2000}' <= c <= '\U{200A}')
    || c == '\U{2028}' || c == '\U{2029}' || c == '\U{202F}' || c == '\U{205F}'
    || c == '\U{3000}' || c == '\U{FEFF}'
  }

  predicate IsAsciiLetter(c: char) { 'A' <= c <= 'Z' || 'a' <= c <= 'z' }

  predicate IsAsciiDigit(c: char) { '0' <= c <= '9' }

  predicate IsAsciiAlnum(c: char) { IsAsciiLetter(c) || IsAsciiDigit(c) }

  /** Lower-cases an ASCII letter and leaves every other character alone. */
  function AsciiLower(c: char): (r: char)
    ensures IsAsciiLetter(c) <==> IsAsciiLetter(r)
    ensures !IsAsciiLetter(c) ==> r == c
  {
    if 'A' <= c <= 'Z' then (c as int + 32) as char else c
  }

  /** JavaScript truthiness of an optional string: present and not empty. */
  predicate Truthy(o: Option<string>) { o.Some? && o.value != "" }

  /** `o || fallback` for an optional string. */
  function OrElse(o: Option<string>, fallback: string): (r: string)
    ensures Truthy(o) ==> r == o.value
    ensures !Truthy(o) ==> r == fallback
  {
    if Truthy(o) then o.value else fallback
  }

  /** How many white-space characters `s` starts with. */
  function LeadingSpaces(s: string): (n: nat)
    ensures n <= |s|
    ensures forall i :: 0 <= i < n ==> IsSpace(s[i])
    ensures n < |s| ==> !IsSpace(s[n])
  {
    if s != [] && IsSpace(s[0]) then 1 + LeadingSpaces(s[1..]) else 0
  }

  /** How many white-space characters `s` ends with. */
  function TrailingSpaces(s: string): (n: nat)
    ensures n <= |s|
    ensures forall i :: |s| - n <= i < |s| ==> IsSpace(s[i])
    ensures n < |s| ==> !IsSpace(s[|s| - 1 - n])
  {
    if s != [] && IsSpace(s[|s| - 1]) then 1 + TrailingSpaces(s[..|s| - 1]) else 0
  }

  /** `s.trimStart()`: drops the leading white space and nothing else. */
  function TrimStart(s: string): (r: string)
    ensures |r| <= |s| && r == s[|s| - |r|..]
    ensures r == [] || !IsSpace(r[0])
    ensures forall i :: 0 <= i < |s| - |r| ==> IsSpace(s[i])
  {
    s[LeadingSpaces(s)..]
  }

  /** `s.trim()`: the piece of `s` left once white space is dropped from both ends. */
  function Trim(s: string): (r: string)
    ensures LeadingSpaces(s) + |r| <= |s|
    ensures r == [] || (!IsSpace(r[0]) && !IsSpace(r[|r| - 1]))
    ensures r == s[LeadingSpaces(s)..LeadingSpaces(s) + |r|]
    ensures r == [] <==> forall i :: 0 <= i < |s| ==> IsSpace(s[i])
  {
    var t := TrimStart(s);
    var n := TrailingSpaces(t);
    assert t != [] ==> n < |t| by {
      if t != [] { assert !IsSpace(t[0]); }
    }
    t[..|t| - n]
  }

  /** Trimming twice is trimming once. */
  lemma TrimIdempotent(s: string)
    ensures Trim(Trim(s)) == Trim(s)
  {
    var r := Trim(s);
    assert LeadingSpaces(r) == 0;
    assert TrailingSpaces(r[LeadingSpaces(r)..]) == 0;
  }

  /** A text that neither starts nor ends with white space is its own trim. */
  lemma TrimUnpadded(core: string)
    requires core != [] && !IsSpace(core[0]) && !IsSpace(core[|core| - 1])
    ensures Trim(core) == core
  {
    assert LeadingSpaces(core) == 0;
    assert TrailingSpaces(core) == 0;
  }

  /** One space before or after a text that neither starts nor ends with white space is
      trimmed away. */
  lemma TrimPadding(core: string)
    requires core != [] && !IsSpace(core[0]) && !IsSpace(core[|core| - 1])
    ensures Trim(core + " ") == core
    ensures Trim(" " + core) == core
  {
    assert LeadingSpaces(core + " ") == 0;
    assert (core + " ")[..|core|] == core;
    assert TrailingSpaces(core) == 0;
    assert TrailingSpaces(core + " ") == 1;
    assert (" " + core)[1..] == core;
    assert LeadingSpaces(core) == 0;
    assert LeadingSpaces(" " + core) == 1;
  }

  /** `pat` occurs in `s` starting at index `i`. */
  predicate OccursAt(s: string, pat: string, i: nat) {
    i + |pat| <= |s| && s[i..i + |pat|] == pat
  }

  /** The first index at or after `from` where `pat` occurs in `s`. */
  function IndexFrom(s: string, pat: string, from: nat): (r: Option<nat>)
    decreases |s| - from
    ensures r.Some? ==> from <= r.value && OccursAt(s, pat, r.value)
    ensures r.Some? ==> forall j :: from <= j < r.value ==> !OccursAt(s, pat, j)
    ensures r.None? ==> forall j :: from <= j ==> !OccursAt(s, pat, j)
  {
    if from + |pat| > |s| then None
    else if s[from..from + |pat|] == pat then Some(from)
    else IndexFrom(s, pat, from + 1)
  }

  /** `s.indexOf(pat)`, with `None` for JavaScript's -1: the leftmost occurrence. */
  function IndexOf(s: string, pat: string): (r: Option<nat>)
    ensures r.Some? ==> OccursAt(s, pat, r.value) && forall j: nat :: j < r.value ==> !OccursAt(s, pat, j)
    ensures r.None? ==> forall j: nat :: !OccursAt(s, pat, j)
  {
    IndexFrom(s, pat, 0)
  }

  /** The first occurrence is the one `indexOf` reports. */
  lemma IndexOfFirst(s: string, pat: string, i: nat)
    requires OccursAt(s, pat, i)
    requires forall j :: 0 <= j < i ==> !OccursAt(s, pat, j)
    ensures IndexOf(s, pat) == Some(i)
  {
  }

  /** `s.includes(pat)`, which for a non-empty separator is also `s.split(pat).length > 1`. */
  predicate Contains(s: string, pat: string) {
    IndexOf(s, pat).Some?
  }

  /** An occurrence inside a prefix of `s` is an occurrence in `s`. */
  lemma OccursInPrefix(s: string, pat: string, k: nat, j: nat)
    requires k <= |s| && OccursAt(s[..k], pat, j)
    ensures OccursAt(s, pat, j)
  {
    assert s[..k][j..j + |pat|] == s[j..j + |pat|];
  }

  /** `s.split(sep)[0]`: the text before the first `sep`, or all of `s` when there is none. */
  function SplitHead(s: string, sep: string): (r: string)
    requires sep != []
    ensures |r| <= |s| && r == s[..|r|]
    ensures Contains(s, sep) <==> |r| < |s|
    ensures Contains(s, sep) ==> OccursAt(s, sep, |r|)
    ensures forall j :: !OccursAt(r, sep, j)
  {
    match IndexOf(s, sep)
    case None => s
    case Some(i) =>
      assert forall j :: !OccursAt(s[..i], sep, j) by {
        forall j | OccursAt(s[..i], sep, j) ensures false {
          OccursInPrefix(s, sep, i, j);
        }
      }
      s[..i]
  }

  /** `s.split(sep)[1]`: the text between the first and second `sep` (or up to the end),
      `None` when `sep` does not occur, as JavaScript's `undefined`. */
  function SplitSecond(s: string, sep: string): (r: Option<string>)
    requires sep != []
    ensures r.Some? <==> Contains(s, sep)
    ensures r.Some? ==> forall j :: !OccursAt(r.value, sep, j)
  {
    match IndexOf(s, sep)
    case None => None
    case Some(i) => Some(SplitHead(s[i + |sep|..], sep))
  }

  /** `s.substring(0, n)`: the first `n` characters, or all of `s` when it is shorter. */
  function Take(s: string, n: nat): (r: string)
    ensures |r| == if n <= |s| then n else |s|
    ensures r == s[..|r|]
  {
    if n <= |s| then s[..n] else s
  }
}
