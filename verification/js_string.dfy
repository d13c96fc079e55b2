/** The JavaScript string operations the page relies on: `toLowerCase`,
    `indexOf`, `includes`, and `replace` with a string pattern (which replaces
    the first occurrence only). */
module JsString {
  import opened Types

  predicate IsUpper(c: char) {
    'A' <= c <= 'Z'
  }

  function LowerChar(c: char): char {
    if IsUpper(c) then (c as int + 32) as char else c
  }

  /** No character of `s` is an upper-case letter. */
  predicate NoUpper(s: string) {
    forall i :: 0 <= i < |s| ==> !IsUpper(s[i])
  }

  /** `s.toLowerCase()`, restricted to the ASCII letters: every code unit
      is mapped on its own, so the length is kept. */
  function ToLowerCase(s: string): (r: string)
    ensures |r| == |s|
    ensures NoUpper(r)
  {
    seq(|s|, i requires 0 <= i < |s| => LowerChar(s[i]))
  }

  /** Lower-casing fixes every character that is not an upper-case letter,
      and in particular a '.' stays a '.' and nothing else becomes one. */
  lemma LowerKeepsChar(s: string, i: int, c: char)
    requires 0 <= i < |s| && !IsUpper(c)
    ensures ToLowerCase(s)[i] == c <==> s[i] == c || (IsUpper(s[i]) && LowerChar(s[i]) == c)
  {
  }

  /** Lower-casing an already lower-case string changes nothing. */
  lemma LowerIdempotent(s: string)
    requires NoUpper(s)
    ensures ToLowerCase(s) == s
  {
  }

  /** Slices and concatenations of lower-case strings are lower-case. */
  lemma NoUpperSplice(a: string, b: string, c: string, i: int, j: int)
    requires NoUpper(a) && NoUpper(b) && NoUpper(c) && 0 <= i <= j <= |c|
    ensures NoUpper(a + b + c[i..j])
  {
    var r := a + b + c[i..j];
    forall k | 0 <= k < |r| ensures !IsUpper(r[k]) {
      if k < |a| { assert r[k] == a[k]; }
      else if k < |a| + |b| { assert r[k] == b[k - |a|]; }
      else { assert r[k] == c[i + k - |a| - |b|]; }
    }
  }

  /** `p` occurs in `s` starting at index `i`. */
  predicate OccursAt(s: string, p: string, i: int) {
    0 <= i && i + |p| <= |s| && s[i..i + |p|] == p
  }

  /** `i` is the first index at which `p` occurs in `s`. */
  predicate IsFirst(s: string, p: string, i: int) {
    OccursAt(s, p, i) && forall j :: 0 <= j < i ==> !OccursAt(s, p, j)
  }

  lemma FirstIsUnique(s: string, p: string, i: int, j: int)
    requires IsFirst(s, p, i) && IsFirst(s, p, j)
    ensures i == j
  {
  }

  /** A one-character pattern occurs exactly where that character stands. */
  lemma OccursAtChar(s: string, c: char, i: int)
    ensures OccursAt(s, [c], i) <==> 0 <= i < |s| && s[i] == c
  {
    if 0 <= i < |s| && s[i] == c {
      assert s[i..i + 1] == [c];
    }
  }

  /** Where a pattern occurs, the string holds the pattern's characters. */
  lemma OccursAtIndex(s: string, p: string, i: int, k: int)
    requires OccursAt(s, p, i) && 0 <= k < |p|
    ensures s[i + k] == p[k]
  {
    assert s[i..i + |p|][k] == s[i + k];
  }

  /** Search for `p` in `s` from index `k` on. */
  function IndexFrom(s: string, p: string, k: nat): (r: Option<nat>)
    decreases |s| - k
    ensures r.Some? ==> k <= r.value && OccursAt(s, p, r.value)
    ensures r.Some? ==> forall j :: k <= j < r.value ==> !OccursAt(s, p, j)
    ensures r.None? ==> forall j :: k <= j ==> !OccursAt(s, p, j)
  {
    if k + |p| > |s| then None
    else if s[k..k + |p|] == p then Some(k)
    else IndexFrom(s, p, k + 1)
  }

  /** `s.indexOf(p)`, with `None` for JavaScript's -1. */
  function IndexOf(s: string, p: string): (r: Option<nat>)
    ensures r.Some? <==> exists i :: OccursAt(s, p, i)
    ensures r.Some? ==> IsFirst(s, p, r.value)
  {
    IndexFrom(s, p, 0)
  }

  /** `s.includes(p)`. */
  function Includes(s: string, p: string): (b: bool)
    ensures b <==> exists i :: OccursAt(s, p, i)
  {
    IndexOf(s, p).Some?
  }

  /** `s.replace(p, rep)` for a string pattern: only the first occurrence of
      `p` is replaced, and a string without `p` comes back unchanged. `rep`
      is spliced in literally: the `$&`, `$$`, `` $` `` and `$'` patterns
      JavaScript expands in a replacement string are not modelled, which
      makes no difference for replacements without a '$'. */
  function Replace(s: string, p: string, rep: string): (r: string)
    ensures forall i :: IsFirst(s, p, i) ==> r == s[..i] + rep + s[i + |p|..]
    ensures (forall i :: !OccursAt(s, p, i)) ==> r == s
  {
    match IndexOf(s, p)
    case Some(i) => s[..i] + rep + s[i + |p|..]
    case None => s
  }

  /** Replacing with a lower-case string keeps a lower-case string lower-case. */
  lemma ReplaceKeepsNoUpper(s: string, p: string, rep: string)
    requires NoUpper(s) && NoUpper(rep)
    ensures NoUpper(Replace(s, p, rep))
  {
    match IndexOf(s, p)
    case Some(i) =>
      assert s[..i] == s[..i][0..i];
      NoUpperSplice(s[..i], rep, s, i + |p|, |s|);
      assert s[i + |p|..|s|] == s[i + |p|..];
    case None =>
  }
}
