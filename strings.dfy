/**
 * The parts of Python's `str` that the compiler relies on: `startswith` at an index,
 * `isspace`, `strip()` and `split()` with no argument, and line counting.
 */
module Strings {
  import opened Wrappers


  /** Python's `str.isspace()` on one character (the characters `strip()` and `split()` remove). */
  predicate IsSpace(c: char) {
    ('\t' <= c <= '\r') || ('\U{1C}' <= c <= '\U{1F}') || c == ' ' || c == '\U{85}' || c == '\U{A0}'
    || c == '\U{1680}' || ('\U{2000}' <= c <= '\U{200A}') || c == '\U{2028}' || c == '\U{2029}'
    || c == '\U{202F}' || c == '\U{205F}' || c == '\U{3000}'
  }

  predicate AllSpace(s: string) {
    forall k :: 0 <= k < |s| ==> IsSpace(s[k])
  }

  predicate NoSpace(s: string) {
    forall k :: 0 <= k < |s| ==> !IsSpace(s[k])
  }

  /** Neither starts nor ends with whitespace: what `strip()` returns. */
  predicate Stripped(s: string) {
    s == [] || (!IsSpace(s[0]) && !IsSpace(s[|s| - 1]))
  }

  /** Python's `s.startswith(target, i)` for `i <= len(s)`. */
  predicate StartsWithAt(s: string, target: string, i: nat)
    ensures StartsWithAt(s, target, i) <==>
      i + |target| <= |s| && forall k :: 0 <= k < |target| ==> s[i + k] == target[k]
  {
    i + |target| <= |s| && s[i..i + |target|] == target
  }

  /** The first index at or after `i` that does not hold whitespace, or `|s|`. */
  function SkipSpace(s: string, i: nat): (j: nat)
    requires i <= |s|
    ensures i <= j <= |s|
    ensures forall k :: i <= k < j ==> IsSpace(s[k])
    ensures j < |s| ==> !IsSpace(s[j])
    decreases |s| - i
  {
    if i == |s| || !IsSpace(s[i]) then i else SkipSpace(s, i + 1)
  }

  /** The first index at or after `i` that holds whitespace, or `|s|`. */
  function SkipWord(s: string, i: nat): (j: nat)
    requires i <= |s|
    ensures i <= j <= |s|
    ensures forall k :: i <= k < j ==> !IsSpace(s[k])
    ensures j < |s| ==> IsSpace(s[j])
    decreases |s| - i
  {
    if i == |s| || IsSpace(s[i]) then i else SkipWord(s, i + 1)
  }

  /** The index just past the last non-whitespace character before `j`, or 0. */
  function TrimEnd(s: string, j: nat): (b: nat)
    requires j <= |s|
    ensures b <= j
    ensures forall k :: b <= k < j ==> IsSpace(s[k])
    ensures b > 0 ==> !IsSpace(s[b - 1])
  {
    if j == 0 || !IsSpace(s[j - 1]) then j else TrimEnd(s, j - 1)
  }

  /** Python's `s.strip()`. */
  function Strip(s: string): (r: string)
    ensures Stripped(r)
    ensures r == [] <==> AllSpace(s)
  {
    var a := SkipSpace(s, 0);
    var b := TrimEnd(s, |s|);
    if b <= a then [] else s[a..b]
  }

  /** `strip()` removes only whitespace, and only from the two ends. */
  lemma StripSplit(s: string) returns (lead: string, trail: string)
    ensures s == lead + Strip(s) + trail
    ensures AllSpace(lead) && AllSpace(trail)
  {
    var a := SkipSpace(s, 0);
    var b := TrimEnd(s, |s|);
    if b <= a {
      lead, trail := s, [];
    } else {
      lead, trail := s[..a], s[b..];
      assert s == s[..a] + s[a..b] + s[b..];
    }
  }

  /** Whatever whitespace surrounds a stripped core, `strip()` returns exactly that core. */
  lemma StripUnique(s: string, lead: string, core: string, trail: string)
    requires s == lead + core + trail
    requires AllSpace(lead) && AllSpace(trail) && Stripped(core)
    ensures Strip(s) == core
  {
    var a := SkipSpace(s, 0);
    var b := TrimEnd(s, |s|);
    if core == [] {
      assert AllSpace(s) by {
        forall k | 0 <= k < |s| ensures IsSpace(s[k]) {
          if k < |lead| { assert s[k] == lead[k]; } else { assert s[k] == trail[k - |lead|]; }
        }
      }
    } else {
      assert s[|lead|] == core[0];
      assert s[|lead| + |core| - 1] == core[|core| - 1];
      assert forall k :: 0 <= k < |lead| ==> s[k] == lead[k];
      assert forall k :: |lead| + |core| <= k < |s| ==> s[k] == trail[k - |lead| - |core|];
      assert s[a..b] == core;
    }
  }

  /** `strip()` is idempotent. */
  lemma StripIdempotent(s: string)
    ensures Strip(Strip(s)) == Strip(s)
  {
    StripUnique(Strip(s), [], Strip(s), []);
  }

  /** Python's `s.split()`: the maximal runs of non-whitespace characters, in order. */
  function Split(s: string): (words: seq<string>)
    ensures forall w :: w in words ==> w != [] && NoSpace(w)
    ensures words == [] <==> AllSpace(s)
    decreases |s|
  {
    var a := SkipSpace(s, 0);
    if a == |s| then []
    else
      var b := SkipWord(s, a);
      [s[a..b]] + Split(s[b..])
  }

  /**
   * The first word of `s` at or after `i`: the run of non-whitespace characters that starts
   * at the first non-whitespace index, or `None` when there is none.
   */
  function FirstWord(s: string, i: nat): (r: Option<string>)
    requires i <= |s|
    ensures r.None? <==> AllSpace(s[i..])
    ensures r.Some? ==> r.value != [] && NoSpace(r.value)
    decreases |s| - i
  {
    if i == |s| then None
    else if IsSpace(s[i]) then FirstWord(s, i + 1)
    else Some(s[i..SkipWord(s, i)])
  }

  /** The first word lies after the leading whitespace and runs up to the next whitespace. */
  lemma {:induction false} FirstWordSkips(s: string, i: nat)
    requires i <= |s|
    ensures var a := SkipSpace(s, i);
      FirstWord(s, i) == if a == |s| then None else Some(s[a..SkipWord(s, a)])
    decreases |s| - i
  {
    if i < |s| && IsSpace(s[i]) {
      FirstWordSkips(s, i + 1);
    }
  }

  /** `split()[0]`: the first word is the head of `split()`, which is empty exactly when there is none. */
  lemma FirstWordIsSplitHead(s: string)
    ensures FirstWord(s, 0) == if Split(s) == [] then None else Some(Split(s)[0])
  {
    FirstWordSkips(s, 0);
  }

  /** The number of newline characters in `s`. */
  function Newlines(s: string): nat
  {
    if s == [] then 0 else Newlines(s[..|s| - 1]) + (if s[|s| - 1] == '\n' then 1 else 0)
  }

  /** The 1-based line on which index `i` of `s` lies. */
  function LineAt(s: string, i: nat): (line: nat)
    requires i <= |s|
    ensures line >= 1
  {
    1 + Newlines(s[..i])
  }

  /** Consuming one character moves to the next line exactly when it is a newline. */
  lemma LineAtStep(s: string, i: nat)
    requires i < |s|
    ensures LineAt(s, i + 1) == LineAt(s, i) + (if s[i] == '\n' then 1 else 0)
  {
    assert s[..i + 1][..i] == s[..i];
  }

  /** Jumping over `n` characters none of which is a newline stays on the same line. */
  lemma {:induction false} LineAtSkip(s: string, i: nat, n: nat)
    requires i + n <= |s|
    requires forall k :: i <= k < i + n ==> s[k] != '\n'
    ensures LineAt(s, i + n) == LineAt(s, i)
  {
    if n > 0 {
      LineAtSkip(s, i, n - 1);
      LineAtStep(s, i + n - 1);
    }
  }

  /** Lines never go backwards. */
  lemma {:induction false} LineAtMonotone(s: string, i: nat, j: nat)
    requires i <= j <= |s|
    ensures LineAt(s, i) <= LineAt(s, j)
    decreases j - i
  {
    if i < j {
      LineAtMonotone(s, i, j - 1);
      LineAtStep(s, j - 1);
    }
  }
}
