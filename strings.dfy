/** String operations of JavaScript that the archive code relies on:
    `includes`, `startsWith` and `trim`. Strings are sequences of UTF-16 code units;
    every character that the code compares is in the Basic Multilingual Plane. */
module Strings {

  /** `s.startsWith(p)` */
  predicate StartsWith(s: string, p: string) {
    |p| <= |s| && s[..|p|] == p
  }

  /** `s.endsWith(p)` */
  predicate EndsWith(s: string, p: string) {
    |p| <= |s| && s[|s| - |p|..] == p
  }

  /** `s.includes(sub)`: some position of `s` starts an occurrence of `sub`. */
  predicate Contains(s: string, sub: string)
    decreases |s|
  {
    StartsWith(s, sub) || (|s| > 0 && Contains(s[1..], sub))
  }

  /** An occurrence at a known position is found by `includes`. */
  lemma {:induction false} ContainsAt(s: string, sub: string, i: nat)
    requires i + |sub| <= |s| && s[i..i + |sub|] == sub
    ensures Contains(s, sub)
    decreases i
  {
    if i == 0 {
      assert s[..|sub|] == sub;
    } else {
      assert s[1..][i - 1..i - 1 + |sub|] == s[i..i + |sub|];
      ContainsAt(s[1..], sub, i - 1);
    }
  }

  /** Every occurrence found by `includes` sits at some position. */
  lemma {:induction false} ContainsWitness(s: string, sub: string) returns (i: nat)
    requires Contains(s, sub)
    ensures i + |sub| <= |s| && s[i..i + |sub|] == sub
    decreases |s|
  {
    if StartsWith(s, sub) {
      i := 0;
    } else {
      var j := ContainsWitness(s[1..], sub);
      assert s[1..][j..j + |sub|] == s[j + 1..j + 1 + |sub|];
      i := j + 1;
    }
  }

  /** `includes` keeps its answer when text is added on either side. */
  lemma ContainsInConcat(a: string, b: string, sub: string)
    ensures Contains(a, sub) ==> Contains(a + b, sub)
    ensures Contains(b, sub) ==> Contains(a + b, sub)
  {
    if Contains(a, sub) {
      var i := ContainsWitness(a, sub);
      assert (a + b)[i..i + |sub|] == a[i..i + |sub|];
      ContainsAt(a + b, sub, i);
    }
    if Contains(b, sub) {
      var i := ContainsWitness(b, sub);
      assert (a + b)[|a| + i..|a| + i + |sub|] == b[i..i + |sub|];
      ContainsAt(a + b, sub, |a| + i);
    }
  }

  /** The characters `String.prototype.trim` removes: the ECMAScript WhiteSpace and
      LineTerminator code points. */
  predicate IsSpace(c: char) {
    c == '\t' || c == '\n' || c == '\U{B}' || c == '\U{C}' || c == '\r' || c == ' '
    || c == '\U{A0}' || c == '\U{1680}' || ('\U{2000}' <= c <= '\U{200A}')
    || c == '\U{2028}' || c == '\U{2029}' || c == '\U{202F}' || c == '\U{205F}'
    || c == '\U{3000}' || c == '\U{FEFF}'
  }

  predicate AllSpace(s: string) {
    forall i :: 0 <= i < |s| ==> IsSpace(s[i])
  }

  /** Every position of `s` from `lo` up to (not including) `hi` is white space. */
  predicate SpaceBetween(s: string, lo: int, hi: int) {
    forall i :: lo <= i < hi && 0 <= i < |s| ==> IsSpace(s[i])
  }

  /** Neither end of `s` is white space: `trim` leaves it as it is. */
  predicate IsTrimmed(s: string) {
    s == [] || (!IsSpace(s[0]) && !IsSpace(s[|s| - 1]))
  }

  /** How many white-space characters open `s`: what `trimStart` removes. */
  function Leading(s: string): (n: nat)
    ensures n <= |s| && SpaceBetween(s, 0, n)
    ensures n == |s| || !IsSpace(s[n])
  {
    if s != [] && IsSpace(s[0]) then
      var n := Leading(s[1..]);
      assert forall i :: 1 <= i < |s| ==> s[i] == s[1..][i - 1];
      n + 1
    else 0
  }

  /** How many white-space characters close `s`: what `trimEnd` removes. */
  function Trailing(s: string): (n: nat)
    ensures n <= |s| && SpaceBetween(s, |s| - n, |s|)
    ensures n == |s| || !IsSpace(s[|s| - n - 1])
  {
    if s != [] && IsSpace(s[|s| - 1]) then
      var n := Trailing(s[..|s| - 1]);
      assert forall i :: 0 <= i < |s| - 1 ==> s[i] == s[..|s| - 1][i];
      n + 1
    else 0
  }

  /** The opening white space is the run that ends at the first other character. */
  lemma LeadingUnique(s: string, m: nat)
    requires m <= |s| && SpaceBetween(s, 0, m) && (m == |s| || !IsSpace(s[m]))
    ensures Leading(s) == m
  {
    var n := Leading(s);
    assert n < |s| ==> !IsSpace(s[n]);
  }

  /** The closing white space is the run that starts after the last other character. */
  lemma TrailingUnique(s: string, m: nat)
    requires m <= |s| && SpaceBetween(s, |s| - m, |s|) && (m == |s| || !IsSpace(s[|s| - m - 1]))
    ensures Trailing(s) == m
  {
    var n := Trailing(s);
    assert n < |s| ==> !IsSpace(s[|s| - n - 1]);
  }

  /** `s.trim()`: the text between the opening and the closing white space. It has white
      space at neither end, and only white space surrounds it in `s`. */
  function Trim(s: string): (r: string)
    ensures IsTrimmed(r)
    ensures Leading(s) + |r| <= |s| && r == s[Leading(s)..Leading(s) + |r|]
    ensures SpaceBetween(s, 0, Leading(s)) && SpaceBetween(s, Leading(s) + |r|, |s|)
  {
    var a := Leading(s);
    if a == |s| then []
    else
      var b := Trailing(s);
      assert a < |s| - b by {
        assert !IsSpace(s[a]);
      }
      s[a..|s| - b]
  }

  /** White space around a trimmed text is exactly what `trim` takes away. */
  lemma TrimAround(pre: string, body: string, post: string)
    requires AllSpace(pre) && AllSpace(post) && IsTrimmed(body)
    ensures Trim(pre + body + post) == body
  {
    var s := pre + body + post;
    assert forall i :: 0 <= i < |pre| ==> s[i] == pre[i];
    assert forall i :: |pre| + |body| <= i < |s| ==> s[i] == post[i - |pre| - |body|];
    if body == [] {
      LeadingUnique(s, |s|);
    } else {
      assert s[|pre|] == body[0] && s[|pre| + |body| - 1] == body[|body| - 1];
      LeadingUnique(s, |pre|);
      TrailingUnique(s, |post|);
      assert s[|pre|..|s| - |post|] == body;
    }
  }

  /** A trimmed text is its own trim. */
  lemma TrimOfTrimmed(s: string)
    requires IsTrimmed(s)
    ensures Trim(s) == s
  {
    TrimAround([], s, []);
    assert [] + s + [] == s;
  }

  /** `s.trim() === ''` holds exactly for texts made of white space alone. */
  lemma TrimEmptyIffBlank(s: string)
    ensures Trim(s) == [] <==> AllSpace(s)
  {
    if AllSpace(s) {
      LeadingUnique(s, |s|);
    }
  }
}
