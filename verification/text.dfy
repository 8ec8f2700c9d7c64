/** Character and string helpers shared by the intent classifier, the mock executor
    and the result view: ASCII lower-casing, substring search (JavaScript
    `String.prototype.includes`) and whitespace trimming (`String.prototype.trim`). */
module Text {

  /** Lower-cases an ASCII capital letter and leaves every other character alone. */
  function LowerChar(c: char): char
  {
    if 'A' <= c <= 'Z' then (c as int + 32) as char else c
  }

  predicate IsCapital(c: char)
  {
    'A' <= c <= 'Z'
  }

  /** `toLowerCase` on ASCII text: no capital letter remains, each capital becomes the
      letter 32 code points later, and every other character is kept. */
  function ToLower(s: string): (r: string)
    ensures |r| == |s|
    ensures forall i :: 0 <= i < |r| ==> !IsCapital(r[i])
    ensures forall i :: 0 <= i < |s| && !IsCapital(s[i]) ==> r[i] == s[i]
    ensures forall i :: 0 <= i < |s| && IsCapital(s[i]) ==> r[i] as int == s[i] as int + 32
  {
    seq(|s|, i requires 0 <= i < |s| => LowerChar(s[i]))
  }

  /** Lower-casing works character by character, so it distributes over concatenation. */
  lemma ToLowerAppend(a: string, b: string)
    ensures ToLower(a + b) == ToLower(a) + ToLower(b)
  {
  }

  predicate StartsWith(s: string, p: string)
  {
    |p| <= |s| && s[..|p|] == p
  }

  /** `p` occurs in `s` starting at index `i`. */
  predicate OccursAt(s: string, p: string, i: int)
  {
    0 <= i && i + |p| <= |s| && s[i..i + |p|] == p
  }

  /** `s.includes(p)`: the empty pattern occurs in every string. */
  predicate Contains(s: string, p: string)
  {
    exists i | 0 <= i <= |s| - |p| :: OccursAt(s, p, i)
  }

  /** The characters ECMAScript's `trim` removes: WhiteSpace and LineTerminator. */
  predicate IsWhitespace(c: char)
  {
    c in {'\t', '\n', '\U{000B}', '\U{000C}', '\r', ' ', '\U{00A0}', '\U{1680}',
          '\U{2000}', '\U{2001}', '\U{2002}', '\U{2003}', '\U{2004}', '\U{2005}',
          '\U{2006}', '\U{2007}', '\U{2008}', '\U{2009}', '\U{200A}', '\U{2028}',
          '\U{2029}', '\U{202F}', '\U{205F}', '\U{3000}', '\U{FEFF}'}
  }

  /** Drops leading whitespace: the result is the suffix of `s` that starts at
      its first non-whitespace character. */
  function TrimStart(s: string): (r: string)
    ensures |r| <= |s| && r == s[|s| - |r|..]
    ensures forall i :: 0 <= i < |s| - |r| ==> IsWhitespace(s[i])
    ensures r != [] ==> !IsWhitespace(r[0])
  {
    if s != [] && IsWhitespace(s[0]) then TrimStart(s[1..]) else s
  }

  /** Drops trailing whitespace: the result is the prefix of `s` that ends at its
      last non-whitespace character. */
  function TrimEnd(s: string): (r: string)
    ensures |r| <= |s| && r == s[..|r|]
    ensures forall i :: |r| <= i < |s| ==> IsWhitespace(s[i])
    ensures r != [] ==> !IsWhitespace(r[|r| - 1])
  {
    if s != [] && IsWhitespace(s[|s| - 1]) then TrimEnd(s[..|s| - 1]) else s
  }

  function Trim(s: string): string
  {
    TrimEnd(TrimStart(s))
  }

  /** A string trims to nothing exactly when every character is whitespace. */
  lemma TrimEmptyIffBlank(s: string)
    ensures Trim(s) == [] <==> forall i :: 0 <= i < |s| ==> IsWhitespace(s[i])
  {
    var t := TrimStart(s);
    if Trim(s) == [] {
      forall i | 0 <= i < |s|
        ensures IsWhitespace(s[i])
      {
        if i >= |s| - |t| {
          assert s[i] == t[i - (|s| - |t|)];
        }
      }
    } else {
      var k := |s| - |t|;
      assert t[0] == s[k];
    }
  }

  /** Trimming keeps the first non-whitespace character at the front. */
  lemma TrimKeepsFirst(s: string)
    requires s != [] && !IsWhitespace(s[0])
    ensures Trim(s) != [] && Trim(s)[0] == s[0]
  {
    assert TrimStart(s) == s;
  }

  /** Text that does not begin with whitespace loses nothing at the front. */
  lemma TrimStartUnpadded(s: string)
    requires s != [] && !IsWhitespace(s[0])
    ensures TrimStart(s) == s
  {
  }

  /** `s.trim().startsWith("--")` agrees with looking at `s` without its leading
      whitespace: trimming the end cannot reach a leading "--". */
  lemma TrimStartsWithDashes(s: string)
    ensures StartsWith(Trim(s), "--") <==> StartsWith(TrimStart(s), "--")
  {
    var t := TrimStart(s);
    var u := TrimEnd(t);
    if StartsWith(t, "--") {
      assert t[1] == '-' && !IsWhitespace(t[1]);
      assert u[..2] == t[..2];
    }
    if StartsWith(u, "--") {
      assert u[..2] == t[..2];
    }
  }

  lemma StartsWithAppend(a: string, b: string, p: string)
    requires StartsWith(a, p)
    ensures StartsWith(a + b, p)
  {
    assert (a + b)[..|p|] == a[..|p|];
  }

  /** A prefix of a prefix is a prefix. */
  lemma StartsWithPrefix(s: string, p: string, q: string)
    requires StartsWith(s, p) && StartsWith(p, q)
    ensures StartsWith(s, q)
  {
    assert s[..|q|] == p[..|q|];
  }

  /** Two prefixes that differ in their first character cannot both start `s`. */
  lemma StartsWithDiffer(s: string, p: string, q: string)
    requires StartsWith(s, p) && p != [] && q != [] && p[0] != q[0]
    ensures !StartsWith(s, q)
  {
    assert s[0] == s[..|p|][0];
  }

  lemma OccursAtContains(s: string, p: string, i: int)
    requires OccursAt(s, p, i)
    ensures Contains(s, p)
  {
  }

  /** An occurrence inside either half is an occurrence inside the concatenation. */
  lemma ContainsAppend(a: string, b: string, p: string)
    ensures Contains(a, p) || Contains(b, p) ==> Contains(a + b, p)
  {
    if Contains(a, p) {
      var i :| 0 <= i <= |a| - |p| && OccursAt(a, p, i);
      assert (a + b)[i..i + |p|] == a[i..i + |p|];
      OccursAtContains(a + b, p, i);
    } else if Contains(b, p) {
      var i :| 0 <= i <= |b| - |p| && OccursAt(b, p, i);
      assert (a + b)[|a| + i..|a| + i + |p|] == b[i..i + |p|];
      OccursAtContains(a + b, p, |a| + i);
    }
  }

  /** A pattern cannot occur in a string that lacks one of its characters. */
  lemma MissingCharExcludes(s: string, p: string, c: char)
    requires c in p && c !in s
    ensures !Contains(s, p)
  {
    var k :| 0 <= k < |p| && p[k] == c;
    forall i | 0 <= i <= |s| - |p|
      ensures !OccursAt(s, p, i)
    {
      assert s[i..i + |p|][k] == s[i + k];
    }
  }

  /** When `a` ends in a character the pattern does not use, no occurrence can
      straddle the seam of `a + b`. */
  lemma SeparatedAppend(a: string, b: string, p: string)
    requires a != [] && a[|a| - 1] !in p
    ensures Contains(a + b, p) <==> Contains(a, p) || Contains(b, p)
  {
    ContainsAppend(a, b, p);
    if Contains(a + b, p) {
      var s := a + b;
      var i :| 0 <= i <= |s| - |p| && OccursAt(s, p, i);
      assert forall j | i <= j < i + |p| :: s[j] == p[j - i];
      assert s[|a| - 1] !in p;
      if i + |p| < |a| {
        assert a[i..i + |p|] == s[i..i + |p|];
        OccursAtContains(a, p, i);
      } else {
        assert b[i - |a|..i - |a| + |p|] == s[i..i + |p|];
        OccursAtContains(b, p, i - |a|);
      }
    }
  }

  /** No occurrence in either part and no occurrence across a separating seam. */
  lemma NotContainsAppend(a: string, b: string, p: string)
    requires !Contains(a, p) && !Contains(b, p)
    requires a != [] && a[|a| - 1] !in p
    ensures !Contains(a + b, p)
  {
    SeparatedAppend(a, b, p);
  }
}
