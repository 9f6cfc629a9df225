/** How the scheduler spells symbols: upper case, without blanks at either end (ASCII letters and blanks). */
module SymbolNames {

  predicate IsBlank(c: char) { c == ' ' || 9 <= c as int <= 13 || 28 <= c as int <= 31 }

  function UpperChar(c: char): char { if 'a' <= c <= 'z' then (c as int - 32) as char else c }

  function Upper(s: string): string { seq(|s|, i requires 0 <= i < |s| => UpperChar(s[i])) }

  function StripFront(s: string): (r: string)
    ensures |r| <= |s| && r == s[|s| - |r|..]
    ensures r == [] || !IsBlank(r[0])
  {
    if s != [] && IsBlank(s[0]) then StripFront(s[1..]) else s
  }

  function StripBack(s: string): (r: string)
    ensures |r| <= |s| && r == s[..|r|]
    ensures r == [] || !IsBlank(r[|r| - 1])
  {
    if s != [] && IsBlank(s[|s| - 1]) then StripBack(s[..|s| - 1]) else s
  }

  function Clean(s: string): string { StripBack(StripFront(Upper(s))) }

  /** A clean name has no lower-case letter, and no blank at either end. */
  predicate IsClean(s: string) {
    AllUpper(s) && (s == [] || (!IsBlank(s[0]) && !IsBlank(s[|s| - 1])))
  }

  predicate AllUpper(s: string) { forall i :: 0 <= i < |s| ==> UpperChar(s[i]) == s[i] }

  lemma UpperIsUpper(s: string)
    ensures AllUpper(Upper(s))
  {
  }

  lemma PartStaysUpper(s: string, i: nat, j: nat)
    requires AllUpper(s) && i <= j <= |s|
    ensures AllUpper(s[i..j])
  {
  }

  /** What stripping both ends leaves of an upper-case text. */
  lemma StrippedIsClean(u: string, f: string, r: string)
    requires AllUpper(u) && |f| <= |u| && f == u[|u| - |f|..] && (f == [] || !IsBlank(f[0]))
    requires |r| <= |f| && r == f[..|r|] && (r == [] || !IsBlank(r[|r| - 1]))
    ensures IsClean(r)
  {
    PartStaysUpper(u, |u| - |f|, |u|);
    PartStaysUpper(f, 0, |r|);
    if r != [] { assert r[0] == f[0]; }
  }

  lemma FrontPart(u: string, f: string)
    requires f == StripFront(u)
    ensures |f| <= |u| && f == u[|u| - |f|..] && (f == [] || !IsBlank(f[0]))
  {
  }

  lemma BackPart(f: string, r: string)
    requires r == StripBack(f)
    ensures |r| <= |f| && r == f[..|r|] && (r == [] || !IsBlank(r[|r| - 1]))
  {
  }

  lemma CleanFrom(u: string, f: string, r: string)
    requires AllUpper(u) && f == StripFront(u) && r == StripBack(f)
    ensures IsClean(r)
  {
    FrontPart(u, f);
    BackPart(f, r);
    StrippedIsClean(u, f, r);
  }

  lemma CleanIsClean(s: string)
    ensures IsClean(Clean(s))
  {
    var u := Upper(s);
    UpperIsUpper(s);
    CleanFrom(u, StripFront(u), StripBack(StripFront(u)));
  }

  /** Cleaning changes exactly the names that are not clean. */
  lemma CleanFixesClean(s: string)
    ensures Clean(s) == s <==> IsClean(s)
  {
    CleanIsClean(s);
    if IsClean(s) { assert Upper(s) == s; }
  }

  /** A lower-case letter becomes the capital of the same place in the alphabet, and nothing else changes. */
  lemma CapitalOf(c: char)
    ensures 'a' <= c <= 'z' ==>
      'A' <= UpperChar(c) <= 'Z' && UpperChar(c) as int - 'A' as int == c as int - 'a' as int
    ensures !('a' <= c <= 'z') ==> UpperChar(c) == c
  {
  }

  /** The blanks: the space, tab to carriage return, and the four separators. */
  lemma BlanksAre(c: char)
    ensures IsBlank(c) <==> c as int in {9, 10, 11, 12, 13, 28, 29, 30, 31, 32}
  {
  }

  ghost predicate AllBlank(s: string) { forall i :: 0 <= i < |s| ==> IsBlank(s[i]) }

  lemma {:induction false} FrontIsBlank(s: string)
    ensures AllBlank(s[..|s| - |StripFront(s)|])
  {
    if s != [] && IsBlank(s[0]) {
      FrontIsBlank(s[1..]);
      var k := |s| - |StripFront(s)|;
      forall i | 0 <= i < k ensures IsBlank(s[i]) {
        if i > 0 { assert s[i] == s[1..][..k - 1][i - 1]; }
      }
    }
  }

  lemma {:induction false} BackIsBlank(s: string)
    ensures AllBlank(s[|StripBack(s)|..])
  {
    if s != [] && IsBlank(s[|s| - 1]) {
      var k := |StripBack(s)|;
      BackIsBlank(s[..|s| - 1]);
      forall i | k <= i < |s| ensures IsBlank(s[i]) {
        if i < |s| - 1 { assert s[i] == s[..|s| - 1][k..][i - k]; }
      }
    }
  }

  /** Cleaning capitalises every character and cuts blanks, and only blanks, off both ends. */
  lemma CleanIsMiddle(s: string) returns (i: nat, j: nat)
    ensures i <= j <= |s| && Clean(s) == Upper(s)[i..j]
    ensures AllBlank(Upper(s)[..i]) && AllBlank(Upper(s)[j..])
  {
    i, j := MiddleOfUpper(Upper(s));
  }

  lemma MiddleOfUpper(u: string) returns (i: nat, j: nat)
    ensures i <= j <= |u| && StripBack(StripFront(u)) == u[i..j] && AllBlank(u[..i]) && AllBlank(u[j..])
  {
    var f := StripFront(u);
    var r := StripBack(f);
    i := |u| - |f|;
    j := i + |r|;
    FrontIsBlank(u);
    BackIsBlank(f);
    MiddleOf(u, f, r, i, j);
  }

  lemma MiddleOf(u: string, f: string, r: string, i: nat, j: nat)
    requires i + |f| == |u| && f == u[i..] && |r| <= |f| && r == f[..|r|] && j == i + |r| && AllBlank(f[|r|..])
    ensures r == u[i..j] && AllBlank(u[j..])
  {
    assert u[j..] == f[|r|..];
  }
}
