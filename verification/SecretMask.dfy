/** Masking of secrets in log text by repeated replacement. */
module SecretMask {

  const STARS := "**********"

  /** `t` stands at position `i` of `m`. */
  predicate At(m: string, t: string, i: int) {
    0 <= i && i + |t| <= |m| && forall k :: 0 <= k < |t| ==> m[i + k] == t[k]
  }

  ghost predicate Contains(m: string, t: string) { exists i :: At(m, t, i) }

  /** Replaces every non-overlapping occurrence of `s`, leftmost first. */
  function Replace(m: string, s: string): string
    requires s != ""
  {
    if m == "" then ""
    else if s <= m then STARS + Replace(m[|s|..], s)
    else [m[0]] + Replace(m[1..], s)
  }

  function Mask(m: string, secrets: seq<string>): string
    requires "" !in secrets
    decreases |secrets|
  {
    if secrets == [] then m else Mask(Replace(m, secrets[0]), secrets[1..])
  }

  /** The loop of `_mask_string`. */
  method MaskString(msg: string, secrets: seq<string>) returns (masked: string)
    requires "" !in secrets
    ensures masked == Mask(msg, secrets)
  {
    masked := msg;
    for i := 0 to |secrets|
      invariant Mask(masked, secrets[i..]) == Mask(msg, secrets)
    {
      assert secrets[i..][0] == secrets[i] && secrets[i..][1..] == secrets[i + 1..];
      if Occurs(masked, secrets[i]) {
        masked := Replace(masked, secrets[i]);
      } else {
        NothingToReplace(masked, secrets[i]);
      }
    }
  }

  /** The substring test of the source. */
  predicate Occurs(m: string, t: string)
    ensures Occurs(m, t) <==> Contains(m, t)
  {
    PrefixIsAt(m, t);
    if t <= m then true
    else if m == "" then false
    else
      ContainsTail(m, t);
      Occurs(m[1..], t)
  }

  lemma PrefixIsAt(m: string, t: string)
    ensures t <= m <==> At(m, t, 0)
  {
    if At(m, t, 0) { assert m[..|t|] == t; }
    if t <= m { assert forall k :: 0 <= k < |t| ==> m[0 + k] == t[k]; }
  }

  lemma AtTail(m: string, t: string, i: int)
    requires m != "" && i >= 0
    ensures At(m[1..], t, i) <==> At(m, t, i + 1)
  {
    if i + 1 + |t| <= |m| {
      assert forall k :: 0 <= k < |t| ==> (m[1..][i + k] == t[k] <==> m[i + 1 + k] == t[k]);
    }
  }

  /** An occurrence is a prefix, or lies in the tail. */
  lemma ContainsTail(m: string, t: string)
    requires m != ""
    ensures Contains(m, t) <==> t <= m || Contains(m[1..], t)
  {
    PrefixIsAt(m, t);
    forall i | i >= 0 ensures At(m[1..], t, i) <==> At(m, t, i + 1) { AtTail(m, t, i); }
    if Contains(m, t) {
      var i :| At(m, t, i);
      if i > 0 { assert At(m[1..], t, i - 1) <==> At(m, t, i - 1 + 1); }
    }
    if Contains(m[1..], t) {
      var i :| At(m[1..], t, i);
      assert At(m, t, i + 1);
    }
  }

  lemma {:induction false} NothingToReplace(m: string, s: string)
    requires s != "" && !Contains(m, s)
    ensures Replace(m, s) == m
  {
    if m != "" {
      ContainsTail(m, s);
      NothingToReplace(m[1..], s);
    }
  }

  lemma TooShort(m: string, s: string)
    requires |m| < |s|
    ensures !Contains(m, s) && Replace(m, s) == m
  {
    NothingToReplace(m, s);
  }

  // ----- what a secret must look like

  /** Neither empty nor started or ended by a star, and without ten stars in a row: a mask cannot complete it. */
  ghost predicate Maskable(t: string) {
    t != "" && t[0] != '*' && Closed(t)
  }

  /** Not ended by a star, and without ten stars in a row. */
  ghost predicate Closed(u: string) {
    (u != "" ==> u[|u| - 1] != '*') && !Contains(u, STARS)
  }

  lemma StarFreeIsMaskable(t: string)
    requires t != "" && '*' !in t
    ensures Maskable(t)
  {
    forall i ensures !At(t, STARS, i) {
      if 0 <= i && i + |STARS| <= |t| { assert t[i + 0] != STARS[0]; }
    }
  }

  lemma ClosedTail(u: string)
    requires Closed(u) && u != ""
    ensures Closed(u[1..])
  {
    ContainsTail(u, STARS);
  }

  lemma StarsCannotStart(u: string, rest: string)
    requires Closed(u) && u != ""
    ensures !(u <= STARS + rest)
  {
    var out := STARS + rest;
    if |u| >= |STARS| {
      assert !At(u, STARS, 0);
      var k :| 0 <= k < |STARS| && u[0 + k] != STARS[k];
      assert out[k] == STARS[k];
    } else {
      assert out[|u| - 1] == '*';
    }
  }

  /** A closed text at the front of the masked text was at the front of the original. */
  lemma {:induction false} PrefixFromOriginal(m: string, s: string, u: string)
    requires s != "" && Closed(u) && u <= Replace(m, s)
    ensures u <= m
  {
    if u != "" && m != "" {
      if s <= m {
        StarsCannotStart(u, Replace(m[|s|..], s));
      } else {
        ClosedTail(u);
        assert u[1..] <= Replace(m[1..], s);
        PrefixFromOriginal(m[1..], s, u[1..]);
      }
    }
  }

  lemma ContainsAfterStars(rest: string, t: string)
    requires t != "" && t[0] != '*' && Contains(STARS + rest, t)
    ensures Contains(rest, t)
  {
    var i :| At(STARS + rest, t, i);
    assert (STARS + rest)[i + 0] == t[0];
    assert forall k :: 0 <= k < |t| ==> rest[i - |STARS| + k] == t[k];
    assert At(rest, t, i - |STARS|);
  }

  /** A replacement never creates a maskable text that was not there. */
  lemma {:induction false} NothingNew(m: string, s: string, t: string)
    requires s != "" && Maskable(t) && Contains(Replace(m, s), t)
    ensures Contains(m, t)
  {
    if m == "" {
    } else if s <= m {
      ContainsAfterStars(Replace(m[|s|..], s), t);
      NothingNew(m[|s|..], s, t);
      ContainsDrop(m, |s|, t);
    } else {
      var out := Replace(m, s);
      assert out[1..] == Replace(m[1..], s);
      ContainsTail(out, t);
      ContainsTail(m, t);
      if t <= out { PrefixFromOriginal(m, s, t); } else { NothingNew(m[1..], s, t); }
    }
  }

  lemma ContainsDrop(m: string, k: nat, t: string)
    requires k <= |m| && Contains(m[k..], t)
    ensures Contains(m, t)
  {
    var i :| At(m[k..], t, i);
    assert forall j :: 0 <= j < |t| ==> m[k + i + j] == t[j];
    assert At(m, t, k + i);
  }

  /** A replacement removes a maskable secret. */
  lemma {:induction false} Removed(m: string, s: string)
    requires Maskable(s)
    ensures !Contains(Replace(m, s), s)
  {
    if m == "" {
    } else if s <= m {
      Removed(m[|s|..], s);
      if Contains(Replace(m, s), s) { ContainsAfterStars(Replace(m[|s|..], s), s); }
    } else {
      var out := Replace(m, s);
      assert out[1..] == Replace(m[1..], s);
      Removed(m[1..], s);
      ContainsTail(out, s);
      if s <= out { PrefixFromOriginal(m, s, s); }
    }
  }

  lemma {:induction false} MaskNothingNew(m: string, secrets: seq<string>, t: string)
    requires "" !in secrets && Maskable(t) && !Contains(m, t)
    ensures !Contains(Mask(m, secrets), t)
    decreases |secrets|
  {
    if secrets != [] {
      if Contains(Replace(m, secrets[0]), t) { NothingNew(m, secrets[0], t); }
      MaskNothingNew(Replace(m, secrets[0]), secrets[1..], t);
    }
  }

  ghost predicate AllMaskable(secrets: seq<string>) { forall t :: t in secrets ==> Maskable(t) }

  /**
   Complete: no maskable secret of the list is left in the masked text, whatever their order and overlaps and
   whatever else is on the list; a later replacement never brings back an earlier secret.
   */
  lemma {:induction false} MaskIsComplete(m: string, secrets: seq<string>)
    requires "" !in secrets
    ensures forall t :: t in secrets && Maskable(t) ==> !Contains(Mask(m, secrets), t)
    decreases |secrets|
  {
    if secrets != [] {
      var s, rest := secrets[0], secrets[1..];
      assert secrets == [s] + rest;
      MaskIsComplete(Replace(m, s), rest);
      if Maskable(s) {
        Removed(m, s);
        MaskNothingNew(Replace(m, s), rest, s);
      }
    }
  }

  /** Text without any of the secrets is left as it is. */
  lemma {:induction false} CleanTextUnchanged(m: string, secrets: seq<string>)
    requires "" !in secrets && forall t :: t in secrets ==> !Contains(m, t)
    ensures Mask(m, secrets) == m
    decreases |secrets|
  {
    if secrets != [] {
      NothingToReplace(m, secrets[0]);
      CleanTextUnchanged(m, secrets[1..]);
    }
  }

  /** Masking twice is masking once. */
  lemma MaskIsIdempotent(m: string, secrets: seq<string>)
    requires AllMaskable(secrets)
    ensures Mask(Mask(m, secrets), secrets) == Mask(m, secrets)
  {
    MaskIsComplete(m, secrets);
    CleanTextUnchanged(Mask(m, secrets), secrets);
  }

  // ----- and no other secret can be masked in every text

  lemma AtIsPrefix(m: string, t: string, i: nat)
    requires i <= |m|
    ensures At(m, t, i) <==> t <= m[i..]
  {
    PrefixIsAt(m[i..], t);
    if i + |t| <= |m| {
      assert forall k :: 0 <= k < |t| ==> (m[i..][0 + k] == t[k] <==> m[i + k] == t[k]);
    }
  }

  /** With `done` behind it, the rest of the text is copied up to the leftmost occurrence. */
  lemma {:induction false} ReplaceFrom(m: string, s: string, done: nat, p: nat)
    requires s != "" && done <= p && At(m, s, p) && forall i :: done <= i < p ==> !At(m, s, i)
    ensures Replace(m[done..], s) == m[done..p] + (STARS + Replace(m[p + |s|..], s))
    decreases p - done
  {
    AtIsPrefix(m, s, done);
    if done == p {
      assert m[done..][|s|..] == m[p + |s|..];
      assert m[done..p] == "";
    } else {
      ReplaceFrom(m, s, done + 1, p);
      assert m[done..][1..] == m[done + 1..];
      assert m[done..p] == [m[done]] + m[done + 1..p];
    }
  }

  /** Replacement keeps the text in front of the leftmost occurrence. */
  lemma ReplaceFirst(m: string, s: string, p: nat)
    requires s != "" && At(m, s, p) && forall i :: 0 <= i < p ==> !At(m, s, i)
    ensures Replace(m, s) == m[..p] + STARS + Replace(m[p + |s|..], s)
  {
    ReplaceFrom(m, s, 0, p);
    assert m[0..] == m && m[0..p] == m[..p];
  }

  lemma StartingStarSurvives(s: string) returns (m: string)
    requires s != "" && s[0] == '*'
    ensures Contains(Replace(m, s), s)
  {
    m := s + s[1..];
    assert s <= m && m[|s|..] == s[1..];
    TooShort(s[1..], s);
    NineStarsOn(s);
  }

  lemma NineStarsOn(s: string)
    requires s != "" && s[0] == '*'
    ensures Contains(STARS + s[1..], s)
  {
    var out := STARS + s[1..];
    assert forall k :: 0 <= k < |s| ==> out[9 + k] == s[k];
    assert At(out, s, 9);
  }

  /** In `s` without its last character, followed by `s`, the leftmost occurrence is the second one. */
  lemma EndingStarFirst(s: string, i: nat)
    requires s != "" && s[0] != '*' && s[|s| - 1] == '*' && i < |s| - 1
    ensures !At(s[..|s| - 1] + s, s, i)
  {
    var m := s[..|s| - 1] + s;
    assert m[i + 0] == s[i];
    assert m[i + (|s| - 1)] == s[i];
  }

  lemma EndingStarSurvives(s: string) returns (m: string)
    requires s != "" && s[0] != '*' && s[|s| - 1] == '*'
    ensures Contains(Replace(m, s), s)
  {
    var p := |s| - 1;
    m := s[..p] + s;
    assert At(m, s, p);
    forall i | 0 <= i < p ensures !At(m, s, i) { EndingStarFirst(s, i); }
    ReplaceFirst(m, s, p);
    assert m[p + |s|..] == "" && m[..p] == s[..p];
    CompletedByStar(s, s[..p] + STARS);
  }

  lemma CompletedByStar(s: string, out: string)
    requires s != "" && s[|s| - 1] == '*' && out == s[..|s| - 1] + STARS
    ensures Contains(out + "", s)
  {
    assert out + "" == out;
    assert At(out, s, 0);
  }

  lemma FirstRun(s: string) returns (p: nat)
    requires Contains(s, STARS)
    ensures At(s, STARS, p) && forall i :: 0 <= i < p ==> !At(s, STARS, i)
  {
    var q :| At(s, STARS, q);
    p := 0;
    while !At(s, STARS, p)
      invariant p <= q && forall i :: 0 <= i < p ==> !At(s, STARS, i)
      decreases q - p
    {
      p := p + 1;
    }
  }

  /** An occurrence in front of the planted one would show an earlier run of stars. */
  lemma LongRunFirst(s: string, p: nat, m: string, i: nat)
    requires At(s, STARS, p) && m == s[..p] + s + s[p + |STARS|..] && i < p && !At(s, STARS, i)
    ensures !At(m, s, i)
  {
    var k :| 0 <= k < |STARS| && s[i + k] != STARS[k];
    assert s[p + k] == STARS[k];
    assert m[i + (p + k)] == s[i + k];
  }

  lemma LongRunSurvives(s: string) returns (m: string)
    requires s != "" && s[0] != '*' && Contains(s, STARS)
    ensures Contains(Replace(m, s), s)
  {
    var p := FirstRun(s);
    m := s[..p] + s + s[p + |STARS|..];
    assert At(m, s, p);
    forall i | 0 <= i < p ensures !At(m, s, i) { LongRunFirst(s, p, m, i); }
    assert p > 0 by { assert s[0] != STARS[0]; }
    ReplaceFirst(m, s, p);
    assert m[p + |s|..] == s[p + |STARS|..] && m[..p] == s[..p];
    TooShort(s[p + |STARS|..], s);
    Reassembled(s, p);
  }

  lemma Reassembled(s: string, p: nat)
    requires At(s, STARS, p)
    ensures Contains(s[..p] + STARS + s[p + |STARS|..], s)
  {
    var out := s[..p] + STARS + s[p + |STARS|..];
    assert out == s;
    assert At(out, s, 0);
  }

  /** A single secret is removed from every text if and only if it is maskable. */
  lemma MaskableIffAlwaysRemoved(s: string)
    requires s != ""
    ensures Maskable(s) <==> forall m :: !Contains(Replace(m, s), s)
  {
    if Maskable(s) {
      forall m ensures !Contains(Replace(m, s), s) { Removed(m, s); }
    } else if s[0] == '*' {
      var m := StartingStarSurvives(s);
      assert exists m :: Contains(Replace(m, s), s);
    } else if s[|s| - 1] == '*' {
      var m := EndingStarSurvives(s);
      assert exists m :: Contains(Replace(m, s), s);
    } else {
      var m := LongRunSurvives(s);
      assert exists m :: Contains(Replace(m, s), s);
    }
  }

  // ----- what masking keeps

  /** The pieces of the text between the non-overlapping occurrences of `s`, leftmost first. */
  function Pieces(m: string, s: string): (pieces: seq<string>)
    requires s != ""
    ensures pieces != []
  {
    if m == "" then [""]
    else if s <= m then [""] + Pieces(m[|s|..], s)
    else
      var rest := Pieces(m[1..], s);
      [[m[0]] + rest[0]] + rest[1..]
  }

  function Join(pieces: seq<string>, glue: string): string
    requires pieces != []
  {
    if |pieces| == 1 then pieces[0] else pieces[0] + glue + Join(pieces[1..], glue)
  }

  lemma JoinFirst(c: char, pieces: seq<string>, glue: string)
    requires pieces != []
    ensures Join([[c] + pieces[0]] + pieces[1..], glue) == [c] + Join(pieces, glue)
  {
    var more := [[c] + pieces[0]] + pieces[1..];
    assert more[1..] == pieces[1..];
  }

  lemma JoinEmpty(pieces: seq<string>, glue: string)
    requires pieces != []
    ensures Join([""] + pieces, glue) == glue + Join(pieces, glue)
  {
    var more := [""] + pieces;
    assert more[1..] == pieces;
    assert "" + glue == glue;
  }

  /**
   Masking keeps everything around a secret: the text is its pieces with the secret between them, and the masked
   text is the same pieces with ten stars between them.
   */
  lemma {:induction false} PiecesAreKept(m: string, s: string)
    requires s != ""
    ensures Join(Pieces(m, s), s) == m && Join(Pieces(m, s), "**********") == Replace(m, s)
  {
    if m != "" {
      if s <= m {
        PiecesAreKept(m[|s|..], s);
        JoinEmpty(Pieces(m[|s|..], s), s);
        JoinEmpty(Pieces(m[|s|..], s), "**********");
        assert s + m[|s|..] == m;
      } else {
        PiecesAreKept(m[1..], s);
        JoinFirst(m[0], Pieces(m[1..], s), s);
        JoinFirst(m[0], Pieces(m[1..], s), "**********");
        assert [m[0]] + m[1..] == m;
      }
    }
  }
}
