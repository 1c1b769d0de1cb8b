/** Character-level string operations the identifier and store code rely on:
    splitting at a separator, joining, and stripping a trailing character. */
module Text {

  /** The pieces of `parts` glued together with `sep` between neighbours. */
  function Join(parts: seq<string>, sep: char): string
    requires |parts| >= 1
  {
    if |parts| == 1 then parts[0] else parts[0] + [sep] + Join(parts[1..], sep)
  }

  /** The maximal `sep`-free pieces of `s`, left to right; the inverse of `Join`. */
  function Split(s: string, sep: char): (parts: seq<string>)
    ensures |parts| >= 1
    ensures forall p :: p in parts ==> sep !in p
    ensures Join(parts, sep) == s
    decreases |s|
  {
    if |s| == 0 then [""]
    else
      var rest := Split(s[1..], sep);
      if s[0] == sep then
        assert ([""] + rest)[1..] == rest;
        [""] + rest
      else
        var parts := [[s[0]] + rest[0]] + rest[1..];
        assert parts[1..] == rest[1..];
        assert s == [s[0]] + s[1..];
        parts
  }

  /** A string that starts with `a` and a separator holds that separator at index `|a|`. */
  lemma SeparatorAt(a: string, sep: char, x: string, b: string)
    requires |a| < |b| <= |a| + 1 + |x|
    requires (a + [sep] + x)[..|b|] == b
    ensures sep in b
  {
    assert b[|a|] == sep;
  }

  /** A separator that neither head contains fixes where the heads end. */
  lemma SplitAtFirst(a: string, x: string, b: string, y: string, sep: char)
    requires sep !in a && sep !in b
    requires a + [sep] + x == b + [sep] + y
    ensures a == b && x == y
  {
    var s := a + [sep] + x;
    if |a| < |b| {
      SeparatorAt(a, sep, x, b);
      assert false;
    } else if |b| < |a| {
      SeparatorAt(b, sep, y, a);
      assert false;
    }
    assert a == s[..|a|] == b;
    assert x == s[|a| + 1..] == y;
  }

  /** A common prefix can be cancelled. */
  lemma CancelPrefix(p: string, a: string, b: string)
    requires p + a == p + b
    ensures a == b
  {
    assert a == (p + a)[|p|..];
  }

  /** A common suffix can be cancelled. */
  lemma CancelSuffix(a: string, b: string, q: string)
    requires a + q == b + q
    ensures a == b
  {
    assert a == (a + q)[..|a|];
  }

  /** `Join` loses nothing when no piece contains the separator. */
  lemma {:induction false} JoinInjective(ps: seq<string>, qs: seq<string>, sep: char)
    requires |ps| >= 1 && |qs| >= 1
    requires forall p :: p in ps ==> sep !in p
    requires forall q :: q in qs ==> sep !in q
    requires Join(ps, sep) == Join(qs, sep)
    ensures ps == qs
    decreases |ps|
  {
    if |ps| == 1 && |qs| == 1 {
    } else if |ps| == 1 {
      SeparatorAt(qs[0], sep, Join(qs[1..], sep), ps[0]);
      assert false;
    } else if |qs| == 1 {
      SeparatorAt(ps[0], sep, Join(ps[1..], sep), qs[0]);
      assert false;
    } else {
      assert ps[0] in ps && qs[0] in qs;
      SplitAtFirst(ps[0], Join(ps[1..], sep), qs[0], Join(qs[1..], sep), sep);
      forall p | p in ps[1..] ensures sep !in p { assert p in ps; }
      forall q | q in qs[1..] ensures sep !in q { assert q in qs; }
      JoinInjective(ps[1..], qs[1..], sep);
      assert ps == [ps[0]] + ps[1..] && qs == [qs[0]] + qs[1..];
    }
  }

  /** Splitting a join of separator-free pieces gives the pieces back. */
  lemma SplitOfJoin(parts: seq<string>, sep: char)
    requires |parts| >= 1
    requires forall p :: p in parts ==> sep !in p
    ensures Split(Join(parts, sep), sep) == parts
  {
    JoinInjective(Split(Join(parts, sep), sep), parts, sep);
  }

  /** `s` with every trailing `c` removed, as Python's `s.rstrip(c)`. */
  function RStrip(s: string, c: char): (r: string)
    ensures r <= s
    ensures |r| == 0 || r[|r| - 1] != c
    ensures forall i :: |r| <= i < |s| ==> s[i] == c
    decreases |s|
  {
    if |s| == 0 || s[|s| - 1] != c then s else RStrip(s[..|s| - 1], c)
  }

  /** The three properties of `RStrip` determine its result. */
  lemma RStripUnique(s: string, c: char, r: string)
    requires r <= s
    requires |r| == 0 || r[|r| - 1] != c
    requires forall i :: |r| <= i < |s| ==> s[i] == c
    ensures r == RStrip(s, c)
  {
    var t := RStrip(s, c);
    if |r| < |t| {
      assert false;
    } else if |t| < |r| {
      assert false;
    }
    assert r == s[..|r|] == t;
  }

  /** Stripping twice strips nothing more. */
  lemma RStripIdempotent(s: string, c: char)
    ensures RStrip(RStrip(s, c), c) == RStrip(s, c)
  {
    var r := RStrip(s, c);
    RStripUnique(r, c, r);
  }
}
