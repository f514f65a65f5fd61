/** Dotted channel names and the lists of components they stand for. */
module ChannelNames {

  type Path = seq<string>

  /** `s.split(".")`. */
  function Split(s: string): (p: Path)
    ensures |p| >= 1 && Dotless(p)
  {
    if s == "" then [""]
    else
      var p := Split(s[1..]);
      if s[0] == '.' then [""] + p else [[s[0]] + p[0]] + p[1..]
  }

  /** `".".join(p)`. */
  function Join(p: Path): string {
    if p == [] then "" else if |p| == 1 then p[0] else p[0] + "." + Join(p[1..])
  }

  predicate Dotless(p: Path) {
    forall x | x in p :: '.' !in x
  }

  lemma {:induction false} JoinOfSplit(s: string)
    ensures Join(Split(s)) == s
  {
    if s != "" {
      JoinOfSplit(s[1..]);
      var p := Split(s[1..]);
      if s[0] == '.' {
        assert ([""] + p)[1..] == p;
        assert Join([""] + p) == "" + "." + Join(p);
        assert s == ['.'] + s[1..];
      } else {
        JoinOfLongerHead(s[0], p);
        assert s == [s[0]] + s[1..];
      }
    }
  }

  lemma JoinOfLongerHead(c: char, p: Path)
    requires |p| >= 1
    ensures Join([[c] + p[0]] + p[1..]) == [c] + Join(p)
  {
    var q := [[c] + p[0]] + p[1..];
    if |p| == 1 {
      assert q == [[c] + p[0]];
    } else {
      assert q[1..] == p[1..] && q[0] == [c] + p[0];
      Associative([c], p[0], ".");
      Associative([c], p[0] + ".", Join(p[1..]));
    }
  }

  lemma Associative(a: string, b: string, c: string)
    ensures (a + b) + c == a + (b + c)
  {
  }

  lemma {:induction false} SplitOfDotless(x: string)
    requires '.' !in x
    ensures Split(x) == [x]
  {
    if x != "" {
      SplitOfDotless(x[1..]);
      assert x == [x[0]] + x[1..];
    }
  }

  lemma {:induction false} SplitAtDot(x: string, rest: string)
    requires '.' !in x
    ensures Split(x + "." + rest) == [x] + Split(rest)
  {
    var s := x + "." + rest;
    if x == "" {
      assert s[1..] == rest;
    } else {
      SplitAtDot(x[1..], rest);
      assert s[1..] == x[1..] + "." + rest;
      assert x == [x[0]] + x[1..];
      assert [[s[0]] + x[1..]] + Split(rest) == [x] + Split(rest);
    }
  }

  /** Names and lists of components correspond one to one. */
  lemma {:induction false} SplitOfJoin(p: Path)
    requires |p| >= 1 && Dotless(p)
    ensures Split(Join(p)) == p
  {
    if |p| == 1 {
      SplitOfDotless(p[0]);
    } else {
      assert Dotless(p[1..]) by { assert forall x | x in p[1..] :: x in p; }
      SplitOfJoin(p[1..]);
      SplitAtDot(p[0], Join(p[1..]));
      assert p == [p[0]] + p[1..];
    }
  }

  lemma JoinIsInjective(p: Path, q: Path)
    requires |p| >= 1 && |q| >= 1 && Dotless(p) && Dotless(q) && Join(p) == Join(q)
    ensures p == q
  {
    SplitOfJoin(p);
    SplitOfJoin(q);
  }

  lemma {:induction false} JoinSnoc(p: Path, x: string)
    requires |p| >= 1
    ensures Join(p + [x]) == Join(p) + "." + x
  {
    if |p| == 1 {
      assert (p + [x])[1..] == [x];
    } else {
      JoinSnoc(p[1..], x);
      assert (p + [x])[1..] == p[1..] + [x];
      assert p[0] + "." + (Join(p[1..]) + "." + x) == (p[0] + "." + Join(p[1..])) + "." + x;
    }
  }

  // ----- The string operations of the lookup -----

  predicate StartsWith(s: string, prefix: string) {
    |prefix| <= |s| && s[..|prefix|] == prefix
  }

  /** `s.rsplit(".", 1)[:-1][0]`: what precedes the last dot. */
  function BeforeLastDot(s: string): string
    requires '.' in s
  {
    if s[|s| - 1] == '.' then s[..|s| - 1]
    else
      assert '.' in s[..|s| - 1] by { assert s == s[..|s| - 1] + [s[|s| - 1]]; }
      BeforeLastDot(s[..|s| - 1])
  }

  lemma {:induction false} BeforeLastDotOf(a: string, x: string)
    requires '.' !in x
    ensures '.' in a + "." + x && BeforeLastDot(a + "." + x) == a
    decreases |x|
  {
    var s := a + "." + x;
    assert s[|a|] == '.';
    if x == "" {
      assert s[..|s| - 1] == a;
    } else {
      var y := x[..|x| - 1];
      assert x[|x| - 1] in x && forall c | c in y :: c in x;
      BeforeLastDotOf(a, y);
      assert s[..|s| - 1] == a + "." + y;
    }
  }

  lemma LastIsDotless(p: Path)
    requires |p| >= 1 && Dotless(p)
    ensures '.' !in p[|p| - 1]
  {
    assert p[|p| - 1] in p;
  }

  lemma ParentName(p: Path)
    requires |p| >= 2 && Dotless(p)
    ensures '.' in Join(p) && BeforeLastDot(Join(p)) == Join(p[..|p| - 1])
  {
    hide Join, BeforeLastDot, Dotless;
    var q, x := p[..|p| - 1], p[|p| - 1];
    assert p == q + [x];
    LastIsDotless(p);
    JoinSnoc(q, x);
    BeforeLastDotOf(Join(q), x);
  }

  lemma StartsWithRoot(s: string, r: string)
    requires '.' !in r
    ensures StartsWith(s, r + ".") <==> |Split(s)| >= 2 && Split(s)[0] == r
  {
    if StartsWith(s, r + ".") {
      var rest := s[|r| + 1..];
      assert s == r + "." + rest;
      SplitAtDot(r, rest);
    }
    if |Split(s)| >= 2 && Split(s)[0] == r {
      JoinOfSplit(s);
      assert s == r + "." + Join(Split(s)[1..]);
      assert s[..|r| + 1] == r + ".";
    }
  }
}
