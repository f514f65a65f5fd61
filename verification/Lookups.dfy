/** Which channel a name stands for, given the paths of the channels that exist. */
module Lookups {
  import opened Channels
  import opened ChannelNames

  const ROOT := "root"

  ghost predicate Closed(paths: set<Path>) {
    && [ROOT] in paths
    && forall p | p in paths :: |p| >= 1 && p[0] == ROOT && Dotless(p) && (|p| >= 2 ==> p[..|p| - 1] in paths)
  }

  /** The components of a channel name, made to start at the root. */
  function Normal(name: Option<string>): (p: Path)
    ensures |p| >= 1 && p[0] == ROOT && Dotless(p)
  {
    if name.None? || name.value == "" || name.value == ROOT then [ROOT]
    else
      var p := Split(name.value);
      if |p| >= 2 && p[0] == ROOT then p else [ROOT] + p
  }

  /** The first registered path found by dropping components from the end; the root if there is none. */
  ghost function Fallback(paths: set<Path>, p: Path): Path
    requires |p| >= 2
  {
    var q := p[..|p| - 1];
    if |q| == 1 || q in paths then q else Fallback(paths, q)
  }

  /** The path of the channel that a lookup of `p` returns. */
  ghost function Target(paths: set<Path>, p: Path, fallback: bool): Path
    requires |p| >= 1 && (p !in paths ==> |p| >= 2)
  {
    if p in paths then p
    else (if fallback then Fallback(paths, p) else [ROOT]) + p[1..]
  }

  ghost function Prefixes(p: Path): set<Path> {
    set n | 1 <= n <= |p| :: p[..n]
  }

  /** The fallback is the longest registered proper prefix. */
  lemma {:induction false} FallbackIsLongest(paths: set<Path>, p: Path)
    requires [ROOT] in paths && |p| >= 2 && p[0] == ROOT
    ensures var f := Fallback(paths, p);
      f in paths && 1 <= |f| < |p| && f == p[..|f|] && forall n | |f| < n < |p| :: p[..n] !in paths
  {
    var q := p[..|p| - 1];
    if |q| == 1 {
      assert q == [ROOT];
    } else if q !in paths {
      FallbackIsLongest(paths, q);
      forall n | |Fallback(paths, q)| < n < |p| ensures p[..n] !in paths {
        assert n < |q| ==> q[..n] == p[..n];
      }
    }
  }

  lemma PrefixIsProper(t: Path, n: nat)
    requires |t| >= 1 && t[0] == ROOT && Dotless(t) && 1 <= n <= |t|
    ensures var p := t[..n]; p[0] == ROOT && Dotless(p) && (|p| >= 2 ==> p[..|p| - 1] == t[..n - 1])
    ensures n >= 2 ==> t[..n - 1] in Prefixes(t)
  {
  }

  lemma ClosedGrows(paths: set<Path>, t: Path)
    requires Closed(paths) && |t| >= 1 && t[0] == ROOT && Dotless(t)
    ensures Closed(paths + Prefixes(t))
  {
    forall p | p in Prefixes(t)
      ensures |p| >= 1 && p[0] == ROOT && Dotless(p) && (|p| >= 2 ==> p[..|p| - 1] in Prefixes(t))
    {
      var n :| 1 <= n <= |t| && p == t[..n];
      hide Dotless, Closed;
      PrefixIsProper(t, n);
    }
  }

  /** A name that is looked up with autocreation, and without fallback, gets its own channel. */
  lemma AutocreateIsExact(paths: set<Path>, p: Path)
    requires Closed(paths) && |p| >= 1 && p[0] == ROOT
    ensures p in paths || |p| >= 2
    ensures Target(paths, p, false) == p
  {
    if |p| == 1 { assert p == [ROOT]; }
    assert p == [ROOT] + p[1..];
  }

  ghost predicate RepeatsItself(paths: set<Path>, p: Path)
    requires |p| >= 2
  {
    var f := Fallback(paths, p);
    |f| >= 2 && |f| < |p| && p[|f|] == p[1]
  }

  /**
   * Looking up an unregistered name with fallback creates the whole name below the fallback
   * channel. The next lookup of that name finds the same channel again exactly when the name was
   * registered already, or the fallback was the root, or the component of the name that follows
   * the fallback differs from the first one.
   */
  lemma FallbackIsStable(paths: set<Path>, p: Path)
    requires Closed(paths) && |p| >= 1 && p[0] == ROOT && (p !in paths ==> |p| >= 2)
    ensures var t := Target(paths, p, true);
      Target(paths + Prefixes(t), p, true) == t <==> p in paths || !RepeatsItself(paths, p)
  {
    var t := Target(paths, p, true);
    var later := paths + Prefixes(t);
    if p in paths {
      assert p in later;
    } else {
      FallbackIsLongest(paths, p);
      var f := Fallback(paths, p);
      assert t == f + p[1..];
      if |f| == 1 {
        assert t == p && p[..|p|] == p && p in Prefixes(t);
      } else if p[|f|] == p[1] {
        RepeatedName(paths, p);
      } else {
        NewName(paths, p);
      }
    }
  }

  lemma PrefixOfTarget(f: Path, p: Path, n: nat)
    requires |p| >= 2 && |f| < n <= |p| && p[|f|] != p[1]
    ensures p[..n] !in Prefixes(f + p[1..])
  {
    var t := f + p[1..];
    assert t[|f|] == p[1];
    forall m | 1 <= m <= |t| ensures p[..n] != t[..m] {
      if m == n { assert p[..n][|f|] != t[..m][|f|]; }
    }
  }

  // By default induction would be tried on the paths.
  lemma {:induction false} NewName(paths: set<Path>, p: Path)
    requires Closed(paths) && |p| >= 2 && p[0] == ROOT && p !in paths
    requires var f := Fallback(paths, p); 2 <= |f| < |p| && p[|f|] != p[1]
    ensures var t := Target(paths, p, true); Target(paths + Prefixes(t), p, true) == t
  {
    FallbackIsLongest(paths, p);
    hide Closed, Prefixes, Fallback;
    var f := Fallback(paths, p);
    var later := paths + Prefixes(f + p[1..]);
    assert p[..|p|] == p;
    forall n | |f| < n <= |p| ensures p[..n] !in later {
      PrefixOfTarget(f, p, n);
    }
    assert p !in later;
    SameFallback(paths, later, p, f);
  }

  lemma {:induction false} SameFallback(paths: set<Path>, later: set<Path>, p: Path, f: Path)
    requires |p| >= 2 && f in later && 2 <= |f| < |p| && f == p[..|f|]
    requires forall n | |f| < n < |p| :: p[..n] !in later
    ensures Fallback(later, p) == f
  {
    var q := p[..|p| - 1];
    if |q| > |f| {
      forall n | |f| < n < |q| ensures q[..n] !in later { assert q[..n] == p[..n]; }
      assert q[..|f|] == f;
      SameFallback(paths, later, q, f);
    } else {
      assert q == f;
    }
  }

  /** How much of the name is registered: all of it, or its fallback. */
  ghost function Reach(paths: set<Path>, p: Path): nat
    requires p !in paths ==> |p| >= 2
  {
    if p in paths then |p| else |Fallback(paths, p)|
  }

  lemma ReachIsBounded(paths: set<Path>, p: Path)
    requires [ROOT] in paths && |p| >= 1 && p[0] == ROOT && (p !in paths ==> |p| >= 2)
    ensures 1 <= Reach(paths, p) <= |p| && (p !in paths ==> Reach(paths, p) < |p|)
    ensures forall n | Reach(paths, p) < n <= |p| :: p[..n] !in paths
    ensures |Target(paths, p, true)| == if p in paths then |p| else Reach(paths, p) + |p| - 1
  {
    assert p[..|p|] == p;
    if p !in paths {
      FallbackIsLongest(paths, p);
    }
  }

  lemma NextPrefix(f: Path, p: Path)
    requires 2 <= |f| < |p| && f == p[..|f|] && p[|f|] == p[1]
    ensures p[..|f| + 1] in Prefixes(f + p[1..])
  {
    var t := f + p[1..];
    assert t[..|f| + 1] in Prefixes(t);
    assert p[..|f| + 1] == f + [p[1]] == t[..|f| + 1];
  }

  /** A lookup that will not find the same channel again registers more of the name. */
  lemma RepeatedName(paths: set<Path>, p: Path)
    requires [ROOT] in paths && |p| >= 2 && p[0] == ROOT && p !in paths && RepeatsItself(paths, p)
    ensures var t := Target(paths, p, true);
      var later := paths + Prefixes(t);
      Reach(later, p) > Reach(paths, p) && Target(later, p, true) != t
  {
    FallbackIsLongest(paths, p);
    var f := Fallback(paths, p);
    NextPrefix(f, p);
    var t := Target(paths, p, true);
    var later := paths + Prefixes(t);
    hide Prefixes, Fallback, Target, Reach;
    ReachIsBounded(paths, p);
    ReachIsBounded(later, p);
    assert p[..|f| + 1] in later;
  }

  lemma TargetIsProper(paths: set<Path>, p: Path)
    requires Closed(paths) && |p| >= 1 && p[0] == ROOT && Dotless(p) && (p !in paths ==> |p| >= 2)
    ensures var t := Target(paths, p, true); |t| >= 1 && t[0] == ROOT && Dotless(t)
  {
    if p !in paths {
      FallbackIsLongest(paths, p);
      var f := Fallback(paths, p);
      assert forall i | 0 <= i < |f + p[1..]| :: (f + p[1..])[i] == if i < |f| then p[i] else p[i - |f| + 1];
    }
  }

  // ----- Lookups of a name among those of others -----

  ghost predicate IsName(p: Path) {
    p == [ROOT] || (|p| >= 2 && p[0] == ROOT)
  }

  lemma ReachTellsTarget(paths: set<Path>, p: Path)
    requires [ROOT] in paths && IsName(p)
    ensures 1 <= Reach(paths, p) <= |p|
    ensures Target(paths, p, true) == if Reach(paths, p) == |p| then p else p[..Reach(paths, p)] + p[1..]
  {
    ReachIsBounded(paths, p);
    if p !in paths {
      FallbackIsLongest(paths, p);
    }
  }

  /** With more paths registered, no less of a name is. */
  lemma ReachGrows(paths: set<Path>, later: set<Path>, p: Path)
    requires [ROOT] in paths && paths <= later && IsName(p)
    ensures Reach(paths, p) <= Reach(later, p)
  {
    ReachIsBounded(later, p);
    ReachIsBounded(paths, p);
    if p !in paths {
      FallbackIsLongest(paths, p);
      assert p[..Reach(paths, p)] in later;
    }
  }

  /** How often a name finds another channel than it did before, as `all` come to be registered one after the other. */
  ghost function Changes(all: seq<set<Path>>, p: Path): nat
    requires (forall paths | paths in all :: [ROOT] in paths) && IsName(p)
  {
    if |all| <= 1 then 0
    else
      var n := |all| - 1;
      Changes(all[..n], p) + if Target(all[n], p, true) == Target(all[n - 1], p, true) then 0 else 1
  }

  /** A name changes its channel only when more of it is registered. */
  lemma ChangeReaches(paths: set<Path>, later: set<Path>, p: Path)
    requires [ROOT] in paths && paths <= later && IsName(p)
    ensures Reach(paths, p) <= Reach(later, p)
    ensures Target(later, p, true) != Target(paths, p, true) ==> Reach(paths, p) < Reach(later, p)
  {
    hide Target, Reach;
    ReachGrows(paths, later, p);
    ReachTellsTarget(paths, p);
    ReachTellsTarget(later, p);
  }

  lemma {:induction false} ChangesReach(all: seq<set<Path>>, p: Path)
    requires (forall paths | paths in all :: [ROOT] in paths) && IsName(p) && all != []
    requires forall i, k | 0 <= i && k == i + 1 < |all| :: all[i] <= all[k]
    ensures Changes(all, p) <= Reach(all[|all| - 1], p) - Reach(all[0], p)
  {
    hide Target, Reach, IsName;
    var n := |all| - 1;
    if n > 0 {
      var k := n - 1;
      assert all[k] <= all[n];
      ChangesReach(all[..n], p);
      ChangeReaches(all[k], all[n], p);
    }
  }

  /**
   * Whatever other names are looked up and whatever else is registered in between, a name changes its channel at most
   * as often as more of it comes to be registered, which is less often than it has components.
   */
  lemma ChangesAreFew(all: seq<set<Path>>, p: Path)
    requires (forall paths | paths in all :: [ROOT] in paths) && IsName(p) && all != []
    requires forall i, k | 0 <= i && k == i + 1 < |all| :: all[i] <= all[k]
    ensures Changes(all, p) <= Reach(all[|all| - 1], p) - Reach(all[0], p) < |p|
  {
    hide Target, Reach, Changes;
    ChangesReach(all, p);
    ReachTellsTarget(all[0], p);
    ReachTellsTarget(all[|all| - 1], p);
  }

  // ----- Looking up one name again and again -----

  /** The paths that are registered after `n` lookups of the name. */
  ghost function After(paths: set<Path>, p: Path, n: nat): (later: set<Path>)
    requires Closed(paths) && |p| >= 1 && p[0] == ROOT && Dotless(p)
    ensures Closed(later) && [ROOT] in later && (p !in later ==> |p| >= 2)
    decreases n
  {
    if n == 0 then
      assert |p| == 1 ==> p == [ROOT];
      paths
    else
      var before := After(paths, p, n - 1);
      TargetIsProper(before, p);
      ClosedGrows(before, Target(before, p, true));
      assert |p| == 1 ==> p == [ROOT];
      before + Prefixes(Target(before, p, true))
  }

  /** The path of the channel that lookup number `n` finds. */
  ghost function Found(paths: set<Path>, p: Path, n: nat): Path
    requires Closed(paths) && |p| >= 1 && p[0] == ROOT && Dotless(p)
  {
    Target(After(paths, p, n), p, true)
  }

  /** Once a lookup finds the channel that the one before found, all later ones do. */
  lemma {:induction false} StaysFound(paths: set<Path>, p: Path, n: nat, m: nat)
    requires Closed(paths) && |p| >= 1 && p[0] == ROOT && Dotless(p) && n <= m
    requires Found(paths, p, n + 1) == Found(paths, p, n)
    ensures Found(paths, p, m) == Found(paths, p, n) && After(paths, p, m + 1) == After(paths, p, n + 1)
    decreases m
  {
    hide Target, Prefixes, Closed, Dotless;
    if n < m {
      StaysFound(paths, p, n, m - 1);
      assert After(paths, p, m) == After(paths, p, n + 1);
    }
  }

  lemma FoundOrReaches(paths: set<Path>, p: Path, n: nat)
    requires Closed(paths) && |p| >= 1 && p[0] == ROOT && Dotless(p)
    ensures Found(paths, p, n + 1) == Found(paths, p, n)
      || Reach(After(paths, p, n + 1), p) > Reach(After(paths, p, n), p)
  {
    hide Target, Prefixes, Fallback, Closed, Dotless;
    var now := After(paths, p, n);
    FallbackIsStable(now, p);
    if p !in now && RepeatsItself(now, p) {
      RepeatedName(now, p);
    }
  }

  lemma {:induction false} SettlesFrom(paths: set<Path>, p: Path, n: nat) returns (k: nat)
    requires Closed(paths) && |p| >= 1 && p[0] == ROOT && Dotless(p)
    requires n + 1 <= Reach(After(paths, p, n), p)
    ensures n <= k < |p| && forall m | m >= k :: Found(paths, p, m) == Found(paths, p, k)
    decreases |p| - n
  {
    hide Target, Prefixes, Closed, Dotless, Found, Reach;
    ReachIsBounded(After(paths, p, n), p);
    FoundOrReaches(paths, p, n);
    if Found(paths, p, n + 1) == Found(paths, p, n) {
      k := n;
      forall m | m >= k ensures Found(paths, p, m) == Found(paths, p, k) {
        StaysFound(paths, p, k, m);
      }
    } else {
      ReachIsBounded(After(paths, p, n + 1), p);
      k := SettlesFrom(paths, p, n + 1);
    }
  }

  /**
   * Looked up again and again, a name finds the same channel from some lookup on, earlier than there are components in
   * it: each lookup before that registered more of the name than there was.
   */
  lemma LookupsSettle(paths: set<Path>, p: Path) returns (k: nat)
    requires Closed(paths) && |p| >= 1 && p[0] == ROOT && Dotless(p)
    ensures k < |p| && forall m | m >= k :: Found(paths, p, m) == Found(paths, p, k)
  {
    hide Target, Prefixes, Closed, Dotless, Found, Reach;
    ReachIsBounded(After(paths, p, 0), p);
    k := SettlesFrom(paths, p, 0);
  }

  /** With only `root.a` registered, `root.a.a.b` finds one channel first, and another from the second time on. */
  lemma UnstableName()
    ensures var paths := {["root"], ["root", "a"]};
      var p := ["root", "a", "a", "b"];
      Closed(paths) && Dotless(p) &&
      Found(paths, p, 0) == ["root", "a", "a", "a", "b"] &&
      Found(paths, p, 1) == ["root", "a", "a", "a", "a", "b"] &&
      forall m | m >= 1 :: Found(paths, p, m) == Found(paths, p, 1)
  {
    var paths: set<Path> := {["root"], ["root", "a"]};
    var p: Path := ["root", "a", "a", "b"];
    UnstableStart();
    UnstableNext();
    FallbackIsStable(After(paths, p, 1), p);
    forall m | m >= 1 ensures Found(paths, p, m) == Found(paths, p, 1) {
      StaysFound(paths, p, 1, m);
    }
  }

  lemma UnstableStart()
    ensures var paths: set<Path> := {["root"], ["root", "a"]};
      var p: Path := ["root", "a", "a", "b"];
      Closed(paths) && Dotless(p) && p !in paths && Found(paths, p, 0) == ["root", "a", "a", "a", "b"]
  {
    var paths: set<Path> := {["root"], ["root", "a"]};
    var p: Path := ["root", "a", "a", "b"];
    assert ["root", "a"][..1] == ["root"];
    assert p[..3] == ["root", "a", "a"] && p[..3][..2] == ["root", "a"];
    assert Fallback(paths, p) == ["root", "a"];
  }

  lemma UnstablePrefixes()
    ensures var p: Path := ["root", "a", "a", "b"];
      var t: Path := ["root", "a", "a", "a", "b"];
      p[..3] == ["root", "a", "a"] && p[..3] in Prefixes(t) && p !in Prefixes(t)
  {
    var p: Path := ["root", "a", "a", "b"];
    var t: Path := ["root", "a", "a", "a", "b"];
    assert t[..3] == p[..3] && t[..3] in Prefixes(t);
    forall n | 1 <= n <= 5 ensures t[..n] != p {
      assert n >= 4 ==> t[..n][3] != p[3];
    }
  }

  lemma UnstableNext()
    ensures var paths: set<Path> := {["root"], ["root", "a"]};
      var p: Path := ["root", "a", "a", "b"];
      Closed(paths) && Dotless(p) && var later := After(paths, p, 1);
      && p !in later && Found(paths, p, 1) == ["root", "a", "a", "a", "a", "b"] && !RepeatsItself(later, p)
  {
    hide Prefixes, Closed, Dotless;
    var paths: set<Path> := {["root"], ["root", "a"]};
    var p: Path := ["root", "a", "a", "b"];
    UnstableStart();
    UnstablePrefixes();
    var later := After(paths, p, 1);
    assert After(paths, p, 0) == paths;
    assert later == paths + Prefixes(["root", "a", "a", "a", "b"]);
    assert Fallback(later, p) == p[..3];
  }
}
