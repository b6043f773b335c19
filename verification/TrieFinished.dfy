/** When a finished trie, the one that requests see, agrees with a linear scan over the registered routes. */
module FinishedTries {
  import opened Options
  import opened Paths
  import opened Tries
  import opened TrieInserts
  import opened TrieAgreement

  /** Every path that goes along the trail is one that the route answers. */
  predicate Covers(route: seq<string>, trail: seq<string>) {
    if route == [] || trail == [] then route == trail
    else if Star(route[0]) then true
    else
      && !Star(trail[0])
      && (Colon(route[0]) || route[0] == trail[0])
      && Covers(route[1..], trail[1..])
  }

  /** Every node that search can reach has a pattern that covers the way to it. */
  predicate Truthful(n: Node, trail: seq<string>, routes: seq<string>) {
    && (n.pattern != "" ==> n.pattern in routes && Covers(Parts(n.pattern), trail))
    && (!Star(n.part) ==>
          forall i :: 0 <= i < |n.children| ==> Truthful(n.children[i], trail + [n.children[i].part], routes))
  }

  /** The parts of all routes. */
  function AllParts(routes: seq<string>): seq<string> {
    if routes == [] then [] else Parts(routes[0]) + AllParts(routes[1..])
  }

  /** A part that neither the trie nor a route has. */
  function Stranger(t: Node, routes: seq<string>): string {
    FreshPart(t, AllParts(routes))
  }

  /** The parts, with x at the wild places. */
  function Marked(parts: seq<string>, x: string): (r: seq<string>)
    ensures |r| == |parts| && forall i :: 0 <= i < |parts| ==> r[i] == if Wild(parts[i]) then x else parts[i]
  {
    seq(|parts|, i requires 0 <= i < |parts| => if Wild(parts[i]) then x else parts[i])
  }

  /** Search finds something on the path that has a new part at each wild place of the route, and at a final '*' for all
      lengths up to the height of the trie. */
  predicate IsServed(t: Node, parts: seq<string>, x: string) {
    forall m: nat :: m <= (if EndsInStar(parts) then 1 + Height(t) else 0) ==>
      Found(t, Marked(parts, x) + Repeat(x, m), 0).Some?
  }

  /** A caller can compute this from the trie and the routes. */
  predicate Checked(t: Node, routes: seq<string>) {
    && Truthful(t, [], routes)
    && forall r :: r in routes ==> IsServed(t, Parts(r), Stranger(t, routes))
  }

  // ---- a checked trie agrees ----

  lemma {:induction false} CoversMatches(route: seq<string>, trail: seq<string>, path: seq<string>)
    requires WellFormed(route) && Covers(route, trail) && Matches(trail, path)
    ensures Matches(route, path)
  {
    if route != [] && !Star(route[0]) {
      assert WellFormed(route[1..]) by {
        assert forall i :: 0 <= i < |route[1..]| ==> route[1..][i] == route[i + 1];
      }
      CoversMatches(route[1..], trail[1..], path[1..]);
    }
  }

  /** The first h parts of the path go along the trail, in which only the last part may be a '*'. */
  predicate Along(trail: seq<string>, path: seq<string>, h: nat) {
    && |trail| == h <= |path|
    && forall j :: 0 <= j < h ==> (trail[j] == path[j] || Wild(trail[j])) && (Star(trail[j]) ==> j == h - 1)
  }

  lemma {:induction false} AlongMatches(trail: seq<string>, path: seq<string>)
    requires Along(trail, path, |trail|) && (|path| == |trail| || EndsInStar(trail))
    ensures Matches(trail, path)
  {
    if trail != [] && !Star(trail[0]) {
      assert trail[|trail| - 1] == if |trail| == 1 then trail[0] else trail[1..][|trail| - 2];
      AlongMatches(trail[1..], path[1..]);
    }
  }

  lemma {:induction false} TruthfulAnswers(n: Node, trail: seq<string>, routes: seq<string>, path: seq<string>, h: nat)
    requires Truthful(n, trail, routes) && Along(trail, path, h) && Sound(n) && (Star(n.part) <==> EndsInStar(trail))
    requires Found(n, path, h).Some?
    ensures Found(n, path, h).value in routes && Answers(Found(n, path, h).value, path)
    decreases |path| - h
  {
    if h == |path| || Star(n.part) {
      AlongMatches(trail, path);
      PartsAreWellFormed(n.pattern);
      CoversMatches(Parts(n.pattern), trail, path);
    } else {
      FoundBelow(n, path, h);
      var i := FirstHitSource(n.children, path, h);
      var c := n.children[i];
      assert SoundChild(c, i == |n.children| - 1);
      TruthfulAnswers(c, trail + [c.part], routes, path, h + 1);
    }
  }

  lemma {:induction false} MarkedCovers(parts: seq<string>, path: seq<string>, x: string)
    requires WellFormed(parts) && Matches(parts, path)
    ensures |parts| <= |path| && (|parts| < |path| ==> EndsInStar(parts))
    ensures forall j :: 0 <= j < |parts| ==> Marked(parts, x)[j] in {x, path[j]}
  {
    if parts != [] && !Star(parts[0]) {
      assert WellFormed(parts[1..]) by {
        assert forall i :: 0 <= i < |parts[1..]| ==> parts[1..][i] == parts[i + 1];
      }
      MarkedCovers(parts[1..], path[1..], x);
      forall j | 0 <= j < |parts| ensures Marked(parts, x)[j] in {x, path[j]} {
        if j > 0 {
          assert Marked(parts[1..], x)[j - 1] in {x, path[1..][j - 1]};
        }
      }
    }
  }

  lemma ServedEverywhere(t: Node, parts: seq<string>, x: string, path: seq<string>)
    requires Sound(t) && Unused(t, x) && WellFormed(parts) && IsServed(t, parts, x) && Matches(parts, path)
    ensures Found(t, path, 0).Some?
  {
    MarkedCovers(parts, path, x);
    var m, top := |path| - |parts|, 1 + Height(t);
    var probe := Marked(parts, x) + Repeat(x, m);
    if m > top {
      var short := Marked(parts, x) + Repeat(x, top);
      assert short == probe[..|parts| + top];
      PastHeight(t, short, probe, 0);
    }
    ProbeStandsFor(t, probe, path, 0, x);
  }

  lemma CheckedAgrees(t: Node, routes: seq<string>)
    requires Sound(t) && t.part == "" && Checked(t, routes)
    ensures Agrees(t, routes)
  {
    var x := Stranger(t, routes);
    FreshPartIsFresh(t, AllParts(routes));
    forall path | WellFormed(path) ensures AgreesOn(t, routes, path) {
      if Found(t, path, 0).Some? {
        TruthfulAnswers(t, [], routes, path, 0);
      } else {
        forall r | r in routes ensures !Answers(r, path) {
          if Answers(r, path) {
            PartsAreWellFormed(r);
            ServedEverywhere(t, Parts(r), x, path);
          }
        }
      }
    }
  }

  // ---- a trie that agrees is checked ----

  /** No two children of a node have the same part. */
  predicate Distinct(n: Node) {
    && (forall i, j :: 0 <= i < j < |n.children| ==> n.children[i].part != n.children[j].part)
    && (forall i :: 0 <= i < |n.children| ==> Distinct(n.children[i]))
  }

  lemma {:induction false} InsertKeepsDistinct(n: Node, pattern: string, parts: seq<string>, h: nat)
    requires Distinct(n) && h <= |parts|
    ensures Distinct(Insert(n, pattern, parts, h))
    decreases |parts| - h
  {
    if h < |parts| {
      var i := MatchChild(n.children, parts[h]);
      var c := if i == |n.children| then NewChild(parts[h]) else n.children[i];
      InsertKeepsDistinct(c, pattern, parts, h + 1);
      InsertKeepsPart(c, pattern, parts, h + 1);
    }
  }

  lemma {:induction false} BuildIsDistinct(routes: seq<string>)
    ensures Distinct(Build(routes))
  {
    if routes != [] {
      var last := routes[|routes| - 1];
      BuildIsDistinct(routes[..|routes| - 1]);
      InsertKeepsDistinct(Build(routes[..|routes| - 1]), last, Parts(last), 0);
    }
  }

  /** On a path that goes along the trail to n, with x at its wild places, search finds what it finds from n on. */
  ghost predicate Leads(t: Node, trail: seq<string>, n: Node, x: string) {
    forall path: seq<string> :: IsOnWay(path, trail, x) && Found(n, path, |trail|).Some? ==>
      Found(t, path, 0) == Found(n, path, |trail|)
  }

  predicate IsOnWay(path: seq<string>, trail: seq<string>, x: string) {
    |trail| <= |path| && path[..|trail|] == Marked(trail, x)
  }

  lemma LeadsOn(t: Node, trail: seq<string>, n: Node, x: string, i: nat)
    requires Leads(t, trail, n, x) && !Star(n.part) && Sound(n) && Distinct(n) && Unused(n, x) && i < |n.children|
    ensures Leads(t, trail + [n.children[i].part], n.children[i], x)
  {
    var c := n.children[i];
    var h := |trail|;
    assert SoundChild(c, i == |n.children| - 1);
    forall path | IsOnWay(path, trail + [c.part], x) && Found(c, path, h + 1).Some?
      ensures Found(t, path, 0) == Found(c, path, h + 1)
    {
      var way := Marked(trail + [c.part], x);
      assert path[h] == path[..h + 1][h] == way[h] && path[..h] == path[..h + 1][..h] == way[..h];
      assert way[..h] == Marked(trail, x);
      FoundBelow(n, path, h);
      forall j | 0 <= j < i ensures !Accepts(n.children[j], path[h]) {
        assert SoundChild(n.children[j], j == |n.children| - 1);
      }
      SkipHits(n.children, i, path, h);
      assert IsOnWay(path, trail, x);
    }
  }

  /** A route that answers what goes along the trail, with a new part at its wild places, covers the trail. */
  lemma {:induction false} CoveredIf(route: seq<string>, trail: seq<string>, x: string)
    requires WellFormed(route) && WellFormed(trail) && x !in route && !Wild(x)
    requires Matches(route, Marked(trail, x)) && (EndsInStar(trail) ==> Matches(route, Marked(trail, x) + [x]))
    ensures Covers(route, trail)
  {
    var way := Marked(trail, x);
    if route != [] && !Star(route[0]) {
      assert way[1..] == Marked(trail[1..], x) && (way + [x])[1..] == way[1..] + [x];
      assert forall i :: 0 <= i < |route[1..]| ==> route[1..][i] == route[i + 1];
      assert forall i :: 0 <= i < |trail[1..]| ==> trail[1..][i] == trail[i + 1];
      if !Star(trail[0]) {
        assert trail[1..] != [] ==> trail[|trail| - 1] == trail[1..][|trail| - 2];
        CoveredIf(route[1..], trail[1..], x);
      }
    }
  }

  lemma MarkedIsWellFormed(parts: seq<string>, more: seq<string>, x: string)
    requires WellFormed(parts) && IsPart(x) && !Wild(x) && forall i :: 0 <= i < |more| ==> more[i] == x
    ensures WellFormed(Marked(parts, x) + more)
  {
  }

  /** The pattern of a node that agreement makes tell the truth. */
  lemma PatternIsTruthful(t: Node, routes: seq<string>, trail: seq<string>, n: Node, x: string)
    requires Agrees(t, routes) && Leads(t, trail, n, x) && n.pattern != "" && (Star(n.part) <==> EndsInStar(trail))
    requires WellFormed(trail) && IsPart(x) && !Wild(x) && x !in AllParts(routes)
    ensures n.pattern in routes && Covers(Parts(n.pattern), trail)
  {
    var way := Marked(trail, x);
    var p := n.pattern;
    assert IsOnWay(way, trail, x) && Found(n, way, |trail|) == Some(p);
    MarkedIsWellFormed(trail, [], x);
    assert way + [] == way && AgreesOn(t, routes, way);
    if EndsInStar(trail) {
      var long := way + [x];
      assert long[..|trail|] == way;
      assert IsOnWay(long, trail, x) && Found(n, long, |trail|) == Some(p);
      MarkedIsWellFormed(trail, [x], x);
      assert AgreesOn(t, routes, long);
    }
    PartsAreWellFormed(p);
    PartsAreAll(routes, p);
    CoveredIf(Parts(p), trail, x);
  }

  lemma {:induction false} PartsAreAll(routes: seq<string>, r: string)
    requires r in routes
    ensures forall y :: y in Parts(r) ==> y in AllParts(routes)
  {
    if r != routes[0] {
      PartsAreAll(routes[1..], r);
    }
  }

  lemma {:induction false} AgreesTruthful(t: Node, routes: seq<string>, trail: seq<string>, n: Node, x: string)
    requires Agrees(t, routes) && Leads(t, trail, n, x) && (Star(n.part) <==> EndsInStar(trail))
    requires Sound(n) && Distinct(n) && Unused(n, x)
    requires WellFormed(trail) && IsPart(x) && !Wild(x) && x !in AllParts(routes)
    ensures Truthful(n, trail, routes)
    decreases n
  {
    if n.pattern != "" {
      PatternIsTruthful(t, routes, trail, n, x);
    }
    if !Star(n.part) {
      forall i | 0 <= i < |n.children| ensures Truthful(n.children[i], trail + [n.children[i].part], routes) {
        assert SoundChild(n.children[i], i == |n.children| - 1);
        LeadsOn(t, trail, n, x, i);
        AgreesTruthful(t, routes, trail + [n.children[i].part], n.children[i], x);
      }
    }
  }

  lemma AgreesServes(t: Node, routes: seq<string>, r: string, x: string)
    requires Agrees(t, routes) && r in routes && IsPart(x) && !Wild(x)
    ensures IsServed(t, Parts(r), x)
  {
    var parts := Parts(r);
    PartsAreWellFormed(r);
    forall m: nat | m <= (if EndsInStar(parts) then 1 + Height(t) else 0)
      ensures Found(t, Marked(parts, x) + Repeat(x, m), 0).Some?
    {
      var path := Marked(parts, x) + Repeat(x, m);
      MarkedIsAnswered(parts, x, m);
      MarkedIsWellFormed(parts, Repeat(x, m), x);
      assert AgreesOn(t, routes, path);
    }
  }

  lemma {:induction false} MarkedIsAnswered(parts: seq<string>, x: string, m: nat)
    requires WellFormed(parts) && (m == 0 || EndsInStar(parts))
    ensures Matches(parts, Marked(parts, x) + Repeat(x, m))
  {
    if parts != [] && !Star(parts[0]) {
      assert forall i :: 0 <= i < |parts[1..]| ==> parts[1..][i] == parts[i + 1];
      assert parts[|parts| - 1] == if |parts| == 1 then parts[0] else parts[1..][|parts| - 2];
      MarkedIsAnswered(parts[1..], x, m);
      assert (Marked(parts, x) + Repeat(x, m))[1..] == Marked(parts[1..], x) + Repeat(x, m);
    }
  }

  lemma AgreesChecked(t: Node, routes: seq<string>)
    requires Sound(t) && Distinct(t) && t.part == "" && Agrees(t, routes)
    ensures Checked(t, routes)
  {
    var x := Stranger(t, routes);
    FreshPartIsFresh(t, AllParts(routes));
    AgreesTruthful(t, routes, [], t, x);
    forall r | r in routes ensures IsServed(t, Parts(r), x) {
      AgreesServes(t, routes, r, x);
    }
  }

  /** For every sequence of routes, whatever conflicts on the way: the finished trie agrees with the linear scan if and
      only if each pattern that search can reach covers the way to it, and search finds something for each route. */
  lemma FinishedAgreesIff(routes: seq<string>)
    ensures Agrees(Build(routes), routes) <==> Checked(Build(routes), routes)
  {
    var t := Build(routes);
    BuildIsSound(routes);
    BuildIsDistinct(routes);
    if Checked(t, routes) {
      CheckedAgrees(t, routes);
    } else if Agrees(t, routes) {
      AgreesChecked(t, routes);
    }
  }
}
