/** When the trie agrees with a linear scan over the registered routes. */
module TrieAgreement {
  import opened Options
  import opened Paths
  import opened Tries
  import opened TrieInserts

  /** The route answers the path. */
  predicate Answers(route: string, path: seq<string>) {
    Matches(Parts(route), path)
  }

  /** Search finds nothing exactly when no registered route answers, and else returns a registered route that does. */
  ghost predicate Agrees(t: Node, routes: seq<string>) {
    forall path :: WellFormed(path) ==> AgreesOn(t, routes, path)
  }

  ghost predicate AgreesOn(t: Node, routes: seq<string>, path: seq<string>) {
    match Found(t, path, 0)
    case None => forall r :: r in routes ==> !Answers(r, path)
    case Some(r) => r in routes && Answers(r, path)
  }

  /** What an insert meets on its way. matchChild also accepts a wild child with another part:
      Shadowed - the way leads below a '*' child, where no search ever goes;
      Faithful - every child it accepts matches exactly what the part would;
      StarOverParam - likewise, except that a final '*' part ends in a ':' child;
      Broken - a ':' or '*' child stands in for a part that matches less, or a '*' child for a final ':' part. */
  datatype Walk = Shadowed | Faithful | StarOverParam | Broken

  function WalkOf(n: Node, parts: seq<string>, h: nat): Walk
    requires h <= |parts|
    decreases |parts| - h
  {
    if h == |parts| then Faithful
    else
      var i := MatchChild(n.children, parts[h]);
      if i == |n.children| then Faithful
      else
        var c := n.children[i];
        if Star(c.part) then
          if h + 1 < |parts| then Shadowed else if Star(parts[h]) then Faithful else Broken
        else if c.part == parts[h] || Colon(parts[h]) then WalkOf(c, parts, h + 1)
        else if Star(parts[h]) then StarOverParam
        else if WalkOf(c, parts, h + 1) == Shadowed then Shadowed else Broken
  }

  // ---- Faithful and Shadowed inserts ----

  lemma {:induction false} TrailOfFreshChild(n: Node, parts: seq<string>, h: nat)
    requires h <= |parts| && n.children == []
    ensures Trail(n, parts, h) == parts[h..]
    decreases |parts| - h
  {
    if h < |parts| {
      TrailOfFreshChild(NewChild(parts[h]), parts, h + 1);
    }
  }

  lemma {:induction false} FaithfulTrail(n: Node, parts: seq<string>, h: nat, rest: seq<string>)
    requires h <= |parts| && WellFormed(parts) && Sound(n) && WalkOf(n, parts, h) == Faithful
    ensures Matches(Trail(n, parts, h), rest) == Matches(parts[h..], rest)
    decreases |parts| - h
  {
    if h < |parts| {
      var i := MatchChild(n.children, parts[h]);
      assert parts[h..][1..] == parts[h + 1..];
      if i == |n.children| {
        TrailOfFreshChild(NewChild(parts[h]), parts, h + 1);
        assert Trail(n, parts, h) == parts[h..];
      } else {
        var c := n.children[i];
        assert SoundChild(c, i == |n.children| - 1);
        assert Trail(n, parts, h)[1..] == Trail(c, parts, h + 1);
        if !Star(c.part) && rest != [] {
          FaithfulTrail(c, parts, h + 1, rest[1..]);
        }
      }
    }
  }

  lemma {:induction false} ShadowedTrail(n: Node, parts: seq<string>, h: nat, rest: seq<string>)
    requires h <= |parts| && Sound(n) && WalkOf(n, parts, h) == Shadowed
    ensures !Matches(Trail(n, parts, h), rest)
    decreases |parts| - h
  {
    var i := MatchChild(n.children, parts[h]);
    var c := n.children[i];
    assert SoundChild(c, i == |n.children| - 1);
    assert Trail(n, parts, h)[1..] == Trail(c, parts, h + 1);
    if Star(c.part) {
      assert |Trail(c, parts, h + 1)| >= 1;
    } else if rest != [] {
      ShadowedTrail(c, parts, h + 1, rest[1..]);
    }
  }

  lemma {:induction false} FirstHitExists(children: seq<Node>, i: nat, path: seq<string>, h: nat)
    requires h < |path| && i < |children| && Hit(children[i], path, h).Some?
    ensures FirstHit(children, path, h).Some?
  {
    if i > 0 {
      FirstHitExists(children[1..], i - 1, path, h);
    }
  }

  /** A path that a shadowed route would answer is already answered by the '*' route in its way. */
  lemma {:induction false} ShadowedIsServed(n: Node, parts: seq<string>, h: nat, path: seq<string>)
    requires h <= |parts| && h <= |path| && WellFormed(parts) && Sound(n) && !Star(n.part)
    requires WalkOf(n, parts, h) == Shadowed && Matches(parts[h..], path[h..])
    ensures Found(n, path, h).Some?
    decreases |parts| - h
  {
    var i := MatchChild(n.children, parts[h]);
    var c := n.children[i];
    assert SoundChild(c, i == |n.children| - 1);
    assert parts[h..][1..] == parts[h + 1..] && path[h..][1..] == path[h + 1..] && path[h] == path[h..][0];
    FoundBelow(n, path, h);
    if !Star(c.part) {
      ShadowedIsServed(c, parts, h + 1, path);
    }
    FirstHitExists(n.children, i, path, h);
  }

  // ---- probes ----

  function Repeat<T>(x: T, k: nat): (r: seq<T>)
    ensures |r| == k && forall i :: 0 <= i < k ==> r[i] == x
  {
    seq(k, _ => x)
  }

  /** The length of the longest part in the trie. */
  function Longest(n: Node): nat {
    LongestOf(n.children, |n.part|)
  }

  function LongestOf(children: seq<Node>, least: nat): nat {
    if children == [] then least
    else
      var a, b := Longest(children[0]), LongestOf(children[1..], least);
      if a < b then b else a
  }

  function LongestPart(parts: seq<string>): nat {
    if parts == [] then 0
    else
      var b := LongestPart(parts[1..]);
      if |parts[0]| < b then b else |parts[0]|
  }

  /** A part that no node has and that is not in the new route either. */
  function FreshPart(t: Node, parts: seq<string>): string {
    Repeat('a', 1 + Longest(t) + LongestPart(parts))
  }

  /** A part no node below n has. */
  ghost predicate Unused(n: Node, x: string) {
    forall i :: 0 <= i < |n.children| ==> n.children[i].part != x && Unused(n.children[i], x)
  }

  lemma {:induction false} LongestOfCovers(children: seq<Node>, least: nat)
    ensures least <= LongestOf(children, least)
    ensures forall i :: 0 <= i < |children| ==> Longest(children[i]) <= LongestOf(children, least)
  {
    if children != [] {
      LongestOfCovers(children[1..], least);
    }
  }

  lemma {:induction false} LongerIsUnused(n: Node, x: string)
    requires Longest(n) < |x|
    ensures Unused(n, x)
  {
    LongestOfCovers(n.children, |n.part|);
    forall i | 0 <= i < |n.children| ensures n.children[i].part != x && Unused(n.children[i], x) {
      LongestOfCovers(n.children[i].children, |n.children[i].part|);
      LongerIsUnused(n.children[i], x);
    }
  }

  lemma {:induction false} LongestPartCovers(parts: seq<string>)
    ensures forall i :: 0 <= i < |parts| ==> |parts[i]| <= LongestPart(parts)
  {
    if parts != [] {
      LongestPartCovers(parts[1..]);
    }
  }

  ghost predicate IsFresh(x: string, n: Node, parts: seq<string>) {
    IsPart(x) && !Wild(x) && Unused(n, x) && x !in parts
  }

  lemma FreshPartIsFresh(t: Node, parts: seq<string>)
    ensures IsFresh(FreshPart(t, parts), t, parts)
  {
    LongerIsUnused(t, FreshPart(t, parts));
    LongestPartCovers(parts);
  }

  /** A path along the trail of an insert: the part of each node, with x where the node is wild. */
  function Probe(n: Node, parts: seq<string>, h: nat, x: string): (r: seq<string>)
    requires h <= |parts|
    ensures |r| == |parts| - h
    decreases |parts| - h
  {
    if h == |parts| then []
    else
      var i := MatchChild(n.children, parts[h]);
      var c := if i == |n.children| then NewChild(parts[h]) else n.children[i];
      [if Wild(c.part) then x else c.part] + Probe(c, parts, h + 1, x)
  }

  lemma {:induction false} ProbeIsWellFormed(n: Node, parts: seq<string>, h: nat, x: string)
    requires h <= |parts| && Sound(n) && WellFormed(parts) && IsFresh(x, n, parts)
    ensures forall i :: 0 <= i < |Probe(n, parts, h, x)| ==>
              IsPart(Probe(n, parts, h, x)[i]) && !Star(Probe(n, parts, h, x)[i])
    decreases |parts| - h
  {
    if h < |parts| {
      var i := MatchChild(n.children, parts[h]);
      if i < |n.children| {
        assert SoundChild(n.children[i], i == |n.children| - 1);
        ProbeIsWellFormed(n.children[i], parts, h + 1, x);
      } else {
        ProbeIsWellFormed(NewChild(parts[h]), parts, h + 1, x);
      }
    }
  }

  // ---- Broken inserts: a probe gets the new route although the route does not answer it ----

  lemma {:induction false} SkipHits(children: seq<Node>, i: nat, path: seq<string>, h: nat)
    requires h < |path| && i < |children| && Hit(children[i], path, h).Some?
    requires forall j :: 0 <= j < i ==> !Accepts(children[j], path[h])
    ensures FirstHit(children, path, h) == Hit(children[i], path, h)
  {
    if i > 0 {
      SkipHits(children[1..], i - 1, path, h);
    }
  }

  /** The first branch that search tries on a probe is the trail of the insert. */
  lemma {:induction false} ProbeFindsRoute(n: Node, pattern: string, parts: seq<string>, h: nat,
                                           path: seq<string>, x: string)
    requires h <= |parts| <= |path| && Sound(n) && WellFormed(parts) && pattern != "" && !Star(n.part)
    requires IsFresh(x, n, parts) && WalkOf(n, parts, h) != Shadowed
    requires path[h..|parts|] == Probe(n, parts, h, x)
    requires |path| == |parts| || EndsInStar(Trail(n, parts, h))
    ensures Found(Insert(n, pattern, parts, h), path, h) == Some(pattern)
    decreases |parts| - h
  {
    if h < |parts| {
      var i := MatchChild(n.children, parts[h]);
      var c := if i == |n.children| then NewChild(parts[h]) else n.children[i];
      assert i < |n.children| ==> SoundChild(c, i == |n.children| - 1);
      var c' := Insert(c, pattern, parts, h + 1);
      InsertKeepsPart(c, pattern, parts, h + 1);
      assert path[h] == (if Wild(c.part) then x else c.part) && path[h + 1..|parts|] == Probe(c, parts, h + 1, x) by {
        assert path[h] == path[h..|parts|][0] && path[h + 1..|parts|] == path[h..|parts|][1..];
      }
      var trail, rest := Trail(n, parts, h), Trail(c, parts, h + 1);
      assert trail == [c.part] + rest;
      if !Star(c.part) {
        assert rest != [] ==> trail[|trail| - 1] == rest[|rest| - 1];
        ProbeFindsRoute(c, pattern, parts, h + 1, path, x);
      }
      assert Hit(c', path, h) == Some(pattern);
      FirstBranch(n, pattern, parts, h, path, x);
    }
  }

  /** No child before the one an insert goes to accepts the part of the probe. */
  lemma FirstBranch(n: Node, pattern: string, parts: seq<string>, h: nat, path: seq<string>, x: string)
    requires h < |parts| <= |path| && Sound(n) && pattern != "" && !Star(n.part) && IsFresh(x, n, parts)
    requires path[h..|parts|] == Probe(n, parts, h, x)
    requires var i := MatchChild(n.children, parts[h]);
             Hit(Insert(n, pattern, parts, h).children[i], path, h) == Some(pattern)
    ensures Found(Insert(n, pattern, parts, h), path, h) == Some(pattern)
  {
    var i := MatchChild(n.children, parts[h]);
    var c := if i == |n.children| then NewChild(parts[h]) else n.children[i];
    var n' := Insert(n, pattern, parts, h);
    assert i < |n.children| ==> SoundChild(c, i == |n.children| - 1);
    assert path[h] == path[h..|parts|][0] == if Wild(c.part) then x else c.part;
    InsertKeepsPart(n, pattern, parts, h);
    FoundBelow(n', path, h);
    SkipHits(n'.children, i, path, h);
  }

  /** The probe, longer by x when the trail ends in a '*' node, which takes one part or more. */
  function LongEnough(n: Node, parts: seq<string>, h: nat, x: string): seq<string>
    requires h <= |parts|
  {
    Probe(n, parts, h, x) + if EndsInStar(Trail(n, parts, h)) then [x] else []
  }

  lemma LongEnoughBelow(n: Node, parts: seq<string>, h: nat, x: string)
    requires h < |parts|
    ensures var i := MatchChild(n.children, parts[h]);
            i < |n.children| && Trail(n.children[i], parts, h + 1) != [] ==>
              LongEnough(n, parts, h, x)
              == [if Wild(n.children[i].part) then x else n.children[i].part]
                 + LongEnough(n.children[i], parts, h + 1, x)
  {
    var i := MatchChild(n.children, parts[h]);
    if i < |n.children| {
      var trail, rest := Trail(n, parts, h), Trail(n.children[i], parts, h + 1);
      assert trail == [n.children[i].part] + rest && (rest != [] ==> trail[|trail| - 1] == rest[|rest| - 1]);
    }
  }

  lemma {:induction false} ProbeIsNotAnswered(n: Node, parts: seq<string>, h: nat, x: string)
    requires h <= |parts| && Sound(n) && WellFormed(parts) && IsFresh(x, n, parts) && WalkOf(n, parts, h) == Broken
    ensures !Matches(parts[h..], LongEnough(n, parts, h, x))
    decreases |parts| - h
  {
    var i := MatchChild(n.children, parts[h]);
    var c := n.children[i];
    assert SoundChild(c, i == |n.children| - 1);
    assert parts[h..][1..] == parts[h + 1..];
    if !Star(c.part) && (c.part == parts[h] || Colon(parts[h])) {
      ProbeIsNotAnswered(c, parts, h + 1, x);
      LongEnoughBelow(n, parts, h, x);
    } else {
      BrokenHere(n, parts, h, x);
    }
  }

  lemma BrokenHere(n: Node, parts: seq<string>, h: nat, x: string)
    requires h < |parts| && Sound(n) && WellFormed(parts) && IsFresh(x, n, parts) && WalkOf(n, parts, h) == Broken
    requires var c := n.children[MatchChild(n.children, parts[h])];
             Star(c.part) || (c.part != parts[h] && !Colon(parts[h]))
    ensures !Matches(parts[h..], LongEnough(n, parts, h, x))
  {
    var i := MatchChild(n.children, parts[h]);
    var c := n.children[i];
    assert SoundChild(c, i == |n.children| - 1);
    assert parts[h..][0] == parts[h] && LongEnough(n, parts, h, x)[0] == x;
    if Star(c.part) {
      assert Trail(n, parts, h) == [c.part] && |LongEnough(n, parts, h, x)| == 2;
    }
  }

  // ---- a final '*' part that ends in a ':' child ----

  /** The trail matches only the paths that are exactly as long as the route. */
  lemma {:induction false} OverParamTrail(n: Node, parts: seq<string>, h: nat, rest: seq<string>)
    requires h <= |parts| && WellFormed(parts) && Sound(n) && WalkOf(n, parts, h) == StarOverParam
    ensures Matches(Trail(n, parts, h), rest) <==> Matches(parts[h..], rest) && |rest| == |parts| - h
    ensures Matches(parts[h..], rest) ==> |rest| >= |parts| - h
    decreases |parts| - h
  {
    var i := MatchChild(n.children, parts[h]);
    var c := n.children[i];
    assert SoundChild(c, i == |n.children| - 1);
    assert Trail(n, parts, h)[1..] == Trail(c, parts, h + 1) && parts[h..][1..] == parts[h + 1..];
    if rest != [] && !Star(parts[h]) {
      OverParamTrail(c, parts, h + 1, rest[1..]);
    }
  }

  /** Where a path that the route answers differs from the probe, the probe has the fresh part. */
  lemma {:induction false} ProbeCovers(n: Node, parts: seq<string>, h: nat, rest: seq<string>, x: string)
    requires h <= |parts| && WellFormed(parts) && Sound(n) && WalkOf(n, parts, h) == StarOverParam
    requires Matches(parts[h..], rest)
    ensures |parts| - h <= |rest|
    ensures forall j :: 0 <= j < |parts| - h ==> Probe(n, parts, h, x)[j] in {x, rest[j]}
    decreases |parts| - h
  {
    var i := MatchChild(n.children, parts[h]);
    var c := n.children[i];
    assert SoundChild(c, i == |n.children| - 1);
    assert parts[h..][1..] == parts[h + 1..];
    assert Probe(n, parts, h, x)[1..] == Probe(c, parts, h + 1, x);
    if !Star(parts[h]) {
      ProbeCovers(c, parts, h + 1, rest[1..], x);
    }
  }

  /** Whatever answers a probe answers every path that the probe stands for. */
  lemma {:induction false} ProbeStandsFor(n: Node, probe: seq<string>, path: seq<string>, h: nat, x: string)
    requires h <= |probe| == |path| && Sound(n) && Unused(n, x)
    requires forall j :: h <= j < |probe| ==> probe[j] in {x, path[j]}
    requires Found(n, probe, h).Some?
    ensures Found(n, path, h).Some?
    decreases |probe| - h
  {
    if h < |probe| && !Star(n.part) {
      FoundBelow(n, probe, h);
      FoundBelow(n, path, h);
      var i := FirstHitSource(n.children, probe, h);
      assert SoundChild(n.children[i], i == |n.children| - 1);
      ProbeStandsFor(n.children[i], probe, path, h + 1, x);
      FirstHitExists(n.children, i, path, h);
    }
  }

  function Height(n: Node): nat {
    HeightOf(n.children)
  }

  function HeightOf(children: seq<Node>): nat {
    if children == [] then 0
    else
      var a, b := 1 + Height(children[0]), HeightOf(children[1..]);
      if a < b then b else a
  }

  lemma {:induction false} HeightOfCovers(children: seq<Node>)
    ensures forall i :: 0 <= i < |children| ==> Height(children[i]) < HeightOf(children)
  {
    if children != [] {
      HeightOfCovers(children[1..]);
    }
  }

  /** Past the height of the trie, what search finds no longer depends on how long the path is. */
  lemma {:induction false} PastHeight(n: Node, a: seq<string>, b: seq<string>, h: nat)
    requires h + Height(n) < |a| <= |b| && a == b[..|a|]
    ensures Found(n, a, h) == Found(n, b, h)
    decreases |a| - h
  {
    if !Star(n.part) {
      FoundBelow(n, a, h);
      FoundBelow(n, b, h);
      HeightOfCovers(n.children);
      forall i | 0 <= i < |n.children| ensures Hit(n.children[i], a, h) == Hit(n.children[i], b, h) {
        PastHeight(n.children[i], a, b, h + 1);
      }
      SameHits(n.children, a, b, h);
    }
  }

  lemma {:induction false} SameHits(children: seq<Node>, a: seq<string>, b: seq<string>, h: nat)
    requires h < |a| && h < |b|
    requires forall i :: 0 <= i < |children| ==> Hit(children[i], a, h) == Hit(children[i], b, h)
    ensures FirstHit(children, a, h) == FirstHit(children, b, h)
  {
    if children != [] {
      SameHits(children[1..], a, b, h);
    }
  }

  function LongProbe(t: Node, parts: seq<string>, m: nat): seq<string> {
    Probe(t, parts, 0, FreshPart(t, parts)) + Repeat(FreshPart(t, parts), m)
  }

  /** Search already finds something on every probe that is longer than the route; lengths past the height of the
      trie need no look. */
  predicate LongerAreServed(t: Node, parts: seq<string>) {
    forall m: nat :: 1 <= m <= 1 + Height(t) ==> Found(t, LongProbe(t, parts, m), 0).Some?
  }

  lemma AllLongerAreServed(t: Node, parts: seq<string>, m: nat)
    requires LongerAreServed(t, parts) && m >= 1
    ensures Found(t, LongProbe(t, parts, m), 0).Some?
  {
    var top := 1 + Height(t);
    if m > top {
      assert LongProbe(t, parts, top) == LongProbe(t, parts, m)[..|parts| + top];
      PastHeight(t, LongProbe(t, parts, top), LongProbe(t, parts, m), 0);
    }
  }

  // ---- one insert ----

  /** A caller can compute this before addRoute. */
  predicate Harmless(t: Node, parts: seq<string>) {
    match WalkOf(t, parts, 0)
    case Shadowed => true
    case Faithful => true
    case StarOverParam => LongerAreServed(t, parts)
    case Broken => false
  }

  /** A path the new route answers is found after a harmless insert, or was found before. */
  lemma HarmlessServes(t: Node, parts: seq<string>, path: seq<string>)
    requires Sound(t) && t.part == "" && WellFormed(parts) && Harmless(t, parts)
    ensures Matches(Trail(t, parts, 0), path) ==> Matches(parts, path)
    ensures Matches(parts, path) ==> Matches(Trail(t, parts, 0), path) || Found(t, path, 0).Some?
  {
    assert parts[0..] == parts && path[0..] == path;
    match WalkOf(t, parts, 0)
    case Faithful => FaithfulTrail(t, parts, 0, path);
    case Shadowed =>
      ShadowedTrail(t, parts, 0, path);
      if Matches(parts, path) {
        ShadowedIsServed(t, parts, 0, path);
      }
    case StarOverParam =>
      OverParamTrail(t, parts, 0, path);
      if Matches(parts, path) && |path| > |parts| {
        var m, x := |path| - |parts|, FreshPart(t, parts);
        FreshPartIsFresh(t, parts);
        ProbeCovers(t, parts, 0, path, x);
        AllLongerAreServed(t, parts, m);
        ProbeStandsFor(t, LongProbe(t, parts, m), path, 0, x);
      }
  }

  lemma HarmlessAgrees(t: Node, routes: seq<string>, r: string)
    requires Sound(t) && t.part == "" && r != "" && Agrees(t, routes) && Harmless(t, Parts(r))
    ensures Agrees(Insert(t, r, Parts(r), 0), routes + [r])
  {
    PartsAreWellFormed(r);
    var t' := Insert(t, r, Parts(r), 0);
    forall path | WellFormed(path) ensures AgreesOn(t', routes + [r], path) {
      assert AgreesOn(t, routes, path);
      assert path[0..] == path;
      InsertChanges(t, r, Parts(r), path, 0);
      HarmlessServes(t, Parts(r), path);
    }
  }

  lemma BrokenDisagrees(t: Node, routes: seq<string>, r: string)
    requires Sound(t) && t.part == "" && r != "" && WalkOf(t, Parts(r), 0) == Broken
    ensures !Agrees(Insert(t, r, Parts(r), 0), routes)
  {
    PartsAreWellFormed(r);
    var parts := Parts(r);
    var x := FreshPart(t, parts);
    FreshPartIsFresh(t, parts);
    var more := if EndsInStar(Trail(t, parts, 0)) then [x] else [];
    var path := Probe(t, parts, 0, x) + more;
    ProbeIsWellFormed(t, parts, 0, x);
    assert path[0..|parts|] == Probe(t, parts, 0, x) && parts[0..] == parts;
    ProbeFindsRoute(t, r, parts, 0, path, x);
    ProbeIsNotAnswered(t, parts, 0, x);
    assert WellFormed(path) && !AgreesOn(Insert(t, r, parts, 0), routes, path);
  }

  lemma UnservedDisagrees(t: Node, routes: seq<string>, r: string, m: nat)
    requires Sound(t) && t.part == "" && r != "" && r in routes && WalkOf(t, Parts(r), 0) == StarOverParam
    requires m >= 1 && Found(t, LongProbe(t, Parts(r), m), 0).None?
    ensures !Agrees(Insert(t, r, Parts(r), 0), routes)
  {
    PartsAreWellFormed(r);
    var parts := Parts(r);
    var x := FreshPart(t, parts);
    FreshPartIsFresh(t, parts);
    var path := LongProbe(t, parts, m);
    ProbeIsWellFormed(t, parts, 0, x);
    assert path[0..] == path && parts[0..] == parts;
    InsertChanges(t, r, parts, path, 0);
    OverParamTrail(t, parts, 0, path);
    RouteAnswersProbe(t, parts, 0, x, Repeat(x, m));
    assert WellFormed(path) && !AgreesOn(Insert(t, r, parts, 0), routes, path);
  }

  /** The route itself answers every path that extends its probe. */
  lemma {:induction false} RouteAnswersProbe(n: Node, parts: seq<string>, h: nat, x: string, more: seq<string>)
    requires h <= |parts| && WellFormed(parts) && Sound(n) && WalkOf(n, parts, h) == StarOverParam
    ensures Matches(parts[h..], Probe(n, parts, h, x) + more)
    decreases |parts| - h
  {
    var i := MatchChild(n.children, parts[h]);
    var c := n.children[i];
    assert SoundChild(c, i == |n.children| - 1);
    assert parts[h..][1..] == parts[h + 1..];
    assert (Probe(n, parts, h, x) + more)[1..] == Probe(c, parts, h + 1, x) + more;
    if !Star(parts[h]) {
      RouteAnswersProbe(c, parts, h + 1, x, more);
    }
  }

  /** The empty pattern marks a node without a route: registering it erases the route of the root, and a path without
      parts, which it should answer, finds nothing. */
  lemma EmptyRouteErases(t: Node, routes: seq<string>)
    requires "" in routes
    ensures Insert(t, "", Parts(""), 0) == t.(pattern := "")
    ensures !Agrees(Insert(t, "", Parts(""), 0), routes)
  {
    var none: seq<string> := [];
    NothingParsed();
    var t' := Insert(t, "", none, 0);
    assert Found(t', none, 0) == None && Answers("", none);
    assert WellFormed(none) && !AgreesOn(t', routes, none);
  }

  /** On a trie that agrees, an insert keeps the agreement exactly when its pattern is not empty and it is harmless. */
  lemma InsertAgreesIffHarmless(t: Node, routes: seq<string>, r: string)
    requires Sound(t) && t.part == "" && Agrees(t, routes)
    ensures Agrees(Insert(t, r, Parts(r), 0), routes + [r]) <==> r != "" && Harmless(t, Parts(r))
  {
    if r == "" {
      EmptyRouteErases(t, routes + [r]);
    } else if Harmless(t, Parts(r)) {
      HarmlessAgrees(t, routes, r);
    } else if WalkOf(t, Parts(r), 0) == Broken {
      BrokenDisagrees(t, routes + [r], r);
    } else {
      var m: nat :| 1 <= m && Found(t, LongProbe(t, Parts(r), m), 0).None?;
      UnservedDisagrees(t, routes + [r], r, m);
    }
  }

  // ---- every sequence of inserts ----

  function Build(routes: seq<string>): Node {
    if routes == [] then EMPTY_TRIE
    else
      var last := routes[|routes| - 1];
      Insert(Build(routes[..|routes| - 1]), last, Parts(last), 0)
  }

  predicate NonEmpty(routes: seq<string>) {
    forall i :: 0 <= i < |routes| ==> routes[i] != ""
  }

  lemma {:induction false} BuildIsSound(routes: seq<string>)
    ensures Sound(Build(routes)) && Build(routes).part == ""
  {
    if routes != [] {
      var before, last := Build(routes[..|routes| - 1]), routes[|routes| - 1];
      BuildIsSound(routes[..|routes| - 1]);
      if last == "" {
        NothingParsed();
        assert Build(routes) == before.(pattern := "");
      } else {
        PartsAreWellFormed(last);
        InsertKeepsSound(before, last, Parts(last), 0);
        InsertKeepsPart(before, last, Parts(last), 0);
      }
    }
  }

  lemma EmptyAgrees()
    ensures Agrees(EMPTY_TRIE, [])
  {
    forall path | WellFormed(path) ensures AgreesOn(EMPTY_TRIE, [], path) {
      FreshChildFindsNothing(EMPTY_TRIE, path, 0);
    }
  }

  ghost predicate AlwaysAgrees(routes: seq<string>) {
    && Agrees(Build(routes), routes)
    && (routes != [] ==> AlwaysAgrees(routes[..|routes| - 1]))
  }

  predicate EachHarmless(routes: seq<string>) {
    routes != [] ==>
      && EachHarmless(routes[..|routes| - 1])
      && Harmless(Build(routes[..|routes| - 1]), Parts(routes[|routes| - 1]))
  }

  predicate AllHarmless(routes: seq<string>) {
    NonEmpty(routes) && EachHarmless(routes)
  }

  /** For every sequence of routes: the trie agrees with the linear scan after each insert if and only if each insert is
      harmless and none is empty. */
  lemma {:induction false} AlwaysAgreesIffHarmless(routes: seq<string>)
    ensures AlwaysAgrees(routes) <==> AllHarmless(routes)
  {
    if routes == [] {
      EmptyAgrees();
    } else {
      var before, last := routes[..|routes| - 1], routes[|routes| - 1];
      AlwaysAgreesIffHarmless(before);
      assert routes == before + [last];
      assert NonEmpty(routes) <==> NonEmpty(before) && last != "";
      if AllHarmless(before) {
        BuildIsSound(before);
        InsertAgreesIffHarmless(Build(before), before, last);
      }
    }
  }

  /** Every child an insert accepts has the very part inserted. */
  predicate NoConflict(n: Node, parts: seq<string>, h: nat)
    requires h <= |parts|
    decreases |parts| - h
  {
    if h == |parts| then true
    else
      var i := MatchChild(n.children, parts[h]);
      i == |n.children| || (n.children[i].part == parts[h] && NoConflict(n.children[i], parts, h + 1))
  }

  lemma {:induction false} NoConflictIsFaithful(n: Node, parts: seq<string>, h: nat)
    requires h <= |parts| && WellFormed(parts) && NoConflict(n, parts, h)
    ensures WalkOf(n, parts, h) == Faithful
    decreases |parts| - h
  {
    if h < |parts| {
      var i := MatchChild(n.children, parts[h]);
      if i < |n.children| {
        NoConflictIsFaithful(n.children[i], parts, h + 1);
      }
    }
  }

  predicate NoConflicts(routes: seq<string>) {
    routes != [] ==>
      && NoConflicts(routes[..|routes| - 1])
      && NoConflict(Build(routes[..|routes| - 1]), Parts(routes[|routes| - 1]), 0)
  }

  /** When inserts only ever meet equal parts, the trie agrees with the linear scan. */
  lemma {:induction false} NoConflictsAgree(routes: seq<string>)
    requires NonEmpty(routes) && NoConflicts(routes)
    ensures AllHarmless(routes) && Agrees(Build(routes), routes)
  {
    if routes != [] {
      var before, last := routes[..|routes| - 1], routes[|routes| - 1];
      NoConflictsAgree(before);
      PartsAreWellFormed(last);
      NoConflictIsFaithful(Build(before), Parts(last), 0);
    }
    AlwaysAgreesIffHarmless(routes);
  }

  lemma ConflictTrie()
    ensures Parts("/:a") == [":a"] && Parts("/b") == ["b"]
    ensures Build(["/:a", "/b"]) == Node("", "", [Node("/b", ":a", [], true)], false)
  {
    PartsOfPath([":a"]);
    PartsOfPath(["b"]);
    assert PathOf([":a"]) == "/:a" && PathOf(["b"]) == "/b";
    var empty: seq<string> := [];
    assert ["/:a"][..0] == empty && ["/:a", "/b"][..1] == ["/:a"];
    var leaf := Node("/:a", ":a", [], true);
    var t1 := Insert(EMPTY_TRIE, "/:a", [":a"], 0);
    assert t1.children == [leaf];
    assert Build(["/:a"]) == t1;
    assert MatchChild([leaf], "b") == 0;
    assert Insert(leaf, "/b", ["b"], 1) == leaf.(pattern := "/b");
    assert [leaf][0 := leaf.(pattern := "/b")] == [leaf.(pattern := "/b")];
  }

  /** A conflict that does harm: once /:a is registered, /b takes its place, and the path /c gets the route /b. */
  lemma ConflictBreaksAgreement()
    ensures Found(Build(["/:a", "/b"]), ["c"], 0) == Some("/b") && !Answers("/b", ["c"])
    ensures !Agrees(Build(["/:a", "/b"]), ["/:a", "/b"])
  {
    ConflictTrie();
    var t := Node("", "", [Node("/b", ":a", [], true)], false);
    FoundBelow(t, ["c"], 0);
    assert Hit(t.children[0], ["c"], 0) == Some("/b");
    assert WellFormed(["c"]) && !AgreesOn(t, ["/:a", "/b"], ["c"]);
  }

  lemma RepairedTrie()
    ensures Build(["/:a", "/b", "/:a"]) == Node("", "", [Node("/:a", ":a", [], true)], false)
  {
    ConflictTrie();
    var leaf := Node("/b", ":a", [], true);
    var t := Node("", "", [leaf], false);
    assert ["/:a", "/b", "/:a"][..2] == ["/:a", "/b"];
    assert MatchChild([leaf], ":a") == 0;
    assert Insert(leaf, "/:a", [":a"], 1) == leaf.(pattern := "/:a");
    assert [leaf][0 := leaf.(pattern := "/:a")] == [leaf.(pattern := "/:a")];
  }

  /** Harm can be undone: once /:a is registered again, the finished trie agrees with the scan, although it did not
      after the insert before. */
  lemma RepairedAgrees()
    ensures Agrees(Build(["/:a", "/b", "/:a"]), ["/:a", "/b", "/:a"]) && !AllHarmless(["/:a", "/b", "/:a"])
  {
    var routes := ["/:a", "/b", "/:a"];
    ConflictTrie();
    ConflictBreaksAgreement();
    RepairedTrie();
    var leaf := Node("/:a", ":a", [], true);
    forall path | WellFormed(path) ensures AgreesOn(Build(routes), routes, path) {
      OneParam(leaf, path);
      assert routes[0] == "/:a" && routes[1] == "/b" && routes[2] == "/:a";
    }
    AlwaysAgreesIffHarmless(routes);
    assert routes[..2] == ["/:a", "/b"];
  }

  /** A trie with nothing but one ':' node finds it for the paths of one part. */
  lemma OneParam(leaf: Node, path: seq<string>)
    requires leaf == Node("/:a", ":a", [], true)
    ensures Found(Node("", "", [leaf], false), path, 0) == if |path| == 1 then Some("/:a") else None
    ensures Matches([":a"], path) <==> |path| == 1
    ensures Matches(["b"], path) ==> |path| == 1
  {
    if path != [] {
      FoundBelow(Node("", "", [leaf], false), path, 0);
      assert FirstHit([leaf], path, 0) == Hit(leaf, path, 0) by {
        assert [leaf][1..] == [];
      }
      if |path| > 1 {
        FreshChildFindsNothing(leaf.(pattern := ""), path, 1);
        FoundBelow(leaf, path, 1);
      }
      assert [":a"][1..] == [] && ["b"][1..] == [];
    }
  }
}
