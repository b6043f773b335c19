/** The parameters of a matched route (getRoute of psygo/router.go). */
module RouteParams {
  import opened Paths
  import opened Strings
  import opened Tries

  /** strings.Join(parts, "/"). */
  function JoinSlash(parts: seq<string>): string {
    Join(parts, "/")
  }

  /** What the loop of getRoute adds to the parameters from the i-th part on. */
  function Fill(parts: seq<string>, path: seq<string>, i: nat, params: map<string, string>): map<string, string>
    requires i <= |parts| <= |path|
    decreases |parts| - i
  {
    if i == |parts| then params
    else if Star(parts[i]) && |parts[i]| > 1 then params[parts[i][1..] := JoinSlash(path[i..])]
    else Fill(parts, path, i + 1, if Colon(parts[i]) then params[parts[i][1..] := path[i]] else params)
  }

  function Params(parts: seq<string>, path: seq<string>): map<string, string>
    requires |parts| <= |path|
  {
    Fill(parts, path, 0, map[])
  }

  method FillParams(parts: seq<string>, path: seq<string>) returns (params: map<string, string>)
    requires |parts| <= |path|
    ensures params == Params(parts, path)
  {
    params := map[];
    for index := 0 to |parts|
      invariant Fill(parts, path, index, params) == Params(parts, path)
    {
      var part := parts[index];
      if part != "" && part[0] == ':' {
        params := params[part[1..] := path[index]];
      }
      if part != "" && part[0] == '*' && |part| > 1 {
        params := params[part[1..] := JoinSlash(path[index..])];
        return;
      }
    }
  }
}

/** Putting the parameters back into the pattern gives the path again. */
module RouteRoundTrips {
  import opened Paths
  import opened Strings
  import opened Tries
  import opened RouteParams

  /** The part sets a parameter; a bare '*' does not. */
  predicate Named(part: string) {
    Colon(part) || (Star(part) && |part| > 1)
  }

  /** No two parts set the same parameter, and every wild part sets one. */
  predicate Invertible(parts: seq<string>) {
    && (forall i :: 0 <= i < |parts| ==> Wild(parts[i]) ==> Named(parts[i]))
    && (forall i, j :: 0 <= i < j < |parts| ==> Named(parts[i]) && Named(parts[j]) ==> parts[i][1..] != parts[j][1..])
  }

  function Substitute(part: string, params: map<string, string>): string {
    if Named(part) && part[1..] in params then params[part[1..]] else part
  }

  function Rebuild(parts: seq<string>, params: map<string, string>): (r: seq<string>)
    ensures |r| == |parts| && forall i :: 0 <= i < |parts| ==> r[i] == Substitute(parts[i], params)
  {
    seq(|parts|, i requires 0 <= i < |parts| => Substitute(parts[i], params))
  }

  /** The round trip: the pattern with its parameters put in is the path. */
  predicate RoundTrips(parts: seq<string>, path: seq<string>)
    requires |parts| <= |path|
  {
    JoinSlash(Rebuild(parts, Params(parts, path))) == JoinSlash(path)
  }

  // ---- what the loop leaves in the map ----

  /** What the i-th part takes from the path. */
  function Taken(parts: seq<string>, path: seq<string>, i: nat): string
    requires i < |parts| <= |path|
  {
    if Star(parts[i]) then JoinSlash(path[i..]) else path[i]
  }

  lemma {:induction false} FillKeeps(parts: seq<string>, path: seq<string>, i: nat, params: map<string, string>,
                                     name: string)
    requires i <= |parts| <= |path| && name in params
    requires forall j :: i <= j < |parts| && Named(parts[j]) ==> parts[j][1..] != name
    ensures name in Fill(parts, path, i, params) && Fill(parts, path, i, params)[name] == params[name]
    decreases |parts| - i
  {
    if i < |parts| && !(Star(parts[i]) && |parts[i]| > 1) {
      FillKeeps(parts, path, i + 1, if Colon(parts[i]) then params[parts[i][1..] := path[i]] else params, name);
    }
  }

  lemma {:induction false} FillTakes(parts: seq<string>, path: seq<string>, i: nat, params: map<string, string>, k: nat)
    requires i <= k < |parts| <= |path| && WellFormed(parts) && Invertible(parts) && Named(parts[k])
    ensures var m := Fill(parts, path, i, params);
            parts[k][1..] in m && m[parts[k][1..]] == Taken(parts, path, k)
    decreases |parts| - i
  {
    if !(Star(parts[i]) && |parts[i]| > 1) {
      var next := if Colon(parts[i]) then params[parts[i][1..] := path[i]] else params;
      if i == k {
        FillKeeps(parts, path, i + 1, next, parts[k][1..]);
      } else {
        FillTakes(parts, path, i + 1, next, k);
      }
    }
  }

  /** Part k is the last one that sets the parameter. */
  predicate SetsLast(parts: seq<string>, k: nat, name: string) {
    && k < |parts| && Named(parts[k]) && parts[k][1..] == name
    && forall j :: k < j < |parts| && Named(parts[j]) ==> parts[j][1..] != name
  }

  lemma {:induction false} FillLast(parts: seq<string>, path: seq<string>, i: nat, params: map<string, string>, k: nat,
                                    name: string)
    requires i <= k < |parts| <= |path| && WellFormed(parts) && SetsLast(parts, k, name)
    ensures var m := Fill(parts, path, i, params); name in m && m[name] == Taken(parts, path, k)
    decreases |parts| - i
  {
    if !(Star(parts[i]) && |parts[i]| > 1) {
      var next := if Colon(parts[i]) then params[parts[i][1..] := path[i]] else params;
      if i == k {
        FillKeeps(parts, path, i + 1, next, name);
      } else {
        FillLast(parts, path, i + 1, next, k, name);
      }
    }
  }

  lemma {:induction false} FillOnly(parts: seq<string>, path: seq<string>, i: nat, params: map<string, string>,
                                    name: string)
    requires i <= |parts| <= |path|
    requires forall j :: i <= j < |parts| && Named(parts[j]) ==> parts[j][1..] != name
    ensures name in Fill(parts, path, i, params) <==> name in params
    decreases |parts| - i
  {
    if i < |parts| && !(Star(parts[i]) && |parts[i]| > 1) {
      FillOnly(parts, path, i + 1, if Colon(parts[i]) then params[parts[i][1..] := path[i]] else params, name);
    }
  }

  lemma {:induction false} SomeSetsLast(parts: seq<string>, j: nat, name: string) returns (k: nat)
    requires j < |parts| && Named(parts[j]) && parts[j][1..] == name
    ensures SetsLast(parts, k, name)
    decreases |parts| - j
  {
    if i :| j < i < |parts| && Named(parts[i]) && parts[i][1..] == name {
      k := SomeSetsLast(parts, i, name);
    } else {
      k := j;
    }
  }

  /** For every pattern, repeated names and bare stars included: a parameter is set exactly when a part names it, to
      what the last such part takes from the path. */
  lemma ParamsAreTaken(parts: seq<string>, path: seq<string>, name: string)
    requires |parts| <= |path| && WellFormed(parts)
    ensures name in Params(parts, path) <==> exists k :: SetsLast(parts, k, name)
    ensures forall k :: SetsLast(parts, k, name) && name in Params(parts, path) ==>
              Params(parts, path)[name] == Taken(parts, path, k)
  {
    forall k | SetsLast(parts, k, name)
      ensures name in Params(parts, path) && Params(parts, path)[name] == Taken(parts, path, k)
    {
      FillLast(parts, path, 0, map[], k, name);
    }
    if j :| 0 <= j < |parts| && Named(parts[j]) && parts[j][1..] == name {
      var k := SomeSetsLast(parts, j, name);
    } else {
      FillOnly(parts, path, 0, map[], name);
    }
  }

  // ---- matching paths ----

  lemma {:induction false} MatchesEach(parts: seq<string>, path: seq<string>)
    requires Matches(parts, path)
    ensures |parts| <= |path|
    ensures forall i :: 0 <= i < |parts| && !Wild(parts[i]) ==> parts[i] == path[i]
    ensures |parts| < |path| ==> parts != [] && Star(parts[|parts| - 1])
  {
    if parts != [] && !Star(parts[0]) {
      MatchesEach(parts[1..], path[1..]);
      forall i | 0 <= i < |parts| && !Wild(parts[i]) ensures parts[i] == path[i] {
        assert i > 0 ==> parts[i] == parts[1..][i - 1] && path[i] == path[1..][i - 1];
      }
    }
  }

  /** A last item that is a join itself. */
  lemma {:induction false} JoinLast(r: seq<string>, path: seq<string>)
    requires 0 < |r| <= |path|
    requires forall i :: 0 <= i < |r| - 1 ==> r[i] == path[i]
    requires r[|r| - 1] == JoinSlash(path[|r| - 1..])
    ensures JoinSlash(r) == JoinSlash(path)
  {
    if |r| == 1 {
      assert path[0..] == path;
    } else {
      assert path[1..][|r| - 2..] == path[|r| - 1..];
      JoinLast(r[1..], path[1..]);
    }
  }

  lemma RebuildTakes(parts: seq<string>, path: seq<string>)
    requires WellFormed(parts) && Invertible(parts) && Matches(parts, path) && |parts| <= |path|
    ensures forall i :: 0 <= i < |parts| ==> Rebuild(parts, Params(parts, path))[i] == Taken(parts, path, i)
  {
    MatchesEach(parts, path);
    var r := Rebuild(parts, Params(parts, path));
    forall i | 0 <= i < |parts| ensures r[i] == Taken(parts, path, i) {
      if Wild(parts[i]) {
        FillTakes(parts, path, 0, map[], i);
      }
    }
  }

  lemma InvertibleRoundTrips(parts: seq<string>, path: seq<string>)
    requires WellFormed(parts) && Invertible(parts) && Matches(parts, path)
    ensures |parts| <= |path| && RoundTrips(parts, path)
  {
    MatchesEach(parts, path);
    RebuildTakes(parts, path);
    var r := Rebuild(parts, Params(parts, path));
    if parts != [] && Star(parts[|parts| - 1]) {
      JoinLast(r, path);
    } else {
      assert r == path;
    }
  }

  // ---- the round trip fails on some path of every other pattern ----

  /** A matching path with "x" for the k-th part and "y" for all other wild ones. */
  function Odd(parts: seq<string>, k: nat): (r: seq<string>)
    ensures |r| == |parts|
    ensures forall i :: 0 <= i < |parts| ==> r[i] == if !Wild(parts[i]) then parts[i] else if i == k then "x" else "y"
  {
    seq(|parts|, i requires 0 <= i < |parts| => if !Wild(parts[i]) then parts[i] else if i == k then "x" else "y")
  }

  lemma {:induction false} EqualLengthMatches(parts: seq<string>, path: seq<string>)
    requires WellFormed(parts) && |parts| == |path|
    requires forall i :: 0 <= i < |parts| ==> path[i] == parts[i] || Wild(parts[i])
    ensures Matches(parts, path)
  {
    if parts != [] {
      assert forall i :: 0 <= i < |parts| - 1 ==> parts[1..][i] == parts[i + 1] && path[1..][i] == path[i + 1];
      EqualLengthMatches(parts[1..], path[1..]);
    }
  }

  lemma OddMatches(parts: seq<string>, k: nat)
    requires WellFormed(parts)
    ensures Matches(parts, Odd(parts, k)) && WellFormed(Odd(parts, k))
  {
    EqualLengthMatches(parts, Odd(parts, k));
    forall i | 0 <= i < |parts| ensures IsPart(Odd(parts, k)[i]) && !Star(Odd(parts, k)[i]) {
      assert IsPart(parts[i]);
    }
  }

  lemma {:induction false} LaterWins(parts: seq<string>, k: nat, i: nat, params: map<string, string>, name: string)
    requires k < i <= |parts| && WellFormed(parts)
    requires (name in params && params[name] == "y")
          || exists j :: i <= j < |parts| && Named(parts[j]) && parts[j][1..] == name
    ensures var m := Fill(parts, Odd(parts, k), i, params); name in m && m[name] == "y"
    decreases |parts| - i
  {
    if i < |parts| {
      if Star(parts[i]) && |parts[i]| > 1 {
        assert Odd(parts, k)[i..] == ["y"];
      } else {
        LaterWins(parts, k, i + 1, if Colon(parts[i]) then params[parts[i][1..] := Odd(parts, k)[i]] else params, name);
      }
    }
  }

  lemma {:induction false} FillThen(parts: seq<string>, path: seq<string>, i: nat, k: nat, params: map<string, string>)
    returns (before: map<string, string>)
    requires i <= k <= |parts| <= |path| && WellFormed(parts) && (k < |parts| || i == k)
    ensures Fill(parts, path, i, params) == Fill(parts, path, k, before)
    decreases k - i
  {
    if i == k {
      before := params;
    } else {
      before := FillThen(parts, path, i + 1, k, if Colon(parts[i]) then params[parts[i][1..] := path[i]] else params);
    }
  }

  lemma JoinHead(a: seq<string>)
    requires |a| > 1 && '/' !in a[0]
    ensures Split(JoinSlash(a))[0] == a[0]
    ensures |a[0]| < |JoinSlash(a)| && JoinSlash(a)[|a[0]| + 1..] == JoinSlash(a[1..])
  {
    SplitItem(a[0], "/" + JoinSlash(a[1..]));
    assert JoinSlash(a) == a[0] + ("/" + JoinSlash(a[1..]));
  }

  lemma {:induction false} JoinIsInjective(a: seq<string>, b: seq<string>)
    requires |a| == |b| && JoinSlash(a) == JoinSlash(b)
    requires forall i :: 0 <= i < |a| ==> '/' !in a[i] && '/' !in b[i]
    ensures a == b
  {
    if |a| == 1 {
      assert a == [a[0]] && b == [b[0]];
    } else if |a| > 1 {
      JoinHead(a);
      JoinHead(b);
      JoinIsInjective(a[1..], b[1..]);
      assert a == [a[0]] + a[1..] && b == [b[0]] + b[1..];
    }
  }

  lemma {:induction false} FillValues(parts: seq<string>, k: nat, i: nat, params: map<string, string>)
    requires i <= |parts| && WellFormed(parts)
    requires forall n :: n in params ==> params[n] in {"x", "y"}
    ensures forall n :: n in Fill(parts, Odd(parts, k), i, params) ==>
              Fill(parts, Odd(parts, k), i, params)[n] in {"x", "y"}
    decreases |parts| - i
  {
    if i < |parts| {
      if Star(parts[i]) && |parts[i]| > 1 {
        assert Odd(parts, k)[i..] == [Odd(parts, k)[i]];
      } else {
        FillValues(parts, k, i + 1, if Colon(parts[i]) then params[parts[i][1..] := Odd(parts, k)[i]] else params);
      }
    }
  }

  /** The part at k is not what the path has there, so the whole is not the path. */
  lemma OddDiffers(parts: seq<string>, k: nat)
    requires k < |parts| && WellFormed(parts)
    requires Substitute(parts[k], Params(parts, Odd(parts, k))) != Odd(parts, k)[k]
    ensures !RoundTrips(parts, Odd(parts, k))
  {
    var path := Odd(parts, k);
    var r := Rebuild(parts, Params(parts, path));
    FillValues(parts, k, 0, map[]);
    forall i | 0 <= i < |parts| ensures '/' !in r[i] && '/' !in path[i] {
      assert IsPart(parts[i]);
    }
    assert r[k] != path[k];
    if JoinSlash(r) == JoinSlash(path) {
      JoinIsInjective(r, path);
    }
  }

  lemma NotInvertibleFails(parts: seq<string>) returns (k: nat)
    requires WellFormed(parts) && !Invertible(parts)
    ensures !RoundTrips(parts, Odd(parts, k))
  {
    if i :| 0 <= i < |parts| && Wild(parts[i]) && !Named(parts[i]) {
      k := i;
      assert parts[i] == "*";
    } else {
      var i, j :| 0 <= i < j < |parts| && Named(parts[i]) && Named(parts[j]) && parts[i][1..] == parts[j][1..];
      k := i;
      assert Colon(parts[i]) by {
        assert Star(parts[i]) ==> i == |parts| - 1;
      }
      var path := Odd(parts, k);
      var before := FillThen(parts, path, 0, i, map[]);
      LaterWins(parts, k, i + 1, before[parts[i][1..] := path[i]], parts[i][1..]);
    }
    OddDiffers(parts, k);
  }

  /** For every pattern: putting the parameters back rebuilds every path the pattern matches if and only if no two of
      its parts share a name and it has no bare '*'. */
  lemma RoundTripIffInvertible(pattern: string)
    ensures (forall path :: WellFormed(path) && Matches(Parts(pattern), path) ==>
               |Parts(pattern)| <= |path| && RoundTrips(Parts(pattern), path))
        <==> Invertible(Parts(pattern))
  {
    var parts := Parts(pattern);
    PartsAreWellFormed(pattern);
    if Invertible(parts) {
      forall path | WellFormed(path) && Matches(parts, path) ensures |parts| <= |path| && RoundTrips(parts, path) {
        InvertibleRoundTrips(parts, path);
      }
    } else {
      var k := NotInvertibleFails(parts);
      OddMatches(parts, k);
    }
  }
}
