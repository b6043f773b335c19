/** What a sequence of addRoute calls makes the router do (psygo/router.go). */
module Dispatching {
  import opened Options
  import opened Paths
  import opened Tries
  import opened TrieInserts
  import opened TrieAgreement
  import opened FinishedTries
  import opened RouteParams
  import opened RouteRoundTrips

  /** A request method. */
  datatype Verb = Verb(name: string)

  datatype Registration<H> = Registration(verb: Verb, pattern: string, handler: H)

  /** The key of the handlers map. */
  function Key(verb: Verb, pattern: string): string {
    verb.name + "-" + pattern
  }

  /** The trie of one verb; a verb without a root finds what an empty trie finds. */
  function TrieOf(tries: map<Verb, Node>, verb: Verb): Node {
    if verb in tries then tries[verb] else EMPTY_TRIE
  }

  function TriesOf<H>(log: seq<Registration<H>>): map<Verb, Node> {
    if log == [] then map[]
    else
      var tries, last := TriesOf(log[..|log| - 1]), log[|log| - 1];
      tries[last.verb := Insert(TrieOf(tries, last.verb), last.pattern, Parts(last.pattern), 0)]
  }

  function HandlersOf<H>(log: seq<Registration<H>>): map<string, H> {
    if log == [] then map[]
    else
      var last := log[|log| - 1];
      HandlersOf(log[..|log| - 1])[Key(last.verb, last.pattern) := last.handler]
  }

  /** The patterns registered for one verb. */
  function RoutesOf<H>(log: seq<Registration<H>>, verb: Verb): seq<string> {
    if log == [] then []
    else
      var last := log[|log| - 1];
      RoutesOf(log[..|log| - 1], verb) + if last.verb == verb then [last.pattern] else []
  }

  /** What one more registration does. */
  lemma OneMore<H>(log: seq<Registration<H>>, r: Registration<H>)
    ensures TriesOf(log + [r])
         == TriesOf(log)[r.verb := Insert(TrieOf(TriesOf(log), r.verb), r.pattern, Parts(r.pattern), 0)]
    ensures HandlersOf(log + [r]) == HandlersOf(log)[Key(r.verb, r.pattern) := r.handler]
  {
    assert (log + [r])[..|log|] == log;
  }

  lemma {:induction false} TrieIsBuild<H>(log: seq<Registration<H>>, verb: Verb)
    ensures TrieOf(TriesOf(log), verb) == Build(RoutesOf(log, verb))
  {
    if log != [] {
      var before, last := log[..|log| - 1], log[|log| - 1];
      TrieIsBuild(before, verb);
      var routes := RoutesOf(before, verb);
      assert (routes + [last.pattern])[..|routes|] == routes;
      assert last.verb != verb ==> routes + [] == routes;
    }
  }

  lemma {:induction false} RouteIsLogged<H>(log: seq<Registration<H>>, verb: Verb, pattern: string)
    ensures pattern in RoutesOf(log, verb)
       <==> exists i :: 0 <= i < |log| && log[i].verb == verb && log[i].pattern == pattern
  {
    if log != [] {
      var before, last := log[..|log| - 1], log[|log| - 1];
      RouteIsLogged(before, verb, pattern);
      if pattern in RoutesOf(before, verb) {
        var i :| 0 <= i < |before| && before[i].verb == verb && before[i].pattern == pattern;
        assert log[i] == before[i];
      }
    }
  }

  // ---- patterns sit at the depth of their parts, whether or not inserts conflict ----

  /** Every pattern below n is one of the routes and has as many parts as its node is deep. */
  ghost predicate Filed(n: Node, depth: nat, routes: seq<string>) {
    && (n.pattern != "" ==> n.pattern in routes && |Parts(n.pattern)| == depth)
    && forall i :: 0 <= i < |n.children| ==> Filed(n.children[i], depth + 1, routes)
  }

  lemma {:induction false} FiledAmongMore(n: Node, depth: nat, routes: seq<string>, r: string)
    requires Filed(n, depth, routes)
    ensures Filed(n, depth, routes + [r])
  {
    forall i | 0 <= i < |n.children| ensures Filed(n.children[i], depth + 1, routes + [r]) {
      FiledAmongMore(n.children[i], depth + 1, routes, r);
    }
  }

  lemma {:induction false} InsertFiles(n: Node, depth: nat, routes: seq<string>, r: string)
    requires Filed(n, depth, routes) && depth <= |Parts(r)|
    ensures Filed(Insert(n, r, Parts(r), depth), depth, routes + [r])
    decreases |Parts(r)| - depth
  {
    FiledAmongMore(n, depth, routes, r);
    if depth < |Parts(r)| {
      var i := MatchChild(n.children, Parts(r)[depth]);
      InsertFiles(if i == |n.children| then NewChild(Parts(r)[depth]) else n.children[i], depth + 1, routes, r);
    }
  }

  /** Depth alignment holds for every sequence of registrations. */
  lemma {:induction false} BuildFiles(routes: seq<string>)
    ensures Filed(Build(routes), 0, routes)
  {
    if routes != [] {
      var before, last := routes[..|routes| - 1], routes[|routes| - 1];
      BuildFiles(before);
      InsertFiles(Build(before), 0, before, last);
      assert before + [last] == routes;
    }
  }

  lemma {:induction false} FoundIsFiled(n: Node, depth: nat, routes: seq<string>, path: seq<string>)
    requires Filed(n, depth, routes) && depth <= |path| && Found(n, path, depth).Some?
    ensures Found(n, path, depth).value in routes && |Parts(Found(n, path, depth).value)| <= |path|
    decreases |path| - depth
  {
    if depth < |path| && !Star(n.part) {
      FoundBelow(n, path, depth);
      var i := FirstHitSource(n.children, path, depth);
      FoundIsFiled(n.children[i], depth + 1, routes, path);
    }
  }

  // ---- what a request gets ----

  datatype Answer<H> = NotFound | Serve(handler: H, params: map<string, string>)

  /** The pattern of the route that getRoute returns. */
  function RouteFor<H>(log: seq<Registration<H>>, verb: Verb, path: string): Option<string> {
    Found(TrieOf(TriesOf(log), verb), Parts(path), 0)
  }

  /** getRoute never reads past the path, and the handler it looks up is there. */
  lemma RouteIsSafe<H>(log: seq<Registration<H>>, verb: Verb, path: string)
    requires RouteFor(log, verb, path).Some?
    ensures var r := RouteFor(log, verb, path).value;
            && |Parts(r)| <= |Parts(path)|
            && r in RoutesOf(log, verb) && Key(verb, r) in HandlersOf(log)
  {
    TrieIsBuild(log, verb);
    BuildFiles(RoutesOf(log, verb));
    FoundIsFiled(Build(RoutesOf(log, verb)), 0, RoutesOf(log, verb), Parts(path));
    var r := RouteFor(log, verb, path).value;
    RouteIsLogged(log, verb, r);
    var i :| 0 <= i < |log| && log[i].verb == verb && log[i].pattern == r;
    HasHandler(log, i);
  }

  lemma {:induction false} HasHandler<H>(log: seq<Registration<H>>, i: nat)
    requires i < |log|
    ensures Key(log[i].verb, log[i].pattern) in HandlersOf(log)
  {
    if i < |log| - 1 {
      HasHandler(log[..|log| - 1], i);
    }
  }

  function Dispatch<H>(log: seq<Registration<H>>, verb: Verb, path: string): Answer<H> {
    match RouteFor(log, verb, path)
    case None => NotFound
    case Some(r) =>
      RouteIsSafe(log, verb, path);
      Serve(HandlersOf(log)[Key(verb, r)], Params(Parts(r), Parts(path)))
  }

  // ---- the handlers map joins verb and pattern with a dash ----

  /** No pattern of the one verb can have the key of a pattern of the other. */
  predicate KeysApart(v: Verb, w: Verb) {
    !(v.name + "-" <= w.name + "-") && !(w.name + "-" <= v.name + "-")
  }

  lemma KeysCollideIff(v: Verb, w: Verb)
    ensures (exists p: string, q: string :: Key(v, p) == Key(w, q)) <==> !KeysApart(v, w)
  {
    if p: string, q: string :| Key(v, p) == Key(w, q) {
      SharedKeyIsPrefix(v.name + "-", p, w.name + "-", q);
    }
    if v.name + "-" <= w.name + "-" {
      assert Key(v, (w.name + "-")[|v.name + "-"|..]) == Key(w, "");
    }
    if w.name + "-" <= v.name + "-" {
      assert Key(w, (v.name + "-")[|w.name + "-"|..]) == Key(v, "");
    }
  }

  lemma SharedKeyIsPrefix(a: string, p: string, b: string, q: string)
    requires a + p == b + q
    ensures a <= b || b <= a
  {
    if |a| <= |b| {
      assert (a + p)[..|a|] == (b + q)[..|a|] == b[..|a|];
    } else {
      assert (b + q)[..|b|] == (a + p)[..|b|] == a[..|b|];
    }
  }

  /** The i-th registration is the latest of its verb and pattern. */
  predicate IsLatest<H>(log: seq<Registration<H>>, i: nat) {
    && i < |log|
    && forall j :: i < j < |log| ==> log[j].verb != log[i].verb || log[j].pattern != log[i].pattern
  }

  lemma {:induction false} HandlerIsLatest<H>(log: seq<Registration<H>>, i: nat)
    requires IsLatest(log, i)
    requires forall j :: 0 <= j < |log| && log[j].verb != log[i].verb ==> KeysApart(log[j].verb, log[i].verb)
    ensures Key(log[i].verb, log[i].pattern) in HandlersOf(log)
    ensures HandlersOf(log)[Key(log[i].verb, log[i].pattern)] == log[i].handler
  {
    if i < |log| - 1 {
      var last := log[|log| - 1];
      assert IsLatest(log[..|log| - 1], i);
      HandlerIsLatest(log[..|log| - 1], i);
      KeysCollideIff(last.verb, log[i].verb);
      if last.verb == log[i].verb {
        assert forall p :: Key(last.verb, p)[|last.verb.name| + 1..] == p;
      }
    }
  }

  lemma {:induction false} LatestOf<H>(log: seq<Registration<H>>, verb: Verb, pattern: string) returns (i: nat)
    requires pattern in RoutesOf(log, verb)
    ensures IsLatest(log, i) && log[i].verb == verb && log[i].pattern == pattern
  {
    var last := log[|log| - 1];
    if last.verb == verb && last.pattern == pattern {
      i := |log| - 1;
    } else {
      i := LatestOf(log[..|log| - 1], verb, pattern);
    }
  }

  /** The trie of the verb agrees with the linear scan over the verb's routes. */
  ghost predicate TrieAgrees<H>(log: seq<Registration<H>>, verb: Verb) {
    Agrees(Build(RoutesOf(log, verb)), RoutesOf(log, verb))
  }

  /** No other verb registered can share a key with this one. */
  predicate HasOwnKeys<H>(log: seq<Registration<H>>, verb: Verb) {
    forall j :: 0 <= j < |log| && log[j].verb != verb ==> KeysApart(log[j].verb, verb)
  }

  /** The i-th registration is the latest of its pattern, and its route answers the path. */
  ghost predicate IsServing<H>(log: seq<Registration<H>>, i: nat, verb: Verb, path: string) {
    IsLatest(log, i) && log[i].verb == verb && Answers(log[i].pattern, Parts(path))
  }

  /** A request is not found exactly when no route of its verb answers it, and else it gets the handler last registered
      for a route that does, with that route's parameters. */
  ghost predicate Serves<H>(log: seq<Registration<H>>, verb: Verb, path: string) {
    match Dispatch(log, verb, path)
    case NotFound => forall i :: 0 <= i < |log| && log[i].verb == verb ==> !Answers(log[i].pattern, Parts(path))
    case Serve(handler, params) => exists i: nat ::
      && IsServing(log, i, verb, path) && handler == log[i].handler
      && |Parts(log[i].pattern)| <= |Parts(path)| && params == Params(Parts(log[i].pattern), Parts(path))
  }

  /** A router serves every request of a verb whose trie agrees with its routes and whose keys are its own. */
  lemma DispatchServes<H>(log: seq<Registration<H>>, verb: Verb, path: string)
    requires TrieAgrees(log, verb) && HasOwnKeys(log, verb)
    ensures Serves(log, verb, path)
  {
    var routes := RoutesOf(log, verb);
    TrieIsBuild(log, verb);
    PartsAreWellFormed(path);
    assert AgreesOn(Build(routes), routes, Parts(path));
    match RouteFor(log, verb, path)
    case None =>
      forall i | 0 <= i < |log| && log[i].verb == verb ensures !Answers(log[i].pattern, Parts(path)) {
        RouteIsLogged(log, verb, log[i].pattern);
      }
    case Some(r) =>
      RouteIsSafe(log, verb, path);
      var i := LatestOf(log, verb, r);
      HandlerIsLatest(log, i);
      assert IsServing(log, i, verb, path);
  }

  /** And when no route of the verb repeats a parameter or has a bare '*': the parameters a handler gets, put back into
      its route, give the path that was asked for. */
  lemma ServedPathRebuilds<H>(log: seq<Registration<H>>, verb: Verb, path: string, handler: H,
                              params: map<string, string>)
    requires TrieAgrees(log, verb) && HasOwnKeys(log, verb)
    requires forall j :: 0 <= j < |log| && log[j].verb == verb ==> Invertible(Parts(log[j].pattern))
    requires Dispatch(log, verb, path) == Serve(handler, params)
    ensures exists i: nat ::
              && IsServing(log, i, verb, path) && log[i].handler == handler
              && JoinSlash(Rebuild(Parts(log[i].pattern), params)) == JoinSlash(Parts(path))
  {
    DispatchServes(log, verb, path);
    var i: nat :| IsServing(log, i, verb, path) && handler == log[i].handler
                  && |Parts(log[i].pattern)| <= |Parts(path)|
                  && params == Params(Parts(log[i].pattern), Parts(path));
    PartsAreWellFormed(log[i].pattern);
    InvertibleRoundTrips(Parts(log[i].pattern), Parts(path));
  }

  // ---- the methods of RouterGroup ----

  const METHODS := ["GET", "POST", "DELETE", "PUT", "PATCH", "OPTIONS", "HEAD"]

  /** A method for which RouterGroup registers routes. */
  predicate Registrable(verb: Verb) {
    verb.name in METHODS
  }

  lemma FirstTwoTell(v: Verb, w: Verb)
    requires Registrable(v) && Registrable(w)
    ensures |v.name| >= 2 && |w.name| >= 2
    ensures v.name[0] == w.name[0] && v.name[1] == w.name[1] ==> v == w
  {
    var i :| 0 <= i < |METHODS| && METHODS[i] == v.name;
    var j :| 0 <= j < |METHODS| && METHODS[j] == w.name;
    assert i == 0 || i == 1 || i == 2 || i == 3 || i == 4 || i == 5 || i == 6;
    assert j == 0 || j == 1 || j == 2 || j == 3 || j == 4 || j == 5 || j == 6;
  }

  /** No two of them can share a key. */
  lemma RegistrableApart(v: Verb, w: Verb)
    requires Registrable(v) && Registrable(w) && v != w
    ensures KeysApart(v, w)
  {
    FirstTwoTell(v, w);
    var a, b := v.name + "-", w.name + "-";
    assert a[0] == v.name[0] && a[1] == v.name[1] && b[0] == w.name[0] && b[1] == w.name[1];
  }

  lemma {:induction false} NoRoutesNotFound<H>(log: seq<Registration<H>>, verb: Verb, path: string)
    requires forall j :: 0 <= j < |log| ==> log[j].verb != verb
    ensures RoutesOf(log, verb) == [] && Dispatch(log, verb, path) == NotFound
    decreases |log|
  {
    if log != [] {
      NoRoutesNotFound(log[..|log| - 1], verb, path);
    }
    TrieIsBuild(log, verb);
    FreshChildFindsNothing(EMPTY_TRIE, Parts(path), 0);
  }

  lemma GroupKeys<H>(log: seq<Registration<H>>, verb: Verb, i: nat)
    requires forall j :: 0 <= j < |log| ==> Registrable(log[j].verb)
    requires i < |log| && log[i].verb == verb
    ensures HasOwnKeys(log, verb)
  {
    forall j | 0 <= j < |log| && log[j].verb != verb ensures KeysApart(log[j].verb, verb) {
      RegistrableApart(log[j].verb, verb);
    }
  }

  /** Routes registered through a RouterGroup: whatever method a request has, it is served when the trie of its method
      agrees with its routes, and so when each of them was harmless. */
  lemma GroupServes<H>(log: seq<Registration<H>>, verb: Verb, path: string)
    requires forall j :: 0 <= j < |log| ==> Registrable(log[j].verb)
    requires TrieAgrees(log, verb) || AllHarmless(RoutesOf(log, verb))
    ensures Serves(log, verb, path)
  {
    AlwaysAgreesIffHarmless(RoutesOf(log, verb));
    if j :| 0 <= j < |log| && log[j].verb == verb {
      GroupKeys(log, verb, j);
      DispatchServes(log, verb, path);
    } else {
      NoRoutesNotFound(log, verb, path);
    }
  }

  /** And their parameters rebuild the path. */
  lemma GroupPathRebuilds<H>(log: seq<Registration<H>>, verb: Verb, path: string, handler: H,
                             params: map<string, string>)
    requires forall j :: 0 <= j < |log| ==> Registrable(log[j].verb)
    requires TrieAgrees(log, verb) || AllHarmless(RoutesOf(log, verb))
    requires forall j :: 0 <= j < |log| && log[j].verb == verb ==> Invertible(Parts(log[j].pattern))
    requires Dispatch(log, verb, path) == Serve(handler, params)
    ensures exists i: nat ::
              && IsServing(log, i, verb, path) && log[i].handler == handler
              && JoinSlash(Rebuild(Parts(log[i].pattern), params)) == JoinSlash(Parts(path))
  {
    AlwaysAgreesIffHarmless(RoutesOf(log, verb));
    if j :| 0 <= j < |log| && log[j].verb == verb {
      GroupKeys(log, verb, j);
      ServedPathRebuilds(log, verb, path, handler, params);
    } else {
      NoRoutesNotFound(log, verb, path);
    }
  }

  // ---- when every request is served ----

  /** Each registration can be told by its handler. */
  ghost predicate HandlersDiffer<H>(log: seq<Registration<H>>) {
    forall i, j :: 0 <= i < j < |log| ==> log[i].handler != log[j].handler
  }

  lemma ServedAgreesOn<H>(log: seq<Registration<H>>, verb: Verb, parts: seq<string>)
    requires HandlersDiffer(log) && HasOwnKeys(log, verb) && WellFormed(parts) && Serves(log, verb, PathOf(parts))
    ensures AgreesOn(Build(RoutesOf(log, verb)), RoutesOf(log, verb), parts)
  {
    var path := PathOf(parts);
    PartsOfPath(parts);
    TrieIsBuild(log, verb);
    match RouteFor(log, verb, path)
    case None =>
      forall r | r in RoutesOf(log, verb) ensures !Answers(r, parts) {
        RouteIsLogged(log, verb, r);
      }
    case Some(r) =>
      RouteIsSafe(log, verb, path);
      var j := LatestOf(log, verb, r);
      HandlerIsLatest(log, j);
      var i: nat :| IsServing(log, i, verb, path) && log[j].handler == log[i].handler;
      assert i == j;
  }

  /** Of a RouterGroup whose handlers can be told apart: every request of a method is served if and only if the finished
      trie of the method passes the check. */
  lemma GroupServesIffChecked<H>(log: seq<Registration<H>>, verb: Verb)
    requires HandlersDiffer(log) && forall j :: 0 <= j < |log| ==> Registrable(log[j].verb)
    ensures (forall path: string :: Serves(log, verb, path))
       <==> Checked(Build(RoutesOf(log, verb)), RoutesOf(log, verb))
  {
    var routes := RoutesOf(log, verb);
    FinishedAgreesIff(routes);
    if Checked(Build(routes), routes) {
      forall path: string ensures Serves(log, verb, path) {
        GroupServes(log, verb, path);
      }
    } else if i :| 0 <= i < |log| && log[i].verb == verb {
      GroupKeys(log, verb, i);
      var parts :| WellFormed(parts) && !AgreesOn(Build(routes), routes, parts);
      if Serves(log, verb, PathOf(parts)) {
        ServedAgreesOn(log, verb, parts);
      }
    } else {
      NoRoutesNotFound(log, verb, "");
      EmptyAgrees();
    }
  }

  lemma {:induction false} MatchesItself(parts: seq<string>)
    requires WellFormed(parts)
    ensures Matches(parts, parts)
  {
    if parts != [] {
      assert forall i :: 0 <= i < |parts| - 1 ==> parts[1..][i] == parts[i + 1];
      MatchesItself(parts[1..]);
    }
  }

  lemma OnlyRoute(p: string)
    requires p != ""
    ensures Found(Build([p]), Parts(p), 0) == Some(p)
  {
    var none: seq<string> := [];
    assert [p][..0] == none;
    NoConflictsAgree([p]);
    PartsAreWellFormed(p);
    MatchesItself(Parts(p));
    assert AgreesOn(Build([p]), [p], Parts(p)) && p in [p];
  }

  /** Given to addRoute, verbs whose keys are not apart do collide: a registration for the one takes over a handler of
      the other. */
  lemma CollidingVerbs<H>(v: Verb, w: Verb, first: H, second: H)
    requires v != w && !KeysApart(v, w)
    ensures exists p: string, q: string ::
              Dispatch([Registration(v, p, first), Registration(w, q, second)], v, p)
              == Serve(second, Params(Parts(p), Parts(p)))
  {
    var p, q := "/", "/";
    if w.name + "-" <= v.name + "-" {
      q := (v.name + "-")[|w.name + "-"|..] + "/";
    } else {
      p := (w.name + "-")[|v.name + "-"|..] + "/";
    }
    assert Key(v, p) == Key(w, q);
    var log := [Registration(v, p, first), Registration(w, q, second)];
    var one := [Registration(v, p, first)];
    assert log[..1] == one && one[..0] == [];
    assert HandlersOf(log)[Key(v, p)] == second;
    assert RoutesOf(one, v) == [p];
    TrieIsBuild(log, v);
    OnlyRoute(p);
  }
}
