/** The router (psygo/router.go): one trie of routes for each method, and the handler of each route. */
module Routers {
  import opened Options
  import opened Paths
  import opened Tries
  import opened TrieInserts
  import opened TrieNodes
  import opened RouteParams
  import opened Dispatching

  /** The nodes of all roots. */
  ghost function Nodes<K>(roots: map<K, TrieNode>): set<TrieNode>
    reads roots.Values
  {
    set k, n | k in roots && n in roots[k].Repr :: n
  }

  ghost function NodesAt<K>(roots: map<K, TrieNode>, k: K): set<TrieNode>
    reads roots.Values
  {
    if k in roots then roots[k].Repr else {}
  }

  /** The roots are disjoint trees and stand for the tries. */
  ghost predicate Rooted<K>(roots: map<K, TrieNode>, tries: map<K, Node>)
    reads roots.Values, Nodes(roots)
  {
    && tries.Keys == roots.Keys
    && (forall k :: k in roots ==> roots[k].Valid() && roots[k].tree == tries[k])
    && (forall k, l :: k in roots && l in roots && k != l ==> roots[k].Repr !! roots[l].Repr)
  }

  method InsertRoute<K(==)>(roots: map<K, TrieNode>, k: K, pattern: string, parts: seq<string>,
                              ghost tries: map<K, Node>, ghost tree: Node)
    requires Rooted(roots, tries[k := tree])
    modifies NodesAt(roots, k)
    ensures Rooted(roots, tries[k := Insert(tree, pattern, parts, 0)])
    ensures fresh(NodesAt(roots, k) - old(NodesAt(roots, k)))
  {
    roots[k].Insert(pattern, parts, 0);
    forall l | l in roots && l != k
      ensures roots[l].Valid() && roots[l].Repr == old(roots[l].Repr) && roots[l].tree == old(roots[l].tree)
    {
      assert unchanged(roots[l].Repr);
    }
  }

  lemma RootedMore<K>(roots: map<K, TrieNode>, tries: map<K, Node>, k: K, root: TrieNode)
    requires Rooted(roots, tries) && k !in roots
    requires root.Valid() && forall l :: l in roots ==> roots[l].Repr !! root.Repr
    ensures Rooted(roots[k := root], tries[k := root.tree])
  {
  }

  class Router<H> {
    var roots: map<Verb, TrieNode>
    var handlers: map<string, H>

    /** The registrations so far. */
    ghost var log: seq<Registration<H>>

    ghost predicate Valid()
      reads this, roots.Values, Nodes(roots)
    {
      Rooted(roots, TriesOf(log)) && handlers == HandlersOf(log)
    }

    constructor ()
      ensures Valid() && log == []
    {
      roots, handlers, log := map[], map[], [];
    }

    method AddRoute(verb: Verb, pattern: string, handler: H)
      requires Valid()
      modifies this, NodesAt(roots, verb)
      ensures Valid() && log == old(log) + [Registration(verb, pattern, handler)]
      ensures verb in roots && roots == old(roots)[verb := roots[verb]]
      ensures fresh(NodesAt(roots, verb) - old(NodesAt(roots, verb)))
    {
      AddPattern(verb, pattern, TriesOf(log));
      Register(verb, pattern, handler);
    }

    method AddPattern(verb: Verb, pattern: string, ghost tries: map<Verb, Node>)
      requires Rooted(roots, tries)
      modifies this`roots, NodesAt(roots, verb)
      ensures Rooted(roots, tries[verb := Insert(TrieOf(tries, verb), pattern, Parts(pattern), 0)])
      ensures verb in roots && roots == old(roots)[verb := roots[verb]]
      ensures fresh(NodesAt(roots, verb) - old(NodesAt(roots, verb)))
    {
      var parts := ParsePattern(pattern);
      EnsureRoot(verb, tries);
      InsertRoute(roots, verb, pattern, parts, tries, TrieOf(tries, verb));
    }

    /** An empty root for a new verb. */
    method EnsureRoot(verb: Verb, ghost tries: map<Verb, Node>)
      requires Rooted(roots, tries)
      modifies this`roots
      ensures Rooted(roots, tries[verb := TrieOf(tries, verb)])
      ensures verb in roots && roots == old(roots)[verb := roots[verb]]
      ensures if verb in old(roots) then roots == old(roots) else fresh(NodesAt(roots, verb))
    {
      if verb !in roots {
        var root := new TrieNode("");
        RootedMore(roots, tries, verb, root);
        roots := roots[verb := root];
      } else {
        assert tries[verb := TrieOf(tries, verb)] == tries;
      }
    }

    /** The new entry of the handlers map. */
    method Register(verb: Verb, pattern: string, handler: H)
      requires handlers == HandlersOf(log)
      requires Rooted(roots, TriesOf(log)[verb := Insert(TrieOf(TriesOf(log), verb), pattern, Parts(pattern), 0)])
      modifies this`handlers, this`log
      ensures Valid() && log == old(log) + [Registration(verb, pattern, handler)]
    {
      ghost var more := log + [Registration(verb, pattern, handler)];
      OneMore(log, Registration(verb, pattern, handler));
      assert Rooted(roots, TriesOf(more));
      handlers, log := handlers[Key(verb, pattern) := handler], more;
    }

    method GetRoute(verb: Verb, path: string) returns (node: TrieNode?, params: map<string, string>)
      requires Valid()
      ensures match RouteFor(log, verb, path)
              case None => node == null
              case Some(r) => node != null && node.pattern == r && |Parts(r)| <= |Parts(path)|
                              && params == Params(Parts(r), Parts(path))
    {
      var searchParts := ParsePattern(path);
      params := map[];
      if verb !in roots {
        assert TrieOf(TriesOf(log), verb) == EMPTY_TRIE;
        FreshChildFindsNothing(EMPTY_TRIE, Parts(path), 0);
        return null, params;
      }
      node := roots[verb].Search(searchParts, 0);
      if node != null {
        RouteIsSafe(log, verb, path);
        var parts := ParsePattern(node.pattern);
        params := FillParams(parts, searchParts);
      }
    }

    /** The handler that handle appends to the chain, and the parameters it sets. */
    method Handle(verb: Verb, path: string) returns (answer: Answer<H>)
      requires Valid()
      ensures answer == Dispatch(log, verb, path)
    {
      var node, params := GetRoute(verb, path);
      if node != null {
        RouteIsSafe(log, verb, path);
        answer := Serve(handlers[Key(verb, node.pattern)], params);
      } else {
        answer := NotFound;
      }
    }
  }
}
