/** The route trie (psygo/trie.go): what insert and search compute. */
module Tries {
  import opened Options
  import opened Paths

  /** A trie node; the root has an empty part, and an empty pattern means that no route ends here. */
  datatype Node = Node(pattern: string, part: string, children: seq<Node>, isWild: bool)

  predicate Accepts(child: Node, part: string) {
    child.part == part || child.isWild
  }

  /** matchChild: the first child that accepts the part, or the number of children. */
  function MatchChild(children: seq<Node>, part: string): (i: nat)
    ensures i <= |children|
    ensures i < |children| ==> Accepts(children[i], part)
    ensures forall j :: 0 <= j < i ==> !Accepts(children[j], part)
  {
    if children == [] || Accepts(children[0], part) then 0 else 1 + MatchChild(children[1..], part)
  }

  /** matchChildren: all children that accept the part, in order. */
  function MatchChildren(children: seq<Node>, part: string): seq<Node> {
    if children == [] then []
    else (if Accepts(children[0], part) then [children[0]] else []) + MatchChildren(children[1..], part)
  }

  function NewChild(part: string): Node {
    Node("", part, [], Wild(part))
  }

  function Insert(n: Node, pattern: string, parts: seq<string>, height: nat): Node
    requires height <= |parts|
    decreases |parts| - height
  {
    if |parts| == height then n.(pattern := pattern)
    else
      var i := MatchChild(n.children, parts[height]);
      if i == |n.children|
      then n.(children := n.children + [Insert(NewChild(parts[height]), pattern, parts, height + 1)])
      else n.(children := n.children[i := Insert(n.children[i], pattern, parts, height + 1)])
  }

  function Search(n: Node, parts: seq<string>, height: nat): Option<Node>
    requires height <= |parts|
    decreases |parts| - height, 0
  {
    if |parts| == height || Star(n.part) then
      if n.pattern == "" then None else Some(n)
    else SearchAny(MatchChildren(n.children, parts[height]), parts, height + 1)
  }

  /** The loop of search: the first success among the children. */
  function SearchAny(children: seq<Node>, parts: seq<string>, height: nat): Option<Node>
    requires height <= |parts|
    decreases |parts| - height, |children| + 1
  {
    if children == [] then None
    else
      var result := Search(children[0], parts, height);
      if result.Some? then result else SearchAny(children[1..], parts, height)
  }

  const EMPTY_TRIE := Node("", "", [], false)

  /** A route answers a path when its parts do, one by one; a final '*' part takes all that is left, at least one. */
  predicate Matches(route: seq<string>, path: seq<string>) {
    if route == [] then path == []
    else
      && path != []
      && (route[0] == path[0] || Wild(route[0]))
      && (if Star(route[0]) then |route| == 1 else Matches(route[1..], path[1..]))
  }
}

/** How one insert changes every search. */
module TrieInserts {
  import opened Options
  import opened Paths
  import opened Tries

  /** What every insert keeps: the flags are right, a wild child is the last one, and a '*' node has a pattern. */
  predicate Sound(n: Node)
    decreases n, 0
  {
    forall i :: 0 <= i < |n.children| ==> SoundChild(n.children[i], i == |n.children| - 1)
  }

  predicate SoundChild(c: Node, last: bool)
    decreases c, 1
  {
    && IsPart(c.part) && c.isWild == Wild(c.part)
    && (c.isWild ==> last)
    && (Star(c.part) ==> c.pattern != "")
    && Sound(c)
  }

  lemma {:induction false} InsertKeepsSound(n: Node, pattern: string, parts: seq<string>, h: nat)
    requires Sound(n) && h <= |parts| && WellFormed(parts) && pattern != ""
    ensures Sound(Insert(n, pattern, parts, h))
    decreases |parts| - h
  {
    if h < |parts| {
      var i := MatchChild(n.children, parts[h]);
      var c := if i == |n.children| then NewChild(parts[h]) else n.children[i];
      InsertKeepsSound(c, pattern, parts, h + 1);
      InsertKeepsPart(c, pattern, parts, h + 1);
      var n' := Insert(n, pattern, parts, h);
      forall j | 0 <= j < |n'.children| ensures SoundChild(n'.children[j], j == |n'.children| - 1) {
        if j < |n.children| {
          assert SoundChild(n.children[j], j == |n.children| - 1);
        }
      }
    }
  }

  /** The pattern of the node that search returns, all that its callers read. */
  function Found(n: Node, path: seq<string>, h: nat): Option<string>
    requires h <= |path|
  {
    var r := Search(n, path, h);
    if r.Some? then Some(r.value.pattern) else None
  }

  /** What search gets from one child. */
  function Hit(child: Node, path: seq<string>, h: nat): Option<string>
    requires h < |path|
  {
    if Accepts(child, path[h]) then Found(child, path, h + 1) else None
  }

  function FirstHit(children: seq<Node>, path: seq<string>, h: nat): Option<string>
    requires h < |path|
  {
    if children == [] then None
    else if Hit(children[0], path, h).Some? then Hit(children[0], path, h)
    else FirstHit(children[1..], path, h)
  }

  lemma {:induction false} FirstHitSource(children: seq<Node>, path: seq<string>, h: nat) returns (i: nat)
    requires h < |path| && FirstHit(children, path, h).Some?
    ensures i < |children| && Hit(children[i], path, h) == FirstHit(children, path, h)
  {
    if Hit(children[0], path, h).Some? {
      i := 0;
    } else {
      i := FirstHitSource(children[1..], path, h);
      i := i + 1;
    }
  }

  lemma {:induction false} SearchAnyIsFirstHit(children: seq<Node>, path: seq<string>, h: nat)
    requires h < |path|
    ensures var r := SearchAny(MatchChildren(children, path[h]), path, h + 1);
            (if r.Some? then Some(r.value.pattern) else None) == FirstHit(children, path, h)
  {
    if children != [] {
      SearchAnyIsFirstHit(children[1..], path, h);
      var rest := MatchChildren(children[1..], path[h]);
      if Accepts(children[0], path[h]) {
        assert ([children[0]] + rest)[1..] == rest;
      } else {
        assert [] + rest == rest;
      }
    }
  }

  /** Search below a node that is not a '*' node. */
  lemma FoundBelow(n: Node, path: seq<string>, h: nat)
    requires h < |path| && !Star(n.part)
    ensures Found(n, path, h) == FirstHit(n.children, path, h)
  {
    SearchAnyIsFirstHit(n.children, path, h);
  }

  /** The parts of the nodes an insert passes through. */
  function Trail(n: Node, parts: seq<string>, h: nat): seq<string>
    requires h <= |parts|
    decreases |parts| - h
  {
    if h == |parts| then []
    else
      var i := MatchChild(n.children, parts[h]);
      var child := if i == |n.children| then NewChild(parts[h]) else n.children[i];
      [child.part] + Trail(child, parts, h + 1)
  }

  /** r2 is what a search finds after an insert and r1 what it found before. */
  ghost predicate Change(r1: Option<string>, r2: Option<string>, pattern: string, reached: bool) {
    && (reached ==> r2.Some?)
    && (r1.Some? ==> r2.Some?)
    && (r2 == r1 || (reached && r2 == Some(pattern)))
  }

  lemma {:induction false} ReplaceHit(children: seq<Node>, i: nat, child: Node, path: seq<string>, h: nat,
                                      pattern: string, reached: bool)
    requires h < |path| && i < |children|
    requires Change(Hit(children[i], path, h), Hit(child, path, h), pattern, reached)
    ensures Change(FirstHit(children, path, h), FirstHit(children[i := child], path, h), pattern, reached)
    decreases i
  {
    var after := children[i := child];
    if i == 0 {
      assert after[1..] == children[1..];
    } else {
      assert after[1..] == children[1..][i - 1 := child];
      ReplaceHit(children[1..], i - 1, child, path, h, pattern, reached);
    }
  }

  lemma {:induction false} AppendHit(children: seq<Node>, child: Node, path: seq<string>, h: nat)
    requires h < |path|
    ensures FirstHit(children + [child], path, h)
         == if FirstHit(children, path, h).Some? then FirstHit(children, path, h) else Hit(child, path, h)
  {
    var after := children + [child];
    if children == [] {
      assert after[1..] == [];
    } else {
      assert after[1..] == children[1..] + [child];
      AppendHit(children[1..], child, path, h);
    }
  }

  lemma InsertKeepsPart(n: Node, pattern: string, parts: seq<string>, h: nat)
    requires h <= |parts|
    ensures Insert(n, pattern, parts, h).part == n.part && Insert(n, pattern, parts, h).isWild == n.isWild
    ensures h < |parts| ==> Insert(n, pattern, parts, h).pattern == n.pattern
  {
  }

  /** An insert changes a search in one way only: paths that match its trail may now get the inserted pattern, and
      surely get some pattern. */
  lemma {:induction false} InsertChanges(n: Node, pattern: string, parts: seq<string>, path: seq<string>, h: nat)
    requires h <= |parts| && h <= |path| && pattern != "" && !Star(n.part)
    requires Sound(n)
    ensures Change(Found(n, path, h), Found(Insert(n, pattern, parts, h), path, h), pattern,
                   Matches(Trail(n, parts, h), path[h..]))
    decreases |parts| - h, 0
  {
    var n' := Insert(n, pattern, parts, h);
    InsertKeepsPart(n, pattern, parts, h);
    if h < |path| {
      FoundBelow(n, path, h);
      FoundBelow(n', path, h);
    }
    if h < |parts| && h < |path| {
      var i := MatchChild(n.children, parts[h]);
      var c := if i == |n.children| then NewChild(parts[h]) else n.children[i];
      var c' := Insert(c, pattern, parts, h + 1);
      InsertKeepsPart(c, pattern, parts, h + 1);
      ChildChanges(c, pattern, parts, path, h);
      assert path[h..][1..] == path[h + 1..] && path[h..][0] == path[h];
      var trail := Trail(n, parts, h);
      assert trail[1..] == Trail(c, parts, h + 1);
      if i == |n.children| {
        AppendHit(n.children, c', path, h);
        AppendHit(n.children, c, path, h);
        FreshChildFindsNothing(c, path, h + 1);
      } else {
        ReplaceHit(n.children, i, c', path, h, pattern, Matches(trail, path[h..]));
      }
    }
  }

  lemma FreshChildFindsNothing(c: Node, path: seq<string>, h: nat)
    requires h <= |path| && c.children == [] && c.pattern == ""
    ensures Found(c, path, h) == None
  {
    if h < |path| && !Star(c.part) {
      FoundBelow(c, path, h);
    }
  }

  lemma {:induction false} ChildChanges(c: Node, pattern: string, parts: seq<string>, path: seq<string>, h: nat)
    requires h < |parts| && h < |path| && pattern != "" && c.isWild == Wild(c.part) && Sound(c)
    ensures var c' := Insert(c, pattern, parts, h + 1);
            Change(Hit(c, path, h), Hit(c', path, h), pattern,
                   Matches([c.part] + Trail(c, parts, h + 1), path[h..]))
    decreases |parts| - h - 1, 1
  {
    var c' := Insert(c, pattern, parts, h + 1);
    InsertKeepsPart(c, pattern, parts, h + 1);
    var trail := [c.part] + Trail(c, parts, h + 1);
    assert path[h..][1..] == path[h + 1..] && path[h..][0] == path[h] && trail[1..] == Trail(c, parts, h + 1);
    if !Star(c.part) {
      InsertChanges(c, pattern, parts, path, h + 1);
    }
  }
}
