/** The trie nodes of psygo/trie.go, updated in place, against the tree they stand for. */
module TrieNodes {
  import opened Options
  import opened Paths
  import opened Tries

  /** The child alone, when it accepts the part. */
  function IfAccepts(child: Node, part: string): seq<Node> {
    if Accepts(child, part) then [child] else []
  }

  lemma MatchCons(child: Node, rest: seq<Node>, part: string)
    ensures Tries.MatchChildren([child] + rest, part) == IfAccepts(child, part) + Tries.MatchChildren(rest, part)
  {
    assert ([child] + rest)[1..] == rest;
  }

  lemma {:induction false} MatchAppend(children: seq<Node>, child: Node, part: string)
    ensures Tries.MatchChildren(children + [child], part)
         == Tries.MatchChildren(children, part) + IfAccepts(child, part)
  {
    if children == [] {
      MatchCons(child, [], part);
      assert children + [child] == [child] + [];
      assert IfAccepts(child, part) + [] == [] + IfAccepts(child, part);
    } else {
      var first, rest := children[0], children[1..];
      MatchAppend(rest, child, part);
      MatchCons(first, rest, part);
      MatchCons(first, rest + [child], part);
      assert children == [first] + rest && children + [child] == [first] + (rest + [child]);
    }
  }

  lemma MatchOneMore(children: seq<Node>, i: nat, part: string)
    requires i < |children|
    ensures Tries.MatchChildren(children[..i + 1], part)
         == Tries.MatchChildren(children[..i], part) + IfAccepts(children[i], part)
  {
    assert children[..i + 1] == children[..i] + [children[i]];
    MatchAppend(children[..i], children[i], part);
  }

  class TrieNode {
    var pattern: string
    const part: string
    var children: seq<TrieNode>
    const isWild: bool

    /** This node and everything below it. */
    ghost var Repr: set<TrieNode>

    /** The tree this node stands for. */
    ghost var tree: Node

    ghost predicate Valid()
      reads this, Repr
      ensures Valid() ==> this in Repr
      decreases Repr
    {
      && this in Repr
      && tree.pattern == pattern && tree.part == part && tree.isWild == isWild && |tree.children| == |children|
      && (forall i :: 0 <= i < |children| ==>
            && children[i] in Repr && children[i].Repr <= Repr && this !in children[i].Repr
            && children[i].Valid() && children[i].tree == tree.children[i])
      && (forall i, j :: 0 <= i < j < |children| ==> children[i].Repr !! children[j].Repr)
    }

    constructor (part: string)
      ensures Valid() && fresh(Repr) && Repr == {this}
      ensures tree == NewChild(part)
    {
      this.pattern, this.part, this.isWild, this.children := "", part, Wild(part), [];
      Repr, tree := {this}, NewChild(part);
    }

    method MatchChild(part: string) returns (i: nat)
      requires Valid()
      ensures i == Tries.MatchChild(tree.children, part)
    {
      i := 0;
      while i < |children|
        invariant 0 <= i <= |children|
        invariant i + Tries.MatchChild(tree.children[i..], part) == Tries.MatchChild(tree.children, part)
      {
        assert tree.children[i..][1..] == tree.children[i + 1..];
        if children[i].part == part || children[i].isWild {
          return;
        }
        i := i + 1;
      }
    }

    method Insert(pattern: string, parts: seq<string>, height: nat)
      requires Valid() && height <= |parts|
      modifies Repr
      ensures Valid() && fresh(Repr - old(Repr))
      ensures tree == Tries.Insert(old(tree), pattern, parts, height)
      decreases |parts| - height, 1
    {
      if |parts| == height {
        this.pattern, tree := pattern, tree.(pattern := pattern);
        return;
      }
      var i := MatchChild(parts[height]);
      if i == |children| {
        AddChild(parts[height]);
      }
      InsertBelow(i, pattern, parts, height);
    }

    /** The recursive call of insert on one child. */
    method InsertBelow(i: nat, pattern: string, parts: seq<string>, height: nat)
      requires Valid() && height < |parts| && i < |children|
      modifies Repr
      ensures Valid() && fresh(Repr - old(Repr))
      ensures tree == old(tree).(children :=
                old(tree).children[i := Tries.Insert(old(tree).children[i], pattern, parts, height + 1)])
      decreases |parts| - height, 0
    {
      var child := children[i];
      child.Insert(pattern, parts, height + 1);
      Repr, tree := Repr + child.Repr, tree.(children := tree.children[i := child.tree]);
      forall j | 0 <= j < |children| && j != i
        ensures children[j].Valid() && children[j].Repr == old(children[j].Repr)
        ensures children[j].tree == old(children[j].tree)
      {
        assert unchanged(children[j].Repr);
      }
    }

    /** The new child of insert, without a pattern yet. */
    method AddChild(part: string)
      requires Valid()
      modifies this
      ensures Valid() && fresh(Repr - old(Repr))
      ensures tree == old(tree).(children := old(tree).children + [NewChild(part)])
      ensures |children| == |old(children)| + 1
    {
      var child := new TrieNode(part);
      children := children + [child];
      Repr, tree := Repr + {child}, tree.(children := tree.children + [child.tree]);
    }

    /** These nodes, all below this one, stand for these trees. */
    ghost predicate Stand(nodes: seq<TrieNode>, trees: seq<Node>)
      reads this, Repr
      requires Valid()
    {
      && |nodes| == |trees|
      && forall k :: 0 <= k < |nodes| ==>
           && nodes[k] in Repr && nodes[k].Repr <= Repr && nodes[k].Valid()
           && nodes[k].tree == trees[k]
    }

    method MatchChildren(part: string) returns (nodes: seq<TrieNode>)
      requires Valid()
      ensures Stand(nodes, Tries.MatchChildren(tree.children, part))
    {
      nodes := [];
      for i := 0 to |children|
        invariant Stand(nodes, Tries.MatchChildren(tree.children[..i], part))
      {
        var child := children[i];
        MatchOneMore(tree.children, i, part);
        if child.part == part || child.isWild {
          nodes := nodes + [child];
        }
      }
      assert tree.children[..|children|] == tree.children;
    }

    method Search(parts: seq<string>, height: nat) returns (r: TrieNode?)
      requires Valid() && height <= |parts|
      ensures r == null <==> Tries.Search(tree, parts, height) == None
      ensures r != null ==>
                r in Repr && r.Repr <= Repr && r.Valid() && Tries.Search(tree, parts, height) == Some(r.tree)
      decreases |parts| - height, 0
    {
      if |parts| == height || Star(this.part) {
        return if pattern == "" then null else this;
      }
      var nodes := MatchChildren(parts[height]);
      r := SearchNodes(nodes, Tries.MatchChildren(tree.children, parts[height]), parts, height + 1);
    }

    /** The loop of search over the matching children. */
    method SearchNodes(nodes: seq<TrieNode>, ghost trees: seq<Node>, parts: seq<string>, height: nat)
      returns (r: TrieNode?)
      requires Valid() && height <= |parts| && Stand(nodes, trees)
      ensures r == null <==> SearchAny(trees, parts, height) == None
      ensures r != null ==> r in Repr && r.Repr <= Repr && r.Valid() && SearchAny(trees, parts, height) == Some(r.tree)
      decreases |parts| - height, 1
    {
      for i := 0 to |nodes|
        invariant SearchAny(trees[i..], parts, height) == SearchAny(trees, parts, height)
      {
        assert trees[i..][1..] == trees[i + 1..];
        var result := nodes[i].Search(parts, height);
        if result != null {
          return result;
        }
      }
      r := null;
    }
  }
}
