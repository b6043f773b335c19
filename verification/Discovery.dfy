/** Round-robin server selection (psygo/rpc/xclient/discovery.go). */
module Discoveries {

  datatype SelectMode = RandomSelect | RoundRobinSelect | OtherMode(number: int)

  datatype Selection = Server(address: string) | NoServers | UnsupportedMode

  /** The position a round-robin Get picks, and the index it leaves. */
  function Position(index: nat, n: nat): nat
    requires n > 0
  {
    index % n
  }

  function NextIndex(index: nat, n: nat): nat
    requires n > 0
  {
    (index + 1) % n
  }

  class MultiServersDiscovery {
    var servers: seq<string>
    var index: nat

    /** start is the random first index. */
    constructor (servers: seq<string>, start: nat)
      ensures this.servers == servers && index == start
    {
      this.servers, index := servers, start;
    }

    method Update(servers: seq<string>)
      modifies this
      ensures this.servers == servers && index == old(index)
    {
      this.servers := servers;
    }

    /** random is what the generator returns, if it is asked: a position in the list. */
    method Get(mode: SelectMode, random: nat) returns (r: Selection)
      requires servers != [] ==> random < |servers|
      modifies this
      ensures servers == old(servers)
      ensures servers == [] ==> r == NoServers && index == old(index)
      ensures servers != [] && mode.RoundRobinSelect? ==>
                r == Server(servers[Position(old(index), |servers|)]) && index == NextIndex(old(index), |servers|)
      ensures servers != [] && mode.RandomSelect? ==> r == Server(servers[random]) && index == old(index)
      ensures servers != [] && mode.OtherMode? ==> r == UnsupportedMode && index == old(index)
    {
      var n := |servers|;
      if n == 0 {
        return NoServers;
      }
      match mode {
        case RandomSelect => r := Server(servers[random]);
        case RoundRobinSelect =>
          r := Server(servers[index % n]);
          index := (index + 1) % n;
        case OtherMode(_) => r := UnsupportedMode;
      }
    }
  }

  // ---- arithmetic ----

  lemma NotBelow(q: int, n: int)
    requires n > 0 && q >= 1
    ensures q * n >= n
  {
    assert (q - 1) * n >= 0;
  }

  lemma DivisionIsUnique(x: nat, n: nat, q: int, r: nat)
    requires n > 0 && r < n && x == q * n + r
    ensures x % n == r
  {
    var d := x / n - q;
    assert d * n == (x / n) * n - q * n == r - x % n;
    if d >= 1 {
      NotBelow(d, n);
    } else if d <= -1 {
      NotBelow(-d, n);
    }
  }

  /** Adding one to an index turns the position by one. */
  lemma PositionTurns(index: nat, n: nat)
    requires n > 0
    ensures NextIndex(index, n) == if Position(index, n) + 1 == n then 0 else Position(index, n) + 1
  {
    var q, r := index / n, index % n;
    if r + 1 == n {
      assert index + 1 == (q + 1) * n + 0;
      DivisionIsUnique(index + 1, n, q + 1, 0);
    } else {
      DivisionIsUnique(index + 1, n, q, r + 1);
    }
  }

  // ---- consecutive Gets on an unchanged list ----

  /** The index after k round-robin Gets. */
  function Advance(index: nat, n: nat, k: nat): nat
    requires n > 0
    decreases k
  {
    if k == 0 then index else Advance(NextIndex(index, n), n, k - 1)
  }

  /** How often k round-robin Gets pick the position p. */
  function Picks(index: nat, n: nat, k: nat, p: nat): nat
    requires n > 0
    decreases k
  {
    if k == 0 then 0
    else (if Position(index, n) == p then 1 else 0) + Picks(NextIndex(index, n), n, k - 1, p)
  }

  /** The pick after k others is k positions further on. */
  lemma {:induction false} KthPick(index: nat, n: nat, k: nat)
    requires n > 0
    ensures Position(Advance(index, n, k), n) == (index + k) % n
    decreases k
  {
    if k > 0 {
      KthPick(NextIndex(index, n), n, k - 1);
      var q := (index + 1) / n;
      SameRest(NextIndex(index, n) + k - 1, n, q);
      assert index + 1 == q * n + NextIndex(index, n);
    }
  }

  lemma SameRest(x: nat, n: nat, q: nat)
    requires n > 0
    ensures x + q * n >= 0 && (x + q * n) % n == x % n
  {
    NotNegative(q, n);
    assert x + q * n == (x / n + q) * n + x % n;
    DivisionIsUnique(x + q * n, n, x / n + q, x % n);
  }

  lemma NotNegative(q: nat, n: nat)
    ensures q * n >= 0
  {
  }

  /** Up to the end of the list, the picks are the positions one after the other. */
  lemma {:induction false} Climb(i: nat, n: nat, k: nat, p: nat)
    requires i < n && i + k <= n
    ensures Picks(i, n, k, p) == if i <= p < i + k then 1 else 0
    ensures Advance(i, n, k) == if k > 0 && i + k == n then 0 else i + k
    decreases k
  {
    if k > 0 {
      PositionTurns(i, n);
      DivisionIsUnique(i, n, 0, i);
      if i + 1 < n {
        Climb(i + 1, n, k - 1, p);
      }
    }
  }

  lemma {:induction false} PicksSplit(index: nat, n: nat, j: nat, k: nat, p: nat)
    requires n > 0
    ensures Picks(index, n, j + k, p) == Picks(index, n, j, p) + Picks(Advance(index, n, j), n, k, p)
    ensures Advance(index, n, j + k) == Advance(Advance(index, n, j), n, k)
    decreases j
  {
    if j > 0 {
      PicksSplit(NextIndex(index, n), n, j - 1, k, p);
    }
  }

  /** An index beyond the list behaves as its position. */
  lemma FromPosition(index: nat, n: nat, k: nat, p: nat)
    requires n > 0
    ensures Picks(index, n, k, p) == Picks(Position(index, n), n, k, p)
    ensures k > 0 ==> Advance(index, n, k) == Advance(Position(index, n), n, k)
  {
    PositionTurns(index, n);
    PositionTurns(Position(index, n), n);
    DivisionIsUnique(Position(index, n), n, 0, Position(index, n));
  }

  /** From any index, n consecutive Gets pick every position exactly once, and come back to where they began. */
  lemma EachOnce(index: nat, n: nat, p: nat)
    requires p < n
    ensures Picks(index, n, n, p) == 1 && Advance(index, n, n) == Position(index, n)
  {
    var i := Position(index, n);
    FromPosition(index, n, n, p);
    PicksSplit(i, n, n - i, i, p);
    Climb(i, n, n - i, p);
    Climb(0, n, i, p);
  }

  lemma {:induction false} Balanced(index: nat, n: nat, k: nat) returns (least: nat)
    requires n > 0
    ensures forall p :: 0 <= p < n ==> least <= Picks(index, n, k, p) <= least + 1
    decreases k
  {
    if k <= n {
      least := 0;
      forall p | 0 <= p < n ensures 0 <= Picks(index, n, k, p) <= 1 {
        EachOnce(index, n, p);
        PicksSplit(index, n, k, n - k, p);
      }
    } else {
      var rest := Balanced(Position(index, n), n, k - n);
      least := rest + 1;
      forall p | 0 <= p < n ensures least <= Picks(index, n, k, p) <= least + 1 {
        EachOnce(index, n, p);
        PicksSplit(index, n, n, k - n, p);
      }
    }
  }

  /** From any index and after any number of Gets, no position has been picked two times more than another. */
  lemma Fairness(index: nat, n: nat, k: nat, p: nat, q: nat)
    requires p < n && q < n
    ensures Picks(index, n, k, p) <= Picks(index, n, k, q) + 1
  {
    var least := Balanced(index, n, k);
  }
}
