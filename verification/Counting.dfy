/** Counting the entries of a map that satisfy a predicate, as one entry changes. */
module Counting {

  ghost function Members<V>(m: map<nat, V>, p: V -> bool): set<nat> {
    set k | k in m && p(m[k])
  }

  ghost function Count<V>(m: map<nat, V>, p: V -> bool): nat {
    |Members(m, p)|
  }

  ghost function One(b: bool): nat {
    if b then 1 else 0
  }

  lemma CountNone<V>(p: V -> bool)
    ensures Count(map[], p) == 0
  {
    assert Members(map[], p) == {};
  }

  lemma CountUpdate<V>(m: map<nat, V>, k: nat, v: V, p: V -> bool)
    ensures Count(m[k := v], p) == Count(m, p) - One(k in m && p(m[k])) + One(p(v))
  {
    var was, now := Members(m, p), Members(m[k := v], p);
    if p(v) {
      assert now == was + {k};
    } else {
      assert now == was - {k};
    }
  }

  lemma CountRemove<V>(m: map<nat, V>, k: nat, p: V -> bool)
    ensures Count(m - {k}, p) == Count(m, p) - One(k in m && p(m[k]))
  {
    assert Members(m - {k}, p) == Members(m, p) - {k};
  }

  lemma CountAtMost<V>(m: map<nat, V>, p: V -> bool, q: V -> bool)
    requires forall v :: p(v) ==> q(v)
    ensures Count(m, p) <= Count(m, q)
  {
    Subset(Members(m, p), Members(m, q));
  }

  lemma {:induction false} Subset<T>(a: set<T>, b: set<T>)
    requires a <= b
    ensures |a| <= |b|
  {
    if a != {} {
      var x :| x in a;
      Subset(a - {x}, b - {x});
    }
  }

  /** There is always a number above those in use. */
  lemma {:induction false} UnusedNumber(ids: set<nat>) returns (id: nat)
    ensures forall y: nat :: y in ids ==> y < id
  {
    if ids == {} {
      id := 0;
    } else {
      var x :| x in ids;
      var rest := UnusedNumber(ids - {x});
      id := if rest <= x then x + 1 else rest;
      assert forall y: nat :: y in ids ==> y == x || y in ids - {x};
    }
  }
}
