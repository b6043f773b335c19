/** Joining strings and sequences. */
module Strings {

  /** strings.Join. */
  function Join(items: seq<string>, separator: string): string {
    if items == [] then ""
    else if |items| == 1 then items[0]
    else items[0] + separator + Join(items[1..], separator)
  }

  lemma {:induction false} JoinLast(items: seq<string>, item: string, separator: string)
    ensures Join(items + [item], separator) == Join(items, separator) + (if items == [] then "" else separator) + item
  {
    if |items| > 0 {
      assert (items + [item])[1..] == items[1..] + [item];
      JoinLast(items[1..], item, separator);
      if |items| == 1 {
        assert Join(items + [item], separator) == items[0] + separator + item;
      }
    }
  }

  /** The items of all the sequences, one after the other. */
  function Flat<A>(all: seq<seq<A>>): seq<A> {
    if all == [] then [] else all[0] + Flat(all[1..])
  }

  lemma {:induction false} FlatAppend<A>(a: seq<seq<A>>, b: seq<seq<A>>)
    ensures Flat(a + b) == Flat(a) + Flat(b)
  {
    if a == [] {
      assert a + b == b;
    } else {
      assert (a + b)[1..] == a[1..] + b;
      FlatAppend(a[1..], b);
    }
  }

  lemma FlatOne<A>(s: seq<A>)
    ensures Flat([s]) == s
  {
    var none: seq<seq<A>> := [];
    assert [s][1..] == none;
  }

  // ---- question marks ----

  /** The number of placeholders in a text. */
  function Holes(s: string): nat {
    if s == "" then 0 else (if s[0] == '?' then 1 else 0) + Holes(s[1..])
  }

  /** Has no placeholder of its own. */
  predicate Plain(s: string) {
    '?' !in s
  }

  lemma {:induction false} PlainHasNone(s: string)
    ensures Holes(s) == 0 <==> Plain(s)
  {
    if s != "" {
      PlainHasNone(s[1..]);
      assert '?' in s <==> s[0] == '?' || '?' in s[1..];
    }
  }

  lemma {:induction false} HolesAdd(a: string, b: string)
    ensures Holes(a + b) == Holes(a) + Holes(b)
  {
    if a == "" {
      assert a + b == b;
    } else {
      assert (a + b)[1..] == a[1..] + b;
      HolesAdd(a[1..], b);
    }
  }

  /** A text between two fixed ones. */
  lemma HolesBetween(a: string, s: string, b: string)
    requires Plain(a) && Plain(b)
    ensures Holes(a + s + b) == Holes(s)
  {
    PlainHasNone(a);
    PlainHasNone(b);
    HolesAdd(a, s);
    HolesAdd(a + s, b);
  }

  /** Where the i-th placeholder of a text is. */
  function HoleAt(s: string, i: nat): (p: nat)
    requires i < Holes(s)
    ensures p < |s| && s[p] == '?' && Holes(s[..p]) == i
  {
    if s[0] == '?' && i == 0 then 0
    else
      var p := HoleAt(s[1..], if s[0] == '?' then i - 1 else i);
      assert s[..p + 1][1..] == s[1..][..p];
      p + 1
  }

  lemma HolesOfPrefix(a: string, s: string)
    requires a <= s
    ensures Holes(a) <= Holes(s)
  {
    HolesAdd(a, s[|a|..]);
    assert a + s[|a|..] == s;
  }

  /** A placeholder is in a prefix if and only if that prefix has more placeholders than come before it. */
  lemma HoleWithin(a: string, s: string, i: nat)
    requires a <= s && i < Holes(s)
    ensures HoleAt(s, i) < |a| <==> i < Holes(a)
  {
    var p := HoleAt(s, i);
    if p < |a| {
      assert s[..p + 1] == s[..p] + "?";
      HolesAdd(s[..p], "?");
      assert Holes("?") == 1;
      HolesOfPrefix(s[..p + 1], a);
    } else {
      HolesOfPrefix(a, s[..p]);
    }
  }

  ghost function SumHoles(items: seq<string>): nat {
    if items == [] then 0 else Holes(items[0]) + SumHoles(items[1..])
  }

  lemma {:induction false} HolesOfJoin(items: seq<string>, separator: string)
    requires Plain(separator)
    ensures Holes(Join(items, separator)) == SumHoles(items)
  {
    if |items| == 1 {
      assert SumHoles(items[1..]) == 0;
    } else if |items| > 1 {
      HolesOfJoin(items[1..], separator);
      PlainHasNone(separator);
      HolesAdd(items[0], separator);
      HolesAdd(items[0] + separator, Join(items[1..], separator));
    }
  }

  lemma {:induction false} PlainItems(items: seq<string>)
    ensures SumHoles(items) == 0 <==> forall i :: 0 <= i < |items| ==> Plain(items[i])
  {
    if items != [] {
      PlainItems(items[1..]);
      PlainHasNone(items[0]);
      assert forall i :: 0 < i < |items| ==> items[i] == items[1..][i - 1];
      assert forall i :: 0 <= i < |items[1..]| ==> items[1..][i] == items[i + 1];
    }
  }

  lemma {:induction false} SumHolesAppend(a: seq<string>, b: seq<string>)
    ensures SumHoles(a + b) == SumHoles(a) + SumHoles(b)
  {
    if a == [] {
      assert a + b == b;
    } else {
      assert (a + b)[1..] == a[1..] + b;
      SumHolesAppend(a[1..], b);
    }
  }

  lemma SumHolesOne(s: string)
    ensures SumHoles([s]) == Holes(s)
  {
    var none: seq<string> := [];
    assert [s][1..] == none;
  }
}
