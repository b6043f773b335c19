/** Splitting routes and paths (parsePattern of psygo/router.go). */
module Paths {

  predicate Colon(part: string) {
    part != "" && part[0] == ':'
  }

  predicate Star(part: string) {
    part != "" && part[0] == '*'
  }

  predicate Wild(part: string) {
    Colon(part) || Star(part)
  }

  /** strings.Split(s, "/"). */
  function Split(s: string): (r: seq<string>)
    ensures |r| >= 1
  {
    if s == "" then [""]
    else
      var rest := Split(s[1..]);
      if s[0] == '/' then [""] + rest else [[s[0]] + rest[0]] + rest[1..]
  }

  /** The non-empty items up to and including the first that starts with '*'. */
  function Keep(items: seq<string>): seq<string> {
    if items == [] then []
    else if items[0] == "" then Keep(items[1..])
    else if Star(items[0]) then [items[0]]
    else [items[0]] + Keep(items[1..])
  }

  function Parts(pattern: string): seq<string> {
    Keep(Split(pattern))
  }

  method ParsePattern(pattern: string) returns (parts: seq<string>)
    ensures parts == Parts(pattern)
  {
    var vs := Split(pattern);
    parts := [];
    var i := 0;
    while i < |vs|
      invariant 0 <= i <= |vs|
      invariant parts + Keep(vs[i..]) == Parts(pattern)
    {
      var item := vs[i];
      assert vs[i..][1..] == vs[i + 1..];
      if item != "" {
        parts := parts + [item];
        if item[0] == '*' {
          return;
        }
      }
      i := i + 1;
    }
  }

  predicate IsPart(part: string) {
    part != "" && '/' !in part
  }

  /** No part is empty or holds a slash, and only the last one may start with '*'. */
  predicate WellFormed(parts: seq<string>) {
    forall i :: 0 <= i < |parts| ==> IsPart(parts[i]) && (Star(parts[i]) ==> i == |parts| - 1)
  }

  lemma {:induction false} SplitHasNoSlash(s: string)
    ensures forall i :: 0 <= i < |Split(s)| ==> '/' !in Split(s)[i]
  {
    if s != "" {
      SplitHasNoSlash(s[1..]);
    }
  }

  lemma {:induction false} KeepIsWellFormed(items: seq<string>)
    requires forall i :: 0 <= i < |items| ==> '/' !in items[i]
    ensures WellFormed(Keep(items))
  {
    if items != [] {
      KeepIsWellFormed(items[1..]);
    }
  }

  lemma PartsAreWellFormed(pattern: string)
    ensures WellFormed(Parts(pattern))
  {
    SplitHasNoSlash(pattern);
    KeepIsWellFormed(Split(pattern));
  }

  /** A path with the given parts. */
  function PathOf(parts: seq<string>): string {
    if parts == [] then "" else "/" + parts[0] + PathOf(parts[1..])
  }

  lemma {:induction false} SplitItem(item: string, rest: string)
    requires '/' !in item && (rest == "" || rest[0] == '/')
    ensures Split(item + rest) == [item] + (if rest == "" then [] else Split(rest[1..]))
  {
    if item == "" {
      assert item + rest == rest;
    } else {
      SplitItem(item[1..], rest);
      assert (item + rest)[1..] == item[1..] + rest;
      assert [item[0]] + item[1..] == item;
    }
  }

  /** What keeping does with one more item in front. */
  lemma KeepCons(item: string, items: seq<string>)
    ensures Keep([item] + items)
         == if item == "" then Keep(items) else if Star(item) then [item] else [item] + Keep(items)
  {
    assert ([item] + items)[1..] == items;
  }

  /** Parsing undoes joining: the well-formed lists of parts are exactly what parsing yields. */
  lemma {:induction false} PartsOfPath(parts: seq<string>)
    requires WellFormed(parts)
    ensures Parts(PathOf(parts)) == parts
  {
    if parts == [] {
      KeepCons("", []);
      assert [""] + [] == Split("");
    } else {
      var first, tail := parts[0], parts[1..];
      var rest := PathOf(tail);
      var items := if rest == "" then [] else Split(rest[1..]);
      assert forall i :: 0 <= i < |tail| ==> tail[i] == parts[i + 1];
      PartsOfPath(tail);
      KeepCons("", items);
      assert Keep(items) == tail by {
        assert rest == "" ==> Split(rest) == [""] + items;
      }
      SplitItem(first, rest);
      PathSplits(parts);
      KeepCons(first, items);
      KeepCons("", [first] + items);
    }
  }

  lemma SplitSlash(rest: string)
    ensures Split("/" + rest) == [""] + Split(rest)
  {
    var s := "/" + rest;
    assert s != "" && s[0] == '/' && s[1..] == rest;
  }

  lemma PathSplits(parts: seq<string>)
    requires parts != []
    ensures Split(PathOf(parts)) == [""] + Split(parts[0] + PathOf(parts[1..]))
  {
    var rest := parts[0] + PathOf(parts[1..]);
    assert PathOf(parts) == "/" + rest;
    SplitSlash(rest);
  }

  // ---- parsing any string ----

  predicate EndsInStar(trail: seq<string>) {
    trail != [] && Star(trail[|trail| - 1])
  }

  lemma NothingParsed()
    ensures Parts("") == []
  {
    KeepCons("", []);
    assert Split("") == [""] + [];
  }

  lemma PartParsed(x: string)
    requires IsPart(x)
    ensures Parts(x) == [x]
  {
    SplitItem(x, "");
    assert x + "" == x;
    KeepCons(x, []);
    assert [x] + [] == [x];
  }

  /** What splitting makes of one more character in front. */
  function InFront(c: char, items: seq<string>): seq<string>
    requires items != []
  {
    if c == '/' then [""] + items else [[c] + items[0]] + items[1..]
  }

  lemma InFrontOfBoth(c: char, a: seq<string>, b: seq<string>)
    requires a != []
    ensures InFront(c, a + b) == InFront(c, a) + b
  {
  }

  lemma SplitInFront(s: string)
    requires s != ""
    ensures Split(s) == InFront(s[0], Split(s[1..]))
  {
  }

  lemma {:induction false} SplitAtSlash(a: string, b: string)
    ensures Split(a + "/" + b) == Split(a) + Split(b)
  {
    if a == "" {
      SplitSlash(b);
      assert a + "/" + b == "/" + b;
    } else {
      SplitAtSlash(a[1..], b);
      SplitInFront(a);
      SplitInFront(a + "/" + b);
      InFrontOfBoth(a[0], Split(a[1..]), Split(b));
      assert (a + "/" + b)[1..] == a[1..] + "/" + b;
    }
  }

  lemma {:induction false} KeepAppend(a: seq<string>, b: seq<string>)
    ensures Keep(a + b) == if EndsInStar(Keep(a)) then Keep(a) else Keep(a) + Keep(b)
  {
    if a == [] {
      assert a + b == b;
    } else {
      assert (a + b)[1..] == a[1..] + b;
      KeepAppend(a[1..], b);
    }
  }

  /** What stands on the two sides of a slash is parsed on its own, and nothing counts any more after a '*' part. */
  lemma PartsAtSlash(a: string, b: string)
    ensures Parts(a + "/" + b) == if EndsInStar(Parts(a)) then Parts(a) else Parts(a) + Parts(b)
  {
    SplitAtSlash(a, b);
    KeepAppend(Split(a), Split(b));
  }

  /** What a parser has to do: nothing and a single part are parsed as they are, and a slash separates. */
  ghost predicate IsParser(f: string -> seq<string>) {
    && f("") == []
    && (forall x :: IsPart(x) ==> f(x) == [x])
    && (forall a, b :: Separates(f, a, b))
  }

  predicate Separates(f: string -> seq<string>, a: string, b: string) {
    f(a + "/" + b) == if EndsInStar(f(a)) then f(a) else f(a) + f(b)
  }

  lemma {:induction false} FirstSlash(s: string) returns (a: string, b: string)
    requires '/' in s
    ensures s == a + "/" + b && '/' !in a
  {
    if s[0] == '/' {
      a, b := "", s[1..];
    } else {
      a, b := FirstSlash(s[1..]);
      a := [s[0]] + a;
    }
  }

  lemma {:induction false} SameParse(f: string -> seq<string>, s: string)
    requires IsParser(f)
    ensures f(s) == Parts(s)
    decreases |s|
  {
    if '/' in s {
      var a, b := FirstSlash(s);
      SameParse(f, a);
      SameParse(f, b);
      PartsAtSlash(a, b);
      assert Separates(f, a, b);
    } else if s == "" {
      NothingParsed();
    } else {
      PartParsed(s);
    }
  }

  /** Those laws hold of parsePattern for all strings, with leading, trailing, double and missing slashes and with text
      after a '*' part, and of no other function. */
  lemma OnlyParser(f: string -> seq<string>)
    ensures IsParser(f) <==> forall s :: f(s) == Parts(s)
  {
    if IsParser(f) {
      forall s ensures f(s) == Parts(s) {
        SameParse(f, s);
      }
    }
    if forall s :: f(s) == Parts(s) {
      NothingParsed();
      forall x | IsPart(x) ensures f(x) == [x] {
        PartParsed(x);
      }
      forall a, b ensures Separates(f, a, b) {
        PartsAtSlash(a, b);
      }
    }
  }
}
