/** The handler chain of a request (psygo/context.go): Next is re-entrant, and all handlers share one index. */
module Chains {

  /** What a handler may do to the chain. */
  datatype Op = Work | Next | Abort | Fail

  /** Stop is an Abort or a Fail. */
  datatype Event = Start(i: nat) | Stop(i: nat) | Finish(i: nat)

  /** A handler runs at most once for a request, so what it does is a fixed sequence of operations. */
  type Handler = seq<Op>

  predicate IsControl(op: Op) {
    op != Work
  }

  /** The operation that decides how the chain goes on: the first that is not mere work. */
  function FirstControl(h: Handler): Op {
    if h == [] then Work else if IsControl(h[0]) then h[0] else FirstControl(h[1..])
  }

  /** Aborts or fails before it calls Next. */
  predicate Stops(h: Handler) {
    FirstControl(h) == Abort || FirstControl(h) == Fail
  }

  /** What happens, in order, when the chain goes on with handler i. */
  function Trace(handlers: seq<Handler>, i: nat): seq<Event>
    decreases |handlers| - i, 1, 0
  {
    if i >= |handlers| then [] else Around(handlers, i) + After(handlers, i)
  }

  /** Handler i, with all that runs inside its call of Next. */
  function Around(handlers: seq<Handler>, i: nat): seq<Event>
    requires i < |handlers|
    decreases |handlers| - i, 0, 0
  {
    [Start(i)] + Ops(handlers, i, handlers[i], true) + [Finish(i)]
  }

  /** The operations h of handler i. As long as the index is still i, the chain is live: a call of Next goes on with the
      handler after i. Once it is not, Next finds nothing left to call. */
  function Ops(handlers: seq<Handler>, i: nat, h: Handler, live: bool): seq<Event>
    requires i < |handlers|
    decreases |handlers| - i - 1, 2, |h|
  {
    if h == [] then []
    else
      match h[0]
      case Work => Ops(handlers, i, h[1..], live)
      case Next => (if live then Trace(handlers, i + 1) else []) + Ops(handlers, i, h[1..], false)
      case Abort => [Stop(i)] + Ops(handlers, i, h[1..], false)
      case Fail => [Stop(i)] + Ops(handlers, i, h[1..], false)
  }

  /** What the loop of Next runs after handler i. */
  function After(handlers: seq<Handler>, i: nat): seq<Event>
    requires i < |handlers|
    decreases |handlers| - i - 1, 2, 0
  {
    if FirstControl(handlers[i]) == Work then Trace(handlers, i + 1) else []
  }

  lemma Regroup(a: seq<Event>, b: seq<Event>, c: seq<Event>, d: seq<Event>)
    ensures a + b + c == a + (b + c) && a + b + c + d == a + (b + c + d)
    ensures a + (b + c) + d + [] == a + b + (c + d)
  {
  }

  class Context {
    var handlers: seq<Handler>
    var index: int

    /** What has happened so far. */
    ghost var trace: seq<Event>

    /** The index part of reset. */
    method Reset()
      modifies this
      ensures handlers == [] && index == -1 && trace == []
    {
      handlers, index, trace := [], -1, [];
    }

    method Abort()
      modifies this`index
      ensures index == |handlers|
    {
      index := |handlers|;
    }

    method Fail()
      modifies this`index
      ensures index == |handlers|
    {
      index := |handlers|;
    }

    method Next()
      requires index >= -1
      modifies this`index, this`trace
      ensures index >= |handlers|
      ensures trace == old(trace) + Trace(handlers, old(index) + 1)
      decreases if index + 1 < |handlers| then |handlers| - index - 1 else 0, 1
    {
      ghost var done := trace;
      index := index + 1;
      var s := |handlers|;
      while index < s
        invariant index >= old(index) + 1
        invariant trace + Trace(handlers, index) == done + Trace(handlers, old(index) + 1)
        decreases s - index
      {
        Call(index);
        index := index + 1;
      }
    }

    /** The call of handler i. */
    method Call(i: nat)
      requires i < |handlers| && index == i
      modifies this`index, this`trace
      ensures FirstControl(handlers[i]) == Work ==> index == i
      ensures FirstControl(handlers[i]) != Work ==> index >= |handlers|
      ensures trace == old(trace) + Around(handlers, i)
      decreases |handlers| - i, 0
    {
      trace := trace + [Start(i)];
      var h := handlers[i];
      ghost var goal := trace + Ops(handlers, i, h, true);
      Regroup(old(trace), [Start(i)], Ops(handlers, i, h, true), [Finish(i)]);
      var j := 0;
      while j < |h|
        invariant 0 <= j <= |h|
        invariant index == i || index >= |handlers|
        invariant index == i ==> FirstControl(h) == FirstControl(h[j..])
        invariant index != i ==> FirstControl(h) != Work
        invariant trace + Ops(handlers, i, h[j..], index == i) == goal
      {
        assert h[j..][1..] == h[j + 1..];
        Regroup(trace, if index == i then Trace(handlers, i + 1) else [], Ops(handlers, i, h[j + 1..], false), []);
        Regroup(trace, [Stop(i)], Ops(handlers, i, h[j + 1..], false), []);
        match h[j] {
          case Work =>
          case Next => Next();
          case Abort =>
            Abort();
            trace := trace + [Stop(i)];
          case Fail =>
            Fail();
            trace := trace + [Stop(i)];
        }
        j := j + 1;
      }
      assert h[j..] == [];
      trace := trace + [Finish(i)];
    }

    /** The end of router.handle: the route's handler comes last. */
    method Handle(route: Handler)
      requires index == -1 && trace == []
      modifies this
      ensures handlers == old(handlers) + [route]
      ensures trace == Trace(handlers, 0)
    {
      handlers := handlers + [route];
      Next();
    }
  }

  // ---- order ----

  function Picked(e: Event, starting: bool): seq<nat> {
    if (if starting then e.Start? else e.Finish?) then [e.i] else []
  }

  /** The handlers that start, or that finish, in the order in which they do. */
  function Pick(trace: seq<Event>, starting: bool): seq<nat> {
    if trace == [] then [] else Picked(trace[0], starting) + Pick(trace[1..], starting)
  }

  function Starts(trace: seq<Event>): seq<nat> {
    Pick(trace, true)
  }

  function Finishes(trace: seq<Event>): seq<nat> {
    Pick(trace, false)
  }

  lemma Concatenated(a: seq<nat>, b: seq<nat>, c: seq<nat>)
    ensures a + (b + c) == a + b + c
  {
  }

  lemma {:induction false} Joined(a: seq<Event>, b: seq<Event>, starting: bool)
    ensures Pick(a + b, starting) == Pick(a, starting) + Pick(b, starting)
  {
    if a == [] {
      assert a + b == b;
    } else {
      assert (a + b)[1..] == a[1..] + b;
      Joined(a[1..], b, starting);
      Concatenated(Picked(a[0], starting), Pick(a[1..], starting), Pick(b, starting));
    }
  }

  lemma PickOne(i: nat)
    ensures Starts([Start(i)]) == [i] && Finishes([Start(i)]) == []
    ensures Starts([Finish(i)]) == [] && Finishes([Finish(i)]) == [i]
    ensures Starts([Stop(i)]) == [] && Finishes([Stop(i)]) == []
  {
    var none: seq<Event> := [];
    assert [Start(i)][1..] == none && [Finish(i)][1..] == none && [Stop(i)][1..] == none;
    assert [i] + Pick(none, true) == [i] && [i] + Pick(none, false) == [i];
  }

  /** Inside a handler, others start and finish only if its first control is Next. */
  lemma {:induction false} OpsPicks(handlers: seq<Handler>, i: nat, h: Handler, live: bool, starting: bool)
    requires i < |handlers|
    ensures Pick(Ops(handlers, i, h, live), starting)
         == if live && FirstControl(h) == Next then Pick(Trace(handlers, i + 1), starting) else []
  {
    if h != [] {
      var rest := Ops(handlers, i, h[1..], live && h[0] == Work);
      OpsPicks(handlers, i, h[1..], live && h[0] == Work, starting);
      if h[0] == Next {
        Joined(if live then Trace(handlers, i + 1) else [], rest, starting);
      } else if h[0] != Work {
        Joined([Stop(i)], rest, starting);
        PickOne(i);
      }
    }
  }

  lemma TracePicks(handlers: seq<Handler>, i: nat, starting: bool)
    requires i < |handlers|
    ensures var first := FirstControl(handlers[i]);
            var rest := Pick(Trace(handlers, i + 1), starting);
            && Pick(Trace(handlers, i), starting)
            == Pick([Start(i)], starting) + (if first == Next then rest else []) + Pick([Finish(i)], starting)
               + (if first == Work then rest else [])
  {
    var inside := Ops(handlers, i, handlers[i], true);
    Joined([Start(i)] + inside + [Finish(i)], After(handlers, i), starting);
    Joined([Start(i)] + inside, [Finish(i)], starting);
    Joined([Start(i)], inside, starting);
    OpsPicks(handlers, i, handlers[i], true, starting);
  }

  lemma TraceParts(handlers: seq<Handler>, i: nat)
    requires i < |handlers|
    ensures var rest := if Stops(handlers[i]) then [] else Trace(handlers, i + 1);
            && Starts(Trace(handlers, i)) == [i] + Starts(rest)
            && multiset(Finishes(Trace(handlers, i))) == multiset{i} + multiset(Finishes(rest))
  {
    PickOne(i);
    TracePicks(handlers, i, true);
    TracePicks(handlers, i, false);
    var rest := Trace(handlers, i + 1);
    EitherSide(i, Starts(rest));
    EitherSide(i, Finishes(rest));
  }

  lemma EitherSide(i: nat, rest: seq<nat>)
    ensures [i] + rest + [] + [] == [i] + rest && [i] + [] + [] + rest == [i] + rest
    ensures multiset([] + rest + [i] + []) == multiset{i} + multiset(rest)
    ensures multiset([] + [] + [i] + rest) == multiset{i} + multiset(rest)
    ensures [i] + [] + [] + [] == [i] && [] + [] + [i] + [] == [i]
  {
    assert [] + [] + [i] + rest == [i] + rest;
    assert [] + rest + [i] + [] == rest + [i];
  }

  /** These are the handlers from i on, up to the first that stops the chain. */
  ghost predicate InOrder(handlers: seq<Handler>, i: nat, starts: seq<nat>) {
    && i + |starts| <= |handlers|
    && (forall j :: 0 <= j < |starts| ==> starts[j] == i + j)
    && (forall j :: i <= j < i + |starts| - 1 ==> !Stops(handlers[j]))
    && (i + |starts| < |handlers| ==> |starts| > 0 && Stops(handlers[i + |starts| - 1]))
  }

  lemma OneMoreInOrder(handlers: seq<Handler>, i: nat, rest: seq<nat>)
    requires i < |handlers|
    requires if Stops(handlers[i]) then rest == [] else InOrder(handlers, i + 1, rest)
    ensures InOrder(handlers, i, [i] + rest)
  {
  }

  /** Handlers start in order, each once, up to the first one that stops the chain. */
  lemma {:induction false} ChainOrder(handlers: seq<Handler>, i: nat)
    requires i <= |handlers|
    ensures InOrder(handlers, i, Starts(Trace(handlers, i)))
    decreases |handlers| - i
  {
    if i < |handlers| {
      TraceParts(handlers, i);
      if !Stops(handlers[i]) {
        ChainOrder(handlers, i + 1);
      }
      OneMoreInOrder(handlers, i, if Stops(handlers[i]) then [] else Starts(Trace(handlers, i + 1)));
    }
  }

  /** Each handler that starts also finishes. */
  lemma {:induction false} StartedFinish(handlers: seq<Handler>, i: nat)
    ensures multiset(Finishes(Trace(handlers, i))) == multiset(Starts(Trace(handlers, i)))
    decreases |handlers| - i
  {
    if i < |handlers| {
      TraceParts(handlers, i);
      StartedFinish(handlers, i + 1);
    }
  }

  /** The route's handler runs if and only if no middleware aborts or fails before it calls Next. */
  lemma RouteRunsIffNobodyStops(middlewares: seq<Handler>, route: Handler, handlers: seq<Handler>)
    requires handlers == middlewares + [route]
    ensures |middlewares| in Starts(Trace(handlers, 0))
       <==> forall j :: 0 <= j < |middlewares| ==> !Stops(middlewares[j])
  {
    var starts := Starts(Trace(handlers, 0));
    ChainOrder(handlers, 0);
    if |starts| == |handlers| {
      assert starts[|middlewares|] == |middlewares|;
      assert forall j :: 0 <= j < |middlewares| ==> handlers[j] == middlewares[j];
    } else {
      assert handlers[|starts| - 1] == middlewares[|starts| - 1];
    }
  }

  // ---- aborting ----

  /** After an Abort or a Fail no handler starts. */
  ghost predicate NoStartAfterStop(t: seq<Event>) {
    forall p, q :: 0 <= p < q < |t| && t[p].Stop? ==> !t[q].Start?
  }

  lemma NoStartAfterJoin(a: seq<Event>, b: seq<Event>)
    requires NoStartAfterStop(a) && NoStartAfterStop(b)
    requires (forall p :: 0 <= p < |a| ==> !a[p].Stop?) || (forall q :: 0 <= q < |b| ==> !b[q].Start?)
    ensures NoStartAfterStop(a + b)
  {
  }

  /** Once the chain is not live, the rest of a handler starts nothing. */
  lemma {:induction false} DeadStartsNothing(handlers: seq<Handler>, i: nat, h: Handler)
    requires i < |handlers|
    ensures forall q :: 0 <= q < |Ops(handlers, i, h, false)| ==> !Ops(handlers, i, h, false)[q].Start?
  {
    if h != [] {
      DeadStartsNothing(handlers, i, h[1..]);
    }
  }

  lemma {:induction false} OpsStop(handlers: seq<Handler>, i: nat, h: Handler)
    requires i < |handlers| && NoStartAfterStop(Trace(handlers, i + 1))
    ensures NoStartAfterStop(Ops(handlers, i, h, true))
    ensures FirstControl(h) == Work ==> Ops(handlers, i, h, true) == []
  {
    if h != [] {
      OpsStop(handlers, i, h[1..]);
      DeadStartsNothing(handlers, i, h[1..]);
      var rest := Ops(handlers, i, h[1..], false);
      if h[0] == Next {
        NoStartAfterJoin(Trace(handlers, i + 1), rest);
      } else if h[0] != Work {
        NoStartAfterJoin([Stop(i)], rest);
      }
    }
  }

  /** Whichever handler aborts or fails, and wherever it does, no handler starts from then on. */
  lemma {:induction false} AbortIsFinal(handlers: seq<Handler>, i: nat)
    ensures NoStartAfterStop(Trace(handlers, i))
    decreases |handlers| - i
  {
    if i < |handlers| {
      AbortIsFinal(handlers, i + 1);
      var inside := Ops(handlers, i, handlers[i], true);
      OpsStop(handlers, i, handlers[i]);
      NoStartAfterJoin([Start(i)], inside);
      NoStartAfterJoin([Start(i)] + inside, [Finish(i)]);
      NoStartAfterJoin(Around(handlers, i), After(handlers, i));
    }
  }

  /** How often the handler aborts or fails. */
  function StopsIn(h: Handler): nat {
    if h == [] then 0 else (if h[0] == Abort || h[0] == Fail then 1 else 0) + StopsIn(h[1..])
  }

  lemma {:induction false} OpsCount(handlers: seq<Handler>, i: nat, h: Handler, live: bool, e: Event)
    requires i < |handlers|
    ensures multiset(Ops(handlers, i, h, live))[e]
         == (if live && FirstControl(h) == Next then multiset(Trace(handlers, i + 1))[e] else 0)
            + (if e == Stop(i) then StopsIn(h) else 0)
  {
    if h != [] {
      OpsCount(handlers, i, h[1..], live && h[0] == Work, e);
    }
  }

  /** What handler i adds to the events from i + 1 on. */
  lemma TraceCount(handlers: seq<Handler>, i: nat, e: Event)
    requires i < |handlers|
    ensures multiset(Trace(handlers, i))[e]
         == (if e == Start(i) || e == Finish(i) then 1 else 0) + (if e == Stop(i) then StopsIn(handlers[i]) else 0)
            + (if Stops(handlers[i]) then 0 else multiset(Trace(handlers, i + 1))[e])
  {
    OpsCount(handlers, i, handlers[i], true, e);
    var inside := Ops(handlers, i, handlers[i], true);
    assert Trace(handlers, i) == [Start(i)] + inside + [Finish(i)] + After(handlers, i);
  }

  /** The handlers from i on, of which j has started or not, left only events of their own. */
  ghost predicate Complete(handlers: seq<Handler>, i: nat, j: nat) {
    var t := multiset(Trace(handlers, i));
    if j < i || |handlers| <= j || t[Start(j)] == 0 then t[Start(j)] == t[Finish(j)] == t[Stop(j)] == 0
    else t[Start(j)] == t[Finish(j)] == 1 && t[Stop(j)] == StopsIn(handlers[j])
  }

  /** A handler that starts does so once, finishes once, and each of its Aborts and Fails is in the trace; of any other
      handler there is nothing. */
  lemma {:induction false} TraceIsComplete(handlers: seq<Handler>, i: nat, j: nat)
    ensures Complete(handlers, i, j)
    decreases |handlers| - i
  {
    if i < |handlers| {
      TraceIsComplete(handlers, i + 1, j);
      TraceCount(handlers, i, Start(j));
      TraceCount(handlers, i, Finish(j));
      TraceCount(handlers, i, Stop(j));
    }
  }

  // ---- nesting ----

  predicate Before(trace: seq<Event>, e: Event, f: Event) {
    exists p, q :: 0 <= p < q < |trace| && trace[p] == e && trace[q] == f
  }

  lemma BeforeWithin(a: seq<Event>, t: seq<Event>, b: seq<Event>, e: Event, f: Event)
    requires Before(t, e, f)
    ensures Before(a + t + b, e, f)
  {
    var p, q :| 0 <= p < q < |t| && t[p] == e && t[q] == f;
    assert (a + t + b)[|a| + p] == e && (a + t + b)[|a| + q] == f;
  }

  lemma BeforeAcross(a: seq<Event>, b: seq<Event>, e: Event, f: Event)
    requires e in a && f in b
    ensures Before(a + b, e, f)
  {
    var p :| 0 <= p < |a| && a[p] == e;
    var q :| 0 <= q < |b| && b[q] == f;
    assert (a + b)[p] == e && (a + b)[|a| + q] == f;
  }

  /** What runs inside a handler is what its call of Next runs, if that is its first control, and then its stops. */
  lemma {:induction false} OpsAround(handlers: seq<Handler>, i: nat, h: Handler) returns (stops: seq<Event>)
    requires i < |handlers|
    ensures FirstControl(h) == Next ==> Ops(handlers, i, h, true) == Trace(handlers, i + 1) + stops
    ensures FirstControl(h) == Work ==> Ops(handlers, i, h, true) == []
  {
    if h != [] && h[0] == Work {
      stops := OpsAround(handlers, i, h[1..]);
    } else {
      stops := if h == [] then [] else Ops(handlers, i, h[1..], false);
    }
  }

  /** What the trace from i + 1 has is in the trace from i. */
  lemma RestIsWithin(handlers: seq<Handler>, i: nat) returns (a: seq<Event>, b: seq<Event>)
    requires i < |handlers| && !Stops(handlers[i])
    ensures Trace(handlers, i) == a + Trace(handlers, i + 1) + b
    ensures if FirstControl(handlers[i]) == Next then a == [Start(i)] && Finish(i) in b
            else a == [Start(i), Finish(i)] && b == []
  {
    var stops := OpsAround(handlers, i, handlers[i]);
    if FirstControl(handlers[i]) == Next {
      a, b := [Start(i)], stops + [Finish(i)];
      Regroup(a, Trace(handlers, i + 1), stops, [Finish(i)]);
    } else {
      a, b := [Start(i), Finish(i)], [];
      assert a == [Start(i)] + [] + [Finish(i)];
    }
  }

  lemma {:induction false} Finishes1(handlers: seq<Handler>, i: nat, j: nat)
    requires i <= j && Start(j) in Trace(handlers, i)
    ensures Finish(j) in Trace(handlers, i) && j < |handlers|
    ensures i < j ==> !Stops(handlers[i]) && Start(j) in Trace(handlers, i + 1)
    decreases |handlers| - i
  {
    if i < j {
      FirstIsLeast(handlers, i, j);
      Finishes1(handlers, i + 1, j);
      var a, b := RestIsWithin(handlers, i);
    } else {
      assert Finish(i) in Around(handlers, i);
    }
  }

  lemma {:induction false} OpsStart(handlers: seq<Handler>, i: nat, h: Handler, live: bool, j: nat)
    requires i < |handlers| && Start(j) in Ops(handlers, i, h, live)
    ensures live && FirstControl(h) == Next && Start(j) in Trace(handlers, i + 1)
  {
    if Start(j) in Ops(handlers, i, h[1..], live && h[0] == Work) {
      OpsStart(handlers, i, h[1..], live && h[0] == Work, j);
    }
  }

  lemma FirstIsLeast(handlers: seq<Handler>, i: nat, j: nat)
    requires i < j && Start(j) in Trace(handlers, i)
    ensures i < |handlers| && !Stops(handlers[i]) && Start(j) in Trace(handlers, i + 1)
  {
    var inside := Ops(handlers, i, handlers[i], true);
    assert Trace(handlers, i) == [Start(i)] + inside + [Finish(i)] + After(handlers, i);
    if Start(j) in inside {
      OpsStart(handlers, i, handlers[i], true, j);
    }
  }

  lemma InsideNext(a: seq<Event>, rest: seq<Event>, b: seq<Event>, i: nat, j: nat)
    requires Start(i) in a && Start(j) in rest && Finish(j) in rest && Finish(i) in b
    ensures Before(a + rest + b, Start(i), Start(j)) && Before(a + rest + b, Finish(j), Finish(i))
  {
    BeforeAcross(a + rest, b, Finish(j), Finish(i));
    BeforeAcross(a, rest, Start(i), Start(j));
    BeforeWithin([], a + rest, b, Start(i), Start(j));
    assert [] + (a + rest) + b == a + rest + b;
  }

  /** Of two handlers that run, the later one runs wholly inside the earlier one when that calls Next, and wholly after
      it when it does not. */
  lemma {:induction false} Nesting(handlers: seq<Handler>, from: nat, i: nat, j: nat)
    requires from <= i < j && Start(j) in Trace(handlers, from)
    ensures i < |handlers|
    ensures FirstControl(handlers[i]) == Next ==>
              Before(Trace(handlers, from), Start(i), Start(j)) && Before(Trace(handlers, from), Finish(j), Finish(i))
    ensures FirstControl(handlers[i]) != Next ==> Before(Trace(handlers, from), Finish(i), Start(j))
    decreases i - from
  {
    FirstIsLeast(handlers, from, j);
    if from < i {
      Nesting(handlers, from + 1, i, j);
      var a, b := RestIsWithin(handlers, from);
      NestingWithin(a, Trace(handlers, from + 1), b, handlers, i, j);
    } else {
      Finishes1(handlers, i + 1, j);
      var a, b := RestIsWithin(handlers, i);
      if FirstControl(handlers[i]) == Next {
        InsideNext(a, Trace(handlers, i + 1), b, i, j);
      } else {
        BeforeAcross(a, Trace(handlers, i + 1), Finish(i), Start(j));
        assert a + Trace(handlers, i + 1) + b == a + Trace(handlers, i + 1);
      }
    }
  }

  lemma NestingWithin(a: seq<Event>, t: seq<Event>, b: seq<Event>, handlers: seq<Handler>, i: nat, j: nat)
    requires i < |handlers|
    requires FirstControl(handlers[i]) == Next ==> Before(t, Start(i), Start(j)) && Before(t, Finish(j), Finish(i))
    requires FirstControl(handlers[i]) != Next ==> Before(t, Finish(i), Start(j))
    ensures FirstControl(handlers[i]) == Next ==>
              Before(a + t + b, Start(i), Start(j)) && Before(a + t + b, Finish(j), Finish(i))
    ensures FirstControl(handlers[i]) != Next ==> Before(a + t + b, Finish(i), Start(j))
  {
    if FirstControl(handlers[i]) == Next {
      BeforeWithin(a, t, b, Start(i), Start(j));
      BeforeWithin(a, t, b, Finish(j), Finish(i));
    } else {
      BeforeWithin(a, t, b, Finish(i), Start(j));
    }
  }
}
