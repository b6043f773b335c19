/** The bounded FIFO sequence that the circular queue refines, and what every run of it keeps. */
module Fifos {
  import opened Options

  datatype InsertResult = Inserted | QueueIsFull | QueueIsReleased

  /** The queued elements, oldest first, and the number of slots; a released queue has no slots. */
  datatype Fifo<T> = Fifo(contents: seq<T>, size: nat) {

    predicate Bounded() {
      |contents| <= size
    }

    function Insert(x: T): (Fifo<T>, InsertResult) {
      if size == 0 then (this, QueueIsReleased)
      else if |contents| == size then (this, QueueIsFull)
      else (Fifo(contents + [x], size), Inserted)
    }

    function Detach(): (Fifo<T>, Option<T>) {
      if contents == [] then (this, None) else (Fifo(contents[1..], size), Some(contents[0]))
    }

    /** Drops the k oldest elements; which k refresh chooses depends on the time stamps. */
    function Refresh(k: nat): (Fifo<T>, seq<T>)
      requires k <= |contents|
    {
      (Fifo(contents[k..], size), contents[..k])
    }

    function Reset(): (Fifo<T>, seq<T>) {
      if contents == [] then (this, []) else (Fifo([], 0), contents)
    }
  }

  datatype Op<T> = Insert(x: T) | Detach | Refresh(k: nat) | Reset

  /** A queue with the history of what entered it and what left it, in order. */
  datatype Log<T> = Log(queue: Fifo<T>, entered: seq<T>, left: seq<T>)

  function Perform<T>(l: Log<T>, op: Op<T>): Log<T> {
    match op
    case Insert(x) =>
      var (q, r) := l.queue.Insert(x);
      Log(q, if r == Inserted then l.entered + [x] else l.entered, l.left)
    case Detach =>
      var (q, r) := l.queue.Detach();
      Log(q, l.entered, if r.Some? then l.left + [r.value] else l.left)
    case Refresh(k) =>
      var (q, r) := l.queue.Refresh(if k <= |l.queue.contents| then k else |l.queue.contents|);
      Log(q, l.entered, l.left + r)
    case Reset =>
      var (q, r) := l.queue.Reset();
      Log(q, l.entered, l.left + r)
  }

  function PerformAll<T>(l: Log<T>, ops: seq<Op<T>>): Log<T> {
    if ops == [] then l else Perform(PerformAll(l, ops[..|ops| - 1]), ops[|ops| - 1])
  }

  /** One operation keeps the order and the bound. */
  lemma OrderAfter<T>(l: Log<T>, op: Op<T>)
    requires l.entered == l.left + l.queue.contents && l.queue.Bounded()
    ensures var l' := Perform(l, op);
            && l'.entered == l'.left + l'.queue.contents && l'.queue.Bounded()
            && (l'.queue.size == l.queue.size || l'.queue == Fifo([], 0))
  {
    match op
    case Insert(x) => assert l.left + l.queue.contents + [x] == l.left + (l.queue.contents + [x]);
    case Detach => TakenFrom(l, 1);
    case Refresh(k) => TakenFrom(l, k);
    case Reset => TakenFrom(l, |l.queue.contents|);
  }

  lemma TakenFrom<T>(l: Log<T>, k: nat)
    ensures k <= |l.queue.contents| ==>
              l.left + l.queue.contents == l.left + l.queue.contents[..k] + l.queue.contents[k..]
    ensures l.left + l.queue.contents + [] == l.left + l.queue.contents
  {
    if k <= |l.queue.contents| {
      assert l.queue.contents == l.queue.contents[..k] + l.queue.contents[k..];
    }
  }

  /** First in, first out, over every run: what entered is what left followed by what is still queued, so nothing
      is lost, duplicated or reordered, and the queue never outgrows its slots. */
  lemma {:induction false} FirstInFirstOut<T>(size: nat, ops: seq<Op<T>>)
    ensures var l := PerformAll(Log(Fifo([], size), [], []), ops);
            && l.entered == l.left + l.queue.contents
            && l.queue.Bounded()
            && (l.queue.size == size || l.queue == Fifo([], 0))
  {
    if ops != [] {
      FirstInFirstOut(size, ops[..|ops| - 1]);
      OrderAfter(PerformAll(Log(Fifo([], size), [], []), ops[..|ops| - 1]), ops[|ops| - 1]);
    }
  }

  /** Resetting a non-empty queue releases it for good: whatever follows, nothing enters and nothing leaves. */
  lemma {:induction false} ReleasedForever<T>(l: Log<T>, ops: seq<Op<T>>)
    requires l.queue.contents != []
    ensures var r := Perform(l, Reset);
            PerformAll(r, ops) == r && r.left == l.left + l.queue.contents
            && forall x :: r.queue.Insert(x).1 == QueueIsReleased
  {
    if ops != [] {
      ReleasedForever(l, ops[..|ops| - 1]);
      var r := Perform(l, Reset);
      assert r.left + [] == r.left;
    }
  }

  /** Operation i resets a queue that holds something. */
  ghost predicate ResetsNonEmpty<T>(start: Log<T>, ops: seq<Op<T>>, i: nat)
    requires i < |ops|
  {
    ops[i].Reset? && PerformAll(start, ops[..i]).queue.contents != []
  }

  /** One operation takes the slots away only if it resets a queue that holds something. */
  lemma SlotsAfter<T>(l: Log<T>, op: Op<T>)
    ensures Perform(l, op).queue.size == 0 <==> l.queue.size == 0 || (op.Reset? && l.queue.contents != [])
  {
  }

  /** A queue with slots is released by a run exactly when the run resets it while something is queued. */
  lemma {:induction false} ReleasedIffResetNonEmpty<T>(start: Log<T>, ops: seq<Op<T>>)
    requires start.queue.size > 0
    ensures PerformAll(start, ops).queue.size == 0 <==> exists i: nat :: i < |ops| && ResetsNonEmpty(start, ops, i)
  {
    if ops != [] {
      var first := ops[..|ops| - 1];
      ReleasedIffResetNonEmpty(start, first);
      SlotsAfter(PerformAll(start, first), ops[|ops| - 1]);
      forall i: nat | i < |first| ensures ResetsNonEmpty(start, first, i) <==> ResetsNonEmpty(start, ops, i) {
        assert first[..i] == ops[..i];
      }
      assert ResetsNonEmpty(start, ops, |ops| - 1)
        <==> ops[|ops| - 1].Reset? && PerformAll(start, first).queue.contents != [];
    }
  }

  function Inserts<T>(xs: seq<T>): (r: seq<Op<T>>)
    ensures |r| == |xs| && forall i :: 0 <= i < |xs| ==> r[i] == Insert(xs[i])
  {
    seq(|xs|, i requires 0 <= i < |xs| => Insert(xs[i]))
  }

  /** Of the elements inserted into a new queue exactly the first size enter, in order. */
  lemma {:induction false} FillsToSize<T>(size: nat, xs: seq<T>)
    ensures var start, kept := Log(Fifo([], size), [], []), if |xs| < size then xs else xs[..size];
            PerformAll(start, Inserts(xs)) == Log(Fifo(kept, size), kept, [])
  {
    if xs != [] {
      var first := xs[..|xs| - 1];
      assert Inserts(xs)[..|xs| - 1] == Inserts(first);
      FillsToSize(size, first);
    }
  }

  function Detaches<T>(k: nat): (r: seq<Op<T>>)
    ensures |r| == k && forall i :: 0 <= i < k ==> r[i] == Detach
  {
    seq(k, _ => Detach)
  }

  /** Detaching takes the elements out from the oldest on, one by one, as long as there are any. */
  lemma {:induction false} DrainsInOrder<T>(l: Log<T>, k: nat)
    ensures var n := if k < |l.queue.contents| then k else |l.queue.contents|;
            PerformAll(l, Detaches(k))
            == Log(Fifo(l.queue.contents[n..], l.queue.size), l.entered, l.left + l.queue.contents[..n])
  {
    if k > 0 {
      var fewer: seq<Op<T>> := Detaches(k)[..k - 1];
      assert fewer == Detaches(k - 1);
      DrainsInOrder(l, k - 1);
      DetachOneMore(l, k - 1);
    }
  }

  lemma DetachOneMore<T>(l: Log<T>, n: nat)
    ensures n < |l.queue.contents| ==>
              Perform(Log(Fifo(l.queue.contents[n..], l.queue.size), l.entered, l.left + l.queue.contents[..n]), Detach)
              == Log(Fifo(l.queue.contents[n + 1..], l.queue.size), l.entered, l.left + l.queue.contents[..n + 1])
  {
  }
}
