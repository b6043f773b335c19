/** The circular queue of idle workers (psygo/pool/worker_loop_queue.go), proved against a FIFO sequence. */
module LoopQueues {
  import opened Fifos
  import opened Options

  /** A worker as the queue sees it: its identity and the time stamp of its last use. */
  datatype Worker = Worker(id: nat, lastUsed: int)

  ghost predicate Sorted(stamps: seq<int>) {
    forall i, j :: 0 <= i < j < |stamps| ==> stamps[i] <= stamps[j]
  }

  /** The linear scan: the last position whose stamp is not after the expiry time, or -1. */
  function LastStale(stamps: seq<int>, expiryTime: int): int {
    if stamps == [] then -1
    else if stamps[|stamps| - 1] <= expiryTime then |stamps| - 1
    else LastStale(stamps[..|stamps| - 1], expiryTime)
  }

  /** In a sorted sequence a stale position followed by a fresh one (or by the end) is the last stale one. */
  lemma {:induction false} BoundaryIsLastStale(stamps: seq<int>, expiryTime: int, k: nat)
    requires Sorted(stamps) && k < |stamps| && stamps[k] <= expiryTime
    requires k + 1 < |stamps| ==> expiryTime < stamps[k + 1]
    ensures LastStale(stamps, expiryTime) == k
  {
    if k + 1 < |stamps| {
      BoundaryIsLastStale(stamps[..|stamps| - 1], expiryTime, k);
    }
  }

  /** In a sorted sequence the linear scan separates the stale stamps from the fresh ones. */
  lemma {:induction false} LastStaleSeparates(stamps: seq<int>, expiryTime: int)
    requires Sorted(stamps)
    ensures -1 <= LastStale(stamps, expiryTime) < |stamps|
    ensures forall i :: 0 <= i < |stamps| ==> (stamps[i] <= expiryTime <==> i <= LastStale(stamps, expiryTime))
  {
    if stamps != [] {
      LastStaleSeparates(stamps[..|stamps| - 1], expiryTime);
    }
  }

  /** When the first stamp of a sorted sequence is fresh, the scan finds nothing. */
  lemma {:induction false} NoneStale(stamps: seq<int>, expiryTime: int)
    requires Sorted(stamps) && (stamps != [] ==> expiryTime < stamps[0])
    ensures LastStale(stamps, expiryTime) == -1
  {
    if stamps != [] {
      NoneStale(stamps[..|stamps| - 1], expiryTime);
    }
  }

  function Stamps(ws: seq<Worker>): seq<int> {
    seq(|ws|, i requires 0 <= i < |ws| => ws[i].lastUsed)
  }

  lemma StaleIsPrefix(ws: seq<Worker>, expiryTime: int)
    requires Sorted(Stamps(ws))
    ensures forall i :: 0 <= i < |ws| ==> (ws[i].lastUsed <= expiryTime <==> i <= LastStale(Stamps(ws), expiryTime))
  {
    LastStaleSeparates(Stamps(ws), expiryTime);
    assert forall i :: 0 <= i < |ws| ==> ws[i].lastUsed == Stamps(ws)[i];
  }

  lemma ModOnce(x: nat, n: nat)
    requires n > 0 && x < 2 * n
    ensures x % n == if x < n then x else x - n
  {
    if x >= n {
      assert x == n * 1 + (x - n);
    }
  }

  lemma ModTwice(x: nat, n: nat)
    requires n > 0 && x < 2 * n
    ensures (x + n) % n == if x < n then x else x - n
  {
    if x < n {
      ModOnce(x + n, n);
    } else {
      assert x + n == n * 2 + (x - n);
    }
  }

  /** (x + 1) % n, the step of head and tail. */
  method Successor(x: nat, n: nat) returns (r: nat)
    requires x < n
    ensures r == if x + 1 == n then 0 else x + 1
  {
    ModOnce(x + 1, n);
    r := (x + 1) % n;
  }

  /** The mapping of a logical position to a slot, as binarySearch computes it. */
  method TruePosition(x: nat, basel: nat, nlen: nat) returns (r: nat)
    requires x < nlen && basel < nlen
    ensures r == if basel + x < nlen then basel + x else basel + x - nlen
  {
    ModTwice(x + basel, nlen);
    r := (x + basel + nlen) % nlen;
  }

  /** The mapping of the tail to the right end of the search range. */
  method MappedRight(head: nat, tail: nat, nlen: nat) returns (r: nat)
    requires head < nlen && tail < nlen
    ensures r == if head < tail then tail - 1 - head else tail - 1 - head + nlen
  {
    ModOnce(tail - 1 - head + nlen, nlen);
    r := (tail - 1 - head + nlen) % nlen;
  }

  /** The slot that holds the i-th oldest worker of a queue. */
  function Slot(head: nat, size: nat, i: nat): int {
    if head + i < size then head + i else head + i - size
  }

  /** The position in the queue of a slot: the inverse of Slot. */
  function Offset(head: nat, size: nat, slot: int): int {
    if head <= slot then slot - head else slot - head + size
  }

  function Rotated(ws: seq<Worker>, k: nat): seq<Worker>
    requires k <= |ws|
  {
    ws[k..] + ws[..k]
  }

  lemma RotatedKeepsWorkers(ws: seq<Worker>, k: nat)
    requires k <= |ws|
    ensures |Rotated(ws, k)| == |ws| && multiset(Rotated(ws, k)) == multiset(ws)
  {
    assert ws == ws[..k] + ws[k..];
  }

  /** What the slot at a given position of the queue holds. */
  function At(contents: seq<Worker>, i: int): Option<Worker> {
    if 0 <= i < |contents| then Some(contents[i]) else None
  }

  class LoopQueue {
    var items: array<Option<Worker>>
    var expiry: seq<Worker>
    var head: nat
    var tail: nat
    var size: nat
    var isFull: bool

    /** The abstract queue, oldest worker first. */
    ghost var contents: seq<Worker>

    /** A released queue has no slots; otherwise exactly the live slots hold a worker. */
    ghost predicate Valid()
      reads this, items
    {
      && items.Length == size
      && (size == 0 ==> head == 0 && tail == 0 && !isFull && contents == [])
      && (size > 0 ==>
            && head < size && tail < size
            && |contents| <= size
            && (isFull <==> |contents| == size)
            && tail == Slot(head, size, |contents|)
            && (forall s :: 0 <= s < size ==> items[s] == At(contents, Offset(head, size, s))))
    }

    /** The FIFO this queue stands for. */
    ghost function Queue(): Fifo<Worker>
      reads this
    {
      Fifo(contents, size)
    }

    constructor (size: nat)
      ensures Valid() && fresh(items)
      ensures Queue() == Fifo([], size)
    {
      items := new Option<Worker>[size](_ => None);
      this.size := size;
      head, tail, isFull := 0, 0, false;
      expiry, contents := [], [];
    }

    predicate IsEmpty()
      requires Valid()
      reads this, items
      ensures IsEmpty() <==> contents == []
    {
      head == tail && !isFull
    }

    function Len(): (n: nat)
      requires Valid()
      reads this, items
      ensures n == |contents|
    {
      if size == 0 || IsEmpty() then 0
      else if head == tail && isFull then size
      else if tail > head then tail - head
      else size - head + tail
    }

    method Insert(w: Worker) returns (r: InsertResult)
      requires Valid()
      modifies this, items
      ensures Valid() && items == old(items)
      ensures (Queue(), r) == old(Queue()).Insert(w)
    {
      if size == 0 {
        return QueueIsReleased;
      }
      if isFull {
        return QueueIsFull;
      }
      items[tail] := Some(w);
      tail := Successor(tail, size);
      if tail == head {
        isFull := true;
      }
      contents := contents + [w];
      r := Inserted;
    }

    method Detach() returns (w: Option<Worker>)
      requires Valid()
      modifies this, items
      ensures Valid() && items == old(items)
      ensures (Queue(), w) == old(Queue()).Detach()
    {
      if IsEmpty() {
        return None;
      }
      w := items[head];
      assert Slot(head, size, 0) == head;
      items[head] := None;
      head := Successor(head, size);
      isFull := false;
      contents := contents[1..];
    }

    /** For any queue the answer is -1 or a live slot at a stale-to-fresh boundary; for a sorted one it is
        the slot of the last stale worker. */
    method BinarySearch(expiryTime: int) returns (index: int)
      requires Valid()
      ensures index == -1 <==> contents == [] || expiryTime < contents[0].lastUsed
      ensures index != -1 ==>
                && 0 <= index < size && 0 <= Offset(head, size, index) < |contents|
                && contents[Offset(head, size, index)].lastUsed <= expiryTime
                && (Offset(head, size, index) + 1 < |contents| ==>
                       expiryTime < contents[Offset(head, size, index) + 1].lastUsed)
      ensures Sorted(Stamps(contents)) ==>
                (if index == -1 then -1 else Offset(head, size, index)) == LastStale(Stamps(contents), expiryTime)
    {
      var nlen := items.Length;
      ghost var stamps := Stamps(contents);
      assert contents != [] ==> items[Slot(head, size, 0)] == Some(contents[0]);
      if IsEmpty() || expiryTime < items[head].value.lastUsed {
        if Sorted(stamps) {
          NoneStale(stamps, expiryTime);
        }
        return -1;
      }
      var r := LastStalePosition(expiryTime);
      index := TruePosition(r, head, nlen);
      if Sorted(stamps) {
        BoundaryIsLastStale(stamps, expiryTime, r);
      }
    }

    /** The loop of binarySearch, on mapped positions. */
    method LastStalePosition(expiryTime: int) returns (r: int)
      requires Valid() && contents != [] && contents[0].lastUsed <= expiryTime
      ensures 0 <= r < |contents| && contents[r].lastUsed <= expiryTime
      ensures r + 1 < |contents| ==> expiryTime < contents[r + 1].lastUsed
    {
      var nlen := items.Length;
      r := MappedRight(head, tail, nlen);
      var basel, l := head, 0;
      while l <= r
        invariant 0 <= l <= r + 1 <= |contents|
        invariant 0 <= r
        invariant 0 < l ==> contents[l - 1].lastUsed <= expiryTime
        invariant r + 1 < |contents| ==> expiryTime < contents[r + 1].lastUsed
      {
        var mid := l + (r - l) / 2;
        var tmid := TruePosition(mid, basel, nlen);
        assert Offset(head, size, tmid) == mid;
        if expiryTime < items[tmid].value.lastUsed {
          r := mid - 1;
        } else {
          l := mid + 1;
        }
      }
    }

    /** Removes a prefix of the queue, keeps the rest in order, and returns the removed workers, rotated when
        the removed range wraps. When the stamps are sorted the prefix is exactly the stale workers. */
    method Refresh(now: int, duration: int) returns (stale: seq<Worker>)
      requires Valid()
      modifies this, items
      ensures Valid() && items == old(items)
      ensures |stale| <= |old(contents)| && Queue() == old(Queue()).Refresh(|stale|).0
      ensures multiset(stale) == multiset(old(contents)[..|stale|])
      ensures stale != [] <==> old(contents) != [] && old(contents)[0].lastUsed <= now - duration
      ensures Sorted(Stamps(old(contents))) ==>
                forall i :: 0 <= i < |old(contents)| ==> (i < |stale| <==> old(contents)[i].lastUsed <= now - duration)
    {
      if Sorted(Stamps(contents)) {
        StaleIsPrefix(contents, now - duration);
      }
      var index := BinarySearch(now - duration);
      if index == -1 {
        return [];
      }
      stale := RemoveThrough(index);
      Advance(index);
    }

    /** Moves the head past index; the slots up to index have been cleared. */
    method Advance(index: nat)
      requires items.Length == size && 0 < size && head < size && tail < size && index < size
      requires tail == Slot(head, size, |contents|) && |contents| <= size && (isFull <==> |contents| == size)
      requires 0 < |expiry| <= |contents| && |expiry| == Offset(head, size, index) + 1
      requires forall s :: 0 <= s < size ==>
                 var i := Offset(head, size, s);
                 items[s] == if i < |expiry| then None else At(contents, i)
      modifies this`head, this`isFull, this`contents
      ensures Valid() && contents == old(contents)[|expiry|..]
    {
      head := Successor(index, size);
      if |expiry| > 0 {
        isFull := false;
      }
      contents := contents[|expiry|..];
    }

    /** Copies the slots from the head through index into the expiry slice and clears them. */
    method RemoveThrough(index: nat) returns (stale: seq<Worker>)
      requires Valid() && index < size && Offset(head, size, index) < |contents|
      modifies this`expiry, items
      ensures stale == expiry && |stale| == Offset(head, size, index) + 1
      ensures multiset(stale) == multiset(contents[..|stale|])
      ensures forall s :: 0 <= s < size ==>
                items[s] == if Offset(head, size, s) <= Offset(head, size, index) then None else old(items[s])
    {
      expiry := CopyThrough(index);
      RotatedKeepsWorkers(contents[..Offset(head, size, index) + 1], if head <= index then 0 else size - head);
      ClearThrough(index);
      stale := expiry;
    }

    /** Clears the slots from the head through index, around the end when they wrap. */
    method ClearThrough(index: nat)
      requires items.Length == size && head < size && index < size
      modifies items
      ensures forall s :: 0 <= s < size ==>
                items[s] == if Offset(head, size, s) <= Offset(head, size, index) then None else old(items[s])
    {
      if head <= index {
        ClearSlots(head, index + 1);
      } else {
        ClearSlots(0, index + 1);
        ClearSlots(head, size);
      }
    }

    /** The appends of refresh: the removed prefix, its wrapped part first. */
    method CopyThrough(index: nat) returns (stale: seq<Worker>)
      requires Valid() && index < size && Offset(head, size, index) < |contents|
      ensures stale == Rotated(contents[..Offset(head, size, index) + 1], if head <= index then 0 else size - head)
    {
      if head <= index {
        stale := Slice(head, index + 1);
      } else {
        stale := Slice(0, index + 1);
        var rest := Slice(head, size);
        stale := stale + rest;
      }
    }

    /** The workers in a range of slots, none of which is free. */
    method Slice(from: nat, to: nat) returns (ws: seq<Worker>)
      requires from <= to <= items.Length
      requires forall s :: from <= s < to ==> items[s].Some?
      ensures |ws| == to - from
      ensures forall k :: 0 <= k < |ws| ==> items[from + k] == Some(ws[k])
    {
      ws := [];
      for i := from to to
        invariant |ws| == i - from
        invariant forall k :: 0 <= k < |ws| ==> items[from + k] == Some(ws[k])
      {
        ws := ws + [items[i].value];
      }
    }

    /** The clearing loops of refresh. */
    method ClearSlots(from: nat, to: nat)
      requires from <= to <= items.Length
      modifies items
      ensures forall s :: 0 <= s < items.Length ==> items[s] == if from <= s < to then None else old(items[s])
    {
      for i := from to to
        invariant forall s :: 0 <= s < items.Length ==> items[s] == if from <= s < i then None else old(items[s])
      {
        items[i] := None;
      }
    }

    /** Stops every idle worker, oldest first, and releases the queue; on an empty queue nothing happens. */
    method Reset() returns (finished: seq<Worker>)
      requires Valid()
      modifies this, items
      ensures Valid()
      ensures (Queue(), finished) == old(Queue()).Reset()
    {
      finished := [];
      if IsEmpty() {
        return;
      }
      while true
        invariant Valid() && items == old(items) && size == old(size)
        invariant old(contents) == finished + contents
        decreases |contents|
      {
        var w := Detach();
        if w == None {
          assert finished + [] == finished;
          break;
        }
        finished := finished + [w.value];
      }
      items := new Option<Worker>[0];
      size, head, tail := 0, 0, 0;
    }
  }
}
