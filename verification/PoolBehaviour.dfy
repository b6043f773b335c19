/** What the pool's operations do when nobody interleaves, whatever others have done before: from any reachable state,
    by all fields but the histories. */
module PoolBehaviours {
  import opened Fifos
  import opened Options
  import opened Counting
  import opened Pools
  import opened PoolInvariants
  import opened PoolTheorems

  // ---- a task ends, and the worker goes back to the queue or exits ----

  /** A task that returns leads to revertWorker, one that panics to the worker's exit. */
  lemma TaskEnds(cfg: Config, size: nat, steps: seq<Step>, s: State, w: nat, t: nat, panics: bool)
    returns (s': State)
    requires Reached(cfg, size, steps, s) && s.Does(w, Running(t))
    ensures Reached(cfg, size, steps + [Work(w, EndTask(panics))], s')
    ensures s' == s.(goroutines := s.goroutines[w := if panics then Exiting else AtRevert],
                     executed := s.executed + multiset{t}, place := s'.place)
  {
    s' := DoEndTask(s, w, t, panics);
    ReachedOneMore(cfg, size, steps, s, Work(w, EndTask(panics)));
  }

  /** The queue has a free slot and the pool is open. */
  predicate HasRoom(s: State) {
    !s.closed && |s.queue.contents| < s.queue.size
  }

  /** Nothing has happened but that worker w is now the last of the queue and waits for a task. */
  ghost predicate PutBack(s: State, s': State, w: nat) {
    && s'.queue.contents == s.queue.contents + [w] && s'.queue.size == s.queue.size
    && s' == s.(queue := s'.queue, goroutines := s.goroutines[w := AtReceive], owner := s'.owner)
  }

  /** Nothing has happened but that worker w is about to exit. */
  ghost predicate SentAway(s: State, s': State, w: nat) {
    s' == s.(goroutines := s.goroutines[w := Exiting])
  }

  /** The stretch of revertWorker under the lock puts the worker back if and only if the pool is open and has a slot. */
  lemma InsertIffRoom(cfg: Config, size: nat, steps: seq<Step>, s: State, w: nat) returns (s': State)
    requires Reached(cfg, size, steps, s) && s.Does(w, AtInsert) && s.lock == None
    ensures Reached(cfg, size, steps + [Work(w, RevertInsert)], s')
    ensures HasRoom(s) <==> PutBack(s, s', w)
    ensures !HasRoom(s) <==> SentAway(s, s', w)
  {
    RunKeeps(cfg, size, steps);
    s' := DoRevertInsert(s, w);
    ReachedOneMore(cfg, size, steps, s, Work(w, RevertInsert));
    assert s'.goroutines[w] == if HasRoom(s) then AtReceive else Exiting;
  }

  lemma StepOn(cfg: Config, size: nat, steps: seq<Step>, more: seq<Step>, s: State, step: Step)
    requires Reached(cfg, size, steps + more, s) && Enabled(s, step)
    ensures Reached(cfg, size, steps + (more + [step]), Apply(cfg, s, step))
  {
    ReachedOneMore(cfg, size, steps + more, s, step);
    assert steps + more + [step] == steps + (more + [step]);
  }

  lemma Joins(cfg: Config, size: nat, steps: seq<Step>, more: seq<Step>, rest: seq<Step>, s: State)
    requires Reached(cfg, size, steps + more + rest, s)
    ensures Reached(cfg, size, steps + (more + rest), s)
  {
    assert steps + more + rest == steps + (more + rest);
  }

  /** Nothing has happened but that the goroutine of worker w is somewhere else. */
  ghost predicate IsAt(s: State, s': State, w: nat, g: Goroutine) {
    s' == s.(goroutines := s.goroutines[w := g])
  }

  /** The checks of revertWorker before it takes the lock. */
  lemma RevertChecks(cfg: Config, size: nat, steps: seq<Step>, s: State, w: nat) returns (more: seq<Step>, s': State)
    requires Reached(cfg, size, steps, s) && s.Does(w, AtRevert)
    ensures more <= [Work(w, RevertCap), Work(w, RevertRunning), Work(w, RevertClosed)]
    ensures Reached(cfg, size, steps + more, s')
    ensures if s.running <= s.capacity && !s.closed
            then |more| == 3 && IsAt(s, s', w, AtInsert)
            else SentAway(s, s', w)
  {
    RunKeeps(cfg, size, steps);
    var a, b, c := Work(w, RevertCap), Work(w, RevertRunning), Work(w, RevertClosed);
    var s1 := s.SetGoroutine(w, AtRevertRunning(s.capacity));
    ReachedOneMore(cfg, size, steps, s, a);
    StepOn(cfg, size, steps, [a], s1, b);
    SetTwice(s, w, AtRevertRunning(s.capacity));
    more, s' := [a] + [b], DoRevertRunning(s1, w, s.capacity);
    if s.running <= s.capacity {
      assert IsAt(s, s', w, AtRevertClosed);
      StepOn(cfg, size, steps, more, s', c);
      SetTwice(s, w, AtRevertClosed);
      more, s' := more + [c], DoRevertClosed(s', w);
    }
  }

  lemma SetTwice(s: State, w: nat, g: Goroutine)
    ensures forall g' :: s.SetGoroutine(w, g).SetGoroutine(w, g') == s.SetGoroutine(w, g')
  {
    forall g' ensures s.SetGoroutine(w, g).SetGoroutine(w, g') == s.SetGoroutine(w, g') {
      assert s.goroutines[w := g][w := g'] == s.goroutines[w := g'];
    }
  }

  /** The whole of revertWorker, with nobody interleaved: the worker is put back if and only if no more workers run than
      the capacity, the pool is open, and the queue has a free slot. */
  lemma RevertIffRoom(cfg: Config, size: nat, steps: seq<Step>, s: State, w: nat)
    returns (more: seq<Step>, s': State)
    requires Reached(cfg, size, steps, s) && s.Does(w, AtRevert) && s.lock == None
    ensures more <= [Work(w, RevertCap), Work(w, RevertRunning), Work(w, RevertClosed), Work(w, RevertInsert)]
    ensures Reached(cfg, size, steps + more, s')
    ensures s.running <= s.capacity && HasRoom(s) <==> PutBack(s, s', w)
    ensures !(s.running <= s.capacity && HasRoom(s)) <==> SentAway(s, s', w)
  {
    more, s' := RevertChecks(cfg, size, steps, s, w);
    if s.running <= s.capacity && !s.closed {
      var t := s';
      s' := InsertIffRoom(cfg, size, steps + more, t, w);
      assert steps + more + [Work(w, RevertInsert)] == steps + (more + [Work(w, RevertInsert)]);
      more := more + [Work(w, RevertInsert)];
      AsBefore(s, t, s', w);
    }
    OneWay(s, s', w);
  }

  /** Only where w is before its last step differs. */
  lemma AsBefore(s: State, t: State, s': State, w: nat)
    requires IsAt(s, t, w, AtInsert)
    ensures PutBack(t, s', w) <==> PutBack(s, s', w)
    ensures SentAway(t, s', w) <==> SentAway(s, s', w)
  {
    assert t.goroutines[w := AtReceive] == s.goroutines[w := AtReceive];
    assert t.goroutines[w := Exiting] == s.goroutines[w := Exiting];
  }

  lemma OneWay(s: State, s': State, w: nat)
    ensures !(PutBack(s, s', w) && SentAway(s, s', w))
  {
    assert PutBack(s, s', w) ==> s'.goroutines[w] == AtReceive;
    assert SentAway(s, s', w) ==> s'.goroutines[w] == Exiting;
  }

  // ---- Submit ----

  /** Steps of call t alone. */
  predicate OfCall(steps: seq<Step>, t: nat) {
    forall i :: 0 <= i < |steps| ==> steps[i].Call? && steps[i].t == t
  }

  /** Nothing has happened but that the call is somewhere else, and that the lock is free and so many calls wait. */
  ghost predicate CallIsAt(s: State, s': State, t: nat, p: Submitter, waiting: int) {
    s' == s.(submitters := s.submitters[t := p], lock := None, waiting := waiting)
  }

  /** The oldest idle worker has left the queue with the task on its channel. */
  ghost predicate Reuses(s: State, s': State, t: nat)
    requires s.queue.contents != []
  {
    && s'.queue.contents == s.queue.contents[1..] && s'.queue.size == s.queue.size
    && s' == s.(queue := s'.queue, channels := s.channels[s.queue.contents[0] := [Task(t)]], lock := None,
                submitters := s.submitters[t := Accepted], owner := s'.owner, place := s'.place)
  }

  /** Worker w, which did not run, runs and has the task on its channel. */
  ghost predicate StartsWorker(s: State, s': State, t: nat, w: nat) {
    && w !in s.goroutines
    && s' == s.(running := s.running + 1, goroutines := s.goroutines[w := AtReceive], cache := s.cache - {w},
                channels := s.channels[w := [Task(t)]], lock := None,
                submitters := s.submitters[t := Accepted], owner := s'.owner, place := s'.place)
  }

  ghost predicate StartsAWorker(s: State, s': State, t: nat) {
    exists w :: StartsWorker(s, s', t, w)
  }

  /** No worker can be had and the call may not block. */
  predicate MayNotBlock(cfg: Config, s: State) {
    cfg.nonblocking || (cfg.maxBlockingTasks != 0 && s.waiting >= cfg.maxBlockingTasks)
  }

  /** What a call that has got the lock makes of a pool in state s: an idle worker is reused; if there is none and the
      capacity is above running, a worker is started; else the call is refused when it may not block, and waits when it
      may. */
  ghost predicate Retrieves(cfg: Config, s: State, s': State, t: nat) {
    if s.queue.contents != [] then Reuses(s, s', t)
    else if s.running < s.capacity then StartsAWorker(s, s', t)
    else if MayNotBlock(cfg, s) then CallIsAt(s, s', t, Rejected(PoolOverload), s.waiting)
    else CallIsAt(s, s', t, Sleeping, s.waiting + 1)
  }

  lemma MoveTwice(s: State, t: nat, l: Option<Holder>, n: int, p: Submitter, l': Option<Holder>, n': int, p': Submitter)
    ensures s.Move(t, l, n, p).Move(t, l', n', p') == s.Move(t, l', n', p')
  {
    assert s.submitters[t := p][t := p'] == s.submitters[t := p'];
  }

  /** The call takes one more step. */
  lemma CallOn(cfg: Config, size: nat, steps: seq<Step>, more: seq<Step>, s: State, t: nat, call: CallStep)
    requires Reached(cfg, size, steps + more, s) && OfCall(more, t) && CallEnabled(s, t, call)
    ensures OfCall(more + [Call(t, call)], t)
    ensures Reached(cfg, size, steps + (more + [Call(t, call)]), ApplyCall(cfg, s, t, call))
  {
    StepOn(cfg, size, steps, more, s, Call(t, call));
  }

  lemma CallsJoin(cfg: Config, size: nat, steps: seq<Step>, more: seq<Step>, rest: seq<Step>, s: State, t: nat)
    requires OfCall(more, t) && OfCall(rest, t) && Reached(cfg, size, steps + more + rest, s)
    ensures OfCall(more + rest, t) && Reached(cfg, size, steps + (more + rest), s)
  {
    Joins(cfg, size, steps, more, rest, s);
  }

  lemma CapacityIsPositive(cfg: Config, size: nat, steps: seq<Step>, s: State)
    requires Reached(cfg, size, steps, s)
    ensures 1 <= s.capacity
  {
    RunKeeps(cfg, size, steps);
  }

  /** The call holds a worker and sends it the task. */
  lemma SendsTask(cfg: Config, size: nat, steps: seq<Step>, s: State, t: nat, w: nat) returns (s': State)
    requires Reached(cfg, size, steps, s) && s.At(t, Holding(w))
    ensures Reached(cfg, size, steps + [Call(t, Input)], s')
    ensures s' == s.(channels := s.channels[w := [Task(t)]], submitters := s.submitters[t := Accepted],
                     owner := s'.owner, place := s'.place)
  {
    RunKeeps(cfg, size, steps);
    assert UserOk(s, t) && WorkerKnown(s, w);
    assert s.Chan(w) + [Task(t)] == [Task(t)];
    s' := DoInput(s, t, w);
    ReachedOneMore(cfg, size, steps, s, Call(t, Input));
  }

  lemma TakesOldest(cfg: Config, size: nat, steps: seq<Step>, b: State, s: State, t: nat) returns (s': State)
    requires b.queue.contents != [] && b.lock == None
    requires Reached(cfg, size, steps, s)
    requires s == b.(queue := Fifo(b.queue.contents[1..], b.queue.size),
                     submitters := b.submitters[t := Holding(b.queue.contents[0])], owner := s.owner)
    ensures Reached(cfg, size, steps + [Call(t, Input)], s') && Reuses(b, s', t)
  {
    var w := b.queue.contents[0];
    s' := SendsTask(cfg, size, steps, s, t, w);
    assert b.submitters[t := Holding(w)][t := Accepted] == b.submitters[t := Accepted];
  }

  /** There is a number no worker has had. */
  lemma NewWorker(cfg: Config, size: nat, steps: seq<Step>, s: State) returns (w: nat)
    requires Reached(cfg, size, steps, s)
    ensures w !in s.owner && w !in s.goroutines
  {
    RunKeeps(cfg, size, steps);
    w := UnusedNumber(s.owner.Keys);
    assert WorkerKnown(s, w);
  }

  /** The call has left the lock to start a worker. */
  lemma Spawns(cfg: Config, size: nat, steps: seq<Step>, b: State, s: State, t: nat)
    returns (more: seq<Step>, s': State)
    requires b.lock == None && Reached(cfg, size, steps, s) && s == b.Move(t, None, b.waiting, Spawn)
    ensures OfCall(more, t) && Reached(cfg, size, steps + more, s') && StartsAWorker(b, s', t)
  {
    var w := NewWorker(cfg, size, steps, s);
    more := Launches(cfg, size, steps, s, t, w);
    var s3 := DoLaunch(DoCountWorker(DoGetWorker(s, t, w), t, w), t, w);
    s' := SendsTask(cfg, size, steps + more, s3, t, w);
    assert steps + more + [Call(t, Input)] == steps + (more + [Call(t, Input)]);
    more := more + [Call(t, Input)];
    SpawnedIs(b, s3, s', t, w);
  }

  lemma Launches(cfg: Config, size: nat, steps: seq<Step>, s: State, t: nat, w: nat) returns (more: seq<Step>)
    requires Reached(cfg, size, steps, s) && s.At(t, Spawn) && w !in s.owner
    ensures OfCall(more, t)
    ensures Reached(cfg, size, steps + more, DoLaunch(DoCountWorker(DoGetWorker(s, t, w), t, w), t, w))
  {
    var s1 := DoGetWorker(s, t, w);
    var s2 := DoCountWorker(s1, t, w);
    ReachedOneMore(cfg, size, steps, s, Call(t, GetWorker(w)));
    more := [Call(t, GetWorker(w))];
    CallOn(cfg, size, steps, more, s1, t, CountWorker);
    more := more + [Call(t, CountWorker)];
    CallOn(cfg, size, steps, more, s2, t, Launch);
    more := more + [Call(t, Launch)];
  }

  lemma SpawnedIs(b: State, s: State, s': State, t: nat, w: nat)
    requires b.lock == None && w !in b.goroutines
    requires s == DoLaunch(DoCountWorker(DoGetWorker(b.Move(t, None, b.waiting, Spawn), t, w), t, w), t, w)
    requires s' == s.(channels := s.channels[w := [Task(t)]], submitters := s.submitters[t := Accepted],
                      owner := s'.owner, place := s'.place)
    ensures StartsWorker(b, s', t, w)
  {
    assert b.goroutines[w := Starting][w := AtReceive] == b.goroutines[w := AtReceive];
    assert s.submitters[t := Accepted] == b.submitters[t := Accepted];
  }

  /** The call has the lock and has found no idle worker. */
  lemma FromCap(cfg: Config, size: nat, steps: seq<Step>, b: State, s: State, t: nat)
    returns (more: seq<Step>, s': State)
    requires b.queue.contents == [] && b.lock == None
    requires Reached(cfg, size, steps, s) && s == b.Move(t, Some(BySubmitter(t)), b.waiting, AtCap)
    ensures OfCall(more, t) && Reached(cfg, size, steps + more, s') && Retrieves(cfg, b, s', t)
  {
    var rest, s1;
    more, s1 := ReadsCounters(cfg, size, steps, b, s, t);
    if b.running < b.capacity {
      rest, s' := Spawns(cfg, size, steps + more, b, s1, t);
    } else {
      rest, s' := Overloads(cfg, size, steps + more, b, s1, t);
    }
    CallsJoin(cfg, size, steps, more, rest, s', t);
    more := more + rest;
  }

  /** The call compares running with the capacity. */
  lemma ReadsCounters(cfg: Config, size: nat, steps: seq<Step>, b: State, s: State, t: nat)
    returns (more: seq<Step>, s': State)
    requires b.lock == None && Reached(cfg, size, steps, s) && s == b.Move(t, Some(BySubmitter(t)), b.waiting, AtCap)
    ensures OfCall(more, t) && Reached(cfg, size, steps + more, s')
    ensures s' == if b.running < b.capacity then b.Move(t, None, b.waiting, Spawn)
                  else b.Move(t, Some(BySubmitter(t)), b.waiting, AtOverload)
  {
    CapacityIsPositive(cfg, size, steps, s);
    var lock, n := Some(BySubmitter(t)), b.waiting;
    ReachedOneMore(cfg, size, steps, s, Call(t, ReadCap));
    more, s' := [Call(t, ReadCap)], b.Move(t, lock, n, AtRunning(b.capacity));
    MoveTwice(b, t, lock, n, AtCap, lock, n, AtRunning(b.capacity));
    CallOn(cfg, size, steps, more, s', t, ReadRunning);
    more, s' := more + [Call(t, ReadRunning)], DoReadRunning(s', t, b.capacity);
    MoveTwice(b, t, lock, n, AtRunning(b.capacity), None, n, Spawn);
    MoveTwice(b, t, lock, n, AtRunning(b.capacity), lock, n, AtOverload);
  }

  /** The call has the lock and has found the pool full. */
  lemma Overloads(cfg: Config, size: nat, steps: seq<Step>, b: State, s: State, t: nat)
    returns (more: seq<Step>, s': State)
    requires b.lock == None && Reached(cfg, size, steps, s)
    requires s == b.Move(t, Some(BySubmitter(t)), b.waiting, AtOverload)
    ensures OfCall(more, t) && Reached(cfg, size, steps + more, s')
    ensures if MayNotBlock(cfg, b) then CallIsAt(b, s', t, Rejected(PoolOverload), b.waiting)
            else CallIsAt(b, s', t, Sleeping, b.waiting + 1)
  {
    var lock, n := Some(BySubmitter(t)), b.waiting;
    ReachedOneMore(cfg, size, steps, s, Call(t, ReadWaiting));
    more, s' := [Call(t, ReadWaiting)], DoReadWaiting(cfg, s, t);
    MoveTwice(b, t, lock, n, AtOverload, None, n, Rejected(PoolOverload));
    MoveTwice(b, t, lock, n, AtOverload, lock, n, AtWait);
    if !MayNotBlock(cfg, b) {
      s' := Sleeps(cfg, size, steps + more, b, s', t);
      CallsJoin(cfg, size, steps, more, [Call(t, Wait)], s', t);
      more := more + [Call(t, Wait)];
    }
  }

  lemma Sleeps(cfg: Config, size: nat, steps: seq<Step>, b: State, s: State, t: nat) returns (s': State)
    requires b.lock == None && Reached(cfg, size, steps, s) && s == b.Move(t, Some(BySubmitter(t)), b.waiting, AtWait)
    ensures Reached(cfg, size, steps + [Call(t, Wait)], s') && CallIsAt(b, s', t, Sleeping, b.waiting + 1)
  {
    ReachedOneMore(cfg, size, steps, s, Call(t, Wait));
    MoveTwice(b, t, Some(BySubmitter(t)), b.waiting, AtWait, None, b.waiting + 1, Sleeping);
    s' := DoWait(s, t);
  }

  /** The call has come to the retry label with the lock. */
  lemma FromRetry(cfg: Config, size: nat, steps: seq<Step>, b: State, s: State, t: nat, p: Submitter, l: Option<Holder>)
    returns (more: seq<Step>, s': State)
    requires b.lock == None && Reached(cfg, size, steps, s) && s == DoRetry(b.Move(t, l, b.waiting, p), t)
    ensures OfCall(more, t) && Reached(cfg, size, steps + more, s') && Retrieves(cfg, b, s', t)
  {
    if b.queue.contents == [] {
      MoveTwice(b, t, l, b.waiting, p, Some(BySubmitter(t)), b.waiting, AtCap);
      more, s' := FromCap(cfg, size, steps, b, s, t);
    } else {
      assert b.submitters[t := p][t := Holding(b.queue.contents[0])] == b.submitters[t := Holding(b.queue.contents[0])];
      s' := TakesOldest(cfg, size, steps, b, s, t);
      more := [Call(t, Input)];
    }
  }

  /** A call of Submit with nobody interleaved is refused at once if the pool is closed, and else makes of it what
      retrieveWorker is for. */
  lemma SubmitAlone(cfg: Config, size: nat, steps: seq<Step>, s: State, t: nat)
    returns (more: seq<Step>, s': State)
    requires Reached(cfg, size, steps, s) && t !in s.submitters && s.lock == None
    ensures OfCall(more, t) && Reached(cfg, size, steps + more, s')
    ensures if s.closed then CallIsAt(s, s', t, Rejected(PoolClosed), s.waiting) else Retrieves(cfg, s, s', t)
  {
    ReachedOneMore(cfg, size, steps, s, Call(t, Submit));
    more, s' := [Call(t, Submit)], DoSubmit(s, t);
    if !s.closed {
      StepOn(cfg, size, steps, more, s', Call(t, Retrieve));
      more := more + [Call(t, Retrieve)];
      var rest;
      rest, s' := FromRetry(cfg, size, steps + more, s, DoRetry(s', t), t, WantLock, None);
      CallsJoin(cfg, size, steps, more, rest, s', t);
      more := more + rest;
    }
  }

  /** A call that wakes up is refused if the pool has been closed, and else tries again, no longer waiting. */
  lemma WakeAlone(cfg: Config, size: nat, steps: seq<Step>, s: State, t: nat)
    returns (more: seq<Step>, s': State)
    requires Reached(cfg, size, steps, s) && s.At(t, Sleeping) && s.lock == None
    ensures OfCall(more, t) && Reached(cfg, size, steps + more, s')
    ensures if s.closed then CallIsAt(s, s', t, Rejected(PoolClosed), s.waiting - 1)
            else Retrieves(cfg, s.(waiting := s.waiting - 1), s', t)
  {
    var lock, n, b := Some(BySubmitter(t)), s.waiting - 1, s.(waiting := s.waiting - 1);
    more := GetsLockBack(cfg, size, steps, s, t);
    var s1 := s.Move(t, lock, n, AtClosedCheck);
    CallOn(cfg, size, steps, more, s1, t, CheckClosed);
    more := more + [Call(t, CheckClosed)];
    if s.closed {
      MoveTwice(s, t, lock, n, AtClosedCheck, None, n, Rejected(PoolClosed));
      s' := s.Move(t, None, n, Rejected(PoolClosed));
    } else {
      assert s1 == b.Move(t, lock, n, AtClosedCheck);
      var rest;
      rest, s' := FromRetry(cfg, size, steps + more, b, DoRetry(s1, t), t, AtClosedCheck, lock);
      CallsJoin(cfg, size, steps, more, rest, s', t);
      more := more + rest;
    }
  }

  lemma GetsLockBack(cfg: Config, size: nat, steps: seq<Step>, s: State, t: nat) returns (more: seq<Step>)
    requires Reached(cfg, size, steps, s) && s.At(t, Sleeping) && s.lock == None
    ensures OfCall(more, t)
    ensures Reached(cfg, size, steps + more, s.Move(t, Some(BySubmitter(t)), s.waiting - 1, AtClosedCheck))
  {
    var s1 := s.Move(t, None, s.waiting, Woken);
    ReachedOneMore(cfg, size, steps, s, Call(t, Wake));
    more := [Call(t, Wake)];
    CallOn(cfg, size, steps, more, s1, t, Relock);
    more := more + [Call(t, Relock)];
    MoveTwice(s, t, None, s.waiting, Woken, Some(BySubmitter(t)), s.waiting - 1, AtClosedCheck);
  }
}
