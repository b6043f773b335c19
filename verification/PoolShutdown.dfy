/** How the pool refuses calls, gets rid of workers and changes its capacity, from any reachable state. */
module PoolShutdowns {
  import opened Fifos
  import opened Options
  import opened Counting
  import opened Pools
  import opened PoolInvariants
  import opened PoolTheorems
  import opened PoolBehaviours

  // ---- refusals ----

  /** A step refuses a call because the pool is closed exactly when it begins the call or looks at the flag after a
      wait, and for overload exactly when the call, having found the pool full, may not block. */
  lemma RefusedIff(cfg: Config, size: nat, steps: seq<Step>, s: State, step: Step, s': State, t: nat)
    requires Reached(cfg, size, steps, s) && Enabled(s, step) && Reached(cfg, size, steps + [step], s')
    ensures !s.At(t, Rejected(PoolClosed)) ==>
              (s'.At(t, Rejected(PoolClosed)) <==> s.closed && step in {Call(t, Submit), Call(t, CheckClosed)})
    ensures !s.At(t, Rejected(PoolOverload)) ==>
              (s'.At(t, Rejected(PoolOverload)) <==> step == Call(t, ReadWaiting) && MayNotBlock(cfg, s))
  {
    ReachedOneMore(cfg, size, steps, s, step);
    match step
    case Call(u, call) =>
      if u == t {
        OwnStep(cfg, s, t, call);
      } else {
        CallFields(cfg, s, u, call);
      }
    case Work(w, work) => WorkFields(s, w, work);
    case System(system) => SystemFields(cfg, s, system);
  }

  predicate IsRefused(s: State, t: nat) {
    t in s.submitters && s.submitters[t].Rejected?
  }

  /** The other steps of a call refuse nothing. */
  lemma NoRefusal(cfg: Config, s: State, t: nat, call: CallStep)
    requires CallEnabled(s, t, call) && call !in {Submit, CheckClosed, ReadWaiting}
    ensures !IsRefused(ApplyCall(cfg, s, t, call), t)
  {
    match call
    case Retrieve => RetryRefuses(s, t);
    case ReadRunning => assert !IsRefused(DoReadRunning(s, t, s.submitters[t].cap), t);
    case Launch => assert !IsRefused(DoLaunch(s, t, s.submitters[t].w), t);
    case Input => assert !IsRefused(DoInput(s, t, s.submitters[t].w), t);
    case _ =>
  }

  lemma RetryRefuses(s: State, t: nat)
    ensures !IsRefused(DoRetry(s, t), t)
  {
  }

  lemma OwnStep(cfg: Config, s: State, t: nat, call: CallStep)
    requires CallEnabled(s, t, call)
    ensures var s' := ApplyCall(cfg, s, t, call);
            && (s'.At(t, Rejected(PoolClosed)) <==> s.closed && call in {Submit, CheckClosed})
            && (s'.At(t, Rejected(PoolOverload)) <==> call == ReadWaiting && MayNotBlock(cfg, s))
  {
    match call
    case Submit =>
    case CheckClosed => RetryRefuses(s, t);
    case ReadWaiting =>
    case _ => NoRefusal(cfg, s, t, call);
  }

  /** The call has not begun, or it waits, or it has been refused because the pool is closed. */
  ghost predicate TooLate(s: State, t: nat) {
    && s.closed
    && (t in s.submitters ==>
          s.submitters[t].AtWait? || s.submitters[t].Sleeping? || s.submitters[t].Woken? ||
          s.submitters[t].AtClosedCheck? || s.submitters[t] == Rejected(PoolClosed))
  }

  lemma StaysTooLate(cfg: Config, s: State, step: Step, t: nat)
    requires TooLate(s, t) && Enabled(s, step)
    ensures TooLate(Apply(cfg, s, step), t)
  {
    match step
    case Call(u, call) =>
      CallFields(cfg, s, u, call);
      if u == t {
        OwnTooLate(cfg, s, t, call);
      }
    case Work(w, work) => WorkFields(s, w, work);
    case System(system) => SystemFields(cfg, s, system);
  }

  lemma OwnTooLate(cfg: Config, s: State, t: nat, call: CallStep)
    requires TooLate(s, t) && CallEnabled(s, t, call)
    ensures TooLate(ApplyCall(cfg, s, t, call), t)
  {
    match call
    case Submit => assert TooLate(DoSubmit(s, t), t);
    case Wait => assert TooLate(DoWait(s, t), t);
    case Wake => assert TooLate(DoWake(s, t), t);
    case Relock => assert TooLate(DoRelock(s, t), t);
    case CheckClosed => assert TooLate(DoCheckClosed(s, t), t);
    case _ => assert false;
  }

  /** Once the pool is closed, a call that has not begun or that waits can only be refused, however the run goes on; in
      particular its task is never accepted. */
  lemma {:induction false} ClosedRefuses(cfg: Config, size: nat, steps: seq<Step>, more: seq<Step>, s: State, s': State,
                                         t: nat)
    requires Reached(cfg, size, steps, s) && Reached(cfg, size, steps + more, s') && TooLate(s, t)
    ensures TooLate(s', t)
  {
    if more == [] {
      assert steps + more == steps;
    } else {
      var first := more[..|more| - 1];
      assert (steps + more)[..|steps + more| - 1] == steps + first;
      var before := Run(cfg, Init(size), steps + first).value;
      ClosedRefuses(cfg, size, steps, first, s, before, t);
      StaysTooLate(cfg, before, more[|more| - 1], t);
    }
  }

  // ---- what a call has seen ----

  /** The call holds the lock and has looked for an idle worker. */
  predicate HasLooked(s: State, t: nat) {
    && t in s.submitters
    && (s.submitters[t].AtCap? || s.submitters[t].AtRunning? || s.submitters[t].AtOverload? || s.submitters[t].AtWait?)
  }

  ghost predicate NoneIdle(s: State) {
    s.lock.Some? && s.lock.value.BySubmitter? && HasLooked(s, s.lock.value.t) ==> s.queue.contents == []
  }

  lemma StaysNoneIdle(cfg: Config, s: State, step: Step)
    requires Inv(cfg, s) && NoneIdle(s) && Enabled(s, step)
    ensures NoneIdle(Apply(cfg, s, step))
  {
    match step
    case Call(t, call) => CallNoneIdle(cfg, s, t, call);
    case Work(w, work) => WorkNoneIdle(s, w, work);
    case System(system) => SystemNoneIdle(cfg, s, system);
  }

  lemma {:induction false} NoneIdleKept(cfg: Config, size: nat, steps: seq<Step>, s: State)
    requires Reached(cfg, size, steps, s)
    ensures NoneIdle(s)
  {
    if steps != [] {
      var first := steps[..|steps| - 1];
      var before := Run(cfg, Init(size), first).value;
      RunKeeps(cfg, size, first);
      NoneIdleKept(cfg, size, first, before);
      StaysNoneIdle(cfg, before, steps[|steps| - 1]);
    }
  }

  lemma CallNoneIdle(cfg: Config, s: State, t: nat, call: CallStep)
    requires Inv(cfg, s) && NoneIdle(s) && CallEnabled(s, t, call)
    ensures NoneIdle(ApplyCall(cfg, s, t, call))
  {
    assert CallOk(s, t);
    match call
    case Retrieve => RetryNoneIdle(s, t);
    case CheckClosed => RetryNoneIdle(s, t);
    case ReadRunning => assert NoneIdle(DoReadRunning(s, t, s.submitters[t].cap));
    case CountWorker => assert NoneIdle(DoCountWorker(s, t, s.submitters[t].w));
    case Launch => assert NoneIdle(DoLaunch(s, t, s.submitters[t].w));
    case Input => assert NoneIdle(DoInput(s, t, s.submitters[t].w));
    case _ =>
  }

  lemma RetryNoneIdle(s: State, t: nat)
    ensures NoneIdle(DoRetry(s, t))
  {
  }

  lemma WorkNoneIdle(s: State, w: nat, work: WorkerStep)
    requires NoneIdle(s) && WorkEnabled(s, w, work)
    ensures NoneIdle(ApplyWork(s, w, work))
  {
  }

  lemma SystemNoneIdle(cfg: Config, s: State, system: SystemStep)
    requires NoneIdle(s) && SystemEnabled(s, system)
    ensures NoneIdle(ApplySystem(cfg, s, system))
  {
  }

  /** Whatever interleaves: a call starts a worker, waits or is refused for overload only while no worker is idle. */
  lemma OnlyWhenNoneIdle(cfg: Config, size: nat, steps: seq<Step>, s: State, t: nat)
    requires Reached(cfg, size, steps, s) && HasLooked(s, t)
    ensures s.queue.contents == [] && s.lock == Some(BySubmitter(t))
  {
    RunKeeps(cfg, size, steps);
    NoneIdleKept(cfg, size, steps, s);
    assert CallOk(s, t);
  }

  // ---- workers that are told to stop ----

  /** A worker that is to exit ends: it is counted no more, and goes to the cache. */
  lemma ExitEnds(cfg: Config, size: nat, steps: seq<Step>, s: State, w: nat) returns (s': State)
    requires Reached(cfg, size, steps, s) && s.Does(w, Exiting)
    ensures Reached(cfg, size, steps + [Work(w, Discount), Work(w, Recycle)], s')
    ensures s' == s.(running := s.running - 1, goroutines := s.goroutines - {w}, cache := s.cache + {w},
                     owner := s'.owner)
  {
    var s1 := DoDiscount(s, w);
    ReachedOneMore(cfg, size, steps, s, Work(w, Discount));
    StepOn(cfg, size, steps, [Work(w, Discount)], s1, Work(w, Recycle));
    s' := DoRecycle(s1, w);
    assert s.goroutines[w := Exited] - {w} == s.goroutines - {w};
    assert [Work(w, Discount)] + [Work(w, Recycle)] == [Work(w, Discount), Work(w, Recycle)];
  }

  /** A worker that receives the nil of finish is to exit. */
  lemma StopEnds(cfg: Config, size: nat, steps: seq<Step>, s: State, w: nat) returns (s': State)
    requires Reached(cfg, size, steps, s) && s.Does(w, AtReceive) && s.Chan(w) == [Stop]
    ensures Reached(cfg, size, steps + [Work(w, Receive)], s')
    ensures s' == s.(channels := s.channels[w := []], goroutines := s.goroutines[w := Exiting])
  {
    s' := DoReceive(s, w);
    ReachedOneMore(cfg, size, steps, s, Work(w, Receive));
  }

  /** Steps of the scavenger and of Release alone. */
  predicate OfSystem(steps: seq<Step>) {
    forall i :: 0 <= i < |steps| ==> steps[i].System?
  }

  /** These workers, and no others, have got a nil on their channels. */
  ghost predicate Stopped(s: State, s': State, ws: set<nat>) {
    forall w: nat :: s'.Chan(w) == if w in ws then [Stop] else s.Chan(w)
  }

  function Elements(q: seq<nat>): set<nat> {
    set w | w in q
  }

  /** Nothing has happened but that the queue is released, and so is the lock, and its workers have got a nil. */
  ghost predicate IsReset(s: State, s': State) {
    && s' == s.(queue := Fifo([], 0), releaser := Released, lock := None, channels := s'.channels, owner := s'.owner)
    && Stopped(s, s', Elements(s.queue.contents))
  }

  /** The loop of reset, under the lock: every idle worker gets a nil. */
  lemma {:induction false} ResetAll(cfg: Config, size: nat, steps: seq<Step>, s: State)
    returns (more: seq<Step>, s': State)
    requires Reached(cfg, size, steps, s) && s.releaser == Resetting
    ensures OfSystem(more) && Reached(cfg, size, steps + more, s') && IsReset(s, s')
    decreases |s.queue.contents|
  {
    if s.queue.contents == [] {
      more, s' := [System(ResetEnd)], DoResetEnd(s);
      ReachedOneMore(cfg, size, steps, s, System(ResetEnd));
      assert IsReset(s, s');
    } else {
      var s1 := ResetFirst(cfg, size, steps, s);
      more, s' := ResetAll(cfg, size, steps + [System(ResetOne)], s1);
      Joins(cfg, size, steps, [System(ResetOne)], more, s');
      more := [System(ResetOne)] + more;
      StoppedToo(s, s1, s', s.queue.contents);
    }
  }

  lemma ResetFirst(cfg: Config, size: nat, steps: seq<Step>, s: State) returns (s': State)
    requires Reached(cfg, size, steps, s) && s.releaser == Resetting && s.queue.contents != []
    ensures Reached(cfg, size, steps + [System(ResetOne)], s')
    ensures s' == s.(queue := Fifo(s.queue.contents[1..], s.queue.size), channels := s'.channels, owner := s'.owner)
    ensures Stopped(s, s', {s.queue.contents[0]}) && s.queue.contents[0] !in s.queue.contents[1..]
  {
    RunKeeps(cfg, size, steps);
    var w := s.queue.contents[0];
    assert OwnerOk(s, w) && WorkerKnown(s, w);
    assert [] + [Stop] == [Stop];
    s' := DoResetOne(s);
    ReachedOneMore(cfg, size, steps, s, System(ResetOne));
  }

  lemma StoppedToo(s: State, s1: State, s': State, q: seq<nat>)
    requires q != [] && Stopped(s, s1, {q[0]}) && Stopped(s1, s', Elements(q[1..]))
    ensures Stopped(s, s', Elements(q))
  {
    assert Elements(q) == {q[0]} + Elements(q[1..]);
  }

  /** Release with nobody interleaved closes the pool, gives every idle worker a nil, and takes the slots away if there
      was an idle worker. */
  lemma ReleaseAlone(cfg: Config, size: nat, steps: seq<Step>, s: State) returns (more: seq<Step>, s': State)
    requires Reached(cfg, size, steps, s) && !s.closed && s.lock == None
    ensures OfSystem(more) && Reached(cfg, size, steps + more, s')
    ensures s' == s.(closed := true, releaser := Released, channels := s'.channels, owner := s'.owner,
                     queue := if s.queue.contents == [] then s.queue else Fifo([], 0))
    ensures Stopped(s, s', Elements(s.queue.contents))
  {
    var s1 := s.(closed := true, releaser := ReleaseClosed);
    ReachedOneMore(cfg, size, steps, s, System(Close));
    more := [System(Close)];
    StepOn(cfg, size, steps, more, s1, System(LockReset));
    more, s' := more + [System(LockReset)], DoLockReset(s1);
    if s.queue.contents != [] {
      var rest;
      var s2 := s';
      rest, s' := ResetAll(cfg, size, steps + more, s2);
      Joins(cfg, size, steps, more, rest, s');
      more := more + rest;
      assert Stopped(s2, s', Elements(s.queue.contents));
    }
  }

  // ---- purging ----

  /** Nothing has happened but that the scavenger is done, and its workers have got a nil. */
  ghost predicate IsPurged(s: State, s': State, ws: set<nat>) {
    s' == s.(purger := PurgerIdle, channels := s'.channels, owner := s'.owner) && Stopped(s, s', ws)
  }

  /** The scavenger tells the stale workers to stop, one after the other. */
  lemma {:induction false} NotifyAll(cfg: Config, size: nat, steps: seq<Step>, s: State)
    returns (more: seq<Step>, s': State)
    requires Reached(cfg, size, steps, s) && s.purger.Notifying?
    ensures OfSystem(more) && Reached(cfg, size, steps + more, s') && IsPurged(s, s', s.purger.stale)
    decreases |s.purger.stale|
  {
    if s.purger.stale == {} {
      more, s' := [System(PurgeEnd)], s.(purger := PurgerIdle);
      ReachedOneMore(cfg, size, steps, s, System(PurgeEnd));
      assert IsPurged(s, s', {});
    } else {
      var w :| w in s.purger.stale;
      var s1 := NotifyOne(cfg, size, steps, s, w);
      more, s' := NotifyAll(cfg, size, steps + [System(Notify(w))], s1);
      Joins(cfg, size, steps, [System(Notify(w))], more, s');
      more := [System(Notify(w))] + more;
      PurgedToo(s, s1, s', s.purger.stale, w);
    }
  }

  lemma PurgedToo(s: State, s1: State, s': State, ws: set<nat>, w: nat)
    requires w in ws && IsPurged(s1, s', ws - {w}) && Stopped(s, s1, {w})
    requires s1 == s.(purger := s1.purger, channels := s1.channels, owner := s1.owner)
    ensures IsPurged(s, s', ws)
  {
  }

  lemma NotifyOne(cfg: Config, size: nat, steps: seq<Step>, s: State, w: nat) returns (s': State)
    requires Reached(cfg, size, steps, s) && s.purger.Notifying? && w in s.purger.stale
    ensures Reached(cfg, size, steps + [System(Notify(w))], s')
    ensures s' == s.(purger := Notifying(s.purger.stale - {w}), channels := s'.channels, owner := s'.owner)
    ensures Stopped(s, s', {w})
  {
    RunKeeps(cfg, size, steps);
    assert OwnerOk(s, w) && WorkerKnown(s, w);
    assert [] + [Stop] == [Stop];
    s' := DoNotify(s, w, s.purger.stale);
    ReachedOneMore(cfg, size, steps, s, System(Notify(w)));
  }

  /** A purge with nobody interleaved: the k oldest idle workers leave the queue and get a nil, the others stay. */
  lemma PurgeAlone(cfg: Config, size: nat, steps: seq<Step>, s: State, k: nat) returns (more: seq<Step>, s': State)
    requires Reached(cfg, size, steps, s) && s.purger == PurgerTicked && s.lock == None && k <= |s.queue.contents|
    ensures OfSystem(more) && more != [] && more[0] == System(Purge(k)) && Reached(cfg, size, steps + more, s')
    ensures s'.queue.contents == s.queue.contents[k..]
    ensures s' == s.(queue := s'.queue, purger := PurgerIdle, channels := s'.channels, owner := s'.owner)
    ensures s'.queue.size == s.queue.size && Stopped(s, s', Elements(s.queue.contents[..k]))
  {
    var s1 := DoPurge(s, k);
    ReachedOneMore(cfg, size, steps, s, System(Purge(k)));
    more, s' := NotifyAll(cfg, size, steps + [System(Purge(k))], s1);
    Joins(cfg, size, steps, [System(Purge(k))], more, s');
    more := [System(Purge(k))] + more;
    assert Stopped(s1, s', Elements(s.queue.contents[..k]));
  }

  // ---- tuning ----

  /** Tune changes the capacity if and only if the new one is positive and the pool is not preallocated. */
  lemma TuneIff(cfg: Config, size: nat, steps: seq<Step>, s: State, n: int) returns (s': State)
    requires Reached(cfg, size, steps, s)
    ensures Reached(cfg, size, steps + [System(Tune(n))], s')
    ensures s' == s.(capacity := if n > 0 && !cfg.preAlloc then n else s.capacity, peakCapacity := s'.peakCapacity)
  {
    RunKeeps(cfg, size, steps);
    s' := DoTune(cfg, s, n);
    ReachedOneMore(cfg, size, steps, s, System(Tune(n)));
  }
}
