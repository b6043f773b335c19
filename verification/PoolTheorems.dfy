/** What the invariant means for every run of the pool, said without its histories. */
module PoolTheorems {
  import opened Fifos
  import opened Options
  import opened Counting
  import opened Pools
  import opened PoolInvariants

  /** The state after a run that started from an empty pool of the given size. */
  ghost predicate Reached(cfg: Config, size: nat, steps: seq<Step>, s: State) {
    size >= 1 && Run(cfg, Init(size), steps) == Some(s)
  }

  // ---- exactly-once execution ----

  ghost function Carriers(s: State, t: nat): set<nat> {
    set w | w in s.channels && Task(t) in s.channels[w]
  }

  ghost function Runners(s: State, t: nat): set<nat> {
    set w | w in s.goroutines && s.goroutines[w] == Running(t)
  }

  lemma SingleMessages(cfg: Config, s: State)
    requires Inv(cfg, s)
    ensures forall w :: |s.Chan(w)| <= WORKER_CHAN_CAP
  {
    forall w ensures |s.Chan(w)| <= WORKER_CHAN_CAP {
      assert WorkerKnown(s, w);
    }
  }

  /** The recorded place of a task is where it is. */
  lemma PlaceIsRight(cfg: Config, s: State, t: nat, w: nat)
    requires Inv(cfg, s)
    ensures w in Carriers(s, t) <==> t in s.place && s.place[t] == InChannel(w)
    ensures w in Runners(s, t) <==> t in s.place && s.place[t] == On(w)
  {
    SingleMessages(cfg, s);
    assert TaskOk(s, t) && LoadOk(s, w) && |s.Chan(w)| <= 1;
  }

  lemma PlaceCounts(cfg: Config, s: State, t: nat)
    requires Inv(cfg, s)
    ensures |Carriers(s, t)| == One(t in s.place && s.place[t].InChannel?)
    ensures |Runners(s, t)| == One(t in s.place && s.place[t].On?)
  {
    forall w: nat ensures (w in Carriers(s, t) <==> t in s.place && s.place[t] == InChannel(w))
                       && (w in Runners(s, t) <==> t in s.place && s.place[t] == On(w)) {
      PlaceIsRight(cfg, s, t, w);
    }
    assert Carriers(s, t) == if t in s.place && s.place[t].InChannel? then {s.place[t].w} else {};
    assert Runners(s, t) == if t in s.place && s.place[t].On? then {s.place[t].w} else {};
  }

  /** A task is in one channel, or being run by one worker, or has been run once, if Submit accepted it, and
      nowhere otherwise; no channel ever carries two messages. */
  lemma ExactlyOnce(cfg: Config, size: nat, steps: seq<Step>, s: State, t: nat)
    requires Reached(cfg, size, steps, s)
    ensures |Carriers(s, t)| + |Runners(s, t)| + s.executed[t] == One(s.At(t, Accepted))
    ensures forall w :: |s.Chan(w)| <= WORKER_CHAN_CAP
  {
    RunKeeps(cfg, size, steps);
    SingleMessages(cfg, s);
    PlaceCounts(cfg, s, t);
    assert TaskOk(s, t);
  }

  // ---- every accepted task can be run ----

  /** Steps of worker w alone. */
  predicate OfWorker(steps: seq<Step>, w: nat) {
    forall i :: 0 <= i < |steps| ==> steps[i].Work? && steps[i].worker == w
  }

  lemma ReachedOneMore(cfg: Config, size: nat, steps: seq<Step>, s: State, step: Step)
    requires Reached(cfg, size, steps, s) && Enabled(s, step)
    ensures Reached(cfg, size, steps + [step], Apply(cfg, s, step))
  {
    assert (steps + [step])[..|steps|] == steps;
  }

  /** Where the task of an accepted call is: with a worker that is about to receive it, with one that runs it, or
      nowhere, because it has been run. */
  lemma WhereTaskIs(cfg: Config, s: State, t: nat)
    requires Inv(cfg, s) && s.At(t, Accepted)
    ensures t in s.place
    ensures match s.place[t]
            case InChannel(w) => s.Does(w, AtReceive) && s.Chan(w) == [Task(t)]
            case On(w) => s.Does(w, Running(t))
            case Finished => s.executed[t] == 1
  {
    assert TaskOk(s, t);
    if s.place[t].InChannel? {
      assert WorkerKnown(s, s.place[t].w);
    }
  }

  lemma RunningTaskEnds(cfg: Config, size: nat, steps: seq<Step>, s: State, t: nat, w: nat)
    returns (step: Step, s': State)
    requires Reached(cfg, size, steps, s) && s.Does(w, Running(t)) && s.executed[t] == 0
    ensures step == Work(w, EndTask(false))
    ensures Reached(cfg, size, steps + [step], s') && s'.executed[t] == 1
  {
    step, s' := Work(w, EndTask(false)), DoEndTask(s, w, t, false);
    ReachedOneMore(cfg, size, steps, s, step);
  }

  lemma TaskIsReceived(cfg: Config, size: nat, steps: seq<Step>, s: State, t: nat, w: nat)
    returns (step: Step, s': State)
    requires Reached(cfg, size, steps, s) && s.Does(w, AtReceive) && s.Chan(w) == [Task(t)]
    ensures step == Work(w, Receive)
    ensures Reached(cfg, size, steps + [step], s') && s'.Does(w, Running(t)) && s'.executed == s.executed
  {
    step, s' := Work(w, Receive), DoReceive(s, w);
    ReachedOneMore(cfg, size, steps, s, step);
  }

  /** No accepted task is stuck: whatever everybody else is doing, and whoever holds the lock, at most two steps of one
      worker are left until it has been run. */
  lemma AcceptedTaskCanRun(cfg: Config, size: nat, steps: seq<Step>, s: State, t: nat)
    returns (w: nat, more: seq<Step>, s': State)
    requires Reached(cfg, size, steps, s) && s.At(t, Accepted)
    ensures OfWorker(more, w) && |more| <= 2
    ensures Reached(cfg, size, steps + more, s') && s'.executed[t] == 1
  {
    RunKeeps(cfg, size, steps);
    WhereTaskIs(cfg, s, t);
    assert TaskOk(s, t);
    match s.place[t]
    case InChannel(w1) =>
      var first, s1 := TaskIsReceived(cfg, size, steps, s, t, w1);
      var second, s2 := RunningTaskEnds(cfg, size, steps + [first], s1, t, w1);
      w, more, s' := w1, [first, second], s2;
      assert steps + [first] + [second] == steps + more;
    case On(w1) =>
      var step, s1 := RunningTaskEnds(cfg, size, steps, s, t, w1);
      w, more, s' := w1, [step], s1;
    case Finished =>
      w, more, s' := 0, [], s;
      assert steps + [] == steps;
  }

  // ---- one owner per worker ----

  ghost function Users(s: State, w: nat): set<nat> {
    set t | t in s.submitters && Uses(s.submitters[t]) && s.submitters[t].w == w
  }

  /** The worker works for itself: it has a message to receive or is past its receive. */
  predicate Busy(s: State, w: nat) {
    w in s.goroutines && !s.goroutines[w].Starting? && (s.goroutines[w].AtReceive? ==> s.Chan(w) != [])
  }

  /** How many hold the worker: the queue (with multiplicity), calls, the purger, the cache, itself. */
  ghost function Owners(s: State, w: nat): nat {
    multiset(s.queue.contents)[w] + |Users(s, w)| + One(s.purger.Notifying? && w in s.purger.stale)
    + One(w in s.cache) + One(Busy(s, w))
  }

  lemma {:induction false} NoDuplicatesCount(q: seq<nat>, w: nat)
    requires NoDuplicates(q)
    ensures multiset(q)[w] == One(w in q)
  {
    if q != [] {
      var rest := q[..|q| - 1];
      NoDuplicatesCount(rest, w);
      assert q == rest + [q[|q| - 1]];
    }
  }

  /** Every worker with a goroutine has exactly one owner, and no worker ever has two. */
  lemma OneOwner(cfg: Config, size: nat, steps: seq<Step>, s: State, w: nat)
    requires Reached(cfg, size, steps, s)
    ensures Owners(s, w) <= 1
    ensures w in s.goroutines ==> Owners(s, w) == 1 && w !in s.cache
  {
    RunKeeps(cfg, size, steps);
    NoDuplicatesCount(s.queue.contents, w);
    assert OwnerOk(s, w) && WorkerKnown(s, w);
    forall t ensures t in Users(s, w) <==> w in s.owner && s.owner[w] == HeldBy(t) {
      assert UserOk(s, t);
    }
    if w in s.owner && s.owner[w].HeldBy? {
      assert Users(s, w) == {s.owner[w].t};
    } else {
      assert Users(s, w) == {};
    }
  }

  /** The running counter is the number of goroutines that have been counted and not discounted; an idle or
      stale worker, or one that a call holds, has an empty channel. */
  lemma CountersAndChannels(cfg: Config, size: nat, steps: seq<Step>, s: State)
    requires Reached(cfg, size, steps, s)
    ensures s.running == Count(s.goroutines, IsLive)
    ensures s.waiting == Count(s.submitters, IsWaiting)
    ensures forall w :: w in s.queue.contents ==> s.Chan(w) == [] && s.Does(w, AtReceive)
    ensures forall w :: s.purger.Notifying? && w in s.purger.stale ==> s.Chan(w) == [] && s.Does(w, AtReceive)
    ensures forall t :: t in s.submitters && s.submitters[t].Holding? ==> s.Chan(s.submitters[t].w) == []
  {
    RunKeeps(cfg, size, steps);
    forall w | w in s.queue.contents || (s.purger.Notifying? && w in s.purger.stale)
      ensures s.Chan(w) == [] && s.Does(w, AtReceive)
    {
      assert OwnerOk(s, w) && WorkerKnown(s, w);
    }
    forall t | t in s.submitters && s.submitters[t].Holding? ensures s.Chan(s.submitters[t].w) == [] {
      assert UserOk(s, t) && WorkerKnown(s, s.submitters[t].w);
    }
  }

  /** No channel send ever blocks: inputFunc, the purger's finish, and finish inside reset under the lock. */
  lemma NoSendBlocks(cfg: Config, size: nat, steps: seq<Step>, s: State)
    requires Reached(cfg, size, steps, s)
    ensures forall t :: t in s.submitters && s.submitters[t].Holding? ==> Enabled(s, Call(t, Input))
    ensures s.purger.Notifying? ==> forall w :: w in s.purger.stale ==> Enabled(s, System(Notify(w)))
    ensures s.releaser == Resetting && s.queue.contents != [] ==> Enabled(s, System(ResetOne))
  {
    CountersAndChannels(cfg, size, steps, s);
    assert s.queue.contents != [] ==> s.queue.contents[0] in s.queue.contents;
  }

  /** Whoever holds the lock can take a step, and at most one call is inside the lock. */
  lemma LockHolderMoves(cfg: Config, size: nat, steps: seq<Step>, s: State)
    requires Reached(cfg, size, steps, s)
    ensures s.lock == Some(ByReleaser) ==> Enabled(s, System(ResetOne)) || Enabled(s, System(ResetEnd))
    ensures s.lock.Some? && s.lock.value.BySubmitter? ==>
              exists call: CallStep :: !call.Submit? && Enabled(s, Call(s.lock.value.t, call))
    ensures forall t :: t in s.submitters && HoldsLock(s.submitters[t]) ==> s.lock == Some(BySubmitter(t))
  {
    RunKeeps(cfg, size, steps);
    NoSendBlocks(cfg, size, steps, s);
    forall t | t in s.submitters && HoldsLock(s.submitters[t]) ensures s.lock == Some(BySubmitter(t)) {
      assert CallOk(s, t);
    }
    if s.lock.Some? && s.lock.value.BySubmitter? {
      var t := s.lock.value.t;
      assert CallOk(s, t);
      var call := match s.submitters[t]
        case AtCap => ReadCap
        case AtRunning(_) => ReadRunning
        case AtOverload => ReadWaiting
        case AtWait => Wait
        case _ => CheckClosed;
      assert Enabled(s, Call(t, call));
    }
  }

  // ---- blocked calls ----

  /** No more calls block than the options allow; a negative limit or the nonblocking option allows none. */
  lemma WaitingBound(cfg: Config, size: nat, steps: seq<Step>, s: State)
    requires Reached(cfg, size, steps, s)
    ensures cfg.maxBlockingTasks > 0 ==> Count(s.submitters, IsWaiting) <= cfg.maxBlockingTasks
    ensures cfg.maxBlockingTasks < 0 || cfg.nonblocking ==> Count(s.submitters, IsWaiting) == 0
  {
    RunKeeps(cfg, size, steps);
  }

  // ---- overshoot ----

  /** At most n Submit calls were in flight in every state of the run. */
  ghost predicate FewInFlight(cfg: Config, s: State, steps: seq<Step>, n: nat) {
    && (Run(cfg, s, steps).Some? ==> Count(Run(cfg, s, steps).value.submitters, IsInFlight) <= n)
    && (steps != [] ==> FewInFlight(cfg, s, steps[..|steps| - 1], n))
  }

  ghost predicate Overshoot(s: State, n: nat) {
    s.running + Count(s.submitters, IsSpawning) <= s.peakCapacity - 1 + n
  }

  predicate Spawning(s: State, t: nat) {
    t in s.submitters && IsSpawning(s.submitters[t])
  }

  /** What a call's step changes: its own position, and together running and the pending spawns never grow, except
      that reading a running counter below the capacity starts a spawn. */
  ghost predicate CallChange(s: State, s': State, t: nat, step: CallStep) {
    && t in s'.submitters && s'.submitters == s.submitters[t := s'.submitters[t]]
    && s'.capacity == s.capacity && s'.peakCapacity == s.peakCapacity
    && s'.closed == s.closed && s'.releaser == s.releaser && s'.queue.size == s.queue.size
    && (step.ReadRunning? || s'.running + One(Spawning(s', t)) <= s.running + One(Spawning(s, t)))
  }

  lemma RetryFields(s: State, t: nat, step: CallStep)
    requires t in s.submitters && !IsSpawning(s.submitters[t])
    ensures CallChange(s, DoRetry(s, t), t, step)
  {
    if s.queue.contents == [] {
      assert DoRetry(s, t).submitters[t] == AtCap;
    } else {
      assert DoRetry(s, t).submitters[t] == Holding(s.queue.contents[0]);
    }
  }

  lemma MoveFields(s: State, t: nat, lock: Option<Holder>, waiting: int, p: Submitter, step: CallStep)
    requires t in s.submitters && !IsSpawning(s.submitters[t]) && (IsSpawning(p) ==> step.ReadRunning?)
    ensures CallChange(s, s.Move(t, lock, waiting, p), t, step)
  {
    assert s.Move(t, lock, waiting, p).submitters[t] == p;
  }

  lemma LockedCallFields(cfg: Config, s: State, t: nat, step: CallStep)
    requires CallEnabled(s, t, step)
    requires step.Retrieve? || step.ReadCap? || step.ReadRunning? || step.ReadWaiting? || step.Wait?
          || step.CheckClosed?
    ensures CallChange(s, ApplyCall(cfg, s, t, step), t, step)
  {
    match step
    case Retrieve => RetryFields(s, t, step);
    case ReadCap => MoveFields(s, t, s.lock, s.waiting, AtRunning(s.capacity), step);
    case ReadRunning =>
      MoveFields(s, t, None, s.waiting, Spawn, step);
      MoveFields(s, t, s.lock, s.waiting, AtOverload, step);
    case ReadWaiting =>
      MoveFields(s, t, None, s.waiting, Rejected(PoolOverload), step);
      MoveFields(s, t, s.lock, s.waiting, AtWait, step);
    case Wait => MoveFields(s, t, None, s.waiting + 1, Sleeping, step);
    case CheckClosed =>
      RetryFields(s, t, step);
      MoveFields(s, t, None, s.waiting, Rejected(PoolClosed), step);
    case _ =>
  }

  lemma CallFields(cfg: Config, s: State, t: nat, step: CallStep)
    requires CallEnabled(s, t, step)
    ensures CallChange(s, ApplyCall(cfg, s, t, step), t, step)
  {
    match step
    case Submit => assert CallChange(s, DoSubmit(s, t), t, step);
    case Wake => assert CallChange(s, DoWake(s, t), t, step);
    case Relock => assert CallChange(s, DoRelock(s, t), t, step);
    case GetWorker(w) => assert CallChange(s, DoGetWorker(s, t, w), t, step);
    case CountWorker => assert CallChange(s, DoCountWorker(s, t, s.submitters[t].w), t, step);
    case Launch => assert CallChange(s, DoLaunch(s, t, s.submitters[t].w), t, step);
    case Input => assert CallChange(s, DoInput(s, t, s.submitters[t].w), t, step);
    case _ => LockedCallFields(cfg, s, t, step);
  }

  ghost predicate WorkChange(s: State, s': State) {
    && s'.submitters == s.submitters && s'.running <= s.running
    && s'.capacity == s.capacity && s'.peakCapacity == s.peakCapacity
    && s'.closed == s.closed && s'.releaser == s.releaser && s'.queue.size == s.queue.size
  }

  lemma WorkFields(s: State, w: nat, step: WorkerStep)
    requires WorkEnabled(s, w, step)
    ensures WorkChange(s, ApplyWork(s, w, step))
  {
    match step
    case Receive => assert WorkChange(s, DoReceive(s, w));
    case EndTask(panics) => assert WorkChange(s, DoEndTask(s, w, s.goroutines[w].task, panics));
    case RevertInsert => assert WorkChange(s, DoRevertInsert(s, w));
    case Recycle => assert WorkChange(s, DoRecycle(s, w));
    case _ =>
  }

  ghost predicate SystemChange(s: State, s': State, step: SystemStep) {
    && s'.submitters == s.submitters && s'.running == s.running
    && (step.Tune? || (s'.capacity == s.capacity && s'.peakCapacity == s.peakCapacity))
    && s.peakCapacity <= s'.peakCapacity
    && (s'.queue.size == s.queue.size || s'.queue.size == 0)
    && (s.closed && s.releaser == Released ==> s'.closed && s'.releaser == Released)
  }

  lemma SystemFields(cfg: Config, s: State, step: SystemStep)
    requires SystemEnabled(s, step)
    ensures SystemChange(s, ApplySystem(cfg, s, step), step)
  {
    match step
    case Purge(k) => assert SystemChange(s, DoPurge(s, k), step);
    case Notify(w) => assert SystemChange(s, DoNotify(s, w, s.purger.stale), step);
    case LockReset => assert SystemChange(s, DoLockReset(s), step);
    case ResetOne => assert SystemChange(s, DoResetOne(s), step);
    case ResetEnd => assert SystemChange(s, DoResetEnd(s), step);
    case Tune(size) => assert SystemChange(s, DoTune(cfg, s, size), step);
    case _ =>
  }

  lemma SpawnOvershoot(cfg: Config, s: State, t: nat, n: nat)
    requires Inv(cfg, s) && CallEnabled(s, t, ReadRunning) && Overshoot(s, n)
    requires Count(ApplyCall(cfg, s, t, ReadRunning).submitters, IsInFlight) <= n
    ensures Overshoot(ApplyCall(cfg, s, t, ReadRunning), n)
  {
    var cap := s.submitters[t].cap;
    var s' := DoReadRunning(s, t, cap);
    assert CallOk(s, t);
    if cap > s.running {
      CountAtMost(s'.submitters, IsSpawning, IsInFlight);
    } else {
      CountUpdate(s.submitters, t, AtOverload, IsSpawning);
    }
  }

  lemma CallOvershoot(cfg: Config, s: State, t: nat, step: CallStep, n: nat)
    requires Inv(cfg, s) && CallEnabled(s, t, step) && Overshoot(s, n)
    requires Count(ApplyCall(cfg, s, t, step).submitters, IsInFlight) <= n
    ensures Overshoot(ApplyCall(cfg, s, t, step), n)
  {
    if step.ReadRunning? {
      SpawnOvershoot(cfg, s, t, n);
    } else {
      CallFields(cfg, s, t, step);
      CountUpdate(s.submitters, t, ApplyCall(cfg, s, t, step).submitters[t], IsSpawning);
    }
  }

  lemma StepOvershoot(cfg: Config, s: State, step: Step, n: nat)
    requires Inv(cfg, s) && Enabled(s, step) && Overshoot(s, n)
    requires Count(Apply(cfg, s, step).submitters, IsInFlight) <= n
    ensures Overshoot(Apply(cfg, s, step), n)
  {
    match step
    case Call(t, call) => CallOvershoot(cfg, s, t, call, n);
    case Work(w, work) => WorkFields(s, w, work);
    case System(system) => SystemFields(cfg, s, system);
  }

  predicate NeverTuned(steps: seq<Step>) {
    forall i :: 0 <= i < |steps| ==> !(steps[i].System? && steps[i].system.Tune?)
  }

  lemma {:induction false} PeakWithoutTune(cfg: Config, size: nat, steps: seq<Step>, s: State)
    requires Reached(cfg, size, steps, s) && NeverTuned(steps)
    ensures s.capacity == s.peakCapacity == size
  {
    if steps != [] {
      var before := Run(cfg, Init(size), steps[..|steps| - 1]).value;
      PeakWithoutTune(cfg, size, steps[..|steps| - 1], before);
      match steps[|steps| - 1]
      case Call(t, call) => CallFields(cfg, before, t, call);
      case Work(w, work) => WorkFields(before, w, work);
      case System(system) => SystemFields(cfg, before, system);
    }
  }

  lemma {:induction false} OvershootKept(cfg: Config, size: nat, steps: seq<Step>, s: State, n: nat)
    requires n >= 1 && Reached(cfg, size, steps, s) && FewInFlight(cfg, Init(size), steps, n)
    ensures Overshoot(s, n)
  {
    if steps == [] {
      assert Members(s.submitters, IsSpawning) == {};
    } else {
      var before := Run(cfg, Init(size), steps[..|steps| - 1]).value;
      OvershootKept(cfg, size, steps[..|steps| - 1], before, n);
      RunKeeps(cfg, size, steps[..|steps| - 1]);
      StepOvershoot(cfg, before, steps[|steps| - 1], n);
    }
  }

  /** With at most n calls in flight the pool runs at most n - 1 workers more than its capacity (the largest it was
      tuned to); with one call at a time it stays within its capacity. */
  lemma BoundedOvershoot(cfg: Config, size: nat, steps: seq<Step>, s: State, n: nat)
    requires n >= 1 && Reached(cfg, size, steps, s) && FewInFlight(cfg, Init(size), steps, n)
    ensures s.running <= s.peakCapacity - 1 + n
    ensures NeverTuned(steps) ==> s.running <= size - 1 + n
  {
    OvershootKept(cfg, size, steps, s, n);
    if NeverTuned(steps) {
      PeakWithoutTune(cfg, size, steps, s);
    }
  }

  // ---- the pool at rest ----

  /** No Submit call is in flight, every worker that lives waits for a message, and the purger holds none. */
  ghost predicate AtRest(s: State) {
    && (forall t :: t in s.submitters ==> !IsInFlight(s.submitters[t]))
    && (forall w :: w in s.goroutines ==> s.goroutines[w] == AtReceive && s.Chan(w) == [])
    && !s.purger.Notifying?
  }

  lemma {:induction false} NoDuplicatesSize(q: seq<nat>, elements: set<nat>)
    requires NoDuplicates(q) && forall w: nat :: w in elements <==> w in q
    ensures |elements| == |q|
  {
    if q != [] {
      var rest, last := q[..|q| - 1], q[|q| - 1];
      assert q == rest + [last] && last !in rest;
      NoDuplicatesSize(rest, elements - {last});
    } else {
      assert elements == {};
    }
  }

  lemma RestingIsQueued(cfg: Config, s: State, w: nat)
    requires Inv(cfg, s) && AtRest(s)
    ensures w in s.goroutines <==> w in s.queue.contents
  {
    assert OwnerOk(s, w) && WorkerKnown(s, w);
  }

  lemma {:induction false} SlotsKept(cfg: Config, size: nat, steps: seq<Step>, s: State)
    requires Reached(cfg, size, steps, s)
    ensures s.queue.size == size || s.queue.size == 0
  {
    if steps != [] {
      var before := Run(cfg, Init(size), steps[..|steps| - 1]).value;
      SlotsKept(cfg, size, steps[..|steps| - 1], before);
      match steps[|steps| - 1]
      case Call(t, call) => CallFields(cfg, before, t, call);
      case Work(w, work) => WorkFields(before, w, work);
      case System(system) => SystemFields(cfg, before, system);
    }
  }

  /** At rest every accepted task has been run. */
  lemma RestingTask(cfg: Config, s: State, t: nat)
    requires Inv(cfg, s) && AtRest(s) && s.At(t, Accepted)
    ensures s.executed[t] == 1
  {
    WhereTaskIs(cfg, s, t);
  }

  /** An overshoot does not last: at rest the live workers are those in the queue, at most as many as it has slots, and
      every accepted task has been run. */
  lemma RestingPool(cfg: Config, size: nat, steps: seq<Step>, s: State)
    requires Reached(cfg, size, steps, s) && AtRest(s)
    ensures s.running == |s.queue.contents| <= size
    ensures forall t :: s.At(t, Accepted) ==> s.executed[t] == 1
  {
    RunKeeps(cfg, size, steps);
    forall t | s.At(t, Accepted) ensures s.executed[t] == 1 {
      RestingTask(cfg, s, t);
    }
    SlotsKept(cfg, size, steps, s);
    var live := Members(s.goroutines, IsLive);
    forall w: nat ensures w in live <==> w in s.queue.contents {
      RestingIsQueued(cfg, s, w);
    }
    NoDuplicatesSize(s.queue.contents, live);
  }

  // ---- release ----

  lemma StaysReleased(cfg: Config, s: State, step: Step)
    requires Enabled(s, step) && s.closed && s.releaser == Released
    ensures Apply(cfg, s, step).closed && Apply(cfg, s, step).releaser == Released
  {
    match step
    case Call(t, call) => CallFields(cfg, s, t, call);
    case Work(w, work) => WorkFields(s, w, work);
    case System(system) => SystemFields(cfg, s, system);
  }

  lemma {:induction false} ReleasedStays(cfg: Config, size: nat, steps: seq<Step>, more: seq<Step>, s: State)
    requires Run(cfg, Init(size), steps).Some? && Run(cfg, Init(size), steps).value.releaser == Released
    requires Reached(cfg, size, steps + more, s)
    ensures s.releaser == Released && s.closed
  {
    var all := steps + more;
    if more == [] {
      assert all == steps;
      RunKeeps(cfg, size, steps);
    } else {
      assert all[..|all| - 1] == steps + more[..|more| - 1];
      var before := Run(cfg, Init(size), all[..|all| - 1]).value;
      ReleasedStays(cfg, size, steps, more[..|more| - 1], before);
      StaysReleased(cfg, before, all[|all| - 1]);
    }
  }

  /** Once Release has returned, however the run goes on, no worker enters the queue again and none stays idle: one
      still waiting on an empty channel is about to be sent a message by the call or the purger that holds it. */
  lemma ReleasedStaysEmpty(cfg: Config, size: nat, steps: seq<Step>, more: seq<Step>, s: State)
    requires Run(cfg, Init(size), steps).Some? && Run(cfg, Init(size), steps).value.releaser == Released
    requires Reached(cfg, size, steps + more, s)
    ensures s.releaser == Released && s.closed && s.queue.contents == []
    ensures forall w :: s.Does(w, AtReceive) && s.Chan(w) == [] ==>
              Users(s, w) != {} || (s.purger.Notifying? && w in s.purger.stale)
  {
    ReleasedStays(cfg, size, steps, more, s);
    RunKeeps(cfg, size, steps + more);
    NoneIdle(cfg, s);
  }

  lemma NoneIdle(cfg: Config, s: State)
    requires Inv(cfg, s) && s.queue.contents == []
    ensures forall w :: s.Does(w, AtReceive) && s.Chan(w) == [] ==>
              Users(s, w) != {} || (s.purger.Notifying? && w in s.purger.stale)
  {
    forall w | s.Does(w, AtReceive) && s.Chan(w) == []
      ensures Users(s, w) != {} || (s.purger.Notifying? && w in s.purger.stale)
    {
      assert OwnerOk(s, w) && WorkerKnown(s, w);
      if s.owner[w].HeldBy? {
        assert s.owner[w].t in Users(s, w);
      }
    }
  }
}
