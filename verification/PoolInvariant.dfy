/** What every step of the pool keeps. */
module PoolInvariants {
  import opened Fifos
  import opened Options
  import opened Counting
  import opened Pools

  // ---- who is counted ----

  predicate HoldsLock(p: Submitter) {
    p.AtCap? || p.AtRunning? || p.AtOverload? || p.AtWait? || p.AtClosedCheck?
  }

  predicate IsWaiting(p: Submitter) {
    p.Sleeping? || p.Woken?
  }

  predicate IsInFlight(p: Submitter) {
    !p.Accepted? && !p.Rejected?
  }

  predicate IsSpawning(p: Submitter) {
    p.Spawn? || p.Got?
  }

  predicate IsLive(g: Goroutine) {
    !g.Exited?
  }

  predicate Uses(p: Submitter) {
    p.Got? || p.Counted? || p.Holding?
  }

  ghost predicate NoDuplicates(q: seq<nat>) {
    forall i, j :: 0 <= i < j < |q| ==> q[i] != q[j]
  }

  // ---- the invariant ----

  /** What the owner of a worker says about where the worker is. */
  ghost predicate OwnerOk(s: State, w: nat) {
    && (w in s.queue.contents <==> w in s.owner && s.owner[w] == InQueue)
    && (s.purger.Notifying? && w in s.purger.stale <==> w in s.owner && s.owner[w] == Stale)
    && (w in s.cache <==> w in s.owner && s.owner[w] == Cached)
    && (w in s.owner && s.owner[w].HeldBy? ==>
          var t := s.owner[w].t; t in s.submitters && Uses(s.submitters[t]) && s.submitters[t].w == w)
  }

  ghost predicate UserOk(s: State, t: nat) {
    t in s.submitters && Uses(s.submitters[t]) ==>
      s.submitters[t].w in s.owner && s.owner[s.submitters[t].w] == HeldBy(t)
  }

  /** The state of a worker's goroutine and channel, given its owner. */
  ghost predicate WorkerOk(s: State, w: nat)
    requires w in s.owner
  {
    match s.owner[w]
    case InQueue => s.Does(w, AtReceive) && s.Chan(w) == []
    case Stale => s.Does(w, AtReceive) && s.Chan(w) == []
    case HeldBy(t) =>
      && s.Chan(w) == []
      && t in s.submitters
      && (s.submitters[t].Got? ==> w !in s.goroutines)
      && (s.submitters[t].Counted? ==> s.Does(w, Starting))
      && (s.submitters[t].Holding? ==> s.Does(w, AtReceive))
    case Cached => w !in s.goroutines && s.Chan(w) == []
    case Self =>
      && w in s.goroutines && s.goroutines[w] != Starting
      && |s.Chan(w)| == One(s.goroutines[w] == AtReceive)
  }

  ghost predicate WorkerKnown(s: State, w: nat) {
    if w in s.owner then WorkerOk(s, w) else w !in s.goroutines && s.Chan(w) == []
  }

  /** A task on a worker's channel, or run by its goroutine, is recorded there. */
  ghost predicate LoadOk(s: State, w: nat) {
    && (s.Chan(w) != [] && s.Chan(w)[0].Task? ==>
          var t := s.Chan(w)[0].id; t in s.place && s.place[t] == InChannel(w))
    && (w in s.goroutines && s.goroutines[w].Running? ==>
          var t := s.goroutines[w].task; t in s.place && s.place[t] == On(w))
  }

  ghost predicate TaskOk(s: State, t: nat) {
    && (t in s.place <==> s.At(t, Accepted))
    && (t in s.place && s.place[t].InChannel? ==> s.Chan(s.place[t].w) == [Task(t)])
    && (t in s.place && s.place[t].On? ==> s.Does(s.place[t].w, Running(t)))
    && s.executed[t] == One(t in s.place && s.place[t] == Finished)
  }

  ghost predicate RefInv(s: State) {
    NoDuplicates(s.queue.contents) && forall i :: OwnerOk(s, i) && UserOk(s, i)
  }

  ghost predicate WorkerInv(s: State) {
    forall w :: WorkerKnown(s, w)
  }

  ghost predicate TaskInv(s: State) {
    forall i :: LoadOk(s, i) && TaskOk(s, i)
  }

  ghost predicate WorkInv(s: State) {
    RefInv(s) && WorkerInv(s) && TaskInv(s)
  }

  /** What a call's position says about the lock and the capacity it has read. */
  ghost predicate CallOk(s: State, t: nat) {
    t in s.submitters ==>
      && (HoldsLock(s.submitters[t]) <==> s.lock == Some(BySubmitter(t)))
      && (s.submitters[t].AtRunning? ==> 1 <= s.submitters[t].cap <= s.peakCapacity)
  }

  /** The lock is held by a call that has been admitted to wait. */
  ghost predicate AboutToWait(s: State) {
    s.lock.Some? && s.lock.value.BySubmitter? && s.At(s.lock.value.t, AtWait)
  }

  ghost predicate WaitBound(cfg: Config, s: State) {
    && (cfg.maxBlockingTasks > 0 ==> s.waiting + One(AboutToWait(s)) <= cfg.maxBlockingTasks)
    && (cfg.nonblocking || cfg.maxBlockingTasks < 0 ==> s.waiting + One(AboutToWait(s)) == 0)
  }

  ghost predicate ControlInv(cfg: Config, s: State) {
    && (forall t :: CallOk(s, t))
    && (s.lock.Some? && s.lock.value.BySubmitter? ==> s.lock.value.t in s.submitters)
    && (s.lock == Some(ByReleaser) <==> s.releaser == Resetting)
    && (s.closed <==> s.releaser != NotReleased)
    && 1 <= s.capacity <= s.peakCapacity
    && s.waiting == Count(s.submitters, IsWaiting)
    && WaitBound(cfg, s)
  }

  ghost predicate QueueInv(s: State) {
    s.queue.Bounded() && (s.releaser == Released ==> s.queue.contents == [])
  }

  ghost predicate RunningInv(s: State) {
    s.running == Count(s.goroutines, IsLive)
  }

  ghost predicate Inv(cfg: Config, s: State) {
    WorkInv(s) && ControlInv(cfg, s) && QueueInv(s) && RunningInv(s)
  }

  lemma InitInv(cfg: Config, size: nat)
    requires size >= 1
    ensures Inv(cfg, Init(size))
  {
  }

  // ---- what a step that touches little keeps ----

  ghost predicate SameUses(s: State, s': State) {
    && s'.queue.contents == s.queue.contents && s'.cache == s.cache && s'.owner == s.owner
    && (forall t :: (t in s'.submitters && Uses(s'.submitters[t])) == (t in s.submitters && Uses(s.submitters[t])))
    && (forall t :: t in s'.submitters && Uses(s'.submitters[t]) ==> s'.submitters[t].w == s.submitters[t].w)
    && (forall w :: (s'.purger.Notifying? && w in s'.purger.stale) == (s.purger.Notifying? && w in s.purger.stale))
  }

  lemma RefFrame(s: State, s': State)
    requires RefInv(s) && SameUses(s, s')
    ensures RefInv(s')
  {
    forall i ensures OwnerOk(s', i) && UserOk(s', i) {
      assert OwnerOk(s, i) && UserOk(s, i);
    }
  }

  ghost predicate SameTasks(s: State, s': State) {
    && s'.place == s.place && s'.executed == s.executed
    && (forall w :: s'.Chan(w) == s.Chan(w))
    && (forall w, t :: s'.Does(w, Running(t)) == s.Does(w, Running(t)))
    && (forall t :: s'.At(t, Accepted) == s.At(t, Accepted))
  }

  lemma TaskFrame(s: State, s': State)
    requires TaskInv(s) && SameTasks(s, s')
    ensures TaskInv(s')
  {
    forall i ensures LoadOk(s', i) && TaskOk(s', i) {
      assert LoadOk(s, i) && TaskOk(s, i);
      if i in s'.goroutines && s'.goroutines[i].Running? {
        assert s'.Does(i, Running(s'.goroutines[i].task));
      }
    }
  }

  /** A call moves between points where it uses no worker and has not sent its task. */
  lemma MoveWork(s: State, t: nat, lock: Option<Holder>, waiting: int, p: Submitter)
    requires WorkInv(s) && !Uses(p) && !p.Accepted?
    requires t in s.submitters ==> !Uses(s.submitters[t]) && !s.submitters[t].Accepted?
    ensures WorkInv(s.Move(t, lock, waiting, p))
  {
    var s' := s.Move(t, lock, waiting, p);
    RefFrame(s, s');
    TaskFrame(s, s');
    forall w ensures WorkerKnown(s', w) {
      assert WorkerKnown(s, w) && OwnerOk(s, w);
    }
  }

  predicate IsBusy(g: Goroutine) {
    !g.Starting? && !g.AtReceive?
  }

  /** A goroutine moves between points past its task and before its next receive. */
  lemma GoroutineMoves(s: State, s': State, w: nat, g: Goroutine)
    requires WorkInv(s) && w in s.goroutines && s'.goroutines == s.goroutines[w := g]
    requires s'.queue == s.queue && s'.submitters == s.submitters && s'.channels == s.channels && s'.cache == s.cache
    requires s'.purger == s.purger && s'.owner == s.owner && s'.place == s.place && s'.executed == s.executed
    requires IsBusy(s.goroutines[w]) && !s.goroutines[w].Running? && IsBusy(g) && !g.Running?
    ensures WorkInv(s')
  {
    RefFrame(s, s');
    TaskFrame(s, s');
    forall i ensures WorkerKnown(s', i) {
      assert WorkerKnown(s, i);
    }
  }

  /** No call and no worker changes. */
  ghost predicate SameWork(s: State, s': State) {
    && s'.submitters == s.submitters && s'.goroutines == s.goroutines && s'.channels == s.channels
    && s'.cache == s.cache && s'.owner == s.owner && s'.place == s.place && s'.executed == s.executed
    && s'.queue.contents == s.queue.contents
    && (s'.purger == s.purger || (!s'.purger.Notifying? && (s.purger.Notifying? ==> s.purger.stale == {})))
  }

  lemma OtherWork(s: State, s': State)
    requires WorkInv(s) && SameWork(s, s')
    ensures WorkInv(s')
  {
    RefFrame(s, s');
    TaskFrame(s, s');
    forall i ensures WorkerKnown(s', i) {
      assert WorkerKnown(s, i);
    }
  }

  // ---- owners ----

  lemma RetryRefs(s: State, t: nat)
    requires RefInv(s) && s.queue.contents != []
    requires t in s.submitters && !Uses(s.submitters[t])
    ensures RefInv(DoRetry(s, t))
  {
    var w := s.queue.contents[0];
    assert OwnerOk(s, w);
    forall i ensures OwnerOk(DoRetry(s, t), i) && UserOk(DoRetry(s, t), i) {
      assert OwnerOk(s, i) && UserOk(s, i);
      assert i in s.queue.contents <==> i == w || i in s.queue.contents[1..];
    }
  }

  lemma GetRefs(s: State, t: nat, w: nat)
    requires RefInv(s) && s.At(t, Spawn) && (w in s.cache || w !in s.owner)
    ensures RefInv(DoGetWorker(s, t, w))
  {
    assert OwnerOk(s, w);
    forall i ensures OwnerOk(DoGetWorker(s, t, w), i) && UserOk(DoGetWorker(s, t, w), i) {
      assert OwnerOk(s, i) && UserOk(s, i);
    }
  }

  lemma InputRefs(s: State, t: nat, w: nat)
    requires RefInv(s) && s.At(t, Holding(w))
    ensures RefInv(DoInput(s, t, w))
  {
    assert UserOk(s, t) && OwnerOk(s, w);
    forall i ensures OwnerOk(DoInput(s, t, w), i) && UserOk(DoInput(s, t, w), i) {
      assert OwnerOk(s, i) && UserOk(s, i);
    }
  }

  lemma InsertRefs(s: State, w: nat)
    requires RefInv(s) && w in s.owner && s.owner[w] == Self
    requires !s.closed && s.queue.Insert(w).1 == Inserted
    ensures RefInv(DoRevertInsert(s, w))
  {
    assert OwnerOk(s, w);
    forall i ensures OwnerOk(DoRevertInsert(s, w), i) && UserOk(DoRevertInsert(s, w), i) {
      assert OwnerOk(s, i) && UserOk(s, i);
    }
  }

  lemma RecycleRefs(s: State, w: nat)
    requires RefInv(s) && w in s.owner && s.owner[w] == Self
    ensures RefInv(DoRecycle(s, w))
  {
    assert OwnerOk(s, w);
    forall i ensures OwnerOk(DoRecycle(s, w), i) && UserOk(DoRecycle(s, w), i) {
      assert OwnerOk(s, i) && UserOk(s, i);
    }
  }

  lemma PurgeRefs(s: State, k: nat)
    requires RefInv(s) && s.purger == PurgerTicked && k <= |s.queue.contents|
    ensures RefInv(DoPurge(s, k))
  {
    var q := s.queue.contents;
    forall i ensures OwnerOk(DoPurge(s, k), i) && UserOk(DoPurge(s, k), i) {
      assert OwnerOk(s, i) && UserOk(s, i);
      assert q == q[..k] + q[k..];
      assert !(i in q[..k] && i in q[k..]);
      if i in s.submitters && Uses(s.submitters[i]) {
        assert OwnerOk(s, s.submitters[i].w);
      }
    }
  }

  lemma NotifyRefs(s: State, w: nat)
    requires RefInv(s) && s.purger.Notifying? && w in s.purger.stale
    ensures RefInv(DoNotify(s, w, s.purger.stale))
  {
    assert OwnerOk(s, w);
    forall i ensures OwnerOk(DoNotify(s, w, s.purger.stale), i) && UserOk(DoNotify(s, w, s.purger.stale), i) {
      assert OwnerOk(s, i) && UserOk(s, i);
    }
  }

  lemma ResetRefs(s: State)
    requires RefInv(s) && s.queue.contents != []
    ensures RefInv(DoResetOne(s))
  {
    var w := s.queue.contents[0];
    assert OwnerOk(s, w);
    forall i ensures OwnerOk(DoResetOne(s), i) && UserOk(DoResetOne(s), i) {
      assert OwnerOk(s, i) && UserOk(s, i);
      assert i in s.queue.contents <==> i == w || i in s.queue.contents[1..];
    }
  }

  // ---- goroutines and channels ----

  lemma RetryWorkers(s: State, t: nat)
    requires RefInv(s) && WorkerInv(s) && s.queue.contents != []
    requires t in s.submitters && !Uses(s.submitters[t])
    ensures WorkerInv(DoRetry(s, t))
  {
    assert OwnerOk(s, s.queue.contents[0]);
    forall i ensures WorkerKnown(DoRetry(s, t), i) {
      assert WorkerKnown(s, i) && OwnerOk(s, i);
    }
  }

  lemma GetWorkers(s: State, t: nat, w: nat)
    requires RefInv(s) && WorkerInv(s) && s.At(t, Spawn) && (w in s.cache || w !in s.owner)
    ensures WorkerInv(DoGetWorker(s, t, w))
  {
    assert OwnerOk(s, w);
    forall i ensures WorkerKnown(DoGetWorker(s, t, w), i) {
      assert WorkerKnown(s, i) && OwnerOk(s, i);
    }
  }

  lemma CountWorkers(s: State, t: nat, w: nat)
    requires RefInv(s) && WorkerInv(s) && s.At(t, Got(w))
    ensures WorkerInv(DoCountWorker(s, t, w))
  {
    assert UserOk(s, t);
    forall i ensures WorkerKnown(DoCountWorker(s, t, w), i) {
      assert WorkerKnown(s, i) && OwnerOk(s, i);
    }
  }

  lemma LaunchWorkers(s: State, t: nat, w: nat)
    requires RefInv(s) && WorkerInv(s) && s.At(t, Counted(w))
    ensures WorkerInv(DoLaunch(s, t, w))
  {
    assert UserOk(s, t);
    forall i ensures WorkerKnown(DoLaunch(s, t, w), i) {
      assert WorkerKnown(s, i) && OwnerOk(s, i);
    }
  }

  lemma InputWorkers(s: State, t: nat, w: nat)
    requires RefInv(s) && WorkerInv(s) && s.At(t, Holding(w))
    ensures WorkerInv(DoInput(s, t, w))
  {
    assert UserOk(s, t);
    forall i ensures WorkerKnown(DoInput(s, t, w), i) {
      assert WorkerKnown(s, i) && OwnerOk(s, i);
    }
  }

  lemma ReceiveWorkers(s: State, w: nat)
    requires WorkerInv(s) && s.Does(w, AtReceive) && s.Chan(w) != []
    ensures WorkerInv(DoReceive(s, w))
  {
    assert WorkerKnown(s, w);
    var s' := DoReceive(s, w);
    assert s'.Chan(w) == [] && s'.owner == s.owner && s'.submitters == s.submitters;
    assert w in s'.goroutines && IsBusy(s'.goroutines[w]);
    forall i | i != w ensures WorkerKnown(s', i) {
      assert WorkerKnown(s, i) && s'.Chan(i) == s.Chan(i);
      assert (i in s'.goroutines) == (i in s.goroutines);
      assert i in s.goroutines ==> s'.goroutines[i] == s.goroutines[i];
    }
  }

  lemma EndWorkers(s: State, w: nat, t: nat, panics: bool)
    requires WorkerInv(s) && s.Does(w, Running(t))
    ensures WorkerInv(DoEndTask(s, w, t, panics))
  {
    forall i ensures WorkerKnown(DoEndTask(s, w, t, panics), i) {
      assert WorkerKnown(s, i);
    }
  }

  lemma InsertWorkers(s: State, w: nat)
    requires RefInv(s) && WorkerInv(s) && s.Does(w, AtInsert)
    requires !s.closed && s.queue.Insert(w).1 == Inserted
    ensures WorkerInv(DoRevertInsert(s, w))
  {
    assert WorkerKnown(s, w);
    forall i ensures WorkerKnown(DoRevertInsert(s, w), i) {
      assert WorkerKnown(s, i) && OwnerOk(s, i);
    }
  }

  lemma RecycleWorkers(s: State, w: nat)
    requires RefInv(s) && WorkerInv(s) && s.Does(w, Exited)
    ensures WorkerInv(DoRecycle(s, w))
  {
    assert WorkerKnown(s, w);
    forall i ensures WorkerKnown(DoRecycle(s, w), i) {
      assert WorkerKnown(s, i) && OwnerOk(s, i);
    }
  }

  lemma PurgeWorkers(s: State, k: nat)
    requires RefInv(s) && WorkerInv(s) && k <= |s.queue.contents|
    ensures WorkerInv(DoPurge(s, k))
  {
    forall i ensures WorkerKnown(DoPurge(s, k), i) {
      assert WorkerKnown(s, i) && OwnerOk(s, i);
    }
  }

  lemma NotifyWorkers(s: State, w: nat)
    requires RefInv(s) && WorkerInv(s) && s.purger.Notifying? && w in s.purger.stale
    ensures WorkerInv(DoNotify(s, w, s.purger.stale))
  {
    assert OwnerOk(s, w) && WorkerKnown(s, w);
    forall i ensures WorkerKnown(DoNotify(s, w, s.purger.stale), i) {
      assert WorkerKnown(s, i) && OwnerOk(s, i);
    }
  }

  lemma ResetWorkers(s: State)
    requires RefInv(s) && WorkerInv(s) && s.queue.contents != []
    ensures WorkerInv(DoResetOne(s))
  {
    var w := s.queue.contents[0];
    assert OwnerOk(s, w) && WorkerKnown(s, w);
    forall i ensures WorkerKnown(DoResetOne(s), i) {
      assert WorkerKnown(s, i) && OwnerOk(s, i);
    }
  }

  // ---- tasks ----

  lemma InputTasks(s: State, t: nat, w: nat)
    requires TaskInv(s) && s.At(t, Holding(w)) && s.Chan(w) == []
    ensures TaskInv(DoInput(s, t, w))
  {
    assert TaskOk(s, t);
    forall i ensures LoadOk(DoInput(s, t, w), i) && TaskOk(DoInput(s, t, w), i) {
      assert LoadOk(s, i) && TaskOk(s, i);
    }
  }

  lemma ReceiveTasks(s: State, w: nat)
    requires TaskInv(s) && s.Does(w, AtReceive) && |s.Chan(w)| == 1
    ensures TaskInv(DoReceive(s, w))
  {
    assert LoadOk(s, w);
    forall i ensures LoadOk(DoReceive(s, w), i) && TaskOk(DoReceive(s, w), i) {
      assert LoadOk(s, i) && TaskOk(s, i);
    }
  }

  lemma EndTasks(s: State, w: nat, t: nat, panics: bool)
    requires TaskInv(s) && s.Does(w, Running(t))
    ensures TaskInv(DoEndTask(s, w, t, panics))
  {
    assert LoadOk(s, w);
    forall i ensures LoadOk(DoEndTask(s, w, t, panics), i) && TaskOk(DoEndTask(s, w, t, panics), i) {
      assert LoadOk(s, i) && TaskOk(s, i);
    }
  }

  lemma StopTasks(s: State, s': State, w: nat)
    requires TaskInv(s) && s.Chan(w) == [] && s'.channels == s.channels[w := [Stop]]
    requires s'.goroutines == s.goroutines && s'.submitters == s.submitters
    requires s'.place == s.place && s'.executed == s.executed
    ensures TaskInv(s')
  {
    forall i ensures LoadOk(s', i) && TaskOk(s', i) {
      assert LoadOk(s, i) && TaskOk(s, i);
    }
  }

  // ---- every step ----

  predicate IsQuiet(step: CallStep) {
    !step.Retrieve? && !step.CheckClosed? && !step.GetWorker? && !step.CountWorker? && !step.Launch? && !step.Input?
  }

  lemma QuietCallWork(cfg: Config, s: State, t: nat, step: CallStep)
    requires WorkInv(s) && CallEnabled(s, t, step) && IsQuiet(step)
    ensures WorkInv(ApplyCall(cfg, s, t, step))
  {
    match step
    case Submit => MoveWork(s, t, s.lock, s.waiting, if s.closed then Rejected(PoolClosed) else WantLock);
    case ReadCap => MoveWork(s, t, s.lock, s.waiting, AtRunning(s.capacity));
    case ReadRunning =>
      MoveWork(s, t, None, s.waiting, Spawn);
      MoveWork(s, t, s.lock, s.waiting, AtOverload);
    case ReadWaiting =>
      MoveWork(s, t, None, s.waiting, Rejected(PoolOverload));
      MoveWork(s, t, s.lock, s.waiting, AtWait);
    case Wait => MoveWork(s, t, None, s.waiting + 1, Sleeping);
    case Wake => MoveWork(s, t, s.lock, s.waiting, Woken);
    case Relock => MoveWork(s, t, Some(BySubmitter(t)), s.waiting - 1, AtClosedCheck);
    case _ =>
  }

  lemma RetryWork(s: State, t: nat)
    requires WorkInv(s) && t in s.submitters && !Uses(s.submitters[t]) && !s.submitters[t].Accepted?
    ensures WorkInv(DoRetry(s, t))
  {
    if s.queue.contents == [] {
      MoveWork(s, t, Some(BySubmitter(t)), s.waiting, AtCap);
    } else {
      RetryRefs(s, t);
      RetryWorkers(s, t);
      TaskFrame(s, DoRetry(s, t));
    }
  }

  lemma GetWork(s: State, t: nat, w: nat)
    requires WorkInv(s) && s.At(t, Spawn) && (w in s.cache || w !in s.owner)
    ensures WorkInv(DoGetWorker(s, t, w))
  {
    GetRefs(s, t, w);
    GetWorkers(s, t, w);
    TaskFrame(s, DoGetWorker(s, t, w));
  }

  lemma CountWork(s: State, t: nat, w: nat)
    requires WorkInv(s) && s.At(t, Got(w))
    ensures WorkInv(DoCountWorker(s, t, w))
  {
    assert UserOk(s, t) && WorkerKnown(s, w);
    RefFrame(s, DoCountWorker(s, t, w));
    CountWorkers(s, t, w);
    TaskFrame(s, DoCountWorker(s, t, w));
  }

  lemma LaunchWork(s: State, t: nat, w: nat)
    requires WorkInv(s) && s.At(t, Counted(w))
    ensures WorkInv(DoLaunch(s, t, w))
  {
    assert UserOk(s, t) && WorkerKnown(s, w);
    RefFrame(s, DoLaunch(s, t, w));
    LaunchWorkers(s, t, w);
    TaskFrame(s, DoLaunch(s, t, w));
  }

  lemma InputWork(s: State, t: nat, w: nat)
    requires WorkInv(s) && s.At(t, Holding(w))
    ensures WorkInv(DoInput(s, t, w))
  {
    assert UserOk(s, t) && WorkerKnown(s, w);
    InputRefs(s, t, w);
    InputWorkers(s, t, w);
    InputTasks(s, t, w);
  }

  lemma CallWork(cfg: Config, s: State, t: nat, step: CallStep)
    requires WorkInv(s) && CallEnabled(s, t, step)
    ensures WorkInv(ApplyCall(cfg, s, t, step))
  {
    match step
    case Retrieve => RetryWork(s, t);
    case CheckClosed =>
      RetryWork(s, t);
      MoveWork(s, t, None, s.waiting, Rejected(PoolClosed));
    case GetWorker(w) => GetWork(s, t, w);
    case CountWorker => CountWork(s, t, s.submitters[t].w);
    case Launch => LaunchWork(s, t, s.submitters[t].w);
    case Input => InputWork(s, t, s.submitters[t].w);
    case _ => QuietCallWork(cfg, s, t, step);
  }

  lemma ReceiveWork(s: State, w: nat)
    requires WorkInv(s) && s.Does(w, AtReceive) && s.Chan(w) != []
    ensures WorkInv(DoReceive(s, w))
  {
    assert WorkerKnown(s, w);
    RefFrame(s, DoReceive(s, w));
    ReceiveWorkers(s, w);
    ReceiveTasks(s, w);
  }

  lemma EndWork(s: State, w: nat, t: nat, panics: bool)
    requires WorkInv(s) && s.Does(w, Running(t))
    ensures WorkInv(DoEndTask(s, w, t, panics))
  {
    RefFrame(s, DoEndTask(s, w, t, panics));
    EndWorkers(s, w, t, panics);
    EndTasks(s, w, t, panics);
  }

  lemma InsertWork(s: State, w: nat)
    requires WorkInv(s) && s.Does(w, AtInsert)
    ensures WorkInv(DoRevertInsert(s, w))
  {
    if s.closed || s.queue.Insert(w).1 != Inserted {
      GoroutineMoves(s, DoRevertInsert(s, w), w, Exiting);
    } else {
      assert WorkerKnown(s, w) && OwnerOk(s, w);
      InsertRefs(s, w);
      InsertWorkers(s, w);
      TaskFrame(s, DoRevertInsert(s, w));
    }
  }

  lemma RecycleWork(s: State, w: nat)
    requires WorkInv(s) && s.Does(w, Exited)
    ensures WorkInv(DoRecycle(s, w))
  {
    assert WorkerKnown(s, w) && OwnerOk(s, w);
    RecycleRefs(s, w);
    RecycleWorkers(s, w);
    TaskFrame(s, DoRecycle(s, w));
  }

  lemma WorkerWork(s: State, w: nat, step: WorkerStep)
    requires WorkInv(s) && WorkEnabled(s, w, step)
    ensures WorkInv(ApplyWork(s, w, step))
  {
    match step
    case Receive => ReceiveWork(s, w);
    case EndTask(panics) => EndWork(s, w, s.goroutines[w].task, panics);
    case RevertInsert => InsertWork(s, w);
    case Recycle => RecycleWork(s, w);
    case _ => GoroutineMoves(s, ApplyWork(s, w, step), w, ApplyWork(s, w, step).goroutines[w]);
  }

  lemma PurgeWork(s: State, k: nat)
    requires WorkInv(s) && s.purger == PurgerTicked && k <= |s.queue.contents|
    ensures WorkInv(DoPurge(s, k))
  {
    PurgeRefs(s, k);
    PurgeWorkers(s, k);
    TaskFrame(s, DoPurge(s, k));
  }

  lemma NotifyWork(s: State, w: nat)
    requires WorkInv(s) && s.purger.Notifying? && w in s.purger.stale
    ensures WorkInv(DoNotify(s, w, s.purger.stale))
  {
    assert OwnerOk(s, w) && WorkerKnown(s, w);
    NotifyRefs(s, w);
    NotifyWorkers(s, w);
    assert [] + [Stop] == [Stop];
    StopTasks(s, DoNotify(s, w, s.purger.stale), w);
  }

  lemma ResetWork(s: State)
    requires WorkInv(s) && s.queue.contents != []
    ensures WorkInv(DoResetOne(s))
  {
    var w := s.queue.contents[0];
    assert OwnerOk(s, w) && WorkerKnown(s, w);
    ResetRefs(s);
    ResetWorkers(s);
    assert [] + [Stop] == [Stop];
    StopTasks(s, DoResetOne(s), w);
  }

  lemma ReleaseSteps(s: State)
    ensures SameWork(s, DoLockReset(s))
    ensures s.queue.contents == [] ==> SameWork(s, DoResetEnd(s))
  {
  }

  lemma TuneSteps(cfg: Config, s: State, size: int)
    ensures SameWork(s, DoTune(cfg, s, size))
  {
  }

  /** Steps that leave the workers alone. */
  lemma QuietSteps(cfg: Config, s: State, step: SystemStep)
    requires SystemEnabled(s, step) && !step.Purge? && !step.Notify? && !step.ResetOne?
    ensures SameWork(s, ApplySystem(cfg, s, step))
  {
    match step
    case Tick => assert SameWork(s, s.(purger := PurgerTicked));
    case PurgeEnd => assert SameWork(s, s.(purger := PurgerIdle));
    case Close => assert SameWork(s, s.(closed := true, releaser := ReleaseClosed));
    case LockReset => ReleaseSteps(s);
    case ResetEnd => ReleaseSteps(s);
    case Tune(size) => TuneSteps(cfg, s, size);
  }

  lemma QuietWork(cfg: Config, s: State, step: SystemStep)
    requires WorkInv(s) && SystemEnabled(s, step) && !step.Purge? && !step.Notify? && !step.ResetOne?
    ensures WorkInv(ApplySystem(cfg, s, step))
  {
    QuietSteps(cfg, s, step);
    OtherWork(s, ApplySystem(cfg, s, step));
  }

  lemma SystemWork(cfg: Config, s: State, step: SystemStep)
    requires WorkInv(s) && SystemEnabled(s, step)
    ensures WorkInv(ApplySystem(cfg, s, step))
  {
    match step
    case Purge(k) => PurgeWork(s, k);
    case Notify(w) => NotifyWork(s, w);
    case ResetOne => ResetWork(s);
    case _ => QuietWork(cfg, s, step);
  }

  // ---- the lock, the waiting counter and the capacity ----

  /** The lock passes only between free and this call, and the counter follows the call's position. */
  ghost predicate CallStepOk(cfg: Config, s: State, s': State, t: nat, p: Submitter) {
    && s'.submitters == s.submitters[t := p]
    && s'.releaser == s.releaser && s'.closed == s.closed
    && s'.capacity == s.capacity && s'.peakCapacity == s.peakCapacity
    && (s'.lock == s.lock ||
        (s.lock in {None, Some(BySubmitter(t))} && s'.lock in {None, Some(BySubmitter(t))}))
    && (HoldsLock(p) <==> s'.lock == Some(BySubmitter(t)))
    && (p.AtRunning? ==> 1 <= p.cap <= s.peakCapacity)
    && s'.waiting == s.waiting - One(t in s.submitters && IsWaiting(s.submitters[t])) + One(IsWaiting(p))
    && (p.AtWait? || s'.waiting > s.waiting ==> WaitBound(cfg, s'))
  }

  lemma CallControl(cfg: Config, s: State, s': State, t: nat, p: Submitter)
    requires ControlInv(cfg, s) && CallStepOk(cfg, s, s', t, p)
    ensures ControlInv(cfg, s')
  {
    CountUpdate(s.submitters, t, p, IsWaiting);
    forall u ensures CallOk(s', u) {
      assert CallOk(s, u);
    }
  }

  lemma RetryControl(cfg: Config, s: State, t: nat)
    requires ControlInv(cfg, s) && t in s.submitters && !IsWaiting(s.submitters[t])
    requires s.lock in {None, Some(BySubmitter(t))}
    ensures ControlInv(cfg, DoRetry(s, t))
  {
    if s.queue.contents == [] {
      CallControl(cfg, s, DoRetry(s, t), t, AtCap);
    } else {
      CallControl(cfg, s, DoRetry(s, t), t, Holding(s.queue.contents[0]));
    }
  }

  lemma ReadRunningControl(cfg: Config, s: State, t: nat, cap: int)
    requires ControlInv(cfg, s) && s.At(t, AtRunning(cap))
    ensures ControlInv(cfg, DoReadRunning(s, t, cap))
  {
    assert CallOk(s, t);
    if cap == -1 || cap > s.running {
      CallControl(cfg, s, DoReadRunning(s, t, cap), t, Spawn);
    } else {
      CallControl(cfg, s, DoReadRunning(s, t, cap), t, AtOverload);
    }
  }

  lemma ReadWaitingControl(cfg: Config, s: State, t: nat)
    requires ControlInv(cfg, s) && s.At(t, AtOverload)
    ensures ControlInv(cfg, DoReadWaiting(cfg, s, t))
  {
    assert CallOk(s, t);
    if cfg.nonblocking || (cfg.maxBlockingTasks != 0 && s.waiting >= cfg.maxBlockingTasks) {
      CallControl(cfg, s, DoReadWaiting(cfg, s, t), t, Rejected(PoolOverload));
    } else {
      CallControl(cfg, s, DoReadWaiting(cfg, s, t), t, AtWait);
    }
  }

  lemma WaitControl(cfg: Config, s: State, t: nat, step: CallStep)
    requires ControlInv(cfg, s) && CallEnabled(s, t, step)
    requires step.Wait? || step.Wake? || step.Relock?
    ensures ControlInv(cfg, ApplyCall(cfg, s, t, step))
  {
    assert CallOk(s, t);
    match step
    case Wait => CallControl(cfg, s, DoWait(s, t), t, Sleeping);
    case Wake => CallControl(cfg, s, DoWake(s, t), t, Woken);
    case Relock => CallControl(cfg, s, DoRelock(s, t), t, AtClosedCheck);
    case _ =>
  }

  lemma HandlingControl(cfg: Config, s: State, t: nat, step: CallStep)
    requires ControlInv(cfg, s) && CallEnabled(s, t, step)
    requires step.GetWorker? || step.CountWorker? || step.Launch? || step.Input?
    ensures ControlInv(cfg, ApplyCall(cfg, s, t, step))
  {
    assert CallOk(s, t);
    match step
    case GetWorker(w) => CallControl(cfg, s, DoGetWorker(s, t, w), t, Got(w));
    case CountWorker => var w := s.submitters[t].w; CallControl(cfg, s, DoCountWorker(s, t, w), t, Counted(w));
    case Launch => var w := s.submitters[t].w; CallControl(cfg, s, DoLaunch(s, t, w), t, Holding(w));
    case Input => CallControl(cfg, s, DoInput(s, t, s.submitters[t].w), t, Accepted);
    case _ =>
  }

  lemma CallKeepsControl(cfg: Config, s: State, t: nat, step: CallStep)
    requires ControlInv(cfg, s) && CallEnabled(s, t, step)
    ensures ControlInv(cfg, ApplyCall(cfg, s, t, step))
  {
    assert CallOk(s, t);
    match step
    case Submit => CallControl(cfg, s, DoSubmit(s, t), t, if s.closed then Rejected(PoolClosed) else WantLock);
    case Retrieve => RetryControl(cfg, s, t);
    case CheckClosed =>
      RetryControl(cfg, s, t);
      CallControl(cfg, s, s.Move(t, None, s.waiting, Rejected(PoolClosed)), t, Rejected(PoolClosed));
    case ReadCap => CallControl(cfg, s, DoReadCap(s, t), t, AtRunning(s.capacity));
    case ReadRunning => ReadRunningControl(cfg, s, t, s.submitters[t].cap);
    case ReadWaiting => ReadWaitingControl(cfg, s, t);
    case Wait => WaitControl(cfg, s, t, step);
    case Wake => WaitControl(cfg, s, t, step);
    case Relock => WaitControl(cfg, s, t, step);
    case _ => HandlingControl(cfg, s, t, step);
  }

  /** Steps that leave every call where it is. */
  lemma ControlFrame(cfg: Config, s: State, s': State)
    requires ControlInv(cfg, s) && s'.submitters == s.submitters && s'.waiting == s.waiting
    requires s'.lock == s.lock || (s.lock in {None, Some(ByReleaser)} && s'.lock in {None, Some(ByReleaser)})
    requires s'.lock == Some(ByReleaser) <==> s'.releaser == Resetting
    requires s'.closed <==> s'.releaser != NotReleased
    requires 1 <= s'.capacity <= s'.peakCapacity && s.peakCapacity <= s'.peakCapacity
    ensures ControlInv(cfg, s')
  {
    forall u ensures CallOk(s', u) {
      assert CallOk(s, u);
    }
  }

  lemma WorkerKeepsControl(cfg: Config, s: State, w: nat, step: WorkerStep)
    requires ControlInv(cfg, s) && WorkEnabled(s, w, step)
    ensures ControlInv(cfg, ApplyWork(s, w, step))
  {
    match step
    case Receive => ControlFrame(cfg, s, DoReceive(s, w));
    case EndTask(panics) => ControlFrame(cfg, s, DoEndTask(s, w, s.goroutines[w].task, panics));
    case RevertInsert => ControlFrame(cfg, s, DoRevertInsert(s, w));
    case Discount => ControlFrame(cfg, s, DoDiscount(s, w));
    case Recycle => ControlFrame(cfg, s, DoRecycle(s, w));
    case _ => ControlFrame(cfg, s, ApplyWork(s, w, step));
  }

  lemma ReleaseControl(cfg: Config, s: State, step: SystemStep)
    requires ControlInv(cfg, s) && SystemEnabled(s, step)
    requires step.Close? || step.LockReset? || step.ResetOne? || step.ResetEnd?
    ensures ControlInv(cfg, ApplySystem(cfg, s, step))
  {
    match step
    case Close => ControlFrame(cfg, s, s.(closed := true, releaser := ReleaseClosed));
    case LockReset => ControlFrame(cfg, s, DoLockReset(s));
    case ResetOne => ControlFrame(cfg, s, DoResetOne(s));
    case ResetEnd => ControlFrame(cfg, s, DoResetEnd(s));
    case _ =>
  }

  lemma PurgeControl(cfg: Config, s: State, step: SystemStep)
    requires ControlInv(cfg, s) && SystemEnabled(s, step) && (step.Purge? || step.Notify?)
    ensures ControlInv(cfg, ApplySystem(cfg, s, step))
  {
    match step
    case Purge(k) => ControlFrame(cfg, s, DoPurge(s, k));
    case Notify(w) => ControlFrame(cfg, s, DoNotify(s, w, s.purger.stale));
    case _ =>
  }

  lemma SystemKeepsControl(cfg: Config, s: State, step: SystemStep)
    requires ControlInv(cfg, s) && SystemEnabled(s, step)
    ensures ControlInv(cfg, ApplySystem(cfg, s, step))
  {
    match step
    case Tick => ControlFrame(cfg, s, s.(purger := PurgerTicked));
    case Purge(k) => PurgeControl(cfg, s, step);
    case Notify(w) => PurgeControl(cfg, s, step);
    case PurgeEnd => ControlFrame(cfg, s, s.(purger := PurgerIdle));
    case Tune(size) => ControlFrame(cfg, s, DoTune(cfg, s, size));
    case _ => ReleaseControl(cfg, s, step);
  }

  // ---- the running counter and the queue ----

  lemma CallKeepsRunning(cfg: Config, s: State, t: nat, step: CallStep)
    requires WorkInv(s) && RunningInv(s) && CallEnabled(s, t, step)
    ensures RunningInv(ApplyCall(cfg, s, t, step))
  {
    match step
    case CountWorker =>
      var w := s.submitters[t].w;
      assert UserOk(s, t) && WorkerKnown(s, w);
      CountUpdate(s.goroutines, w, Starting, IsLive);
    case Launch =>
      var w := s.submitters[t].w;
      assert UserOk(s, t) && WorkerKnown(s, w);
      CountUpdate(s.goroutines, w, AtReceive, IsLive);
    case _ =>
  }

  lemma WorkerKeepsRunning(s: State, w: nat, step: WorkerStep)
    requires RunningInv(s) && WorkEnabled(s, w, step)
    ensures RunningInv(ApplyWork(s, w, step))
  {
    match step
    case Recycle => CountRemove(s.goroutines, w, IsLive);
    case Discount => CountUpdate(s.goroutines, w, Exited, IsLive);
    case Receive => CountUpdate(s.goroutines, w, DoReceive(s, w).goroutines[w], IsLive);
    case RevertInsert =>
      CountUpdate(s.goroutines, w, Exiting, IsLive);
      CountUpdate(s.goroutines, w, AtReceive, IsLive);
    case _ => CountUpdate(s.goroutines, w, ApplyWork(s, w, step).goroutines[w], IsLive);
  }

  lemma CallKeepsQueue(cfg: Config, s: State, t: nat, step: CallStep)
    requires QueueInv(s) && CallEnabled(s, t, step)
    ensures QueueInv(ApplyCall(cfg, s, t, step))
  {
  }

  lemma WorkerKeepsQueue(cfg: Config, s: State, w: nat, step: WorkerStep)
    requires ControlInv(cfg, s) && QueueInv(s) && WorkEnabled(s, w, step)
    ensures QueueInv(ApplyWork(s, w, step))
  {
    match step
    case RevertInsert => assert QueueInv(DoRevertInsert(s, w));
    case _ => assert ApplyWork(s, w, step).queue == s.queue;
  }

  lemma SystemKeepsQueue(cfg: Config, s: State, step: SystemStep)
    requires ControlInv(cfg, s) && QueueInv(s) && SystemEnabled(s, step)
    ensures QueueInv(ApplySystem(cfg, s, step))
  {
  }

  // ---- every step, every run ----

  lemma CallKeeps(cfg: Config, s: State, t: nat, step: CallStep)
    requires Inv(cfg, s) && CallEnabled(s, t, step)
    ensures Inv(cfg, ApplyCall(cfg, s, t, step))
  {
    CallWork(cfg, s, t, step);
    CallKeepsControl(cfg, s, t, step);
    CallKeepsRunning(cfg, s, t, step);
    CallKeepsQueue(cfg, s, t, step);
  }

  lemma WorkerKeeps(cfg: Config, s: State, w: nat, step: WorkerStep)
    requires Inv(cfg, s) && WorkEnabled(s, w, step)
    ensures Inv(cfg, ApplyWork(s, w, step))
  {
    WorkerWork(s, w, step);
    WorkerKeepsControl(cfg, s, w, step);
    WorkerKeepsRunning(s, w, step);
    WorkerKeepsQueue(cfg, s, w, step);
  }

  lemma SystemKeeps(cfg: Config, s: State, step: SystemStep)
    requires Inv(cfg, s) && SystemEnabled(s, step)
    ensures Inv(cfg, ApplySystem(cfg, s, step))
  {
    SystemWork(cfg, s, step);
    SystemKeepsControl(cfg, s, step);
    SystemKeepsQueue(cfg, s, step);
    assert ApplySystem(cfg, s, step).running == s.running;
    assert ApplySystem(cfg, s, step).goroutines == s.goroutines;
  }

  lemma StepKeeps(cfg: Config, s: State, step: Step)
    requires Inv(cfg, s) && Enabled(s, step)
    ensures Inv(cfg, Apply(cfg, s, step))
  {
    match step
    case Call(t, call) => CallKeeps(cfg, s, t, call);
    case Work(w, work) => WorkerKeeps(cfg, s, w, work);
    case System(system) => SystemKeeps(cfg, s, system);
  }

  /** Every reachable state satisfies the invariant. */
  lemma {:induction false} RunKeeps(cfg: Config, size: nat, steps: seq<Step>)
    requires size >= 1
    ensures var r := Run(cfg, Init(size), steps); r.Some? ==> Inv(cfg, r.value)
  {
    if steps == [] {
      InitInv(cfg, size);
    } else {
      RunKeeps(cfg, size, steps[..|steps| - 1]);
      var before := Run(cfg, Init(size), steps[..|steps| - 1]);
      if before.Some? && Enabled(before.value, steps[|steps| - 1]) {
        StepKeeps(cfg, before.value, steps[|steps| - 1]);
      }
    }
  }
}
