/** The goroutine pool (psygo/pool/pool.go, worker.go) as a transition system. One step is one access to shared
    state: an atomic operation, a channel operation, or a stretch under the lock that touches what the lock protects
    and, besides, at most the closed flag or one channel. A run is any sequence of enabled steps, so every interleaving
    is a run. */
module Pools {
  import opened Fifos
  import opened Options

  datatype Config = Config(nonblocking: bool, maxBlockingTasks: int, preAlloc: bool)

  /** What travels on a worker's channel: a submitted task, or the nil that finish sends. */
  datatype Message = Task(id: nat) | Stop

  const WORKER_CHAN_CAP := 1

  datatype SubmitError = PoolClosed | PoolOverload

  /** Where a Submit call is. Each call is a submitter of its own and its task has the same number. */
  datatype Submitter =
    | WantLock
    | AtCap                 // holds the lock: no idle worker was found
    | AtRunning(cap: int)   // holds the lock: has read the capacity
    | AtOverload            // holds the lock: has found the pool full
    | AtWait                // holds the lock: may block
    | Sleeping              // in cond.Wait
    | Woken                 // cond.Wait is taking the lock back
    | AtClosedCheck         // holds the lock again
    | Spawn                 // released the lock to start a worker
    | Got(w: nat)           // took a worker from the cache
    | Counted(w: nat)       // raised running
    | Holding(w: nat)       // retrieveWorker has returned w
    | Accepted              // sent its task
    | Rejected(error: SubmitError)

  /** Where the goroutine of a worker is. */
  datatype Goroutine =
    | Starting              // counted, not launched
    | AtReceive
    | Running(task: nat)
    | AtRevert
    | AtRevertRunning(cap: int)
    | AtRevertClosed
    | AtInsert
    | Exiting
    | Exited                // no longer counted, not yet back in the cache

  datatype Purger = PurgerIdle | PurgerTicked | Notifying(stale: set<nat>)

  datatype Releaser = NotReleased | ReleaseClosed | Resetting | Released

  datatype Holder = BySubmitter(t: nat) | ByReleaser

  /** Who may use a worker. This and Place are histories: what a step does to the rest of the state does not depend on
      them. GetWorker looks at the owners only to give a new worker a number that no worker has had. */
  datatype Owner = InQueue | HeldBy(t: nat) | Stale | Cached | Self

  /** Where the task of an accepted call is. */
  datatype Place = InChannel(w: nat) | On(w: nat) | Finished

  datatype State = State(
    closed: bool,
    capacity: int,
    running: int,
    waiting: int,
    lock: Option<Holder>,
    queue: Fifo<nat>,
    submitters: map<nat, Submitter>,
    goroutines: map<nat, Goroutine>,
    channels: map<nat, seq<Message>>,
    cache: set<nat>,
    purger: Purger,
    releaser: Releaser,
    owner: map<nat, Owner>,
    place: map<nat, Place>,
    executed: multiset<nat>,
    peakCapacity: int)
  {
    function Chan(w: nat): seq<Message> {
      if w in channels then channels[w] else []
    }

    function Room(w: nat): bool {
      |Chan(w)| < WORKER_CHAN_CAP
    }

    function SetSubmitter(t: nat, p: Submitter): State {
      this.(submitters := submitters[t := p])
    }

    /** A call moves on and touches nothing but the lock and the waiting counter. */
    function Move(t: nat, lock': Option<Holder>, waiting': int, p: Submitter): State {
      this.(lock := lock', waiting := waiting', submitters := submitters[t := p])
    }

    function SetGoroutine(w: nat, g: Goroutine): State {
      this.(goroutines := goroutines[w := g])
    }

    function Send(w: nat, m: Message): State {
      this.(channels := channels[w := Chan(w) + [m]])
    }

    function SetOwner(w: nat, o: Owner): State {
      this.(owner := owner[w := o])
    }

    predicate At(t: nat, p: Submitter) {
      t in submitters && submitters[t] == p
    }

    predicate Does(w: nat, g: Goroutine) {
      w in goroutines && goroutines[w] == g
    }
  }

  function Init(size: nat): State {
    State(false, size, 0, 0, None, Fifo([], size), map[], map[], map[], {}, PurgerIdle, NotReleased,
          map[], map[], multiset{}, size)
  }

  /** Submit and retrieveWorker. */
  datatype CallStep =
    | Submit
    | Retrieve
    | ReadCap
    | ReadRunning
    | ReadWaiting
    | Wait
    | Wake
    | Relock
    | CheckClosed
    | GetWorker(w: nat)
    | CountWorker
    | Launch
    | Input

  /** The worker goroutine and revertWorker. */
  datatype WorkerStep =
    | Receive
    | EndTask(panics: bool)
    | RevertCap
    | RevertRunning
    | RevertClosed
    | RevertInsert
    | Discount
    | Recycle

  /** purgeStaleWorkers, Release and Tune. */
  datatype SystemStep =
    | Tick
    | Purge(k: nat)
    | Notify(w: nat)
    | PurgeEnd
    | Close
    | LockReset
    | ResetOne
    | ResetEnd
    | Tune(size: int)

  datatype Step =
    | Call(t: nat, call: CallStep)
    | Work(worker: nat, work: WorkerStep)
    | System(system: SystemStep)

  // ---- Submit and retrieveWorker ----

  function DoSubmit(s: State, t: nat): State {
    s.Move(t, s.lock, s.waiting, if s.closed then Rejected(PoolClosed) else WantLock)
  }

  /** The body of the retry label: an idle worker is taken and the lock released, or the lock is kept. */
  function DoRetry(s: State, t: nat): State {
    var (q, r) := s.queue.Detach();
    match r
    case Some(w) => s.(queue := q, lock := None).SetSubmitter(t, Holding(w)).SetOwner(w, HeldBy(t))
    case None => s.Move(t, Some(BySubmitter(t)), s.waiting, AtCap)
  }

  function DoReadCap(s: State, t: nat): State {
    s.Move(t, s.lock, s.waiting, AtRunning(s.capacity))
  }

  function DoReadRunning(s: State, t: nat, cap: int): State {
    if cap == -1 || cap > s.running then s.Move(t, None, s.waiting, Spawn)
    else s.Move(t, s.lock, s.waiting, AtOverload)
  }

  function DoReadWaiting(cfg: Config, s: State, t: nat): State {
    if cfg.nonblocking || (cfg.maxBlockingTasks != 0 && s.waiting >= cfg.maxBlockingTasks)
    then s.Move(t, None, s.waiting, Rejected(PoolOverload))
    else s.Move(t, s.lock, s.waiting, AtWait)
  }

  function DoWait(s: State, t: nat): State {
    s.Move(t, None, s.waiting + 1, Sleeping)
  }

  function DoWake(s: State, t: nat): State {
    s.Move(t, s.lock, s.waiting, Woken)
  }

  function DoRelock(s: State, t: nat): State {
    s.Move(t, Some(BySubmitter(t)), s.waiting - 1, AtClosedCheck)
  }

  function DoCheckClosed(s: State, t: nat): State {
    if s.closed then s.Move(t, None, s.waiting, Rejected(PoolClosed)) else DoRetry(s, t)
  }

  function DoGetWorker(s: State, t: nat, w: nat): State {
    s.(cache := s.cache - {w}).SetSubmitter(t, Got(w)).SetOwner(w, HeldBy(t))
  }

  function DoCountWorker(s: State, t: nat, w: nat): State {
    s.(running := s.running + 1).SetSubmitter(t, Counted(w)).SetGoroutine(w, Starting)
  }

  function DoLaunch(s: State, t: nat, w: nat): State {
    s.SetSubmitter(t, Holding(w)).SetGoroutine(w, AtReceive)
  }

  function DoInput(s: State, t: nat, w: nat): State {
    s.Send(w, Task(t)).SetSubmitter(t, Accepted).SetOwner(w, Self).(place := s.place[t := InChannel(w)])
  }

  // ---- the worker goroutine and revertWorker ----

  function DoReceive(s: State, w: nat): State
    requires s.Chan(w) != []
  {
    var r := s.(channels := s.channels[w := s.Chan(w)[1..]]);
    match s.Chan(w)[0]
    case Stop => r.SetGoroutine(w, Exiting)
    case Task(t) => r.SetGoroutine(w, Running(t)).(place := s.place[t := On(w)])
  }

  function DoEndTask(s: State, w: nat, t: nat, panics: bool): State {
    s.SetGoroutine(w, if panics then Exiting else AtRevert)
     .(executed := s.executed + multiset{t}, place := s.place[t := Finished])
  }

  function DoRevertRunning(s: State, w: nat, cap: int): State {
    s.SetGoroutine(w, if cap > 0 && s.running > cap then Exiting else AtRevertClosed)
  }

  function DoRevertClosed(s: State, w: nat): State {
    s.SetGoroutine(w, if s.closed then Exiting else AtInsert)
  }

  function DoRevertInsert(s: State, w: nat): State {
    var (q, r) := s.queue.Insert(w);
    if s.closed || r != Inserted then s.SetGoroutine(w, Exiting)
    else s.(queue := q).SetGoroutine(w, AtReceive).SetOwner(w, InQueue)
  }

  function DoDiscount(s: State, w: nat): State {
    s.(running := s.running - 1).SetGoroutine(w, Exited)
  }

  function DoRecycle(s: State, w: nat): State {
    s.(goroutines := s.goroutines - {w}, cache := s.cache + {w}).SetOwner(w, Cached)
  }

  // ---- purgeStaleWorkers, Release, Tune ----

  function DoPurge(s: State, k: nat): State
    requires k <= |s.queue.contents|
  {
    var (q, stale) := s.queue.Refresh(k);
    s.(queue := q,
       purger := Notifying(set w | w in stale),
       owner := map w | w in s.owner :: if w in stale then Stale else s.owner[w])
  }

  function DoNotify(s: State, w: nat, stale: set<nat>): State {
    s.Send(w, Stop).(purger := Notifying(stale - {w})).SetOwner(w, Self)
  }

  function DoLockReset(s: State): State {
    if s.queue.contents == [] then s.(releaser := Released)
    else s.(releaser := Resetting, lock := Some(ByReleaser))
  }

  function DoResetOne(s: State): State
    requires s.queue.contents != []
  {
    var (q, r) := s.queue.Detach();
    s.(queue := q).Send(r.value, Stop).SetOwner(r.value, Self)
  }

  function DoResetEnd(s: State): State {
    s.(queue := Fifo([], 0), releaser := Released, lock := None)
  }

  function DoTune(cfg: Config, s: State, size: int): State {
    if s.capacity == -1 || size <= 0 || size == s.capacity || cfg.preAlloc then s
    else s.(capacity := size, peakCapacity := if size > s.peakCapacity then size else s.peakCapacity)
  }

  // ---- the transition system ----

  predicate CallEnabled(s: State, t: nat, step: CallStep) {
    if step.Submit? then t !in s.submitters
    else
      t in s.submitters &&
      match step
      case Submit => true
      case Retrieve => s.submitters[t].WantLock? && s.lock == None
      case ReadCap => s.submitters[t].AtCap?
      case ReadRunning => s.submitters[t].AtRunning?
      case ReadWaiting => s.submitters[t].AtOverload?
      case Wait => s.submitters[t].AtWait?
      case Wake => s.submitters[t].Sleeping?
      case Relock => s.submitters[t].Woken? && s.lock == None
      case CheckClosed => s.submitters[t].AtClosedCheck?
      case GetWorker(w) => s.submitters[t].Spawn? && (w in s.cache || w !in s.owner)
      case CountWorker => s.submitters[t].Got?
      case Launch => s.submitters[t].Counted?
      case Input => s.submitters[t].Holding? && s.Room(s.submitters[t].w)
  }

  function ApplyCall(cfg: Config, s: State, t: nat, step: CallStep): State
    requires CallEnabled(s, t, step)
  {
    match step
    case Submit => DoSubmit(s, t)
    case Retrieve => DoRetry(s, t)
    case ReadCap => DoReadCap(s, t)
    case ReadRunning => DoReadRunning(s, t, s.submitters[t].cap)
    case ReadWaiting => DoReadWaiting(cfg, s, t)
    case Wait => DoWait(s, t)
    case Wake => DoWake(s, t)
    case Relock => DoRelock(s, t)
    case CheckClosed => DoCheckClosed(s, t)
    case GetWorker(w) => DoGetWorker(s, t, w)
    case CountWorker => DoCountWorker(s, t, s.submitters[t].w)
    case Launch => DoLaunch(s, t, s.submitters[t].w)
    case Input => DoInput(s, t, s.submitters[t].w)
  }

  predicate WorkEnabled(s: State, w: nat, step: WorkerStep) {
    w in s.goroutines &&
    match step
    case Receive => s.goroutines[w].AtReceive? && s.Chan(w) != []
    case EndTask(_) => s.goroutines[w].Running?
    case RevertCap => s.goroutines[w].AtRevert?
    case RevertRunning => s.goroutines[w].AtRevertRunning?
    case RevertClosed => s.goroutines[w].AtRevertClosed?
    case RevertInsert => s.goroutines[w].AtInsert? && s.lock == None
    case Discount => s.goroutines[w].Exiting?
    case Recycle => s.goroutines[w].Exited?
  }

  function ApplyWork(s: State, w: nat, step: WorkerStep): State
    requires WorkEnabled(s, w, step)
  {
    match step
    case Receive => DoReceive(s, w)
    case EndTask(panics) => DoEndTask(s, w, s.goroutines[w].task, panics)
    case RevertCap => s.SetGoroutine(w, AtRevertRunning(s.capacity))
    case RevertRunning => DoRevertRunning(s, w, s.goroutines[w].cap)
    case RevertClosed => DoRevertClosed(s, w)
    case RevertInsert => DoRevertInsert(s, w)
    case Discount => DoDiscount(s, w)
    case Recycle => DoRecycle(s, w)
  }

  predicate SystemEnabled(s: State, step: SystemStep) {
    match step
    case Tick => s.purger == PurgerIdle && !s.closed
    case Purge(k) => s.purger == PurgerTicked && s.lock == None && k <= |s.queue.contents|
    case Notify(w) => s.purger.Notifying? && w in s.purger.stale && s.Room(w)
    case PurgeEnd => s.purger.Notifying? && s.purger.stale == {}
    case Close => !s.closed
    case LockReset => s.releaser == ReleaseClosed && s.lock == None
    case ResetOne => s.releaser == Resetting && s.queue.contents != [] && s.Room(s.queue.contents[0])
    case ResetEnd => s.releaser == Resetting && s.queue.contents == []
    case Tune(_) => true
  }

  function ApplySystem(cfg: Config, s: State, step: SystemStep): State
    requires SystemEnabled(s, step)
  {
    match step
    case Tick => s.(purger := PurgerTicked)
    case Purge(k) => DoPurge(s, k)
    case Notify(w) => DoNotify(s, w, s.purger.stale)
    case PurgeEnd => s.(purger := PurgerIdle)
    case Close => s.(closed := true, releaser := ReleaseClosed)
    case LockReset => DoLockReset(s)
    case ResetOne => DoResetOne(s)
    case ResetEnd => DoResetEnd(s)
    case Tune(size) => DoTune(cfg, s, size)
  }

  predicate Enabled(s: State, step: Step) {
    match step
    case Call(t, call) => CallEnabled(s, t, call)
    case Work(w, work) => WorkEnabled(s, w, work)
    case System(system) => SystemEnabled(s, system)
  }

  function Apply(cfg: Config, s: State, step: Step): State
    requires Enabled(s, step)
  {
    match step
    case Call(t, call) => ApplyCall(cfg, s, t, call)
    case Work(w, work) => ApplyWork(s, w, work)
    case System(system) => ApplySystem(cfg, s, system)
  }

  /** Takes the steps one after the other; None when one of them is not enabled, so a run is a sequence for which
      this is Some. */
  function Run(cfg: Config, s: State, steps: seq<Step>): Option<State> {
    if steps == [] then Some(s)
    else
      var before := Run(cfg, s, steps[..|steps| - 1]);
      var step := steps[|steps| - 1];
      if before.Some? && Enabled(before.value, step) then Some(Apply(cfg, before.value, step)) else None
  }
}
