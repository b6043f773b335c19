/** The capacity is not a hard limit: the bound of BoundedOvershoot is reached for pools of every size. */
module PoolOvershoots {
  import opened Fifos
  import opened Options
  import opened Counting
  import opened Pools
  import opened PoolInvariants
  import opened PoolTheorems

  /** The numbers from m to n. */
  ghost function Range(m: nat, n: nat): (r: set<nat>)
    requires m <= n
    ensures |r| == n - m && forall t: nat :: t in r <==> m <= t < n
    decreases n - m
  {
    if m == n then {} else Range(m, n - 1) + {n - 1}
  }

  /** A pool in which m calls have been accepted, p more have decided to spawn, and the first q of those have raised
      running. */
  ghost predicate Shape(s: State, size: nat, m: nat, p: nat, q: nat) {
    && s.lock == None && !s.closed && s.queue.contents == [] && s.capacity == size && s.running == m + q
    && (forall t: nat :: t in s.submitters <==> t < m + p)
    && (forall t: nat :: t in s.submitters ==>
          s.submitters[t] == if t < m then Accepted else if t < m + q then Counted(t) else Spawn)
    && (forall w: nat :: w in s.owner ==> w < m + q)
    && (forall w: nat :: w in s.channels ==> w < m)
  }

  /** Of the calls, only those from m to m + n are in flight. */
  ghost predicate FliesWithin(s: State, m: nat, n: nat) {
    forall t: nat :: t in s.submitters && IsInFlight(s.submitters[t]) ==> m <= t < m + n
  }

  /** A run of calls only, with the states it goes through. */
  datatype Path = Path(states: seq<State>, calls: seq<(nat, CallStep)>)

  ghost predicate StepAt(cfg: Config, path: Path, i: nat)
    requires i < |path.calls| && i + 1 < |path.states|
  {
    var (t, call) := path.calls[i];
    CallEnabled(path.states[i], t, call) && path.states[i + 1] == ApplyCall(cfg, path.states[i], t, call)
  }

  ghost predicate Few(s: State, n: nat) {
    Count(s.submitters, IsInFlight) <= n
  }

  ghost predicate IsPath(cfg: Config, size: nat, n: nat, path: Path) {
    && |path.states| == |path.calls| + 1 && path.states[0] == Init(size)
    && (forall i :: 0 <= i < |path.calls| ==> StepAt(cfg, path, i))
    && (forall i :: 0 <= i < |path.states| ==> Few(path.states[i], n))
  }

  /** The path ends in s, and never had more than n calls in flight. */
  ghost predicate RunsTo(cfg: Config, size: nat, n: nat, path: Path, s: State) {
    IsPath(cfg, size, n, path) && s == path.states[|path.calls|]
  }

  lemma FewFly(s: State, m: nat, n: nat)
    requires FliesWithin(s, m, n)
    ensures Few(s, n)
  {
    Subset(Members(s.submitters, IsInFlight), Range(m, m + n));
  }

  lemma Take(cfg: Config, size: nat, n: nat, path: Path, s: State, t: nat, call: CallStep, s': State, m: nat)
    returns (path': Path)
    requires RunsTo(cfg, size, n, path, s) && CallEnabled(s, t, call)
    requires s' == ApplyCall(cfg, s, t, call) && FliesWithin(s', m, n)
    ensures RunsTo(cfg, size, n, path', s')
  {
    path' := Path(path.states + [s'], path.calls + [(t, call)]);
    FewFly(s', m, n);
    forall i | 0 <= i < |path'.calls| ensures StepAt(cfg, path', i) {
      if i < |path.calls| {
        assert StepAt(cfg, path, i);
      }
    }
    forall i | 0 <= i < |path'.states| ensures Few(path'.states[i], n) {
      if i < |path.states| {
        assert Few(path.states[i], n);
      }
    }
  }

  // ---- a path is a run ----

  function Steps(path: Path): (r: seq<Step>)
    ensures |r| == |path.calls|
    ensures forall i :: 0 <= i < |r| ==> r[i] == Call(path.calls[i].0, path.calls[i].1)
  {
    seq(|path.calls|, i requires 0 <= i < |path.calls| => Call(path.calls[i].0, path.calls[i].1))
  }

  lemma {:induction false} PathRuns(cfg: Config, size: nat, n: nat, path: Path, k: nat)
    requires IsPath(cfg, size, n, path) && k <= |path.calls|
    ensures Run(cfg, Init(size), Steps(path)[..k]) == Some(path.states[k])
    ensures FewInFlight(cfg, Init(size), Steps(path)[..k], n)
  {
    assert Few(path.states[k], n);
    if k > 0 {
      PathRuns(cfg, size, n, path, k - 1);
      assert StepAt(cfg, path, k - 1);
      assert Steps(path)[..k][..k - 1] == Steps(path)[..k - 1];
    }
  }

  // ---- one call decides to spawn ----

  lemma MoveTwice(s: State, t: nat, l: Option<Holder>, p: Submitter, l': Option<Holder>, p': Submitter)
    ensures s.Move(t, l, s.waiting, p).Move(t, l', s.waiting, p') == s.Move(t, l', s.waiting, p')
  {
    var once: map<nat, Submitter> := s.submitters[t := p];
    assert once[t := p'] == s.submitters[t := p'];
  }

  /** All calls but t, which may move, fly within the bounds. */
  ghost predicate OthersFly(s: State, t: nat, m: nat, n: nat) {
    && m <= t < m + n
    && forall u: nat :: u != t && u in s.submitters && IsInFlight(s.submitters[u]) ==> m <= u < m + n
  }

  lemma MoveFlies(s: State, t: nat, m: nat, n: nat, l: Option<Holder>, to: Submitter)
    requires OthersFly(s, t, m, n)
    ensures FliesWithin(s.Move(t, l, s.waiting, to), m, n)
  {
  }

  lemma SubmitStep(cfg: Config, size: nat, n: nat, path: Path, s: State, t: nat, s': State, m: nat)
    returns (path': Path)
    requires RunsTo(cfg, size, n, path, s) && !s.closed && s.lock == None && t !in s.submitters
    requires s' == s.Move(t, None, s.waiting, WantLock) && OthersFly(s, t, m, n)
    ensures RunsTo(cfg, size, n, path', s')
  {
    MoveFlies(s, t, m, n, None, WantLock);
    assert ApplyCall(cfg, s, t, Submit) == DoSubmit(s, t) == s';
    path' := Take(cfg, size, n, path, s, t, Submit, s', m);
  }

  lemma RetrieveStep(cfg: Config, size: nat, n: nat, path: Path, s: State, t: nat, s': State, m: nat)
    returns (path': Path)
    requires RunsTo(cfg, size, n, path, s.Move(t, None, s.waiting, WantLock)) && s.queue.contents == []
    requires s' == s.Move(t, Some(BySubmitter(t)), s.waiting, AtCap) && OthersFly(s, t, m, n)
    ensures RunsTo(cfg, size, n, path', s')
  {
    var s0 := s.Move(t, None, s.waiting, WantLock);
    MoveTwice(s, t, None, WantLock, Some(BySubmitter(t)), AtCap);
    MoveFlies(s, t, m, n, Some(BySubmitter(t)), AtCap);
    assert ApplyCall(cfg, s0, t, Retrieve) == DoRetry(s0, t) == s';
    path' := Take(cfg, size, n, path, s0, t, Retrieve, s', m);
  }

  lemma ReadCapStep(cfg: Config, size: nat, n: nat, path: Path, s: State, t: nat, s': State, m: nat)
    returns (path': Path)
    requires RunsTo(cfg, size, n, path, s.Move(t, Some(BySubmitter(t)), s.waiting, AtCap))
    requires s' == s.Move(t, Some(BySubmitter(t)), s.waiting, AtRunning(s.capacity)) && OthersFly(s, t, m, n)
    ensures RunsTo(cfg, size, n, path', s')
  {
    var s0 := s.Move(t, Some(BySubmitter(t)), s.waiting, AtCap);
    MoveTwice(s, t, Some(BySubmitter(t)), AtCap, Some(BySubmitter(t)), AtRunning(s.capacity));
    MoveFlies(s, t, m, n, Some(BySubmitter(t)), AtRunning(s.capacity));
    assert ApplyCall(cfg, s0, t, ReadCap) == DoReadCap(s0, t) == s';
    path' := Take(cfg, size, n, path, s0, t, ReadCap, s', m);
  }

  /** The call reads a running counter below the capacity. */
  lemma ReadRunningStep(cfg: Config, size: nat, n: nat, path: Path, s: State, t: nat, s': State, m: nat)
    returns (path': Path)
    requires RunsTo(cfg, size, n, path, s.Move(t, Some(BySubmitter(t)), s.waiting, AtRunning(s.capacity)))
    requires s.running < s.capacity
    requires s' == s.Move(t, None, s.waiting, Spawn) && OthersFly(s, t, m, n)
    ensures RunsTo(cfg, size, n, path', s')
  {
    var s0 := s.Move(t, Some(BySubmitter(t)), s.waiting, AtRunning(s.capacity));
    MoveTwice(s, t, Some(BySubmitter(t)), AtRunning(s.capacity), None, Spawn);
    MoveFlies(s, t, m, n, None, Spawn);
    assert ApplyCall(cfg, s0, t, ReadRunning) == DoReadRunning(s0, t, s.capacity) == s';
    path' := Take(cfg, size, n, path, s0, t, ReadRunning, s', m);
  }

  lemma Decided(s: State, size: nat, m: nat, p: nat)
    requires Shape(s, size, m, p, 0)
    ensures Shape(s.Move(m + p, None, s.waiting, Spawn), size, m, p + 1, 0)
  {
  }

  lemma ReadyToDecide(s: State, size: nat, m: nat, p: nat, n: nat)
    requires Shape(s, size, m, p, 0) && m < size && p < n
    ensures Ready(s, m + p, m, n)
  {
  }

  /** What the four steps of a decision need. */
  ghost predicate Ready(s: State, t: nat, m: nat, n: nat) {
    && !s.closed && s.lock == None && t !in s.submitters && s.queue.contents == [] && s.running < s.capacity
    && OthersFly(s, t, m, n)
  }

  lemma DecideOne(cfg: Config, size: nat, n: nat, path: Path, s: State, m: nat, p: nat)
    returns (path': Path, s': State)
    requires RunsTo(cfg, size, n, path, s) && Shape(s, size, m, p, 0) && m < size && p < n
    ensures RunsTo(cfg, size, n, path', s') && Shape(s', size, m, p + 1, 0)
  {
    ReadyToDecide(s, size, m, p, n);
    Decided(s, size, m, p);
    path', s' := FourSteps(cfg, size, n, path, s, m + p, m);
  }

  lemma FourSteps(cfg: Config, size: nat, n: nat, path: Path, s: State, t: nat, m: nat)
    returns (path': Path, s': State)
    requires RunsTo(cfg, size, n, path, s) && Ready(s, t, m, n)
    ensures s' == s.Move(t, None, s.waiting, Spawn) && RunsTo(cfg, size, n, path', s')
  {
    s' := s.Move(t, None, s.waiting, Spawn);
    var held := Some(BySubmitter(t));
    path' := SubmitStep(cfg, size, n, path, s, t, s.Move(t, None, s.waiting, WantLock), m);
    path' := RetrieveStep(cfg, size, n, path', s, t, s.Move(t, held, s.waiting, AtCap), m);
    path' := ReadCapStep(cfg, size, n, path', s, t, s.Move(t, held, s.waiting, AtRunning(s.capacity)), m);
    path' := ReadRunningStep(cfg, size, n, path', s, t, s.Move(t, None, s.waiting, Spawn), m);
  }

  // ---- one call that has decided raises running ----

  lemma GetStep(cfg: Config, size: nat, n: nat, path: Path, s: State, t: nat, m: nat) returns (path': Path)
    requires RunsTo(cfg, size, n, path, s) && s.At(t, Spawn) && t !in s.owner
    requires FliesWithin(DoGetWorker(s, t, t), m, n)
    ensures RunsTo(cfg, size, n, path', DoGetWorker(s, t, t))
  {
    path' := Take(cfg, size, n, path, s, t, GetWorker(t), DoGetWorker(s, t, t), m);
  }

  lemma CountStep(cfg: Config, size: nat, n: nat, path: Path, s: State, t: nat, m: nat) returns (path': Path)
    requires RunsTo(cfg, size, n, path, s) && s.At(t, Got(t)) && FliesWithin(DoCountWorker(s, t, t), m, n)
    ensures RunsTo(cfg, size, n, path', DoCountWorker(s, t, t))
  {
    path' := Take(cfg, size, n, path, s, t, CountWorker, DoCountWorker(s, t, t), m);
  }

  lemma GotFlies(s: State, size: nat, m: nat, p: nat, q: nat, n: nat)
    requires Shape(s, size, m, p, q) && q < p <= n
    ensures var s' := DoGetWorker(s, m + q, m + q);
            FliesWithin(s', m, n) && s'.At(m + q, Got(m + q)) && s.At(m + q, Spawn) && m + q !in s.owner
  {
  }

  lemma GetAndCount(s: State, t: nat)
    ensures var s' := DoCountWorker(DoGetWorker(s, t, t), t, t);
            && s'.submitters == s.submitters[t := Counted(t)] && s'.owner == s.owner[t := HeldBy(t)]
            && s'.running == s.running + 1 && s'.channels == s.channels && s'.lock == s.lock && s'.queue == s.queue
            && s'.capacity == s.capacity && s'.closed == s.closed
  {
  }

  lemma Raised(s: State, s': State, size: nat, m: nat, p: nat, q: nat, n: nat)
    requires Shape(s, size, m, p, q) && q < p <= n
    requires s'.submitters == s.submitters[m + q := Counted(m + q)] && s'.owner == s.owner[m + q := HeldBy(m + q)]
    requires s'.running == s.running + 1 && s'.channels == s.channels && s'.lock == s.lock && s'.queue == s.queue
    requires s'.capacity == s.capacity && s'.closed == s.closed
    ensures FliesWithin(s', m, n) && Shape(s', size, m, p, q + 1)
  {
  }

  lemma RaiseOne(cfg: Config, size: nat, n: nat, path: Path, s: State, m: nat, p: nat, q: nat)
    returns (path': Path, s': State)
    requires RunsTo(cfg, size, n, path, s) && Shape(s, size, m, p, q) && q < p <= n
    ensures RunsTo(cfg, size, n, path', s') && Shape(s', size, m, p, q + 1)
  {
    var t := m + q;
    GotFlies(s, size, m, p, q, n);
    GetAndCount(s, t);
    s' := DoCountWorker(DoGetWorker(s, t, t), t, t);
    Raised(s, s', size, m, p, q, n);
    path' := GetStep(cfg, size, n, path, s, t, m);
    path' := CountStep(cfg, size, n, path', DoGetWorker(s, t, t), t, m);
  }

  // ---- a call that is alone sends its task ----

  lemma LaunchStep(cfg: Config, size: nat, n: nat, path: Path, s: State, t: nat, m: nat) returns (path': Path)
    requires RunsTo(cfg, size, n, path, s) && s.At(t, Counted(t)) && FliesWithin(DoLaunch(s, t, t), m, n)
    ensures RunsTo(cfg, size, n, path', DoLaunch(s, t, t))
  {
    path' := Take(cfg, size, n, path, s, t, Launch, DoLaunch(s, t, t), m);
  }

  lemma InputStep(cfg: Config, size: nat, n: nat, path: Path, s: State, t: nat, m: nat) returns (path': Path)
    requires RunsTo(cfg, size, n, path, s) && s.At(t, Holding(t)) && s.Chan(t) == []
    requires FliesWithin(DoInput(s, t, t), m, n)
    ensures RunsTo(cfg, size, n, path', DoInput(s, t, t))
  {
    path' := Take(cfg, size, n, path, s, t, Input, DoInput(s, t, t), m);
  }

  lemma LandingFlies(s: State, size: nat, m: nat, n: nat)
    requires Shape(s, size, m, 1, 1) && 1 <= n
    ensures var s1 := DoLaunch(s, m, m);
            && s.At(m, Counted(m)) && s1.At(m, Holding(m)) && s1.Chan(m) == []
            && FliesWithin(s1, m, n) && FliesWithin(DoInput(s1, m, m), m, n)
  {
    var s1 := DoLaunch(s, m, m);
    assert s1.submitters == s.submitters[m := Holding(m)] && s1.channels == s.channels;
    LandedFlies(s, size, m, n);
  }

  lemma LandedFlies(s: State, size: nat, m: nat, n: nat)
    requires Shape(s, size, m, 1, 1) && 1 <= n
    ensures FliesWithin(DoInput(DoLaunch(s, m, m), m, m), m, n)
  {
    assert DoInput(DoLaunch(s, m, m), m, m).submitters == s.submitters[m := Accepted];
  }

  lemma Landed(s: State, size: nat, m: nat)
    requires Shape(s, size, m, 1, 1)
    ensures Shape(DoInput(DoLaunch(s, m, m), m, m), size, m + 1, 0, 0)
  {
    LaunchAndInput(s, m);
    var s' := DoInput(DoLaunch(s, m, m), m, m);
    assert forall w: nat :: w in s'.channels ==> w in s.channels || w == m;
  }

  lemma LaunchAndInput(s: State, t: nat)
    ensures var s' := DoInput(DoLaunch(s, t, t), t, t);
            && s'.submitters == s.submitters[t := Accepted] && s'.owner == s.owner[t := Self]
            && s'.channels == s.channels[t := s.Chan(t) + [Task(t)]] && s'.running == s.running
            && s'.lock == s.lock && s'.queue == s.queue && s'.capacity == s.capacity && s'.closed == s.closed
  {
  }

  /** One more worker is occupied. */
  lemma OccupyOne(cfg: Config, size: nat, n: nat, path: Path, s: State, m: nat)
    returns (path': Path, s': State)
    requires RunsTo(cfg, size, n, path, s) && Shape(s, size, m, 0, 0) && m < size && 1 <= n
    ensures RunsTo(cfg, size, n, path', s') && Shape(s', size, m + 1, 0, 0)
  {
    var decided, raised;
    path', decided := DecideOne(cfg, size, n, path, s, m, 0);
    path', raised := RaiseOne(cfg, size, n, path', decided, m, 1, 0);
    LandingFlies(raised, size, m, n);
    Landed(raised, size, m);
    s' := DoInput(DoLaunch(raised, m, m), m, m);
    path' := LaunchStep(cfg, size, n, path', raised, m, m);
    path' := InputStep(cfg, size, n, path', DoLaunch(raised, m, m), m, m);
  }

  lemma StartIsShaped(size: nat)
    ensures Shape(Init(size), size, 0, 0, 0) && FliesWithin(Init(size), 0, 0)
  {
  }

  /** First m calls are accepted, one after the other. */
  lemma Occupy(cfg: Config, size: nat, n: nat, m: nat) returns (path: Path, s: State)
    requires m <= size && 1 <= n
    ensures RunsTo(cfg, size, n, path, s) && Shape(s, size, m, 0, 0)
    decreases m
  {
    if m == 0 {
      path, s := Path([Init(size)], []), Init(size);
      StartIsShaped(size);
      FewFly(s, 0, 0);
    } else {
      path, s := Occupy(cfg, size, n, m - 1);
      path, s := OccupyOne(cfg, size, n, path, s, m - 1);
    }
  }

  /** Then n calls decide one after the other, before any of them raises running; then q of them do. */
  lemma Schedule(cfg: Config, size: nat, n: nat, p: nat, q: nat) returns (path: Path, s: State)
    requires 1 <= size && 1 <= n && p <= n && q <= p && (q > 0 ==> p == n)
    ensures RunsTo(cfg, size, n, path, s) && Shape(s, size, size - 1, p, q)
    decreases p, q
  {
    if q > 0 {
      path, s := Schedule(cfg, size, n, p, q - 1);
      path, s := RaiseOne(cfg, size, n, path, s, size - 1, p, q - 1);
    } else if p > 0 {
      path, s := Schedule(cfg, size, n, p - 1, 0);
      path, s := DecideOne(cfg, size, n, path, s, size - 1, p - 1);
    } else {
      path, s := Occupy(cfg, size, n, size - 1);
    }
  }

  /** For every size and every n there is a run with at most n calls in flight and size - 1 + n workers running: the
      bound is exact, and the documented limit of size workers fails as soon as two calls may overlap. */
  lemma OvershootIsReached(cfg: Config, size: nat, n: nat)
    requires size >= 1 && n >= 1
    ensures exists steps, s ::
              && Reached(cfg, size, steps, s) && FewInFlight(cfg, Init(size), steps, n) && NeverTuned(steps)
              && s.running == size - 1 + n
  {
    var path, s := Schedule(cfg, size, n, n, n);
    PathRuns(cfg, size, n, path, |path.calls|);
    var steps := Steps(path);
    assert steps[..|path.calls|] == steps;
    assert Reached(cfg, size, steps, s) && NeverTuned(steps);
  }

  /** The limit of size workers holds in every run without Tune if and only if calls never overlap. */
  lemma LimitHoldsIffSerial(cfg: Config, size: nat, n: nat)
    requires size >= 1 && n >= 1
    ensures (forall steps, s ::
               Reached(cfg, size, steps, s) && FewInFlight(cfg, Init(size), steps, n) && NeverTuned(steps) ==>
                 s.running <= size)
       <==> n == 1
  {
    if n == 1 {
      forall steps, s | Reached(cfg, size, steps, s) && FewInFlight(cfg, Init(size), steps, n) && NeverTuned(steps)
        ensures s.running <= size
      {
        BoundedOvershoot(cfg, size, steps, s, n);
      }
    } else {
      OvershootIsReached(cfg, size, n);
    }
  }
}
