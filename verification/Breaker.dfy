/** The circuit breaker (psygo/rpc/breaker/breaker.go). Execute is split into the part before the request and the part
    after it, so that requests overlap. Instants are integers; the clock is read once by the caller (now) and again
    when a generation starts (clock). */
module Breakers {
  import opened Options

  datatype Phase = Closed | HalfOpen | Open

  datatype Counts = Counts(requests: nat, totalSuccesses: nat, totalFailures: nat,
                           consecutiveSuccesses: nat, consecutiveFailures: nat)
  {
    function OnRequest(): Counts {
      this.(requests := requests + 1)
    }

    function OnSuccess(): Counts {
      this.(totalSuccesses := totalSuccesses + 1, consecutiveSuccesses := consecutiveSuccesses + 1,
            consecutiveFailures := 0)
    }

    function OnFail(): Counts {
      this.(totalFailures := totalFailures + 1, consecutiveFailures := consecutiveFailures + 1,
            consecutiveSuccesses := 0)
    }
  }

  const NO_COUNTS := Counts(0, 0, 0, 0, 0)

  /** The settings in force, after the defaults. */
  datatype Settings = Settings(maxRequests: nat, interval: int, timeout: int, readyToTrip: Counts -> bool)

  const SECOND := 1_000_000_000

  function DefaultTrip(c: Counts): bool {
    c.consecutiveFailures > 5
  }

  /** NewCircuitBreaker puts a default where a setting is zero or missing. */
  function WithDefaults(maxRequests: nat, interval: int, timeout: int, readyToTrip: Option<Counts -> bool>): Settings {
    Settings(if maxRequests == 0 then 2 else maxRequests, interval, if timeout == 0 then 10 * SECOND else timeout,
             if readyToTrip.Some? then readyToTrip.value else DefaultTrip)
  }

  /** The fields of a breaker. No expiry stands for the zero time. */
  datatype Breaker = Breaker(phase: Phase, generation: nat, counts: Counts, expiry: Option<int>)

  predicate Expired(expiry: Option<int>, now: int) {
    expiry.None? || expiry.value < now
  }

  function NextGeneration(cfg: Settings, b: Breaker, clock: int): Breaker {
    Breaker(b.phase, b.generation + 1, NO_COUNTS,
            match b.phase
            case Closed => if cfg.interval == 0 then None else Some(clock + cfg.interval)
            case Open => Some(clock + cfg.timeout)
            case HalfOpen => None)
  }

  function Enter(cfg: Settings, b: Breaker, target: Phase, clock: int): Breaker {
    if b.phase == target then b else NextGeneration(cfg, b.(phase := target), clock)
  }

  /** currentState. */
  function Refresh(cfg: Settings, b: Breaker, now: int, clock: int): Breaker {
    match b.phase
    case Closed => if b.expiry.Some? && Expired(b.expiry, now) then NextGeneration(cfg, b, clock) else b
    case Open => if Expired(b.expiry, now) then Enter(cfg, b, HalfOpen, clock) else b
    case HalfOpen => b
  }

  /** Whether beforeRequest lets a request through, once the state is current. */
  predicate Admits(cfg: Settings, b: Breaker) {
    !b.phase.Open? && !(b.phase.HalfOpen? && b.counts.requests > cfg.maxRequests)
  }

  function Succeed(cfg: Settings, b: Breaker, clock: int): Breaker {
    if b.phase.Open? then b
    else
      var b' := b.(counts := b.counts.OnSuccess());
      if b.phase.HalfOpen? && b'.counts.consecutiveSuccesses > cfg.maxRequests then Enter(cfg, b', Closed, clock)
      else b'
  }

  function Fail(cfg: Settings, b: Breaker, clock: int): Breaker {
    match b.phase
    case Closed =>
      var b' := b.(counts := b.counts.OnFail());
      if cfg.readyToTrip(b'.counts) then Enter(cfg, b', Open, clock) else b'
    case HalfOpen => Enter(cfg, b, Open, clock)
    case Open => b
  }

  /** afterRequest, for a request admitted in generation before. */
  function After(cfg: Settings, b: Breaker, before: nat, success: bool, now: int, clock: int): Breaker {
    var b' := Refresh(cfg, b, now, clock);
    if b'.generation != before then b'
    else if success then Succeed(cfg, b', clock)
    else Fail(cfg, b', clock)
  }

  class CircuitBreaker {
    const cfg: Settings
    var phase: Phase
    var generation: nat
    var counts: Counts
    var expiry: Option<int>

    function Value(): Breaker
      reads this
    {
      Breaker(phase, generation, counts, expiry)
    }

    constructor (maxRequests: nat, interval: int, timeout: int, readyToTrip: Option<Counts -> bool>, clock: int)
      ensures cfg == WithDefaults(maxRequests, interval, timeout, readyToTrip)
      ensures Value() == NextGeneration(cfg, Breaker(Closed, 0, NO_COUNTS, None), clock)
    {
      cfg := WithDefaults(maxRequests, interval, timeout, readyToTrip);
      phase, generation, counts, expiry := Closed, 0, NO_COUNTS, None;
      new;
      NewGeneration(clock);
    }

    method NewGeneration(clock: int)
      modifies this
      ensures Value() == NextGeneration(cfg, old(Value()), clock)
    {
      generation := generation + 1;
      counts := NO_COUNTS;
      match phase {
        case Closed =>
          if cfg.interval == 0 {
            expiry := None;
          } else {
            expiry := Some(clock + cfg.interval);
          }
        case Open => expiry := Some(clock + cfg.timeout);
        case HalfOpen => expiry := None;
      }
    }

    method SetState(target: Phase, clock: int)
      modifies this
      ensures Value() == Enter(cfg, old(Value()), target, clock)
    {
      if phase == target {
        return;
      }
      phase := target;
      NewGeneration(clock);
    }

    method CurrentState(now: int, clock: int) returns (current: Phase, gen: nat)
      modifies this
      ensures Value() == Refresh(cfg, old(Value()), now, clock) && current == phase && gen == generation
    {
      match phase {
        case Closed =>
          if expiry.Some? && Expired(expiry, now) {
            NewGeneration(clock);
          }
        case Open =>
          if Expired(expiry, now) {
            SetState(HalfOpen, clock);
          }
        case HalfOpen =>
      }
      return phase, generation;
    }

    /** The part of Execute before the request. */
    method BeforeRequest(now: int, clock: int) returns (admitted: bool, gen: nat)
      modifies this
      ensures Value() == Refresh(cfg, old(Value()), now, clock)
      ensures admitted == Admits(cfg, Value()) && gen == generation
    {
      var current;
      current, gen := CurrentState(now, clock);
      if current == Open {
        return false, gen;
      }
      if current == HalfOpen {
        if counts.requests > cfg.maxRequests {
          return false, gen;
        }
      }
      admitted := true;
    }

    /** The part of Execute after the request. */
    method AfterExecute(before: nat, success: bool, now: int, clock: int)
      modifies this
      ensures Value() == After(cfg, old(Value()).(counts := old(counts).OnRequest()), before, success, now, clock)
    {
      counts := counts.OnRequest();
      AfterRequest(before, success, now, clock);
    }

    method AfterRequest(before: nat, success: bool, now: int, clock: int)
      modifies this
      ensures Value() == After(cfg, old(Value()), before, success, now, clock)
    {
      var current, gen := CurrentState(now, clock);
      if gen != before {
        return;
      }
      if success {
        OnSuccess(current, clock);
      } else {
        OnFail(current, clock);
      }
    }

    method OnSuccess(current: Phase, clock: int)
      requires current == phase
      modifies this
      ensures Value() == Succeed(cfg, old(Value()), clock)
    {
      match current {
        case Closed => counts := counts.OnSuccess();
        case HalfOpen =>
          counts := counts.OnSuccess();
          if counts.consecutiveSuccesses > cfg.maxRequests {
            SetState(Closed, clock);
          }
        case Open =>
      }
    }

    method OnFail(current: Phase, clock: int)
      requires current == phase
      modifies this
      ensures Value() == Fail(cfg, old(Value()), clock)
    {
      match current {
        case Closed =>
          counts := counts.OnFail();
          if cfg.readyToTrip(counts) {
            SetState(Open, clock);
          }
        case HalfOpen => SetState(Open, clock);
        case Open =>
      }
    }
  }
}

/** Runs of a breaker: requests that overlap, on a clock that does not go back. */
module BreakerRuns {
  import opened Options
  import opened Breakers

  datatype Event = Begin(id: nat, now: int, clock: int) | End(id: nat, success: bool, now: int, clock: int)

  /** inFlight holds the generation each running request was admitted in. The rest is history, which events only update:
      log - the results counted, each with its generation; stale - how many requests of other generations have ended
      since the current generation began; startedAt - when it began. */
  datatype System = System(b: Breaker, inFlight: map<nat, nat>, time: int,
                           log: seq<(nat, bool)>, stale: nat, startedAt: int)

  function Start(cfg: Settings, clock: int): System {
    System(NextGeneration(cfg, Breaker(Closed, 0, NO_COUNTS, None), clock), map[], clock, [], 0, clock)
  }

  predicate Enabled(s: System, e: Event) {
    && s.time <= e.now <= e.clock
    && (if e.Begin? then e.id !in s.inFlight else e.id in s.inFlight)
  }

  function DoBegin(cfg: Settings, s: System, id: nat, now: int, clock: int): System {
    var b := Refresh(cfg, s.b, now, clock);
    s.(b := b, time := clock,
       inFlight := if Admits(cfg, b) then s.inFlight[id := b.generation] else s.inFlight,
       stale := if b.generation == s.b.generation then s.stale else 0,
       startedAt := if b.generation == s.b.generation then s.startedAt else clock)
  }

  function DoEnd(cfg: Settings, s: System, id: nat, before: nat, success: bool, now: int, clock: int): System {
    var counted := Refresh(cfg, s.b, now, clock).generation == before;
    var b := After(cfg, s.b.(counts := s.b.counts.OnRequest()), before, success, now, clock);
    s.(b := b, time := clock, inFlight := s.inFlight - {id},
       log := if counted then s.log + [(before, success)] else s.log,
       stale := if b.generation != s.b.generation then 0 else if counted then s.stale else s.stale + 1,
       startedAt := if b.generation == s.b.generation then s.startedAt else clock)
  }

  function Apply(cfg: Settings, s: System, e: Event): System
    requires Enabled(s, e)
  {
    match e
    case Begin(id, now, clock) => DoBegin(cfg, s, id, now, clock)
    case End(id, success, now, clock) => DoEnd(cfg, s, id, s.inFlight[id], success, now, clock)
  }

  /** The system after events; those that are not enabled do not happen. */
  function Run(cfg: Settings, s: System, events: seq<Event>): System {
    if events == [] then s
    else
      var before, e := Run(cfg, s, events[..|events| - 1]), events[|events| - 1];
      if Enabled(before, e) then Apply(cfg, before, e) else before
  }

  /** How many of the last counted results are of this generation and came out like this. */
  function Trailing(log: seq<(nat, bool)>, generation: nat, success: bool): nat {
    if log == [] || log[|log| - 1] != (generation, success) then 0
    else 1 + Trailing(log[..|log| - 1], generation, success)
  }

  /** How many counted results of this generation came out like this. */
  function Total(log: seq<(nat, bool)>, generation: nat, success: bool): nat {
    if log == [] then 0
    else
      Total(log[..|log| - 1], generation, success) + if log[|log| - 1] == (generation, success) then 1 else 0
  }

  // ---- the invariant ----

  /** The tallies are what the log says about the current generation; the requests are those and the stale ones. */
  ghost predicate Tallied(s: System) {
    var c, g := s.b.counts, s.b.generation;
    && c.consecutiveSuccesses == Trailing(s.log, g, true)
    && c.consecutiveFailures == Trailing(s.log, g, false)
    && c.totalSuccesses == Total(s.log, g, true)
    && c.totalFailures == Total(s.log, g, false)
    && c.requests == s.stale + c.totalSuccesses + c.totalFailures
  }

  /** Generations only grow. */
  ghost predicate Generations(s: System) {
    && (forall i :: 0 <= i < |s.log| ==> s.log[i].0 <= s.b.generation)
    && (forall id :: id in s.inFlight ==>
          s.inFlight[id] <= s.b.generation && (s.b.phase.Open? ==> s.inFlight[id] != s.b.generation))
  }

  ghost predicate TripsByDefault(cfg: Settings) {
    forall c: Counts :: cfg.readyToTrip(c) == DefaultTrip(c)
  }

  ghost predicate Phased(cfg: Settings, s: System) {
    match s.b.phase
    case Open => s.b.expiry == Some(s.startedAt + cfg.timeout) && s.b.counts.(requests := 0) == NO_COUNTS
    case HalfOpen =>
      && s.b.expiry == None
      && s.b.counts.totalFailures == 0 && s.b.counts.consecutiveFailures == 0
      && s.b.counts.totalSuccesses == s.b.counts.consecutiveSuccesses <= cfg.maxRequests
    case Closed =>
      && s.b.expiry == (if cfg.interval == 0 then None else Some(s.startedAt + cfg.interval))
      && (TripsByDefault(cfg) ==> s.b.counts.consecutiveFailures <= 5)
  }

  ghost predicate Inv(cfg: Settings, s: System) {
    Tallied(s) && Generations(s) && Phased(cfg, s)
  }

  lemma {:induction false} NothingYet(log: seq<(nat, bool)>, g: nat, success: bool)
    requires forall i :: 0 <= i < |log| ==> log[i].0 < g
    ensures Trailing(log, g, success) == 0 && Total(log, g, success) == 0
  {
    if log != [] {
      NothingYet(log[..|log| - 1], g, success);
    }
  }

  /** One more result of generation g. */
  lemma OneMore(log: seq<(nat, bool)>, g: nat, success: bool)
    ensures Trailing(log + [(g, success)], g, success) == Trailing(log, g, success) + 1
    ensures Trailing(log + [(g, success)], g, !success) == 0
    ensures Total(log + [(g, success)], g, success) == Total(log, g, success) + 1
    ensures Total(log + [(g, success)], g, !success) == Total(log, g, !success)
  {
    assert (log + [(g, success)])[..|log|] == log;
  }

  lemma BeginKeeps(cfg: Settings, s: System, id: nat, now: int, clock: int)
    requires Inv(cfg, s)
    ensures Inv(cfg, DoBegin(cfg, s, id, now, clock))
  {
    var s' := DoBegin(cfg, s, id, now, clock);
    if s'.b.generation != s.b.generation {
      NothingYet(s.log, s'.b.generation, true);
      NothingYet(s.log, s'.b.generation, false);
    }
  }

  /** A result is counted only when the end itself did not start a generation. */
  lemma CountedInPlace(cfg: Settings, s: System, id: nat, now: int, clock: int)
    requires Generations(s) && id in s.inFlight
    requires Refresh(cfg, s.b, now, clock).generation == s.inFlight[id]
    ensures s.inFlight[id] == s.b.generation && !s.b.phase.Open?
    ensures var b := s.b.(counts := s.b.counts.OnRequest()); Refresh(cfg, b, now, clock) == b
  {
  }

  /** A generation without results has no tallies. */
  lemma FreshTallies(s: System)
    requires forall i :: 0 <= i < |s.log| ==> s.log[i].0 < s.b.generation
    requires s.b.counts.(requests := 0) == NO_COUNTS && s.b.counts.requests == s.stale
    ensures Tallied(s)
  {
    NothingYet(s.log, s.b.generation, true);
    NothingYet(s.log, s.b.generation, false);
  }

  function Counted(c: Counts, success: bool): Counts {
    if success then c.OnRequest().OnSuccess() else c.OnRequest().OnFail()
  }

  lemma CountedTallies(s: System, s': System, success: bool)
    requires Tallied(s) && s'.b.generation == s.b.generation && s'.stale == s.stale
    requires s'.log == s.log + [(s.b.generation, success)] && s'.b.counts == Counted(s.b.counts, success)
    ensures Tallied(s')
  {
    OneMore(s.log, s.b.generation, success);
  }

  /** A counted result is tallied, or starts a generation. */
  lemma CountedResult(cfg: Settings, b: Breaker, success: bool, clock: int)
    requires !b.phase.Open?
    ensures var r := b.(counts := b.counts.OnRequest());
            var b' := if success then Succeed(cfg, r, clock) else Fail(cfg, r, clock);
            if b'.generation == b.generation then b'.counts == Counted(b.counts, success)
            else b'.generation == b.generation + 1 && b'.counts == NO_COUNTS
  {
  }

  lemma CountedKeepsTallies(cfg: Settings, s: System, id: nat, success: bool, now: int, clock: int)
    requires Inv(cfg, s) && id in s.inFlight && Refresh(cfg, s.b, now, clock).generation == s.inFlight[id]
    ensures Tallied(DoEnd(cfg, s, id, s.inFlight[id], success, now, clock))
  {
    CountedInPlace(cfg, s, id, now, clock);
    CountedResult(cfg, s.b, success, clock);
    var s' := DoEnd(cfg, s, id, s.b.generation, success, now, clock);
    assert s'.log == s.log + [(s.b.generation, success)];
    if s'.b.generation == s.b.generation {
      CountedTallies(s, s', success);
    } else {
      FreshTallies(s');
    }
  }

  /** The end of a stale request is a refresh, and one more request. */
  lemma StaleKeepsTallies(cfg: Settings, s: System, id: nat, success: bool, now: int, clock: int)
    requires Inv(cfg, s) && id in s.inFlight && Refresh(cfg, s.b, now, clock).generation != s.inFlight[id]
    ensures Tallied(DoEnd(cfg, s, id, s.inFlight[id], success, now, clock))
  {
    var s' := DoEnd(cfg, s, id, s.inFlight[id], success, now, clock);
    if s'.b.generation != s.b.generation {
      FreshTallies(s');
    }
  }

  lemma EndKeepsPhase(cfg: Settings, s: System, id: nat, success: bool, now: int, clock: int)
    requires Inv(cfg, s) && id in s.inFlight
    ensures Phased(cfg, DoEnd(cfg, s, id, s.inFlight[id], success, now, clock))
  {
    if Refresh(cfg, s.b, now, clock).generation == s.inFlight[id] {
      CountedInPlace(cfg, s, id, now, clock);
    }
  }

  lemma EndKeepsGenerations(cfg: Settings, s: System, id: nat, success: bool, now: int, clock: int)
    requires Inv(cfg, s) && id in s.inFlight
    ensures Generations(DoEnd(cfg, s, id, s.inFlight[id], success, now, clock))
  {
    if Refresh(cfg, s.b, now, clock).generation == s.inFlight[id] {
      CountedInPlace(cfg, s, id, now, clock);
    }
  }

  lemma EndKeeps(cfg: Settings, s: System, id: nat, success: bool, now: int, clock: int)
    requires Inv(cfg, s) && id in s.inFlight
    ensures Inv(cfg, DoEnd(cfg, s, id, s.inFlight[id], success, now, clock))
  {
    if Refresh(cfg, s.b, now, clock).generation == s.inFlight[id] {
      CountedKeepsTallies(cfg, s, id, success, now, clock);
    } else {
      StaleKeepsTallies(cfg, s, id, success, now, clock);
    }
    EndKeepsPhase(cfg, s, id, success, now, clock);
    EndKeepsGenerations(cfg, s, id, success, now, clock);
  }

  /** Every reachable system satisfies the invariant. */
  lemma {:induction false} RunKeeps(cfg: Settings, clock: int, events: seq<Event>)
    ensures Inv(cfg, Run(cfg, Start(cfg, clock), events))
  {
    if events != [] {
      RunKeeps(cfg, clock, events[..|events| - 1]);
      var s, e := Run(cfg, Start(cfg, clock), events[..|events| - 1]), events[|events| - 1];
      if Enabled(s, e) {
        match e
        case Begin(id, now, t) => BeginKeeps(cfg, s, id, now, t);
        case End(id, success, now, t) => EndKeeps(cfg, s, id, success, now, t);
      }
    }
  }
}
