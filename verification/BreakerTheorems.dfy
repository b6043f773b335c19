/** What holds of the circuit breaker in every run. */
module BreakerTheorems {
  import opened Counting
  import opened Options
  import opened Breakers
  import opened BreakerRuns

  ghost predicate Reachable(cfg: Settings, s: System) {
    exists clock, events :: s == Run(cfg, Start(cfg, clock), events)
  }

  lemma ReachableInv(cfg: Settings, s: System)
    requires Reachable(cfg, s)
    ensures Inv(cfg, s)
  {
    var clock, events :| s == Run(cfg, Start(cfg, clock), events);
    RunKeeps(cfg, clock, events);
  }

  /** The consecutive tallies are the lengths of the runs that end the log of the current generation, and the totals are
      its counts. */
  lemma TalliesAreTheLog(cfg: Settings, s: System)
    requires Reachable(cfg, s)
    ensures s.b.counts.consecutiveFailures == Trailing(s.log, s.b.generation, false)
    ensures s.b.counts.consecutiveSuccesses == Trailing(s.log, s.b.generation, true)
    ensures s.b.counts.totalFailures == Total(s.log, s.b.generation, false)
    ensures s.b.counts.totalSuccesses == Total(s.log, s.b.generation, true)
  {
    ReachableInv(cfg, s);
  }

  /** All of these events are ends of requests of older generations than the one of s. */
  ghost predicate StaleEnds(s: System, events: seq<Event>) {
    forall i :: 0 <= i < |events| ==>
      events[i].End? && events[i].id in s.inFlight && s.inFlight[events[i].id] < s.b.generation
  }

  /** What the clock alone does to the breaker at the events that happen: their results are not looked at. */
  function Clocked(cfg: Settings, s: System, events: seq<Event>): System {
    if events == [] then s
    else
      var before, e := Clocked(cfg, s, events[..|events| - 1]), events[|events| - 1];
      if !Enabled(before, e) then before
      else before.(b := Refresh(cfg, before.b, e.now, e.clock), time := e.clock, inFlight := before.inFlight - {e.id})
  }

  /** The same but for the number of requests. */
  ghost predicate SameButRequests(b: Breaker, c: Breaker) {
    b.(counts := b.counts.(requests := 0)) == c.(counts := c.counts.(requests := 0))
  }

  /** One more end of a request of an older generation. */
  lemma StaleEnd(cfg: Settings, s: System, b: Breaker, before: nat, id: nat, success: bool, now: int, clock: int)
    requires SameButRequests(s.b, b) && before < s.b.generation
    ensures var t := DoEnd(cfg, s, id, before, success, now, clock);
            && SameButRequests(t.b, Refresh(cfg, b, now, clock)) && t.log == s.log
            && t.b.generation >= s.b.generation
  {
  }

  /** However many requests of older generations end, and however they come out, the log, the tallies and the state are
      as the clock alone would have left them. Only the number of requests differs. */
  lemma {:induction false} StaleResultsDoNotCount(cfg: Settings, s: System, events: seq<Event>)
    requires StaleEnds(s, events)
    ensures var t, u := Run(cfg, s, events), Clocked(cfg, s, events);
            && t.log == s.log && SameButRequests(t.b, u.b) && t.b.generation >= s.b.generation
            && t.time == u.time && t.inFlight == u.inFlight && t.inFlight.Keys <= s.inFlight.Keys
            && forall id :: id in t.inFlight ==> t.inFlight[id] == s.inFlight[id]
  {
    if events != [] {
      var e := events[|events| - 1];
      StaleResultsDoNotCount(cfg, s, events[..|events| - 1]);
      var t, u := Run(cfg, s, events[..|events| - 1]), Clocked(cfg, s, events[..|events| - 1]);
      if Enabled(t, e) {
        StaleEnd(cfg, t, u.b, t.inFlight[e.id], e.id, e.success, e.now, e.clock);
      }
    }
  }

  /** The request was admitted in the current generation, and the interval has not passed since that began. */
  predicate InTime(cfg: Settings, s: System, id: nat, now: int)
    requires id in s.inFlight
  {
    s.inFlight[id] == s.b.generation && (cfg.interval == 0 || now <= s.startedAt + cfg.interval)
  }

  /** Closed, a result is counted if and only if it comes in time. */
  lemma ClosedCountsIffInTime(cfg: Settings, s: System, id: nat, success: bool, now: int, clock: int)
    requires Reachable(cfg, s) && s.b.phase.Closed? && Enabled(s, End(id, success, now, clock))
    ensures Apply(cfg, s, End(id, success, now, clock)).log
         == s.log + if InTime(cfg, s, id, now) then [(s.b.generation, success)] else []
    ensures InTime(cfg, s, id, now) <==> Refresh(cfg, s.b, now, clock).generation == s.inFlight[id]
  {
    ReachableInv(cfg, s);
  }

  /** What the log says about generation g, after so many requests. */
  function LogCounts(log: seq<(nat, bool)>, g: nat, requests: nat): Counts {
    Counts(requests, Total(log, g, true), Total(log, g, false), Trailing(log, g, true), Trailing(log, g, false))
  }

  lemma LogCountsOneMore(s: System, success: bool)
    requires Tallied(s)
    ensures LogCounts(s.log + [(s.b.generation, success)], s.b.generation, s.b.counts.requests + 1)
         == Counted(s.b.counts, success)
  {
    OneMore(s.log, s.b.generation, success);
  }

  lemma CountedTrips(cfg: Settings, b: Breaker, success: bool, now: int, clock: int)
    requires b.phase.Closed?
    requires var r := b.(counts := b.counts.OnRequest()); Refresh(cfg, r, now, clock) == r
    ensures var b' := After(cfg, b.(counts := b.counts.OnRequest()), b.generation, success, now, clock);
            if !success && cfg.readyToTrip(Counted(b.counts, success)) then b'.phase.Open? else b'.phase.Closed?
  {
  }

  /** Closed, the breaker opens exactly on a counted failure after which the rule for tripping holds of what the log
      says about the current generation; otherwise it stays closed. */
  lemma TripsIffReady(cfg: Settings, s: System, id: nat, success: bool, now: int, clock: int)
    requires Reachable(cfg, s) && s.b.phase.Closed? && Enabled(s, End(id, success, now, clock))
    ensures var s' := Apply(cfg, s, End(id, success, now, clock));
            var c := LogCounts(s'.log, s.b.generation, s.b.counts.requests + 1);
            if InTime(cfg, s, id, now) && !success && cfg.readyToTrip(c) then s'.b.phase.Open? else s'.b.phase.Closed?
  {
    ReachableInv(cfg, s);
    ClosedCountsIffInTime(cfg, s, id, success, now, clock);
    if InTime(cfg, s, id, now) {
      CountedInPlace(cfg, s, id, now, clock);
      LogCountsOneMore(s, success);
      CountedTrips(cfg, s.b, success, now, clock);
    }
  }

  /** With the default rule the breaker opens from closed exactly on the sixth counted failure in a row. */
  lemma TripsOnTheSixth(cfg: Settings, s: System, id: nat, success: bool, now: int, clock: int)
    requires Reachable(cfg, s) && TripsByDefault(cfg) && s.b.phase.Closed?
    requires Enabled(s, End(id, success, now, clock))
    ensures var s' := Apply(cfg, s, End(id, success, now, clock));
            s'.b.phase.Open? <==> s'.log != s.log && Trailing(s'.log, s.b.generation, false) == 6
  {
    ReachableInv(cfg, s);
    TripsIffReady(cfg, s, id, success, now, clock);
    ClosedCountsIffInTime(cfg, s, id, success, now, clock);
    OneMore(s.log, s.b.generation, success);
  }

  /** Closed, the breaker lets every request through, and forgets its tallies exactly when an interval is set and has
      passed since the generation began. */
  lemma ClosedForgetsIffExpired(cfg: Settings, s: System, id: nat, now: int, clock: int)
    requires Reachable(cfg, s) && s.b.phase.Closed? && Enabled(s, Begin(id, now, clock))
    ensures var s' := Apply(cfg, s, Begin(id, now, clock));
            && id in s'.inFlight && s'.b.phase.Closed?
            && (if cfg.interval != 0 && s.startedAt + cfg.interval < now
                then s'.b.counts == NO_COUNTS && s'.b.generation == s.b.generation + 1 && s'.startedAt == clock
                else s'.b == s.b)
  {
    ReachableInv(cfg, s);
  }

  // ---- while open ----

  /** A request is let through an open breaker if and only if the timeout since the trip has passed, and then the
      breaker is half-open with nothing counted. */
  lemma OpenAdmitsIffExpired(cfg: Settings, s: System, id: nat, now: int, clock: int)
    requires Reachable(cfg, s) && s.b.phase.Open? && Enabled(s, Begin(id, now, clock))
    ensures var s' := Apply(cfg, s, Begin(id, now, clock));
            && (id in s'.inFlight <==> s.startedAt + cfg.timeout < now)
            && (if id in s'.inFlight then s'.b.phase.HalfOpen? && s'.b.counts == NO_COUNTS else s'.b == s.b)
  {
    ReachableInv(cfg, s);
  }

  /** Whatever happens up to the timeout after a trip, the breaker stays open and lets nothing through. */
  lemma {:induction false} NothingBeforeTimeout(cfg: Settings, s: System, events: seq<Event>)
    requires Reachable(cfg, s) && s.b.phase.Open?
    requires forall i :: 0 <= i < |events| ==> events[i].now <= s.startedAt + cfg.timeout
    ensures var t := Run(cfg, s, events);
            t.b.phase.Open? && t.startedAt == s.startedAt && t.inFlight.Keys <= s.inFlight.Keys
            && t.b.expiry == Some(s.startedAt + cfg.timeout)
  {
    ReachableInv(cfg, s);
    if events != [] {
      NothingBeforeTimeout(cfg, s, events[..|events| - 1]);
    }
  }

  // ---- half-open ----

  /** Half-open, the requests are the successes in a row and the stale ends, and they alone decide what gets through. */
  lemma HalfOpenAdmission(cfg: Settings, s: System, id: nat, now: int, clock: int)
    requires Reachable(cfg, s) && s.b.phase.HalfOpen? && Enabled(s, Begin(id, now, clock))
    ensures s.b.counts.requests == s.stale + s.b.counts.consecutiveSuccesses
    ensures s.b.counts.consecutiveSuccesses <= cfg.maxRequests
    ensures id in Apply(cfg, s, Begin(id, now, clock)).inFlight
       <==> s.stale + s.b.counts.consecutiveSuccesses <= cfg.maxRequests
    ensures s.stale == 0 ==> id in Apply(cfg, s, Begin(id, now, clock)).inFlight
  {
    ReachableInv(cfg, s);
  }

  lemma HalfOpenCounted(cfg: Settings, s: System, id: nat, success: bool, now: int, clock: int)
    requires Inv(cfg, s) && s.b.phase.HalfOpen? && id in s.inFlight && s.inFlight[id] == s.b.generation
    ensures var s' := DoEnd(cfg, s, id, s.b.generation, success, now, clock);
            && s'.log == s.log + [(s.b.generation, success)]
            && (s'.b.phase.Open? <==> !success)
            && (s'.b.phase.Closed? <==> success && s.b.counts.consecutiveSuccesses == cfg.maxRequests)
  {
    CountedInPlace(cfg, s, id, now, clock);
  }

  lemma HalfOpenStale(cfg: Settings, s: System, id: nat, success: bool, now: int, clock: int)
    requires s.b.phase.HalfOpen? && id in s.inFlight && s.inFlight[id] != s.b.generation
    ensures DoEnd(cfg, s, id, s.inFlight[id], success, now, clock).b.phase.HalfOpen?
  {
  }

  /** Half-open, a counted failure opens the breaker, and it closes exactly on the success after maxRequests of them. */
  lemma HalfOpenOutcome(cfg: Settings, s: System, id: nat, success: bool, now: int, clock: int)
    requires Reachable(cfg, s) && s.b.phase.HalfOpen? && Enabled(s, End(id, success, now, clock))
    ensures var s' := Apply(cfg, s, End(id, success, now, clock));
            var counted := s.inFlight[id] == s.b.generation;
            && (s'.b.phase.Open? <==> counted && !success)
            && (s'.b.phase.Closed? <==> counted && Trailing(s'.log, s.b.generation, true) == cfg.maxRequests + 1)
  {
    ReachableInv(cfg, s);
    if s.inFlight[id] == s.b.generation {
      HalfOpenCounted(cfg, s, id, success, now, clock);
      OneMore(s.log, s.b.generation, success);
    } else {
      HalfOpenStale(cfg, s, id, success, now, clock);
    }
  }

  /** Half-open with too many requests counted and no request of this generation running. */
  ghost predicate Stuck(cfg: Settings, s: System) {
    && s.b.phase.HalfOpen? && s.b.counts.requests > cfg.maxRequests
    && forall id :: id in s.inFlight ==> s.inFlight[id] != s.b.generation
  }

  lemma {:induction false} StuckForever(cfg: Settings, s: System, events: seq<Event>)
    requires Stuck(cfg, s)
    ensures Stuck(cfg, Run(cfg, s, events)) && Run(cfg, s, events).inFlight.Keys <= s.inFlight.Keys
  {
    if events != [] {
      StuckForever(cfg, s, events[..|events| - 1]);
    }
  }

  lemma RunOneMore(cfg: Settings, s: System, events: seq<Event>, e: Event)
    ensures var t := Run(cfg, s, events); Run(cfg, s, events + [e]) == if Enabled(t, e) then Apply(cfg, t, e) else t
  {
    assert (events + [e])[..|events|] == events;
  }

  /** A half-open breaker can leave half-open if and only if it is not stuck: stale ends can lock it up for good. */
  lemma LeavesHalfOpenIffNotStuck(cfg: Settings, s: System)
    requires Reachable(cfg, s) && s.b.phase.HalfOpen?
    ensures (exists events :: !Run(cfg, s, events).b.phase.HalfOpen?) <==> !Stuck(cfg, s)
  {
    if Stuck(cfg, s) {
      forall events ensures Run(cfg, s, events).b.phase.HalfOpen? {
        StuckForever(cfg, s, events);
      }
    } else if id :| id in s.inFlight && s.inFlight[id] == s.b.generation {
      RunOneMore(cfg, s, [], End(id, false, s.time, s.time));
    } else {
      var id := UnusedNumber(s.inFlight.Keys);
      var first, second := Begin(id, s.time, s.time), End(id, false, s.time, s.time);
      RunOneMore(cfg, s, [], first);
      RunOneMore(cfg, s, [] + [first], second);
      assert Run(cfg, s, [] + [first]) == DoBegin(cfg, s, id, s.time, s.time);
    }
  }

  // ---- settings, and what counts where they are left out ----

  /** A breaker that has tripped lets nothing through for its timeout, ten seconds if none is set. */
  lemma OpenForTimeout(maxRequests: nat, interval: int, timeout: int, readyToTrip: Option<Counts -> bool>, s: System,
                       id: nat, now: int, clock: int)
    requires Reachable(WithDefaults(maxRequests, interval, timeout, readyToTrip), s) && s.b.phase.Open?
    requires Enabled(s, Begin(id, now, clock))
    ensures id in Apply(WithDefaults(maxRequests, interval, timeout, readyToTrip), s, Begin(id, now, clock)).inFlight
       <==> now - s.startedAt > if timeout == 0 then 10_000_000_000 else timeout
  {
    OpenAdmitsIffExpired(WithDefaults(maxRequests, interval, timeout, readyToTrip), s, id, now, clock);
  }

  /** A half-open breaker closes exactly on the success after maxRequests of them, the third if none is set. */
  lemma ClosesAfterSuccesses(maxRequests: nat, interval: int, timeout: int, readyToTrip: Option<Counts -> bool>,
                             s: System, id: nat, success: bool, now: int, clock: int)
    requires Reachable(WithDefaults(maxRequests, interval, timeout, readyToTrip), s) && s.b.phase.HalfOpen?
    requires Enabled(s, End(id, success, now, clock))
    ensures var s' := Apply(WithDefaults(maxRequests, interval, timeout, readyToTrip), s, End(id, success, now, clock));
            s'.b.phase.Closed? <==>
              && s.inFlight[id] == s.b.generation
              && Trailing(s'.log, s.b.generation, true) == if maxRequests == 0 then 3 else maxRequests + 1
  {
    HalfOpenOutcome(WithDefaults(maxRequests, interval, timeout, readyToTrip), s, id, success, now, clock);
  }

  /** A closed breaker asks the rule for tripping it was given; without one, six failures in a row trip. */
  lemma TripsAsAsked(maxRequests: nat, interval: int, timeout: int, readyToTrip: Option<Counts -> bool>, s: System,
                     id: nat, success: bool, now: int, clock: int)
    requires Reachable(WithDefaults(maxRequests, interval, timeout, readyToTrip), s) && s.b.phase.Closed?
    requires Enabled(s, End(id, success, now, clock))
    ensures var s' := Apply(WithDefaults(maxRequests, interval, timeout, readyToTrip), s, End(id, success, now, clock));
            var c := LogCounts(s'.log, s.b.generation, s.b.counts.requests + 1);
            s'.b.phase.Open? <==>
              s'.log == s.log + [(s.b.generation, false)]
              && match readyToTrip
                 case Some(ready) => ready(c)
                 case None => c.consecutiveFailures >= 6
  {
    var cfg := WithDefaults(maxRequests, interval, timeout, readyToTrip);
    TripsIffReady(cfg, s, id, success, now, clock);
    ClosedCountsIffInTime(cfg, s, id, success, now, clock);
  }
}
