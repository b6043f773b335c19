/** Which breakers can get stuck in half-open. */
module StuckBreakers {
  import opened Options
  import opened Breakers
  import opened BreakerRuns
  import opened BreakerTheorems

  /** Some run opens the breaker. */
  ghost predicate CanOpen(cfg: Settings) {
    exists s :: Reachable(cfg, s) && s.b.phase.Open?
  }

  /** Some run gets the breaker stuck. */
  ghost predicate CanStick(cfg: Settings) {
    exists s :: Reachable(cfg, s) && Stuck(cfg, s)
  }

  // ---- only a breaker that can open can get stuck ----

  lemma ClosedStep(cfg: Settings, s: System, e: Event)
    requires s.b.phase.Closed? && Enabled(s, e)
    ensures !Apply(cfg, s, e).b.phase.HalfOpen?
  {
  }

  lemma {:induction false} NotClosedHasOpened(cfg: Settings, clock: int, events: seq<Event>)
    ensures Run(cfg, Start(cfg, clock), events).b.phase.Closed? || CanOpen(cfg)
  {
    if events != [] {
      var first, e := events[..|events| - 1], events[|events| - 1];
      NotClosedHasOpened(cfg, clock, first);
      var before := Run(cfg, Start(cfg, clock), first);
      if before.b.phase.Closed? && Enabled(before, e) {
        ClosedStep(cfg, before, e);
        assert Reachable(cfg, Run(cfg, Start(cfg, clock), events));
      }
    }
  }

  // ---- a run with more requests in flight from the start ----

  /** The n requests from id on, all of the first generation. */
  function Extras(id: nat, n: nat): (r: map<nat, nat>)
    ensures forall i: nat :: i in r <==> id <= i < id + n
    ensures forall i: nat :: i in r ==> r[i] == 1
  {
    if n == 0 then map[] else Extras(id, n - 1)[id + n - 1 := 1]
  }

  function With(s: System, extras: map<nat, nat>): System {
    s.(inFlight := s.inFlight + extras)
  }

  lemma RunStep(cfg: Settings, s: System, events: seq<Event>, t: System, e: Event)
    requires Run(cfg, s, events) == t && Enabled(t, e)
    ensures Run(cfg, s, events + [e]) == Apply(cfg, t, e)
  {
    RunOneMore(cfg, s, events, e);
  }

  /** Closed in its first generation, with nothing in flight. */
  predicate IsNew(s: System) {
    && s.b.phase.Closed? && s.b.generation == 1 && s.inFlight == map[]
    && (s.b.expiry.Some? ==> s.time <= s.b.expiry.value)
  }

  lemma BeginOne(cfg: Settings, s: System, id: nat, n: nat)
    requires IsNew(s)
    ensures Enabled(With(s, Extras(id, n)), Begin(id + n, s.time, s.time))
    ensures DoBegin(cfg, With(s, Extras(id, n)), id + n, s.time, s.time) == With(s, Extras(id, n + 1))
  {
    assert s.inFlight + Extras(id, n) == Extras(id, n) && s.inFlight + Extras(id, n + 1) == Extras(id, n + 1);
  }

  lemma NoExtras(s: System, id: nat)
    ensures With(s, Extras(id, 0)) == s
  {
    assert s.inFlight + Extras(id, 0) == s.inFlight;
  }

  lemma {:induction false} BeginsRun(cfg: Settings, s: System, id: nat, n: nat) returns (events: seq<Event>)
    requires IsNew(s)
    ensures Run(cfg, s, events) == With(s, Extras(id, n))
  {
    if n == 0 {
      events := [];
      NoExtras(s, id);
    } else {
      var first := BeginsRun(cfg, s, id, n - 1);
      var e := Begin(id + n - 1, s.time, s.time);
      BeginOne(cfg, s, id, n - 1);
      RunStep(cfg, s, first, With(s, Extras(id, n - 1)), e);
      events := first + [e];
    }
  }

  /** A number above the ids of all events. */
  function Above(events: seq<Event>): nat {
    if events == [] then 0
    else
      var a, id := Above(events[..|events| - 1]), events[|events| - 1].id;
      if a <= id then id + 1 else a
  }

  lemma StepWith(cfg: Settings, s: System, extras: map<nat, nat>, e: Event)
    requires s.inFlight.Keys !! extras.Keys && e.id !in extras
    ensures Enabled(With(s, extras), e) <==> Enabled(s, e)
    ensures Enabled(s, e) ==>
              Apply(cfg, With(s, extras), e) == With(Apply(cfg, s, e), extras)
              && Apply(cfg, s, e).inFlight.Keys !! extras.Keys
  {
    if Enabled(s, e) {
      var g := Refresh(cfg, s.b, e.now, e.clock).generation;
      assert (s.inFlight + extras) - {e.id} == (s.inFlight - {e.id}) + extras;
      assert (s.inFlight + extras)[e.id := g] == s.inFlight[e.id := g] + extras;
    }
  }

  /** Requests that never end change nothing else. */
  lemma {:induction false} RunWith(cfg: Settings, s: System, id: nat, n: nat, events: seq<Event>)
    requires s.inFlight == map[] && Above(events) <= id
    ensures Run(cfg, With(s, Extras(id, n)), events) == With(Run(cfg, s, events), Extras(id, n))
    ensures Run(cfg, s, events).inFlight.Keys !! Extras(id, n).Keys
  {
    if events != [] {
      var first, e := events[..|events| - 1], events[|events| - 1];
      RunWith(cfg, s, id, n, first);
      StepWith(cfg, Run(cfg, s, first), Extras(id, n), e);
    }
  }

  lemma {:induction false} RunOn(cfg: Settings, s: System, a: seq<Event>, b: seq<Event>)
    ensures Run(cfg, s, a + b) == Run(cfg, Run(cfg, s, a), b)
  {
    if b == [] {
      assert a + b == a;
    } else {
      assert (a + b)[..|a + b| - 1] == a + b[..|b| - 1];
      RunOn(cfg, s, a, b[..|b| - 1]);
    }
  }

  /** Whatever a run reaches can be reached with n more requests in flight, all from the time before its first event. */
  lemma ReachedWith(cfg: Settings, clock: int, events: seq<Event>, n: nat) returns (id: nat, s: System)
    requires cfg.interval >= 0
    ensures id == Above(events) && Reachable(cfg, s)
    ensures s == With(Run(cfg, Start(cfg, clock), events), Extras(id, n))
  {
    id := Above(events);
    var begins := BeginsRun(cfg, Start(cfg, clock), id, n);
    RunWith(cfg, Start(cfg, clock), id, n, events);
    RunOn(cfg, Start(cfg, clock), begins, events);
    s := With(Run(cfg, Start(cfg, clock), events), Extras(id, n));
    assert s == Run(cfg, Start(cfg, clock), begins + events);
  }

  // ---- stragglers ----

  /** Half-open, and the first n of the stragglers have ended. */
  ghost predicate Straggled(s: System, t: System, id: nat, n: nat, now: int) {
    && t.b.phase.HalfOpen? && t.b.generation == s.b.generation + 1 && t.b.counts.requests == n - 1 && t.time == now
    && (forall i: nat :: i in t.inFlight ==> i in s.inFlight && t.inFlight[i] == s.inFlight[i])
    && (forall i: nat :: i in s.inFlight && i >= id + n ==> i in t.inFlight)
  }

  lemma FirstStraggler(cfg: Settings, s: System, id: nat, now: int)
    requires s.b.phase.Open? && s.b.expiry.Some? && s.b.expiry.value < now && id in s.inFlight
    requires s.inFlight[id] <= s.b.generation
    ensures Straggled(s, DoEnd(cfg, s, id, s.inFlight[id], true, now, now), id, 1, now)
  {
  }

  lemma NextStraggler(cfg: Settings, s: System, t: System, id: nat, n: nat, now: int)
    requires Straggled(s, t, id, n, now) && n >= 1 && id + n in t.inFlight && t.inFlight[id + n] <= s.b.generation
    ensures Straggled(s, DoEnd(cfg, t, id + n, t.inFlight[id + n], true, now, now), id, n + 1, now)
  {
  }

  /** The first straggler finds the timeout over, and none of them is counted as a success. */
  lemma {:induction false} StragglersEnd(cfg: Settings, s: System, id: nat, n: nat, now: int)
    returns (events: seq<Event>)
    requires s.b.phase.Open? && s.b.expiry.Some? && s.b.expiry.value < now && s.time <= now
    requires forall i: nat :: i in s.inFlight ==> s.inFlight[i] <= s.b.generation
    requires n >= 1 && forall i: nat :: id <= i < id + n ==> i in s.inFlight
    ensures Straggled(s, Run(cfg, s, events), id, n, now)
  {
    var first, t, last := [], s, id + n - 1;
    if n == 1 {
      FirstStraggler(cfg, s, id, now);
    } else {
      first := StragglersEnd(cfg, s, id, n - 1, now);
      t := Run(cfg, s, first);
      NextStraggler(cfg, s, t, id, n - 1, now);
    }
    RunStep(cfg, s, first, t, End(last, true, now, now));
    events := first + [End(last, true, now, now)];
  }

  lemma OpenSticks(cfg: Settings, clock: int, events: seq<Event>)
    requires cfg.interval >= 0 && Run(cfg, Start(cfg, clock), events).b.phase.Open?
    ensures CanStick(cfg)
  {
    var n := cfg.maxRequests + 2;
    var id, s := ReachedWith(cfg, clock, events, n);
    ReachableInv(cfg, s);
    var now := if s.time <= s.b.expiry.value then s.b.expiry.value + 1 else s.time;
    var ends := StragglersEnd(cfg, s, id, n, now);
    ReachableOn(cfg, s, ends);
    assert Stuck(cfg, Run(cfg, s, ends));
  }

  lemma ReachableOn(cfg: Settings, s: System, events: seq<Event>)
    requires Reachable(cfg, s)
    ensures Reachable(cfg, Run(cfg, s, events))
  {
    var clock, before :| s == Run(cfg, Start(cfg, clock), before);
    RunOn(cfg, Start(cfg, clock), before, events);
  }

  /** With a negative interval every event starts a generation, so that no result is ever counted. */
  lemma {:induction false} NegativeNeverOpens(cfg: Settings, clock: int, events: seq<Event>)
    requires cfg.interval < 0
    ensures var s := Run(cfg, Start(cfg, clock), events);
            s.b.phase.Closed? && s.b.expiry.Some? && s.b.expiry.value < s.time
  {
    RunKeeps(cfg, clock, events);
    if events != [] {
      NegativeNeverOpens(cfg, clock, events[..|events| - 1]);
      RunKeeps(cfg, clock, events[..|events| - 1]);
    }
  }

  /** For all settings: a run can get the breaker stuck if and only if a run can open it. */
  lemma StuckIffOpens(cfg: Settings)
    ensures CanStick(cfg) <==> CanOpen(cfg)
  {
    if CanStick(cfg) {
      var s :| Reachable(cfg, s) && Stuck(cfg, s);
      var clock, events :| s == Run(cfg, Start(cfg, clock), events);
      NotClosedHasOpened(cfg, clock, events);
    }
    if CanOpen(cfg) {
      var s :| Reachable(cfg, s) && s.b.phase.Open?;
      var clock, events :| s == Run(cfg, Start(cfg, clock), events);
      if cfg.interval < 0 {
        NegativeNeverOpens(cfg, clock, events);
      } else {
        OpenSticks(cfg, clock, events);
      }
    }
  }

  // ---- the default rule ----

  /** The first n of six requests have failed, and nothing else has happened. */
  ghost predicate Failed(s: System, n: nat) {
    && s.b == Breaker(Closed, 1, Counts(n, 0, n, 0, n), s.b.expiry)
    && s.time == 0 && (s.b.expiry.Some? ==> s.b.expiry.value >= 0)
    && forall i: nat :: n <= i < 6 ==> i in s.inFlight && s.inFlight[i] == 1
  }

  lemma FailOne(cfg: Settings, s: System, n: nat)
    requires TripsByDefault(cfg) && n < 6 && Failed(s, n)
    ensures Enabled(s, End(n, false, 0, 0))
    ensures var t := DoEnd(cfg, s, n, 1, false, 0, 0); if n < 5 then Failed(t, n + 1) else t.b.phase.Open?
  {
  }

  lemma {:induction false} FailuresRun(cfg: Settings, s: System, n: nat) returns (events: seq<Event>)
    requires TripsByDefault(cfg) && n <= 6 && Failed(s, 0)
    ensures var t := Run(cfg, s, events); if n < 6 then Failed(t, n) else t.b.phase.Open?
  {
    if n == 0 {
      events := [];
    } else {
      var first := FailuresRun(cfg, s, n - 1);
      var t, e := Run(cfg, s, first), End(n - 1, false, 0, 0);
      FailOne(cfg, t, n - 1);
      RunStep(cfg, s, first, t, e);
      events := first + [e];
    }
  }

  /** By default, whatever maxRequests and the timeout are, the breaker can get stuck exactly when the interval is not
      negative: six failures open it, and maxRequests + 2 requests that outlive the timeout are enough, although they
      succeed. */
  lemma StuckIsReached(cfg: Settings)
    requires TripsByDefault(cfg)
    ensures CanStick(cfg) <==> cfg.interval >= 0
  {
    StuckIffOpens(cfg);
    if cfg.interval >= 0 {
      var id, s := ReachedWith(cfg, 0, [], 6);
      var failures := FailuresRun(cfg, s, 6);
      ReachableOn(cfg, s, failures);
    } else if CanOpen(cfg) {
      var s :| Reachable(cfg, s) && s.b.phase.Open?;
      var clock, events :| s == Run(cfg, Start(cfg, clock), events);
      NegativeNeverOpens(cfg, clock, events);
    }
  }
}
