/** One connection of the RPC server (psygo/rpc/server.go) as a transition system: the reading loop of serveCodec, and
    for each request the handler goroutine of handleRequest with the worker goroutine it starts, without a breaker.
    The two meet on the unbuffered channels called and sent. */
module RpcServers {
  import opened Options
  import opened Counting

  datatype Handler =
    | Waiting            // for called, or for the timeout
    | WantTimeout        // the timeout came first: wants sending
    | SendingTimeout     // holds sending
    | AwaitSent
    | Returning          // before wg.Done
    | Returned

  datatype Worker =
    | InCall             // runs the service method
    | OfferCalled(failed: bool)
    | WantReply(failed: bool)
    | SendingReply(failed: bool) // holds sending
    | OfferSent
    | Ended

  datatype Response = TimedOut | Reply(failed: bool)

  /** responses holds what was written for the request; failed, what the method returned, is a history. */
  datatype Request = Request(h: Handler, w: Worker, responses: seq<Response>, failed: Option<bool>)

  datatype Loop =
    | Reading
    | WantBad            // an invalid request: wants sending
    | SendingBad         // holds sending
    | AtGo               // has called wg.Add
    | AtWait             // no more requests
    | AtClose
    | Done

  datatype Holder = ByHandler(r: nat) | ByWorker(r: nat) | ByLoop

  datatype State = State(
    sending: Option<Holder>,
    wg: int,
    loop: Loop,
    closed: bool,
    requests: map<nat, Request>,
    badRead: nat,
    badWritten: nat)
  {
    function Set(r: nat, q: Request): State {
      this.(requests := requests[r := q])
    }
  }

  function Init(): State {
    State(None, 0, Reading, false, map[], 0, 0)
  }

  datatype LoopStep = ReadGood | ReadBad | ReadNone | LockBad | WriteBad | Go(r: nat) | Wait | Close

  datatype RequestStep =
    | CallReturns(failed: bool)
    | MeetOnCalled
    | Timeout
    | LockTimeout
    | WriteTimeout
    | LockReply
    | WriteReply
    | MeetOnSent
    | WgDone

  datatype Step = OfLoop(l: LoopStep) | Of(r: nat, q: RequestStep)

  // ---- the reading loop ----

  predicate LoopEnabled(s: State, l: LoopStep) {
    match l
    case ReadGood => s.loop.Reading?
    case ReadBad => s.loop.Reading?
    case ReadNone => s.loop.Reading?
    case LockBad => s.loop.WantBad? && s.sending == None
    case WriteBad => s.loop.SendingBad?
    case Go(r) => s.loop.AtGo? && r !in s.requests
    case Wait => s.loop.AtWait? && s.wg == 0
    case Close => s.loop.AtClose?
  }

  function ApplyLoop(s: State, l: LoopStep): State
    requires LoopEnabled(s, l)
  {
    match l
    case ReadGood => s.(loop := AtGo, wg := s.wg + 1)
    case ReadBad => s.(loop := WantBad, badRead := s.badRead + 1)
    case ReadNone => s.(loop := AtWait)
    case LockBad => s.(loop := SendingBad, sending := Some(ByLoop))
    case WriteBad => s.(loop := Reading, sending := None, badWritten := s.badWritten + 1)
    case Go(r) => s.Set(r, Request(Waiting, InCall, [], None)).(loop := Reading)
    case Wait => s.(loop := AtClose)
    case Close => s.(loop := Done, closed := true)
  }

  // ---- a request ----

  predicate RequestEnabled(timeout: int, s: State, r: nat, step: RequestStep) {
    && r in s.requests
    && var q := s.requests[r];
    match step
    case CallReturns(_) => q.w.InCall?
    case MeetOnCalled => q.h.Waiting? && q.w.OfferCalled?
    case Timeout => q.h.Waiting? && timeout != 0
    case LockTimeout => q.h.WantTimeout? && s.sending == None
    case WriteTimeout => q.h.SendingTimeout?
    case LockReply => q.w.WantReply? && s.sending == None
    case WriteReply => q.w.SendingReply?
    case MeetOnSent => q.h.AwaitSent? && q.w.OfferSent?
    case WgDone => q.h.Returning?
  }

  function ApplyRequest(timeout: int, s: State, r: nat, step: RequestStep): State
    requires RequestEnabled(timeout, s, r, step)
  {
    var q := s.requests[r];
    match step
    case CallReturns(failed) => s.Set(r, q.(w := OfferCalled(failed), failed := Some(failed)))
    case MeetOnCalled => s.Set(r, q.(h := AwaitSent, w := WantReply(q.w.failed)))
    case Timeout => s.Set(r, q.(h := WantTimeout))
    case LockTimeout => s.Set(r, q.(h := SendingTimeout)).(sending := Some(ByHandler(r)))
    case WriteTimeout => s.Set(r, q.(h := Returning, responses := q.responses + [TimedOut])).(sending := None)
    case LockReply => s.Set(r, q.(w := SendingReply(q.w.failed))).(sending := Some(ByWorker(r)))
    case WriteReply => s.Set(r, q.(w := OfferSent, responses := q.responses + [Reply(q.w.failed)])).(sending := None)
    case MeetOnSent => s.Set(r, q.(h := Returning, w := Ended))
    case WgDone => s.Set(r, q.(h := Returned)).(wg := s.wg - 1)
  }

  predicate Enabled(timeout: int, s: State, step: Step) {
    match step
    case OfLoop(l) => LoopEnabled(s, l)
    case Of(r, q) => RequestEnabled(timeout, s, r, q)
  }

  function Apply(timeout: int, s: State, step: Step): State
    requires Enabled(timeout, s, step)
  {
    match step
    case OfLoop(l) => ApplyLoop(s, l)
    case Of(r, q) => ApplyRequest(timeout, s, r, q)
  }

  /** The state after a run; steps that are not enabled do nothing. */
  function Run(timeout: int, steps: seq<Step>): State {
    if steps == [] then Init()
    else
      var s, step := Run(timeout, steps[..|steps| - 1]), steps[|steps| - 1];
      if Enabled(timeout, s, step) then Apply(timeout, s, step) else s
  }

  // ---- the invariant ----

  predicate IsActive(q: Request) {
    !q.h.Returned?
  }

  /** What one request may look like: who has written decides what the goroutines may do. */
  predicate RequestOk(timeout: int, q: Request) {
    && PhasesOk(timeout, q)
    && (q.w.OfferCalled? || q.w.WantReply? || q.w.SendingReply? ==> q.failed == Some(q.w.failed))
    && (q.responses != [] && q.responses[0].Reply? ==> q.failed == Some(q.responses[0].failed))
  }

  predicate PhasesOk(timeout: int, q: Request) {
    match q.h
    case Waiting => q.responses == [] && (q.w.InCall? || q.w.OfferCalled?)
    case WantTimeout => timeout != 0 && q.responses == [] && (q.w.InCall? || q.w.OfferCalled?)
    case SendingTimeout => timeout != 0 && q.responses == [] && (q.w.InCall? || q.w.OfferCalled?)
    case AwaitSent =>
      (q.responses == [] && (q.w.WantReply? || q.w.SendingReply?)) ||
      (q.w.OfferSent? && |q.responses| == 1 && q.responses[0].Reply?)
    case _ =>
      && |q.responses| == 1
      && (q.responses[0].TimedOut? ==> timeout != 0 && (q.w.InCall? || q.w.OfferCalled?))
      && (q.responses[0].Reply? ==> q.w.Ended?)
  }

  predicate LockOk(s: State, r: nat)
    requires r in s.requests
  {
    && (s.requests[r].h.SendingTimeout? <==> s.sending == Some(ByHandler(r)))
    && (s.requests[r].w.SendingReply? <==> s.sending == Some(ByWorker(r)))
  }

  ghost predicate LoopOk(s: State) {
    && s.wg == Count(s.requests, IsActive) + One(s.loop.AtGo?)
    && (s.loop.SendingBad? <==> s.sending == Some(ByLoop))
    && (s.loop.AtClose? || s.loop.Done? ==> s.wg == 0)
    && (s.closed <==> s.loop.Done?)
    && s.badRead == s.badWritten + One(s.loop.WantBad? || s.loop.SendingBad?)
    && (s.sending.Some? && !s.sending.value.ByLoop? ==> s.sending.value.r in s.requests)
  }

  ghost predicate Inv(timeout: int, s: State) {
    LoopOk(s) && forall r :: r in s.requests ==> RequestOk(timeout, s.requests[r]) && LockOk(s, r)
  }

  lemma LoopKeeps(timeout: int, s: State, l: LoopStep)
    requires Inv(timeout, s) && LoopEnabled(s, l)
    ensures Inv(timeout, ApplyLoop(s, l))
  {
    if l.Go? {
      CountUpdate(s.requests, l.r, Request(Waiting, InCall, [], None), IsActive);
    }
    var s' := ApplyLoop(s, l);
    forall r | r in s'.requests ensures RequestOk(timeout, s'.requests[r]) && LockOk(s', r) {
      assert r in s.requests ==> LockOk(s, r);
    }
  }

  lemma ActiveIsCounted(s: State, r: nat)
    requires r in s.requests && IsActive(s.requests[r])
    ensures Count(s.requests, IsActive) > 0
  {
    assert r in Members(s.requests, IsActive);
  }

  lemma RequestKeepsLoop(timeout: int, s: State, r: nat, step: RequestStep)
    requires Inv(timeout, s) && RequestEnabled(timeout, s, r, step)
    ensures LoopOk(ApplyRequest(timeout, s, r, step))
  {
    assert LockOk(s, r);
    var s' := ApplyRequest(timeout, s, r, step);
    CountUpdate(s.requests, r, s'.requests[r], IsActive);
    assert s'.requests == s.requests[r := s'.requests[r]];
    if step.WgDone? {
      ActiveIsCounted(s, r);
    }
  }

  lemma RequestKeeps(timeout: int, s: State, r: nat, step: RequestStep)
    requires Inv(timeout, s) && RequestEnabled(timeout, s, r, step)
    ensures Inv(timeout, ApplyRequest(timeout, s, r, step))
  {
    RequestKeepsLoop(timeout, s, r, step);
    var s' := ApplyRequest(timeout, s, r, step);
    assert LockOk(s, r);
    forall p | p in s'.requests ensures RequestOk(timeout, s'.requests[p]) && LockOk(s', p) {
      assert p in s.requests && RequestOk(timeout, s.requests[p]) && LockOk(s, p);
    }
  }

  lemma FreshInv(timeout: int, s: State)
    requires s.sending == None && s.wg == 0 && s.loop.Reading? && !s.closed && s.requests == map[]
    requires s.badRead == s.badWritten
    ensures Inv(timeout, s)
  {
    CountNone(IsActive);
  }

  lemma StepKeeps(timeout: int, s: State, step: Step)
    requires Inv(timeout, s) && Enabled(timeout, s, step)
    ensures Inv(timeout, Apply(timeout, s, step))
  {
    match step
    case OfLoop(l) => LoopKeeps(timeout, s, l);
    case Of(r, q) => RequestKeeps(timeout, s, r, q);
  }

  /** Every reachable state satisfies the invariant. */
  lemma {:induction false} RunKeeps(timeout: int, steps: seq<Step>)
    ensures Inv(timeout, Run(timeout, steps))
  {
    if steps == [] {
      FreshInv(timeout, Init());
    } else {
      var s, step := Run(timeout, steps[..|steps| - 1]), steps[|steps| - 1];
      RunKeeps(timeout, steps[..|steps| - 1]);
      if Enabled(timeout, s, step) {
        StepKeeps(timeout, s, step);
      }
    }
  }

  // ---- what holds of a connection in every run ----

  /** The state after a run of a server with this timeout. */
  ghost predicate Reached(timeout: int, steps: seq<Step>, s: State) {
    s == Run(timeout, steps)
  }

  /** Never more than one response for a request, and exactly one once its handler returns; a response other than the
      timeout reports what the method returned. */
  lemma OneResponse(timeout: int, steps: seq<Step>, s: State, r: nat)
    requires Reached(timeout, steps, s) && r in s.requests
    ensures |s.requests[r].responses| <= 1
    ensures s.requests[r].h.Returning? || s.requests[r].h.Returned? ==> |s.requests[r].responses| == 1
    ensures s.requests[r].responses != [] && s.requests[r].responses[0].Reply? ==>
              s.requests[r].failed == Some(s.requests[r].responses[0].failed)
  {
    RunKeeps(timeout, steps);
    assert RequestOk(timeout, s.requests[r]);
  }

  /** Without a timeout the response is the method's own. */
  lemma NoTimeout(steps: seq<Step>, s: State, r: nat)
    requires Reached(0, steps, s) && r in s.requests && s.requests[r].responses != []
    ensures s.requests[r].responses[0].Reply?
  {
    RunKeeps(0, steps);
    assert RequestOk(0, s.requests[r]);
  }

  predicate Writes(step: Step) {
    step == OfLoop(WriteBad) || (step.Of? && (step.q.WriteTimeout? || step.q.WriteReply?))
  }

  /** The codec is closed only after every handler has returned. */
  lemma CloseIsLast(timeout: int, steps: seq<Step>, s: State, r: nat)
    requires Reached(timeout, steps, s) && s.closed && r in s.requests
    ensures s.requests[r].h.Returned?
  {
    RunKeeps(timeout, steps);
    if IsActive(s.requests[r]) {
      ActiveIsCounted(s, r);
    }
  }

  /** Nothing is written on a closed codec. */
  lemma NothingWrittenAfterClose(timeout: int, steps: seq<Step>, s: State, step: Step)
    requires Reached(timeout, steps, s) && s.closed && Enabled(timeout, s, step)
    ensures !Writes(step)
  {
    RunKeeps(timeout, steps);
    if step.Of? {
      CloseIsLast(timeout, steps, s, step.r);
      assert RequestOk(timeout, s.requests[step.r]);
    }
  }

  /** Each invalid request gets its response from the reading loop before the next one is read. */
  lemma InvalidRequestsAnswered(timeout: int, steps: seq<Step>, s: State)
    requires Reached(timeout, steps, s) && s.loop.Reading?
    ensures s.badWritten == s.badRead
  {
    RunKeeps(timeout, steps);
  }

  /** The WaitGroup counts the handlers that have not returned. */
  lemma WaitGroupCounts(timeout: int, steps: seq<Step>, s: State)
    requires Reached(timeout, steps, s)
    ensures s.wg == Count(s.requests, IsActive) + One(s.loop.AtGo?)
  {
    RunKeeps(timeout, steps);
  }

  lemma ResponsesStay(timeout: int, s: State, step: Step, r: nat)
    requires r in s.requests && Enabled(timeout, s, step)
    ensures r in Apply(timeout, s, step).requests
    ensures s.requests[r].responses <= Apply(timeout, s, step).requests[r].responses
  {
  }

  predicate HasTimedOut(s: State, r: nat) {
    r in s.requests && TimedOut in s.requests[r].responses
  }

  /** The handler has chosen the timeout, or written it already. */
  predicate ChoseTimeout(s: State, r: nat) {
    r in s.requests && (s.requests[r].h.WantTimeout? || s.requests[r].h.SendingTimeout? || HasTimedOut(s, r))
  }

  predicate KeepsTimeout(s: State, s': State, r: nat) {
    (ChoseTimeout(s, r) ==> ChoseTimeout(s', r)) && (HasTimedOut(s, r) ==> HasTimedOut(s', r))
  }

  lemma StepKeepsTimeout(timeout: int, s: State, step: Step, r: nat)
    requires Enabled(timeout, s, step)
    ensures KeepsTimeout(s, Apply(timeout, s, step), r)
  {
    if r in s.requests {
      ResponsesStay(timeout, s, step, r);
      if step == Of(r, WriteTimeout) {
        var q := s.requests[r];
        assert (q.responses + [TimedOut])[|q.responses|] == TimedOut;
      }
    }
  }

  lemma {:induction false} RunKeepsTimeout(timeout: int, steps: seq<Step>, more: seq<Step>, r: nat)
    ensures KeepsTimeout(Run(timeout, steps), Run(timeout, steps + more), r)
  {
    if more == [] {
      assert steps + more == steps;
    } else {
      var before, step := steps + more[..|more| - 1], more[|more| - 1];
      RunKeepsTimeout(timeout, steps, more[..|more| - 1], r);
      assert (steps + more)[..|steps + more| - 1] == before;
      RunsOn(timeout, steps + more, before, step, r);
    }
  }

  lemma RunsOn(timeout: int, steps: seq<Step>, before: seq<Step>, step: Step, r: nat)
    requires steps == before + [step]
    ensures KeepsTimeout(Run(timeout, before), Run(timeout, steps), r)
  {
    assert steps[..|steps| - 1] == before;
    if Enabled(timeout, Run(timeout, before), step) {
      StepKeepsTimeout(timeout, Run(timeout, before), step, r);
    }
  }

  // ---- the worker can end unless the handler has chosen the timeout ----

  lemma RunOneMore(timeout: int, steps: seq<Step>, step: Step)
    requires Enabled(timeout, Run(timeout, steps), step)
    ensures Run(timeout, steps + [step]) == Apply(timeout, Run(timeout, steps), step)
  {
    assert (steps + [step])[..|steps|] == steps;
  }

  predicate HasEnded(s: State, r: nat) {
    r in s.requests && s.requests[r].w.Ended?
  }

  /** A run that takes one step more and goes on as another. */
  lemma GoOn(timeout: int, steps: seq<Step>, step: Step, more: seq<Step>) returns (all: seq<Step>)
    ensures steps + all == steps + [step] + more
  {
    all := [step] + more;
  }

  /** Another holder gives sending back, and the request is as it was. */
  lemma FreeSending(timeout: int, s: State, r: nat) returns (step: Step)
    requires Inv(timeout, s) && r in s.requests && s.requests[r].w.WantReply? && s.sending.Some?
    ensures Enabled(timeout, s, step)
    ensures r in Apply(timeout, s, step).requests && Apply(timeout, s, step).requests[r] == s.requests[r]
    ensures Apply(timeout, s, step).sending == None
  {
    assert RequestOk(timeout, s.requests[r]);
    match s.sending.value
    case ByLoop => step := OfLoop(WriteBad);
    case ByHandler(p) =>
      assert LockOk(s, p);
      step := Of(p, WriteTimeout);
    case ByWorker(p) =>
      assert LockOk(s, p);
      step := Of(p, WriteReply);
  }

  /** What the request does next on the way to its worker's end. */
  lemma NextStep(timeout: int, s: State, r: nat) returns (step: Step)
    requires Inv(timeout, s) && r in s.requests && !ChoseTimeout(s, r) && !HasEnded(s, r)
    requires s.requests[r].w.WantReply? ==> s.sending == None
    ensures Enabled(timeout, s, step) && r in Apply(timeout, s, step).requests
    ensures !ChoseTimeout(Apply(timeout, s, step), r)
    ensures Remaining(Apply(timeout, s, step).requests[r].w) < Remaining(s.requests[r].w)
  {
    var q := s.requests[r];
    assert RequestOk(timeout, q);
    var own := match q.w
      case InCall => CallReturns(false)
      case OfferCalled(_) => MeetOnCalled
      case WantReply(_) => LockReply
      case SendingReply(_) => WriteReply
      case _ => MeetOnSent;
    step := Of(r, own);
    assert RequestEnabled(timeout, s, r, own);
    assert q.responses == [] || q.responses == [q.responses[0]];
    assert !HasTimedOut(Apply(timeout, s, step), r);
  }

  function Remaining(w: Worker): nat {
    match w
    case InCall => 5
    case OfferCalled(_) => 4
    case WantReply(_) => 3
    case SendingReply(_) => 2
    case OfferSent => 1
    case Ended => 0
  }

  lemma {:induction false} WorkerCanEnd(timeout: int, steps: seq<Step>, r: nat) returns (more: seq<Step>)
    requires r in Run(timeout, steps).requests && !ChoseTimeout(Run(timeout, steps), r)
    ensures HasEnded(Run(timeout, steps + more), r)
    decreases Remaining(Run(timeout, steps).requests[r].w), Run(timeout, steps).sending.Some?
  {
    var s := Run(timeout, steps);
    RunKeeps(timeout, steps);
    if HasEnded(s, r) {
      more := [];
      assert steps + more == steps;
    } else {
      var step: Step;
      if s.requests[r].w.WantReply? && s.sending.Some? {
        step := FreeSending(timeout, s, r);
      } else {
        step := NextStep(timeout, s, r);
      }
      RunOneMore(timeout, steps, step);
      var rest := WorkerCanEnd(timeout, steps + [step], r);
      more := GoOn(timeout, steps, step, rest);
    }
  }

  /** The worker is still in the method, or blocked on called, on which nobody receives any more. */
  predicate StaysBehind(s: State, r: nat) {
    r in s.requests && (s.requests[r].w.InCall? || s.requests[r].w.OfferCalled?)
  }

  /** The worker of a request can end if and only if its handler has not chosen the timeout; from then on it never gets
      past its offer on called. */
  lemma WorkerEndsIffNoTimeout(timeout: int, steps: seq<Step>, s: State, r: nat)
    requires Reached(timeout, steps, s) && r in s.requests
    ensures (exists more :: HasEnded(Run(timeout, steps + more), r)) <==> !ChoseTimeout(s, r)
    ensures ChoseTimeout(s, r) ==> forall more :: StaysBehind(Run(timeout, steps + more), r)
  {
    if ChoseTimeout(s, r) {
      forall more ensures StaysBehind(Run(timeout, steps + more), r) && !HasEnded(Run(timeout, steps + more), r) {
        RunKeepsTimeout(timeout, steps, more, r);
        RunKeeps(timeout, steps + more);
        assert RequestOk(timeout, Run(timeout, steps + more).requests[r]);
      }
    } else {
      var more := WorkerCanEnd(timeout, steps, r);
    }
  }

  /** With any timeout there is a run in which it is chosen and answered. */
  lemma TimeoutIsReached(timeout: int)
    requires timeout != 0
    ensures exists steps, s :: Reached(timeout, steps, s) && HasTimedOut(s, 0)
  {
    var a: seq<Step> := [];
    RunOneMore(timeout, a, OfLoop(ReadGood));
    var b := a + [OfLoop(ReadGood)];
    RunOneMore(timeout, b, OfLoop(Go(0)));
    var c := b + [OfLoop(Go(0))];
    RunOneMore(timeout, c, Of(0, Timeout));
    var d := c + [Of(0, Timeout)];
    RunOneMore(timeout, d, Of(0, LockTimeout));
    var e := d + [Of(0, LockTimeout)];
    RunOneMore(timeout, e, Of(0, WriteTimeout));
    var f := e + [Of(0, WriteTimeout)];
    assert Run(timeout, f).requests[0].responses == [TimedOut];
    assert Reached(timeout, f, Run(timeout, f));
  }

  /** Whoever holds sending can give it back in one step. */
  lemma SenderMoves(timeout: int, steps: seq<Step>, s: State)
    requires Reached(timeout, steps, s) && s.sending.Some?
    ensures exists step :: Enabled(timeout, s, step) && Apply(timeout, s, step).sending == None
  {
    RunKeeps(timeout, steps);
    match s.sending.value
    case ByLoop => assert Enabled(timeout, s, OfLoop(WriteBad));
    case ByHandler(r) =>
      assert LockOk(s, r);
      assert Enabled(timeout, s, Of(r, WriteTimeout));
    case ByWorker(r) =>
      assert LockOk(s, r);
      assert Enabled(timeout, s, Of(r, WriteReply));
  }
}
