/** What a connection does with one request when nobody interleaves, whatever has happened before: from any reachable
    state, by all fields. */
module RpcServerBehaviours {
  import opened Options
  import opened Counting
  import opened RpcServers

  lemma StepOn(timeout: int, steps: seq<Step>, more: seq<Step>, s: State, step: Step)
    requires Reached(timeout, steps + more, s) && Enabled(timeout, s, step)
    ensures Reached(timeout, steps + (more + [step]), Apply(timeout, s, step))
  {
    RunOneMore(timeout, steps + more, step);
    assert steps + more + [step] == steps + (more + [step]);
  }

  /** The request r as it is between two steps of its own. */
  function With(s: State, r: nat, q: Request, sending: Option<Holder>, wg: int): State {
    s.(requests := s.requests[r := q], sending := sending, wg := wg)
  }

  lemma StepOfRequest(timeout: int, steps: seq<Step>, more: seq<Step>, s: State, t: State, r: nat, q: Request,
                      step: RequestStep)
    requires Reached(timeout, steps + more, t) && t == With(s, r, q, t.sending, t.wg)
    requires RequestEnabled(timeout, t, r, step)
    ensures var t' := ApplyRequest(timeout, t, r, step);
            && Reached(timeout, steps + (more + [Of(r, step)]), t')
            && r in t'.requests && t' == With(s, r, t'.requests[r], t'.sending, t'.wg)
  {
    StepOn(timeout, steps, more, t, Of(r, step));
    var t' := ApplyRequest(timeout, t, r, step);
    assert s.requests[r := q][r := t'.requests[r]] == s.requests[r := t'.requests[r]];
  }

  /** A valid request is handed to a handler, which is counted, and to a worker, which calls the method. */
  lemma RequestStarts(timeout: int, steps: seq<Step>, s: State, r: nat)
    requires Reached(timeout, steps, s) && s.loop.Reading? && r !in s.requests
    ensures Reached(timeout, steps + [OfLoop(ReadGood), OfLoop(Go(r))],
                    With(s, r, Request(Waiting, InCall, [], None), s.sending, s.wg + 1))
  {
    RunOneMore(timeout, steps, OfLoop(ReadGood));
    StepOn(timeout, steps, [OfLoop(ReadGood)], s.(loop := AtGo, wg := s.wg + 1), OfLoop(Go(r)));
    assert [OfLoop(ReadGood)] + [OfLoop(Go(r))] == [OfLoop(ReadGood), OfLoop(Go(r))];
  }

  /** The method returns in time: its outcome is the one response, and both goroutines end. */
  lemma ReplyAlone(timeout: int, steps: seq<Step>, s: State, r: nat, failed: bool) returns (more: seq<Step>)
    requires Reached(timeout, steps, s) && s.loop.Reading? && r !in s.requests && s.sending == None
    ensures more == [OfLoop(ReadGood), OfLoop(Go(r)), Of(r, CallReturns(failed)), Of(r, MeetOnCalled),
                     Of(r, LockReply), Of(r, WriteReply), Of(r, MeetOnSent), Of(r, WgDone)]
    ensures Reached(timeout, steps + more,
                    With(s, r, Request(Returned, Ended, [Reply(failed)], Some(failed)), None, s.wg))
  {
    RequestStarts(timeout, steps, s, r);
    var q := Request(Waiting, InCall, [], None);
    var a := [OfLoop(ReadGood), OfLoop(Go(r))];
    StepOfRequest(timeout, steps, a, s, With(s, r, q, None, s.wg + 1), r, q, CallReturns(failed));
    var b := a + [Of(r, CallReturns(failed))];
    var q1 := Request(Waiting, OfferCalled(failed), [], Some(failed));
    StepOfRequest(timeout, steps, b, s, With(s, r, q1, None, s.wg + 1), r, q1, MeetOnCalled);
    var c := b + [Of(r, MeetOnCalled)];
    more := RepliesAndReturns(timeout, steps + c, s, r, failed);
    assert steps + c + more == steps + (c + more);
    more := c + more;
  }

  lemma RepliesAndReturns(timeout: int, steps: seq<Step>, s: State, r: nat, failed: bool) returns (more: seq<Step>)
    requires Reached(timeout, steps,
                     With(s, r, Request(AwaitSent, WantReply(failed), [], Some(failed)), None, s.wg + 1))
    ensures more == [Of(r, LockReply), Of(r, WriteReply), Of(r, MeetOnSent), Of(r, WgDone)]
    ensures Reached(timeout, steps + more,
                    With(s, r, Request(Returned, Ended, [Reply(failed)], Some(failed)), None, s.wg))
  {
    more := [];
    assert steps + more == steps;
    var q := Request(AwaitSent, WantReply(failed), [], Some(failed));
    StepOfRequest(timeout, steps, more, s, With(s, r, q, None, s.wg + 1), r, q, LockReply);
    more := more + [Of(r, LockReply)];
    var q1 := q.(w := SendingReply(failed));
    StepOfRequest(timeout, steps, more, s, With(s, r, q1, Some(ByWorker(r)), s.wg + 1), r, q1, WriteReply);
    more := more + [Of(r, WriteReply)];
    assert [] + [Reply(failed)] == [Reply(failed)];
    var q2 := q.(w := OfferSent, responses := [Reply(failed)]);
    StepOfRequest(timeout, steps, more, s, With(s, r, q2, None, s.wg + 1), r, q2, MeetOnSent);
    more := more + [Of(r, MeetOnSent)];
    var q3 := q2.(h := Returning, w := Ended);
    StepOfRequest(timeout, steps, more, s, With(s, r, q3, None, s.wg + 1), r, q3, WgDone);
    more := more + [Of(r, WgDone)];
  }

  /** The timeout comes first: it is the one response, and the handler ends while the method is still running. */
  lemma TimeoutAlone(timeout: int, steps: seq<Step>, s: State, r: nat) returns (more: seq<Step>)
    requires Reached(timeout, steps, s) && s.loop.Reading? && r !in s.requests && s.sending == None && timeout != 0
    ensures more == [OfLoop(ReadGood), OfLoop(Go(r)), Of(r, Timeout), Of(r, LockTimeout), Of(r, WriteTimeout),
                     Of(r, WgDone)]
    ensures Reached(timeout, steps + more, With(s, r, Request(Returned, InCall, [TimedOut], None), None, s.wg))
  {
    RequestStarts(timeout, steps, s, r);
    var q := Request(Waiting, InCall, [], None);
    more := [OfLoop(ReadGood), OfLoop(Go(r))];
    StepOfRequest(timeout, steps, more, s, With(s, r, q, None, s.wg + 1), r, q, Timeout);
    more := more + [Of(r, Timeout)];
    var q1 := q.(h := WantTimeout);
    StepOfRequest(timeout, steps, more, s, With(s, r, q1, None, s.wg + 1), r, q1, LockTimeout);
    more := more + [Of(r, LockTimeout)];
    var q2 := q.(h := SendingTimeout);
    StepOfRequest(timeout, steps, more, s, With(s, r, q2, Some(ByHandler(r)), s.wg + 1), r, q2, WriteTimeout);
    more := more + [Of(r, WriteTimeout)];
    assert [] + [TimedOut] == [TimedOut];
    var q3 := q.(h := Returning, responses := [TimedOut]);
    StepOfRequest(timeout, steps, more, s, With(s, r, q3, None, s.wg + 1), r, q3, WgDone);
    more := more + [Of(r, WgDone)];
  }

  /** An invalid request is answered, and the loop reads on. */
  lemma InvalidAlone(timeout: int, steps: seq<Step>, s: State)
    requires Reached(timeout, steps, s) && s.loop.Reading? && s.sending == None
    ensures Reached(timeout, steps + [OfLoop(ReadBad), OfLoop(LockBad), OfLoop(WriteBad)],
                    s.(badRead := s.badRead + 1, badWritten := s.badWritten + 1))
  {
    var a, b, c := OfLoop(ReadBad), OfLoop(LockBad), OfLoop(WriteBad);
    RunOneMore(timeout, steps, a);
    var s1 := s.(loop := WantBad, badRead := s.badRead + 1);
    StepOn(timeout, steps, [a], s1, b);
    StepOn(timeout, steps, [a] + [b], s1.(loop := SendingBad, sending := Some(ByLoop)), c);
    assert [a] + [b] + [c] == [a, b, c];
  }

  lemma NobodyActive(timeout: int, steps: seq<Step>, s: State)
    requires Reached(timeout, steps, s) && !s.loop.AtGo?
    requires forall r :: r in s.requests ==> s.requests[r].h.Returned?
    ensures s.wg == 0
  {
    WaitGroupCounts(timeout, steps, s);
    assert Members(s.requests, IsActive) == {};
  }

  /** When there is nothing more to read and every handler has returned, the connection is closed. */
  lemma CloseAlone(timeout: int, steps: seq<Step>, s: State)
    requires Reached(timeout, steps, s) && s.loop.Reading?
    requires forall r :: r in s.requests ==> s.requests[r].h.Returned?
    ensures Reached(timeout, steps + [OfLoop(ReadNone), OfLoop(Wait), OfLoop(Close)], s.(loop := Done, closed := true))
  {
    NobodyActive(timeout, steps, s);
    var a, b, c := OfLoop(ReadNone), OfLoop(Wait), OfLoop(Close);
    RunOneMore(timeout, steps, a);
    StepOn(timeout, steps, [a], s.(loop := AtWait), b);
    StepOn(timeout, steps, [a] + [b], s.(loop := AtClose), c);
    assert [a] + [b] + [c] == [a, b, c];
  }
}
