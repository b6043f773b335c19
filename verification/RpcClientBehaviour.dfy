/** What the client's operations do when nobody interleaves, whatever others have done before: from any reachable state,
    by all fields. */
module RpcClientBehaviours {
  import opened Options
  import opened RpcClients
  import opened RpcClientInvariants
  import opened RpcClientTheorems

  lemma StepOn(steps: seq<Step>, more: seq<Step>, s: State, step: Step)
    requires Reached(steps + more, s) && Enabled(s, step)
    ensures Reached(steps + (more + [step]), Apply(s, step))
  {
    assert (steps + (more + [step]))[..|steps + more|] == steps + more;
  }

  lemma FirstStep(steps: seq<Step>, s: State, step: Step)
    requires Reached(steps, s) && Enabled(s, step)
    ensures Reached(steps + [step], Apply(s, step))
  {
    assert steps + [] == steps;
    StepOn(steps, [], s, step);
    assert [] + [step] == [step];
  }

  lemma ThreeSteps(steps: seq<Step>, s: State, a: Step, s1: State, b: Step, s2: State, e: Step)
    requires Reached(steps, s) && Enabled(s, a) && s1 == Apply(s, a) && Enabled(s1, b) && s2 == Apply(s1, b)
    requires Enabled(s2, e)
    ensures Reached(steps + [a, b, e], Apply(s2, e))
  {
    FirstStep(steps, s, a);
    StepOn(steps, [a], s1, b);
    StepOn(steps, [a] + [b], s2, e);
    assert [a] + [b] + [e] == [a, b, e];
  }

  lemma Joins(steps: seq<Step>, more: seq<Step>, rest: seq<Step>, s: State)
    requires Reached(steps + more + rest, s)
    ensures Reached(steps + (more + rest), s)
  {
    assert steps + more + rest == steps + (more + rest);
  }

  /** The call, completed with this outcome. */
  function Completed(x: Call, outcome: Outcome): Call {
    x.(dones := 1, outcome := Some(outcome), token := Done)
  }

  // ---- responses ----

  /** A response to a pending call takes it out of the table and completes it, as failed when the header carries an
      error or the body cannot be read; the receiver goes on unless the body could not be read. */
  lemma KnownResponse(steps: seq<Step>, s: State, k: nat, isError: bool, ok: bool)
    requires Reached(steps, s) && s.receiver == Headed(k, isError) && k in s.pending
    ensures s.pending[k] in s.calls
    ensures var c := s.pending[k];
            Run(steps + [Receive(RemoveHeaded), Receive(ReadBody(ok)), Receive(CompleteOne)])
            == s.(pending := s.pending - {k}, calls := s.calls[c := Completed(s.calls[c], Reply(k, isError || !ok))],
                  receiver := if ok then AtRead else WantTermination)
  {
    PendingIsOpen(steps, s, k);
    ResponseSteps(steps, s, k, s.pending[k], isError, ok);
    Delivered(s, k, isError, ok);
  }

  lemma ResponseSteps(steps: seq<Step>, s: State, k: nat, c: nat, isError: bool, ok: bool)
    requires Reached(steps, s) && s.receiver == Headed(k, isError) && s.Lookup(k) == Some(c) && !s.muHeld
    ensures Reached(steps + [Receive(RemoveHeaded), Receive(ReadBody(ok)), Receive(CompleteOne)],
                    DoCompleteOne(DoRemoveHeaded(s, k, isError).(receiver := Completing(c, k, isError || !ok, ok)),
                                  c, k, isError || !ok, ok))
  {
    var s1 := DoRemoveHeaded(s, k, isError);
    var s2 := s1.(receiver := Completing(c, k, isError || !ok, ok));
    assert s1.receiver == Looked(Some(c), k, isError);
    ThreeSteps(steps, s, Receive(RemoveHeaded), s1, Receive(ReadBody(ok)), s2, Receive(CompleteOne));
  }

  lemma PendingIsOpen(steps: seq<Step>, s: State, k: nat)
    requires Reached(steps, s) && k in s.pending && s.receiver.Headed?
    ensures s.pending[k] in s.calls && s.calls[s.pending[k]].dones == 0 && !s.muHeld
  {
    RunKeeps(steps);
    assert KeyOk(s, k) && TokenOk(s, s.pending[k]);
  }

  lemma Delivered(s: State, k: nat, isError: bool, ok: bool)
    requires k in s.pending && s.pending[k] in s.calls && s.calls[s.pending[k]].dones == 0
    ensures var c := s.pending[k];
            DoCompleteOne(DoRemoveHeaded(s, k, isError).(receiver := Completing(c, k, isError || !ok, ok)),
                          c, k, isError || !ok, ok)
            == s.(pending := s.pending - {k}, calls := s.calls[c := Completed(s.calls[c], Reply(k, isError || !ok))],
                  receiver := if ok then AtRead else WantTermination)
  {
    var c := s.pending[k];
    var x := s.calls[c].(token := AtReceiver);
    assert s.calls[c := x][c := Completed(s.calls[c], Reply(k, isError || !ok))]
        == s.calls[c := Completed(s.calls[c], Reply(k, isError || !ok))];
  }

  /** A header is taken up, and one that cannot be read ends the loop of receive. */
  lemma HeaderRead(steps: seq<Step>, s: State, k: nat, isError: bool, ok: bool)
    requires Reached(steps, s) && s.receiver == AtRead
    ensures Run(steps + [Receive(ReadHeader(ok, k, isError))])
         == s.(receiver := if ok then Headed(k, isError) else WantTermination)
  {
    FirstStep(steps, s, Receive(ReadHeader(ok, k, isError)));
  }

  // ---- termination ----

  /** The calls under these keys have been completed as terminated, and nothing else has happened to a call. */
  ghost predicate Terminates(s: State, s': State, keys: set<nat>) {
    && s'.calls.Keys == s.calls.Keys
    && forall c :: c in s.calls ==>
         (s'.calls[c] == if s.calls[c].num in keys then Completed(s.calls[c], Terminated) else s.calls[c])
  }

  predicate OfReceiver(steps: seq<Step>) {
    forall i :: 0 <= i < |steps| ==> steps[i].Receive?
  }

  /** The loop of terminateCalls. */
  lemma {:induction false} TerminateAll(steps: seq<Step>, s: State) returns (more: seq<Step>, s': State)
    requires Reached(steps, s) && s.receiver.Terminating?
    ensures OfReceiver(more) && Reached(steps + more, s') && Terminates(s, s', s.receiver.left)
    ensures s' == s.(muHeld := false, sending := None, receiver := Stopped, calls := s'.calls)
    decreases if s.receiver.Terminating? then |s.receiver.left| else 0
  {
    if s.receiver.left == {} {
      FirstStep(steps, s, Receive(EndTermination));
      more, s' := [Receive(EndTermination)], DoEndTermination(s);
    } else {
      var key :| key in s.receiver.left;
      var s1 := TerminateOneCall(steps, s, key);
      more, s' := TerminateAll(steps + [Receive(TerminateOne(key))], s1);
      Joins(steps, [Receive(TerminateOne(key))], more, s');
      more := [Receive(TerminateOne(key))] + more;
    }
  }

  lemma TerminateOneCall(steps: seq<Step>, s: State, key: nat) returns (s': State)
    requires Reached(steps, s) && s.receiver.Terminating? && key in s.receiver.left
    ensures Reached(steps + [Receive(TerminateOne(key))], s') && Terminates(s, s', {key})
    ensures s' == s.(receiver := Terminating(s.receiver.left - {key}), calls := s'.calls)
  {
    RunKeeps(steps);
    assert KeyOk(s, key);
    var c := s.pending[key];
    assert CallOk(s, c) && TokenOk(s, c);
    s' := DoTerminateOne(s, key, s.receiver.left);
    FirstStep(steps, s, Receive(TerminateOne(key)));
    forall d | d in s.calls
      ensures s'.calls[d] == if s.calls[d].num in {key} then Completed(s.calls[d], Terminated) else s.calls[d]
    {
      assert CallOk(s, d);
    }
  }

  /** terminateCalls with nobody interleaved: the client is shut down, and exactly the calls whose number is in the
      table are completed, as terminated. */
  lemma TerminationAlone(steps: seq<Step>, s: State) returns (more: seq<Step>, s': State)
    requires Reached(steps, s) && s.receiver == WantTermination && s.sending == None
    ensures OfReceiver(more) && Reached(steps + more, s') && Terminates(s, s', s.pending.Keys)
    ensures s' == s.(shutdown := true, receiver := Stopped, calls := s'.calls)
  {
    RunKeeps(steps);
    var a, b := Receive(LockForTermination), Receive(LockMu);
    FirstStep(steps, s, a);
    StepOn(steps, [a], DoLockForTermination(s), b);
    var s2 := DoLockMu(DoLockForTermination(s));
    var rest;
    rest, s' := TerminateAll(steps + ([a] + [b]), s2);
    Joins(steps, [a] + [b], rest, s');
    more := [a] + [b] + rest;
    assert Terminates(s2, s', s.pending.Keys);
  }

  // ---- sending ----

  lemma StepKeepsCalls(s: State, step: Step)
    requires Enabled(s, step) && s.senders.Keys == s.calls.Keys
    ensures Apply(s, step).senders.Keys == Apply(s, step).calls.Keys
  {
    match step
    case Send(c, x) => SendKeepsCalls(s, c, x);
    case Cancel(c, x) =>
    case Receive(x) => ReceiveKeepsCalls(s, x);
    case Close =>
  }

  lemma CompleteKeeps(s: State, c: nat, outcome: Outcome, token: Token)
    ensures s.Complete(c, outcome).calls.Keys == s.calls.Keys && s.Complete(c, outcome).senders == s.senders
    ensures s.SetToken(c, token).calls.Keys == s.calls.Keys && s.SetToken(c, token).senders == s.senders
  {
  }

  lemma SendKeepsCalls(s: State, c: nat, step: SendStep)
    requires SendEnabled(s, c, step) && s.senders.Keys == s.calls.Keys
    ensures ApplySend(s, c, step).senders.Keys == ApplySend(s, c, step).calls.Keys
  {
    match step
    case Refuse => CompleteKeeps(s, c, ShutDown, Done);
    case Write(ok) => assert DoWrite(s, c, s.senders[c].num, ok).calls == s.calls;
    case RemoveFailed => RemoveKeeps(s, c, s.senders[c].num);
    case FinishFailed => FinishKeeps(s, c, s.senders[c].found);
    case _ =>
  }

  lemma RemoveKeeps(s: State, c: nat, k: nat)
    requires c in s.senders && s.senders.Keys == s.calls.Keys
    ensures DoRemoveFailed(s, c, k).senders.Keys == DoRemoveFailed(s, c, k).calls.Keys
  {
    if k in s.pending {
      CompleteKeeps(s, s.pending[k], WriteError, AtFailing);
    }
  }

  lemma FinishKeeps(s: State, c: nat, found: Option<nat>)
    requires c in s.senders && s.senders.Keys == s.calls.Keys
    ensures DoFinishFailed(s, c, found).senders.Keys == DoFinishFailed(s, c, found).calls.Keys
  {
    if found.Some? {
      CompleteKeeps(s, found.value, WriteError, Done);
    }
  }

  lemma ReceiveKeepsCalls(s: State, step: ReceiveStep)
    requires ReceiveEnabled(s, step)
    ensures ApplyReceive(s, step).senders == s.senders && ApplyReceive(s, step).calls.Keys == s.calls.Keys
  {
    match step
    case RemoveHeaded =>
      if s.receiver.num in s.pending {
        CompleteKeeps(s, s.pending[s.receiver.num], Terminated, AtReceiver);
      }
    case CompleteOne => CompleteKeeps(s, s.receiver.call, Reply(s.receiver.num, s.receiver.failed), Done);
    case TerminateOne(key) => CompleteKeeps(s, s.pending[key], Terminated, Done);
    case _ =>
  }

  /** Every sender sends a call. */
  lemma {:induction false} SendersHaveCalls(steps: seq<Step>, s: State)
    requires Reached(steps, s)
    ensures s.senders.Keys == s.calls.Keys
  {
    if steps != [] {
      var first, step := steps[..|steps| - 1], steps[|steps| - 1];
      SendersHaveCalls(first, Run(first));
      if Enabled(Run(first), step) {
        StepKeepsCalls(Run(first), step);
      }
    }
  }

  /** A refused call is completed as shut down. */
  lemma RefusedIsReported(steps: seq<Step>, s: State, c: nat)
    requires Reached(steps, s) && s.At(c, Refusing)
    ensures c in s.calls
    ensures Run(steps + [Send(c, Refuse)])
         == s.(sending := None, senders := s.senders[c := Sent], calls := s.calls[c := Completed(s.calls[c], ShutDown)])
  {
    RunKeeps(steps);
    SendersHaveCalls(steps, s);
    assert CallOk(s, c) && TokenOk(s, c);
    FirstStep(steps, s, Send(c, Refuse));
  }

  /** A request that has been written is on its way under the number of its call, and other calls may send. */
  lemma WrittenIsSent(steps: seq<Step>, s: State, c: nat, k: nat)
    requires Reached(steps, s) && s.At(c, Writing(k))
    ensures Run(steps + [Send(c, Write(true))])
         == s.(sending := None, senders := s.senders[c := Sent], wire := s.wire[c := k])
  {
    RunKeeps(steps);
    SendersHaveCalls(steps, s);
    assert CallOk(s, c);
    FirstStep(steps, s, Send(c, Write(true)));
  }

  /** A request that could not be written takes its call out of the table and completes it with the error of the write,
      unless the call is not in the table any more. */
  lemma FailedWriteIsReported(steps: seq<Step>, s: State, c: nat, k: nat)
    requires Reached(steps, s) && s.At(c, Writing(k))
    ensures c in s.calls
    ensures Run(steps + [Send(c, Write(false)), Send(c, RemoveFailed), Send(c, FinishFailed)])
         == s.(sending := None, senders := s.senders[c := Sent], wire := s.wire[c := k], pending := s.pending - {k},
               calls := if k in s.pending then s.calls[c := Completed(s.calls[c], WriteError)] else s.calls)
  {
    IsWriting(steps, s, c, k);
    var s1 := DoWrite(s, c, k, false);
    var s2 := DoRemoveFailed(s1, c, k);
    ThreeSteps(steps, s, Send(c, Write(false)), s1, Send(c, RemoveFailed), s2, Send(c, FinishFailed));
    FailedWrite(s, c, k);
  }

  lemma IsWriting(steps: seq<Step>, s: State, c: nat, k: nat)
    requires Reached(steps, s) && s.At(c, Writing(k))
    ensures c in s.calls && s.header == k && !s.muHeld
    ensures k in s.pending ==> s.pending[k] == c && s.calls[c].dones == 0
  {
    RunKeeps(steps);
    SendersHaveCalls(steps, s);
    assert CallOk(s, c) && TokenOk(s, c) && KeyOk(s, k);
  }

  lemma FailedWrite(s: State, c: nat, k: nat)
    requires c in s.calls && c in s.senders && s.header == k
    requires k in s.pending ==> s.pending[k] == c && s.calls[c].dones == 0
    ensures DoFinishFailed(DoRemoveFailed(DoWrite(s, c, k, false), c, k), c, s.Lookup(k))
         == s.(sending := None, senders := s.senders[c := Sent], wire := s.wire[c := k], pending := s.pending - {k},
               calls := if k in s.pending then s.calls[c := Completed(s.calls[c], WriteError)] else s.calls)
  {
    assert s.senders[c := Failing(k)][c := Finishing(s.Lookup(k))][c := Sent] == s.senders[c := Sent];
    if k in s.pending {
      var x := s.calls[c].(token := AtFailing);
      assert s.calls[c := x][c := Completed(s.calls[c], WriteError)] == s.calls[c := Completed(s.calls[c], WriteError)];
    }
  }

  /** A call that comes to registerCall gets the next number and is entered under it, unless the client is closing or
      shut down. */
  lemma RegistersIffOpen(steps: seq<Step>, s: State, c: nat)
    requires Reached(steps, s) && s.At(c, HasSending) && !s.muHeld
    ensures c in s.calls
    ensures Run(steps + [Send(c, Register)])
         == if s.closing || s.shutdown then s.(senders := s.senders[c := Refusing])
            else s.(senders := s.senders[c := Preparing(s.next)], next := s.next + 1,
                    pending := s.pending[s.next := c], registered := s.registered[s.next := c],
                    calls := s.calls[c := s.calls[c].(num := s.next, token := InPending)])
  {
    SendersHaveCalls(steps, s);
    FirstStep(steps, s, Send(c, Register));
  }

  // ---- a whole call of Go ----

  /** Go and send up to where the call is registered or refused. */
  lemma StartsSending(steps: seq<Step>, s: State, c: nat)
    requires Reached(steps, s) && c !in s.calls && s.sending == None && !s.muHeld
    ensures Reached(steps + [Send(c, Go), Send(c, LockSending)],
                    s.(sending := Some(BySender(c)), senders := s.senders[c := HasSending],
                       calls := s.calls[c := Call(0, 0, None, AtSender)],
                       cancellers := s.cancellers[c := NotCancelled]))
  {
    SendersHaveCalls(steps, s);
    var a, b := Send(c, Go), Send(c, LockSending);
    FirstStep(steps, s, a);
    StepOn(steps, [a], DoGo(s, c), b);
    assert [a] + [b] == [a, b];
    assert s.senders[c := WantSending][c := HasSending] == s.senders[c := HasSending];
  }

  /** The state when the request of the new call c is about to be written. */
  function Entered(s: State, c: nat): State {
    s.(sending := Some(BySender(c)), header := s.next, senders := s.senders[c := Writing(s.next)],
       cancellers := s.cancellers[c := NotCancelled], calls := s.calls[c := Call(s.next, 0, None, InPending)],
       pending := s.pending[s.next := c], registered := s.registered[s.next := c], next := s.next + 1)
  }

  lemma GoEnters(steps: seq<Step>, s: State, c: nat) returns (more: seq<Step>)
    requires Reached(steps, s) && c !in s.calls && s.sending == None && !s.muHeld && !s.closing && !s.shutdown
    ensures Reached(steps + more, Entered(s, c)) && OfSender(more, c)
  {
    StartsSending(steps, s, c);
    more := [Send(c, Go), Send(c, LockSending)];
    var s1 := Run(steps + more);
    StepOn(steps, more, s1, Send(c, Register));
    var s2 := DoRegister(s1, c);
    more := more + [Send(c, Register)];
    StepOn(steps, more, s2, Send(c, Prepare));
    more := more + [Send(c, Prepare)];
    EnteredIs(s, s1, c);
  }

  lemma EnteredIs(s: State, s1: State, c: nat)
    requires !s.closing && !s.shutdown
    requires s1 == s.(sending := Some(BySender(c)), senders := s.senders[c := HasSending],
                      calls := s.calls[c := Call(0, 0, None, AtSender)], cancellers := s.cancellers[c := NotCancelled])
    ensures DoPrepare(DoRegister(s1, c), c, s.next) == Entered(s, c)
  {
    assert s1.senders[c := Preparing(s.next)][c := Writing(s.next)] == s.senders[c := Writing(s.next)];
    assert s1.calls[c := Call(s.next, 0, None, InPending)] == s.calls[c := Call(s.next, 0, None, InPending)];
  }

  predicate OfSender(steps: seq<Step>, c: nat) {
    forall i :: 0 <= i < |steps| ==> steps[i].Send? && steps[i].c == c
  }

  lemma GoRefused(steps: seq<Step>, s: State, c: nat) returns (more: seq<Step>, s': State)
    requires Reached(steps, s) && c !in s.calls && s.sending == None && !s.muHeld && (s.closing || s.shutdown)
    ensures Reached(steps + more, s') && OfSender(more, c) && s'.At(c, Sent) && s'.sending == None
    ensures s'.calls == s.calls[c := Call(0, 1, Some(ShutDown), Done)] && s'.pending == s.pending && s'.wire == s.wire
  {
    StartsSending(steps, s, c);
    more := [Send(c, Go), Send(c, LockSending)];
    var s1 := Run(steps + more);
    StepOn(steps, more, s1, Send(c, Register));
    var s2 := s1.(senders := s1.senders[c := Refusing]);
    more := more + [Send(c, Register)];
    StepOn(steps, more, s2, Send(c, Refuse));
    more, s' := more + [Send(c, Refuse)], DoRefuse(s2, c);
    assert s.calls[c := Call(0, 0, None, AtSender)][c := Call(0, 1, Some(ShutDown), Done)]
        == s.calls[c := Call(0, 1, Some(ShutDown), Done)];
  }

  /** A new call with nobody interleaved: refused when the client is closing or shut down; else it gets the next number,
      its request goes out under it, and it waits in the table; when the write fails, it does not wait but reports. */
  lemma GoAlone(steps: seq<Step>, s: State, c: nat, ok: bool) returns (more: seq<Step>, s': State)
    requires Reached(steps, s) && c !in s.calls && s.sending == None && !s.muHeld
    ensures Reached(steps + more, s') && OfSender(more, c) && s'.At(c, Sent) && s'.sending == None
    ensures if s.closing || s.shutdown
            then && s'.calls == s.calls[c := Call(0, 1, Some(ShutDown), Done)] && s'.pending == s.pending
                 && s'.wire == s.wire
            else if ok
            then && s'.calls == s.calls[c := Call(s.next, 0, None, InPending)] && s'.pending == s.pending[s.next := c]
                 && s'.wire == s.wire[c := s.next] && s'.next == s.next + 1
            else && s'.calls == s.calls[c := Call(s.next, 1, Some(WriteError), Done)] && s'.pending == s.pending
                 && s'.next == s.next + 1
  {
    if s.closing || s.shutdown {
      more, s' := GoRefused(steps, s, c);
    } else {
      more := GoEnters(steps, s, c);
      var rest;
      if ok {
        WrittenIsSent(steps + more, Entered(s, c), c, s.next);
        rest := [Send(c, Write(true))];
      } else {
        FreshNumber(steps, s);
        FailedWriteIsReported(steps + more, Entered(s, c), c, s.next);
        rest := [Send(c, Write(false)), Send(c, RemoveFailed), Send(c, FinishFailed)];
        assert s.pending[s.next := c] - {s.next} == s.pending;
      }
      s' := Run(steps + more + rest);
      Joins(steps, more, rest, s');
      more := more + rest;
    }
  }

  lemma FreshNumber(steps: seq<Step>, s: State)
    requires Reached(steps, s)
    ensures s.next !in s.pending
  {
    RunKeeps(steps);
    assert KeyOk(s, s.next);
  }

  /** Close makes every later call be refused. */
  lemma CloseRefuses(steps: seq<Step>, s: State, c: nat) returns (more: seq<Step>, s': State)
    requires Reached(steps, s) && c !in s.calls && s.sending == None && !s.muHeld
    ensures OfSender(more, c) && Reached(steps + [Close] + more, s')
    ensures c in s'.calls && s'.calls[c].outcome == Some(ShutDown)
  {
    FirstStep(steps, s, Close);
    more, s' := GoAlone(steps + [Close], s.(closing := true), c, true);
  }

  // ---- cancelling ----

  /** A call that is cancelled takes its own number out of the table; the reports of calls stay as they are. */
  lemma CancelAlone(steps: seq<Step>, s: State, c: nat) returns (s': State)
    requires Reached(steps, s) && c in s.calls && c in s.cancellers && s.cancellers[c].NotCancelled? && !s.muHeld
    ensures Reached(steps + [Cancel(c, ReadSeq), Cancel(c, RemoveCancelled)], s')
    ensures s' == s.(pending := s.pending - {s.calls[c].num}, calls := s'.calls,
                     cancellers := s.cancellers[c := Cancelled(s.calls[c].num)])
    ensures s'.calls.Keys == s.calls.Keys
    ensures forall d :: d in s.calls ==> s'.calls[d] == s.calls[d].(token := s'.calls[d].token)
  {
    var a, b := Cancel(c, ReadSeq), Cancel(c, RemoveCancelled);
    FirstStep(steps, s, a);
    var s1 := DoReadSeq(s, c);
    StepOn(steps, [a], s1, b);
    assert [a] + [b] == [a, b];
    s' := DoRemoveCancelled(s1, c, s.calls[c].num);
    assert s.cancellers[c := Cancelling(s.calls[c].num)][c := Cancelled(s.calls[c].num)]
        == s.cancellers[c := Cancelled(s.calls[c].num)];
  }
}
