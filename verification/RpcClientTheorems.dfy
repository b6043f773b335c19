/** What holds of the RPC client in every run. */
module RpcClientTheorems {
  import opened Options
  import opened RpcClients
  import opened RpcClientInvariants

  /** The state after a run of the client. */
  ghost predicate Reached(steps: seq<Step>, s: State) {
    s == Run(steps)
  }

  /** The call on whose channel a step sends. */
  function Completes(s: State, step: Step): Option<nat>
    requires Enabled(s, step)
  {
    match step
    case Send(c, Refuse) => Some(c)
    case Send(c, FinishFailed) => s.senders[c].found
    case Receive(CompleteOne) => Some(s.receiver.call)
    case Receive(TerminateOne(key)) => Some(s.pending[key])
    case _ => None
  }

  /** Done fires at most once for each call, in every interleaving, and the call knows why when it has fired. */
  lemma SingleCompletion(steps: seq<Step>, s: State, c: nat)
    requires Reached(steps, s) && c in s.calls
    ensures s.calls[c].dones <= 1
    ensures s.calls[c].outcome.Some? <==> s.calls[c].dones == 1
  {
    RunKeeps(steps);
    assert TokenOk(s, c);
  }

  /** A step that sends on a call's channel is the first to do so: on a channel of its own it never blocks. */
  lemma DoneNeverBlocks(steps: seq<Step>, s: State, step: Step, c: nat)
    requires Reached(steps, s) && Enabled(s, step) && Completes(s, step) == Some(c)
    ensures c in s.calls && s.calls[c].dones == 0
    ensures c in Apply(s, step).calls && Apply(s, step).calls[c].dones == 1
  {
    RunKeeps(steps);
    match step {
      case Send(d, x) => assert CallOk(s, d) && TokenOk(s, d);
      case Receive(TerminateOne(key)) => assert KeyOk(s, key);
      case _ =>
    }
    assert TokenOk(s, c);
  }

  /** No call is lost: once send has returned, a call is complete, or waits in the table under its number, or is in the
      hands of the receiver, or was taken out by its own cancellation. */
  lemma NoCallIsLost(steps: seq<Step>, s: State, c: nat)
    requires Reached(steps, s) && c in s.calls && s.At(c, Sent)
    ensures s.calls[c].dones == 1 || s.Lookup(s.calls[c].num) == Some(c) || AtHand(s.receiver, c) || TakenOut(s, c)
  {
    RunKeeps(steps);
    assert CallOk(s, c) && TokenOk(s, c);
  }

  /** The call's own cancellation removed its number. */
  predicate TakenOut(s: State, c: nat)
    requires c in s.calls
  {
    c in s.cancellers && s.cancellers[c] == Cancelled(s.calls[c].num)
  }

  /** Once the calls are terminated, every call that send has taken care of is complete, unless cancellation took it
      out of the table. */
  lemma TerminationCompletes(steps: seq<Step>, s: State, c: nat)
    requires Reached(steps, s) && s.receiver.Stopped? && c in s.calls
    requires s.calls[c].num > 0 || s.At(c, Sent)
    ensures s.calls[c].dones == 1 || TakenOut(s, c)
  {
    RunKeeps(steps);
    assert CallOk(s, c) && TokenOk(s, c) && KeyOk(s, s.calls[c].num);
  }

  /** Two calls never have the same number, every request went out under its own call's number, and a response
      completes only the call registered under the response's number. */
  lemma Routing(steps: seq<Step>, s: State, c: nat, d: nat)
    requires Reached(steps, s) && c in s.calls && d in s.calls
    ensures c != d && s.calls[c].num > 0 ==> s.calls[c].num != s.calls[d].num
    ensures c in s.wire ==> s.wire[c] == s.calls[c].num > 0
    ensures s.calls[c].outcome.Some? && s.calls[c].outcome.value.Reply? ==>
              var k := s.calls[c].outcome.value.num;
              k in s.registered && s.registered[k] == c && s.calls[c].num == k
  {
    RunKeeps(steps);
    assert CallOk(s, c) && TokenOk(s, c) && CallOk(s, d);
  }

  /** The keys of the table are the numbers of its calls, and lie between 1 and the next number. */
  lemma PendingKeys(steps: seq<Step>, s: State, k: nat)
    requires Reached(steps, s) && k in s.pending
    ensures 1 <= k < s.next
    ensures s.pending[k] in s.calls && s.calls[s.pending[k]].num == k
  {
    RunKeeps(steps);
    assert KeyOk(s, k);
  }

  /** A response to a number that is not pending completes nothing, and the receiver goes on unless the body could not
      be read. */
  lemma UnknownResponse(steps: seq<Step>, s: State, k: nat, isError: bool, ok: bool)
    requires Reached(steps, s) && s.receiver == Headed(k, isError) && k !in s.pending
    ensures Run(steps + [Receive(RemoveHeaded), Receive(ReadBody(ok))])
         == s.(receiver := if ok then AtRead else WantTermination)
  {
    RunKeeps(steps);
    var more := steps + [Receive(RemoveHeaded), Receive(ReadBody(ok))];
    assert more[..|more| - 1] == steps + [Receive(RemoveHeaded)];
    assert (steps + [Receive(RemoveHeaded)])[..|steps|] == steps;
    assert s.pending - {k} == s.pending;
  }

  /** A call cancelled before send registers it is registered all the same. */
  lemma EarlyCancelLeaks()
    ensures exists steps ::
              var s := Run(steps);
              1 in s.pending && s.pending[1] == 7 && 7 in s.cancellers && s.cancellers[7] == Cancelled(0)
  {
    var a: seq<Step> := [Send(7, Go)];
    var b := a + [Cancel(7, ReadSeq)];
    var c := b + [Cancel(7, RemoveCancelled)];
    var d := c + [Send(7, LockSending)];
    var e := d + [Send(7, Register)];
    assert a[..0] == [] && b[..1] == a && c[..2] == b && d[..3] == c && e[..4] == d;
    assert Run(a) == DoGo(Init(), 7);
    assert Run(b) == DoReadSeq(Run(a), 7);
    assert Run(c) == DoRemoveCancelled(Run(b), 7, 0);
    assert Run(d) == DoLockSending(Run(c), 7);
    assert Run(e) == DoRegister(Run(d), 7);
  }

  ghost predicate RegistersNothing(s: State, s': State) {
    (s'.closing || s'.shutdown) && s'.registered == s.registered && s'.pending.Keys <= s.pending.Keys
  }

  lemma ClosedRefuse(s: State, c: nat)
    requires s.closing || s.shutdown
    ensures RegistersNothing(s, DoRefuse(s, c))
  {
    var s' := s.Complete(c, ShutDown);
    assert s'.registered == s.registered && s'.pending == s.pending;
    assert s'.closing == s.closing && s'.shutdown == s.shutdown;
  }

  lemma ClosedFinish(s: State, c: nat, found: Option<nat>)
    requires s.closing || s.shutdown
    ensures RegistersNothing(s, DoFinishFailed(s, c, found))
  {
    var s' := if found.Some? then s.Complete(found.value, WriteError) else s;
    assert s'.registered == s.registered && s'.pending == s.pending;
    assert s'.closing == s.closing && s'.shutdown == s.shutdown;
  }

  lemma ClosedRegister(s: State, c: nat, k: nat)
    requires (s.closing || s.shutdown) && c in s.calls
    ensures RegistersNothing(s, DoRegister(s, c)) && RegistersNothing(s, DoRemoveFailed(s, c, k))
  {
  }

  lemma ClosedSend(s: State, c: nat, step: SendStep)
    requires SendEnabled(s, c, step) && (s.closing || s.shutdown)
    ensures RegistersNothing(s, ApplySend(s, c, step))
  {
    match step
    case Register => ClosedRegister(s, c, 0);
    case Refuse => ClosedRefuse(s, c);
    case RemoveFailed => ClosedRegister(s, c, s.senders[c].num);
    case FinishFailed => ClosedFinish(s, c, s.senders[c].found);
    case _ =>
  }

  lemma ClosedReceive(s: State, step: ReceiveStep)
    requires ReceiveEnabled(s, step) && (s.closing || s.shutdown)
    ensures RegistersNothing(s, ApplyReceive(s, step))
  {
    match step
    case RemoveHeaded => assert RegistersNothing(s, DoRemoveHeaded(s, s.receiver.num, s.receiver.isError));
    case TerminateOne(key) => assert RegistersNothing(s, DoTerminateOne(s, key, s.receiver.left));
    case CompleteOne =>
      assert RegistersNothing(s, DoCompleteOne(s, s.receiver.call, s.receiver.num, s.receiver.failed, s.receiver.more));
    case _ =>
  }

  lemma ClosedStep(s: State, step: Step)
    requires Enabled(s, step) && (s.closing || s.shutdown)
    ensures RegistersNothing(s, Apply(s, step))
  {
    match step
    case Send(c, x) => ClosedSend(s, c, x);
    case Cancel(c, x) => assert RegistersNothing(s, ApplyCancel(s, c, x));
    case Receive(r) => ClosedReceive(s, r);
    case Close =>
  }

  /** Once the client is closing or shut down, however the run goes on, no call is registered any more. */
  lemma {:induction false} ClosedRegistersNothing(steps: seq<Step>, more: seq<Step>)
    requires Run(steps).closing || Run(steps).shutdown
    ensures RegistersNothing(Run(steps), Run(steps + more))
  {
    if more == [] {
      assert steps + more == steps;
    } else {
      var before, step := steps + more[..|more| - 1], more[|more| - 1];
      ClosedRegistersNothing(steps, more[..|more| - 1]);
      assert (steps + more)[..|steps + more| - 1] == before;
      if Enabled(Run(before), step) {
        ClosedStep(Run(before), step);
      }
    }
  }

  /** Whoever holds a mutex can go on, so the mutexes are always given back. */
  lemma HoldersMove(steps: seq<Step>, s: State)
    requires Reached(steps, s)
    ensures s.sending.Some? && s.sending.value.BySender? ==>
              exists x :: SendEnabled(s, s.sending.value.c, x) && !x.Go?
    ensures s.sending == Some(ByReceiver) ==> exists x :: ReceiveEnabled(s, x)
    ensures s.muHeld ==> s.sending == Some(ByReceiver)
  {
    RunKeeps(steps);
    if s.sending.Some? && s.sending.value.BySender? {
      var c := s.sending.value.c;
      assert CallOk(s, c);
      match s.senders[c]
      case HasSending => assert SendEnabled(s, c, Register);
      case Refusing => assert SendEnabled(s, c, Refuse);
      case Preparing(_) => assert SendEnabled(s, c, Prepare);
      case Writing(_) => assert SendEnabled(s, c, Write(true));
      case Failing(_) => assert SendEnabled(s, c, RemoveFailed);
      case Finishing(_) => assert SendEnabled(s, c, FinishFailed);
      case _ =>
    } else if s.sending == Some(ByReceiver) {
      ReceiverMoves(s);
    }
  }

  lemma ReceiverMoves(s: State)
    requires Inv(s) && s.sending == Some(ByReceiver)
    ensures exists x :: ReceiveEnabled(s, x)
  {
    if s.receiver.TermSending? {
      assert ReceiveEnabled(s, LockMu);
    } else if s.receiver.left == {} {
      assert ReceiveEnabled(s, EndTermination);
    } else {
      var key :| key in s.receiver.left;
      assert KeyOk(s, key);
      assert ReceiveEnabled(s, TerminateOne(key));
    }
  }
}
