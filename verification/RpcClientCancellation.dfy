/** Exactly when a call, cancelled or not, can be in the table of pending calls. */
module RpcClientCancellation {
  import opened Options
  import opened RpcClients
  import opened RpcClientInvariants
  import opened RpcClientTheorems

  predicate InTable(s: State, c: nat) {
    c in s.pending.Values
  }

  /** No call can be registered any more: the client is closing or shut down, or termination holds sending. */
  predicate Barred(s: State) {
    s.closing || s.shutdown || s.receiver.TermSending?
  }

  lemma InTableByNumber(s: State, c: nat)
    requires Inv(s)
    ensures InTable(s, c) <==> c in s.calls && s.calls[c].num in s.pending
  {
    if InTable(s, c) {
      var k :| k in s.pending && s.pending[k] == c;
      assert KeyOk(s, k);
    }
    if c in s.calls && s.calls[c].num in s.pending {
      assert KeyOk(s, s.calls[c].num) && CallOk(s, c);
      assert s.pending[s.calls[c].num] == c;
    }
  }

  // ---- what is barred stays barred, what is gone stays gone ----

  lemma RunOneMore(steps: seq<Step>, step: Step)
    ensures var s := Run(steps); Run(steps + [step]) == if Enabled(s, step) then Apply(s, step) else s
  {
    assert (steps + [step])[..|steps|] == steps;
  }

  /** The last of more steps. */
  lemma Unsnoc(steps: seq<Step>, more: seq<Step>)
    requires more != []
    ensures steps + more == steps + more[..|more| - 1] + [more[|more| - 1]]
  {
  }

  /** The numbers given out stay, and the receiver goes nowhere. */
  ghost predicate SendKeeps(s: State, s': State) {
    && s'.registered == s.registered && s'.receiver == s.receiver
    && s'.closing == s.closing && s'.shutdown == s.shutdown
  }

  lemma CompleteAside(s: State, c: nat, o: Outcome)
    ensures SendKeeps(s, s.Complete(c, o))
  {
  }

  lemma TokenAside(s: State, c: nat, t: Token)
    ensures SendKeeps(s, s.SetToken(c, t))
  {
  }

  lemma RefuseAside(s: State, c: nat)
    ensures SendKeeps(s, DoRefuse(s, c))
  {
    CompleteAside(s, c, ShutDown);
  }

  lemma FinishAside(s: State, c: nat, found: Option<nat>)
    ensures SendKeeps(s, DoFinishFailed(s, c, found))
  {
    if found.Some? {
      CompleteAside(s, found.value, WriteError);
    }
  }

  lemma RemoveAside(s: State, c: nat, k: nat)
    ensures SendKeeps(s, DoRemoveFailed(s, c, k))
  {
    if k in s.pending {
      TokenAside(s, s.pending[k], AtFailing);
    }
  }

  lemma CancelAside(s: State, c: nat, k: nat)
    ensures SendKeeps(s, DoRemoveCancelled(s, c, k))
  {
    if k in s.pending {
      TokenAside(s, s.pending[k], Dropped);
    }
  }

  lemma WriteAside(s: State, c: nat, k: nat, ok: bool)
    ensures SendKeeps(s, DoWrite(s, c, k, ok))
  {
  }

  lemma SendAside(s: State, c: nat, step: SendStep)
    requires SendEnabled(s, c, step) && !step.Register?
    ensures SendKeeps(s, ApplySend(s, c, step))
  {
    match step
    case Refuse => RefuseAside(s, c);
    case Write(ok) => WriteAside(s, c, s.senders[c].num, ok);
    case RemoveFailed => RemoveAside(s, c, s.senders[c].num);
    case FinishFailed => FinishAside(s, c, s.senders[c].found);
    case _ =>
  }

  lemma BarredStep(s: State, step: Step)
    requires Inv(s) && Enabled(s, step) && Barred(s)
    ensures Barred(Apply(s, step)) && Apply(s, step).registered == s.registered
  {
    if s.closing || s.shutdown {
      ClosedStep(s, step);
    } else {
      match step
      case Send(c, x) =>
        assert c in s.calls ==> CallOk(s, c);
        SendAside(s, c, x);
      case Cancel(c, x) =>
        if x.RemoveCancelled? {
          CancelAside(s, c, s.cancellers[c].num);
        }
      case Receive(r) => assert Apply(s, step) == DoLockMu(s);
      case Close =>
    }
  }

  lemma {:induction false} BarredRun(steps: seq<Step>, more: seq<Step>)
    requires Barred(Run(steps))
    ensures Barred(Run(steps + more)) && Run(steps + more).registered == Run(steps).registered
  {
    if more == [] {
      assert steps + more == steps;
    } else {
      var before, step := steps + more[..|more| - 1], more[|more| - 1];
      BarredRun(steps, more[..|more| - 1]);
      Unsnoc(steps, more);
      RunOneMore(before, step);
      RunKeeps(before);
      if Enabled(Run(before), step) {
        BarredStep(Run(before), step);
      }
    }
  }

  /** The call had a number, and is not in the table under it. */
  predicate Gone(s: State, c: nat) {
    c in s.calls && 0 < s.calls[c].num < s.next && s.calls[c].num !in s.pending
  }

  /** Nothing enters the table but under the next number, and a call stays and keeps its number once it has one. */
  ghost predicate Numbers(s: State, s': State, c: nat) {
    && s.next <= s'.next
    && (forall k :: k in s'.pending ==> k in s.pending || k == s.next)
    && (c in s.calls ==> c in s'.calls && (s.calls[c].num > 0 ==> s'.calls[c].num == s.calls[c].num))
  }

  lemma CompleteNumbers(s: State, d: nat, o: Outcome, c: nat)
    ensures Numbers(s, s.Complete(d, o), c)
  {
  }

  lemma TokenNumbers(s: State, d: nat, t: Token, c: nat)
    ensures Numbers(s, s.SetToken(d, t), c)
  {
    var s' := s.SetToken(d, t);
    assert s'.next == s.next && s'.pending == s.pending;
    assert s'.calls == if d in s.calls then s.calls[d := s.calls[d].(token := t)] else s.calls;
  }

  lemma RefuseNumbers(s: State, d: nat, c: nat)
    ensures Numbers(s, DoRefuse(s, d), c)
  {
    CompleteNumbers(s, d, ShutDown, c);
  }

  lemma FinishNumbers(s: State, d: nat, found: Option<nat>, c: nat)
    ensures Numbers(s, DoFinishFailed(s, d, found), c)
  {
    if found.Some? {
      CompleteNumbers(s, found.value, WriteError, c);
    }
  }

  lemma RemoveNumbers(s: State, d: nat, k: nat, c: nat)
    ensures Numbers(s, DoRemoveFailed(s, d, k), c)
  {
    if k in s.pending {
      TokenNumbers(s, s.pending[k], AtFailing, c);
    }
  }

  lemma RegisterNumbers(s: State, d: nat, c: nat)
    requires d in s.calls && s.calls[d].num == 0
    ensures Numbers(s, DoRegister(s, d), c)
  {
  }

  lemma SendNumbers(s: State, d: nat, step: SendStep, c: nat)
    requires Inv(s) && SendEnabled(s, d, step)
    ensures Numbers(s, ApplySend(s, d, step), c)
  {
    match step
    case Go => assert Numbers(s, DoGo(s, d), c);
    case Register =>
      assert CallOk(s, d);
      RegisterNumbers(s, d, c);
    case Refuse => RefuseNumbers(s, d, c);
    case RemoveFailed => RemoveNumbers(s, d, s.senders[d].num, c);
    case FinishFailed => FinishNumbers(s, d, s.senders[d].found, c);
    case _ =>
  }

  lemma CancelNumbers(s: State, d: nat, k: nat, c: nat)
    ensures Numbers(s, DoRemoveCancelled(s, d, k), c)
  {
    if k in s.pending {
      TokenNumbers(s, s.pending[k], Dropped, c);
    }
  }

  lemma HeadedNumbers(s: State, k: nat, isError: bool, c: nat)
    ensures Numbers(s, DoRemoveHeaded(s, k, isError), c)
  {
    if k in s.pending {
      TokenNumbers(s, s.pending[k], AtReceiver, c);
    }
  }

  lemma ReceiveNumbers(s: State, step: ReceiveStep, c: nat)
    requires ReceiveEnabled(s, step)
    ensures Numbers(s, ApplyReceive(s, step), c)
  {
    match step
    case RemoveHeaded => HeadedNumbers(s, s.receiver.num, s.receiver.isError, c);
    case CompleteOne => CompleteNumbers(s, s.receiver.call, Reply(s.receiver.num, s.receiver.failed), c);
    case TerminateOne(key) => CompleteNumbers(s, s.pending[key], Terminated, c);
    case _ =>
  }

  lemma StepNumbers(s: State, step: Step, c: nat)
    requires Inv(s) && Enabled(s, step)
    ensures Numbers(s, Apply(s, step), c)
  {
    match step
    case Send(d, x) => SendNumbers(s, d, x, c);
    case Cancel(d, x) =>
      if x.RemoveCancelled? {
        CancelNumbers(s, d, s.cancellers[d].num, c);
      }
    case Receive(r) => ReceiveNumbers(s, r, c);
    case Close =>
  }

  lemma GoneStep(s: State, step: Step, c: nat)
    requires Inv(s) && Enabled(s, step) && Gone(s, c)
    ensures Gone(Apply(s, step), c)
  {
    StepNumbers(s, step, c);
  }

  lemma {:induction false} GoneRun(steps: seq<Step>, more: seq<Step>, c: nat)
    requires Gone(Run(steps), c)
    ensures Gone(Run(steps + more), c)
  {
    if more == [] {
      assert steps + more == steps;
    } else {
      var before, step := steps + more[..|more| - 1], more[|more| - 1];
      GoneRun(steps, more[..|more| - 1], c);
      Unsnoc(steps, more);
      RunOneMore(before, step);
      RunKeeps(before);
      if Enabled(Run(before), step) {
        GoneStep(Run(before), step, c);
      }
    }
  }

  // ---- a call without a number can still be registered, unless that is barred ----

  function Remaining(p: Sender): nat {
    match p
    case HasSending => 4
    case Preparing(_) => 3
    case Writing(_) => 2
    case Failing(_) => 2
    case Finishing(_) => 1
    case _ => 0
  }

  /** The holder d of sending comes closer to giving it back, and nothing else moves. */
  ghost predicate Closer(s: State, s': State, d: nat) {
    && !Barred(s')
    && (forall c :: c != d && c in s.senders ==> c in s'.senders && s'.senders[c] == s.senders[c])
    && (s'.sending == None
        || (s'.sending == s.sending && d in s'.senders && d in s.senders
            && Remaining(s'.senders[d]) < Remaining(s.senders[d])))
  }

  lemma PreparesCloser(s: State, d: nat, k: nat)
    requires !Barred(s) && s.At(d, Preparing(k))
    ensures Closer(s, DoPrepare(s, d, k), d) || s.sending != Some(BySender(d))
  {
  }

  lemma WritesCloser(s: State, d: nat, k: nat)
    requires !Barred(s) && s.At(d, Writing(k))
    ensures Closer(s, DoWrite(s, d, k, true), d)
  {
  }

  lemma FailsCloser(s: State, d: nat, k: nat)
    requires !Barred(s) && s.At(d, Failing(k))
    ensures Closer(s, DoRemoveFailed(s, d, k), d)
  {
    RemoveAside(s, d, k);
  }

  lemma FinishesCloser(s: State, d: nat, found: Option<nat>)
    requires !Barred(s) && s.At(d, Finishing(found))
    ensures Closer(s, DoFinishFailed(s, d, found), d)
  {
    FinishAside(s, d, found);
  }

  lemma RegistersCloser(s: State, d: nat)
    requires !Barred(s) && s.At(d, HasSending) && d in s.calls
    ensures Closer(s, DoRegister(s, d), d)
  {
  }

  /** What another holder of sending does next on the way to giving it back. */
  lemma HolderStep(s: State, d: nat) returns (step: SendStep)
    requires Inv(s) && !Barred(s) && s.sending == Some(BySender(d))
    ensures SendEnabled(s, d, step) && !step.Go? && Closer(s, ApplySend(s, d, step), d)
  {
    assert CallOk(s, d);
    match s.senders[d]
    case HasSending =>
      step := Register;
      RegistersCloser(s, d);
    case Preparing(k) =>
      step := Prepare;
      PreparesCloser(s, d, k);
    case Writing(k) =>
      step := Write(true);
      WritesCloser(s, d, k);
    case Failing(k) =>
      step := RemoveFailed;
      FailsCloser(s, d, k);
    case Finishing(found) =>
      step := FinishFailed;
      FinishesCloser(s, d, found);
  }

  /** How many steps the holder of sending is from giving it back. */
  function Pressure(s: State): nat {
    if s.sending.Some? && s.sending.value.BySender? && s.sending.value.c in s.senders
    then 1 + Remaining(s.senders[s.sending.value.c]) else 0
  }

  predicate Wants(s: State, c: nat) {
    !Barred(s) && c in s.calls && s.At(c, WantSending)
  }

  predicate Gets(s: State, c: nat) {
    !Barred(s) && c in s.calls && s.At(c, HasSending)
  }

  /** While another call holds sending, the run can go on without the call that wants it. */
  lemma HolderMoves(s: State, c: nat) returns (step: Step)
    requires Inv(s) && Wants(s, c) && s.sending.Some?
    ensures Enabled(s, step) && Wants(Apply(s, step), c) && Pressure(Apply(s, step)) < Pressure(s)
  {
    var d := s.sending.value.c;
    assert CallOk(s, d) && CallOk(s, c);
    var x := HolderStep(s, d);
    SendNumbers(s, d, x, c);
    step := Send(d, x);
  }

  lemma LockGets(s: State, c: nat)
    requires Wants(s, c) && s.sending == None
    ensures Enabled(s, Send(c, LockSending)) && Gets(Apply(s, Send(c, LockSending)), c)
  {
    assert Apply(s, Send(c, LockSending)) == DoLockSending(s, c);
  }

  lemma RunGets(steps: seq<Step>, c: nat)
    requires Wants(Run(steps), c) && Run(steps).sending == None
    ensures Gets(Run(steps + [Send(c, LockSending)]), c)
  {
    RunOneMore(steps, Send(c, LockSending));
    LockGets(Run(steps), c);
  }

  lemma RunMoves(steps: seq<Step>, c: nat) returns (step: Step)
    requires Wants(Run(steps), c) && Run(steps).sending.Some?
    ensures Wants(Run(steps + [step]), c) && Pressure(Run(steps + [step])) < Pressure(Run(steps))
  {
    RunKeeps(steps);
    step := HolderMoves(Run(steps), c);
    RunOneMore(steps, step);
  }

  /** A call that wants sending can get it. */
  lemma {:induction false} GetSending(steps: seq<Step>, c: nat) returns (more: seq<Step>)
    requires Wants(Run(steps), c)
    ensures Gets(Run(steps + more), c)
    decreases Pressure(Run(steps))
  {
    if Run(steps).sending == None {
      more := [Send(c, LockSending)];
      RunGets(steps, c);
    } else {
      var step := RunMoves(steps, c);
      var rest := GetSending(steps + [step], c);
      more := [step] + rest;
      assert steps + more == steps + [step] + rest;
    }
  }

  lemma RunRegisters(steps: seq<Step>, c: nat)
    requires Gets(Run(steps), c)
    ensures InTable(Run(steps + [Send(c, Register)]), c)
  {
    var s := Run(steps);
    RunKeeps(steps);
    assert CallOk(s, c);
    RunOneMore(steps, Send(c, Register));
    assert s.next in DoRegister(s, c).pending && DoRegister(s, c).pending[s.next] == c;
  }

  lemma CanBeRegistered(steps: seq<Step>, c: nat) returns (more: seq<Step>)
    requires !Barred(Run(steps)) && c in Run(steps).calls && Run(steps).calls[c].num == 0
    ensures InTable(Run(steps + more), c)
  {
    RunKeeps(steps);
    assert CallOk(Run(steps), c);
    var first: seq<Step> := [];
    assert steps + first == steps;
    if Wants(Run(steps), c) {
      first := GetSending(steps, c);
    }
    RunRegisters(steps + first, c);
    more := first + [Send(c, Register)];
    assert steps + more == steps + first + [Send(c, Register)];
  }

  /** A call is in the table now or later if and only if it is there now, or has no number yet and registering is not
      barred. */
  lemma InTableIff(steps: seq<Step>, s: State, c: nat)
    requires Reached(steps, s) && c in s.calls
    ensures (exists more :: InTable(Run(steps + more), c)) <==> InTable(s, c) || (s.calls[c].num == 0 && !Barred(s))
  {
    RunKeeps(steps);
    InTableByNumber(s, c);
    assert CallOk(s, c);
    if InTable(s, c) {
      assert steps + [] == steps;
    } else if s.calls[c].num == 0 && !Barred(s) {
      var more := CanBeRegistered(steps, c);
    } else {
      forall more ensures !InTable(Run(steps + more), c) {
        NeverAgain(steps, s, c, more);
      }
    }
  }

  lemma NeverAgain(steps: seq<Step>, s: State, c: nat, more: seq<Step>)
    requires Reached(steps, s) && c in s.calls && !InTable(s, c) && (s.calls[c].num > 0 || Barred(s))
    ensures !InTable(Run(steps + more), c)
  {
    var t := Run(steps + more);
    RunKeeps(steps);
    RunKeeps(steps + more);
    InTableByNumber(s, c);
    InTableByNumber(t, c);
    assert CallOk(s, c);
    if s.calls[c].num > 0 {
      GoneRun(steps, more, c);
    } else {
      BarredRun(steps, more);
      assert c in t.calls ==> KeyOk(t, t.calls[c].num) && KeyOk(s, t.calls[c].num) && CallOk(t, c);
    }
  }

  /** A cancelled call is in the table now or later if and only if it was cancelled before it had a number, and is there
      now or can still be registered. */
  lemma CancelledInTableIff(steps: seq<Step>, s: State, c: nat, k: nat)
    requires Reached(steps, s) && c in s.calls && c in s.cancellers && s.cancellers[c] == Cancelled(k)
    ensures (exists more :: InTable(Run(steps + more), c))
       <==> k == 0 && (InTable(s, c) || (s.calls[c].num == 0 && !Barred(s)))
  {
    RunKeeps(steps);
    assert CallOk(s, c);
    InTableByNumber(s, c);
    InTableIff(steps, s, c);
  }
}
