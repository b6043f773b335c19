/** What every step of the RPC client keeps. */
module RpcClientInvariants {
  import opened Options
  import opened RpcClients

  predicate Holds(p: Sender) {
    !p.WantSending? && !p.Sent?
  }

  /** Not registered yet. */
  predicate IsEarly(p: Sender) {
    p.WantSending? || p.HasSending? || p.Refusing?
  }

  predicate IsSending(p: Sender) {
    p.Preparing? || p.Writing? || p.Failing?
  }

  /** The receiver has removed this call and has not completed it. */
  predicate AtHand(r: Receiver, c: nat) {
    (r.Looked? && r.found == Some(c)) || (r.Completing? && r.call == c)
  }

  /** Termination has visited the key. */
  predicate Swept(s: State, k: nat) {
    s.receiver.Stopped? || (s.receiver.Terminating? && k !in s.receiver.left)
  }

  ghost predicate Inv(s: State) {
    && Control(s)
    && (forall c :: if c in s.calls then CallOk(s, c) && TokenOk(s, c) else c !in s.wire)
    && (forall k :: KeyOk(s, k))
  }

  /** Who holds which mutex. */
  ghost predicate Control(s: State) {
    && s.next >= 1
    && (s.sending == Some(ByReceiver) <==> s.receiver.TermSending? || s.receiver.Terminating?)
    && (s.sending.Some? && s.sending.value.BySender? ==> s.sending.value.c in s.calls)
    && (s.muHeld <==> s.receiver.Terminating?)
    && (s.shutdown <==> s.receiver.Terminating? || s.receiver.Stopped?)
    && (s.receiver.Looked? && s.receiver.found.Some? ==> ReceiverHas(s, s.receiver.found.value, s.receiver.num))
    && (s.receiver.Completing? ==> ReceiverHas(s, s.receiver.call, s.receiver.num))
  }

  ghost predicate ReceiverHas(s: State, c: nat, k: nat) {
    c in s.calls && s.calls[c].token == AtReceiver && s.calls[c].num == k
  }

  /** The call's number, its sender and its canceller. */
  ghost predicate CallOk(s: State, c: nat)
    requires c in s.calls
  {
    && c in s.senders && c in s.cancellers
    && var x, p, a := s.calls[c], s.senders[c], s.cancellers[c];
    && (Holds(p) <==> s.sending == Some(BySender(c)))
    && x.num < s.next
    && (x.num > 0 ==> x.num in s.registered && s.registered[x.num] == c)
    && (x.num == 0 <==> IsEarly(p) || x.outcome == Some(ShutDown))
    && (x.outcome == Some(ShutDown) ==> p.Sent?)
    && (p.Refusing? || x.outcome == Some(ShutDown) ==> s.closing || s.shutdown)
    && (IsSending(p) || p.Finishing? ==> !s.shutdown)
    && (IsSending(p) ==> p.num == x.num)
    && (p.Writing? ==> s.header == p.num)
    && (c in s.wire ==> s.wire[c] == x.num > 0)
    && (!a.NotCancelled? ==> a.num in {0, x.num})
    && (a.Cancelled? ==> a.num !in s.pending)
  }

  /** Where the duty to complete the call is. */
  ghost predicate TokenOk(s: State, c: nat)
    requires c in s.calls
  {
    && c in s.senders && c in s.cancellers
    && var x, p := s.calls[c], s.senders[c];
    && x.dones == (if x.token == Done then 1 else 0)
    && (x.outcome.Some? <==> x.token == Done)
    && (x.token == AtSender <==> IsEarly(p))
    && (x.token == InPending ==> x.num in s.pending && s.pending[x.num] == c)
    && (x.token == AtFailing <==> p == Finishing(Some(c)))
    && (p.Finishing? ==> p.found in {None, Some(c)})
    && (x.token == AtReceiver ==> AtHand(s.receiver, c))
    && (x.token == Dropped ==> s.cancellers[c] == Cancelled(x.num))
    && (x.outcome.Some? && x.outcome.value.Reply? ==> x.outcome.value.num == x.num)
  }

  /** The call registered and the call pending under a number. */
  ghost predicate KeyOk(s: State, k: nat) {
    && (k in s.registered ==> 1 <= k < s.next && s.registered[k] in s.calls && s.calls[s.registered[k]].num == k)
    && (k in s.pending ==>
          && k in s.registered && s.registered[k] == s.pending[k] && s.pending[k] in s.calls
          && s.calls[s.pending[k]].token == (if Swept(s, k) then Done else InPending))
    && (s.receiver.Terminating? && k in s.receiver.left ==> k in s.pending)
  }

  /** All that the invariant says about one call. */
  ghost predicate View(s: State, c: nat) {
    if c in s.calls then CallOk(s, c) && TokenOk(s, c) && KeyOk(s, s.calls[c].num) else c !in s.wire
  }

  /** The invariant as far as it concerns one call and one number. */
  ghost predicate Kept(s: State, d: nat, k: nat) {
    Control(s) && (if d in s.calls then CallOk(s, d) && TokenOk(s, d) else d !in s.wire) && KeyOk(s, k)
  }

  // ---- one lemma for each step, about any call d and any number k ----

  lemma AfterGo(s: State, c: nat, d: nat, k: nat)
    requires Control(s) && SendEnabled(s, c, Go) && View(s, c) && View(s, d) && KeyOk(s, k)
    ensures Kept(DoGo(s, c), d, k)
  {
  }

  lemma AfterLock(s: State, c: nat, d: nat, k: nat)
    requires Control(s) && SendEnabled(s, c, LockSending) && View(s, c) && View(s, d) && KeyOk(s, k)
    ensures Kept(DoLockSending(s, c), d, k)
  {
  }

  lemma AfterRegister(s: State, c: nat, d: nat, k: nat)
    requires Control(s) && SendEnabled(s, c, Register) && View(s, c) && View(s, d) && KeyOk(s, k)
    ensures Kept(DoRegister(s, c), d, k)
  {
  }

  lemma AfterRefuse(s: State, c: nat, d: nat, k: nat)
    requires Control(s) && SendEnabled(s, c, Refuse) && View(s, c) && View(s, d) && KeyOk(s, k)
    ensures Kept(DoRefuse(s, c), d, k)
  {
  }

  lemma AfterPrepare(s: State, c: nat, d: nat, k: nat)
    requires Control(s) && SendEnabled(s, c, Prepare) && View(s, c) && View(s, d) && KeyOk(s, k)
    ensures Kept(DoPrepare(s, c, s.senders[c].num), d, k)
  {
  }

  lemma AfterWrite(s: State, c: nat, ok: bool, d: nat, k: nat)
    requires Control(s) && SendEnabled(s, c, Write(ok)) && View(s, c) && View(s, d) && KeyOk(s, k)
    ensures Kept(DoWrite(s, c, s.senders[c].num, ok), d, k)
  {
  }

  lemma AfterRemoveKnown(s: State, c: nat, n: nat, d: nat, k: nat)
    requires Control(s) && s.At(c, Failing(n)) && !s.muHeld && c in s.calls && n in s.pending
    requires KeyOk(s, n) && View(s, c) && View(s, d) && KeyOk(s, k)
    ensures Kept(DoRemoveFailed(s, c, n), d, k)
  {
    assert s.pending[n] == c;
    assert DoRemoveFailed(s, c, n) == s.SetToken(c, AtFailing).Remove(n).SetSender(c, Finishing(Some(c)));
  }

  lemma AfterRemoveUnknown(s: State, c: nat, n: nat, d: nat, k: nat)
    requires Control(s) && s.At(c, Failing(n)) && !s.muHeld && c in s.calls && n !in s.pending
    requires View(s, c) && View(s, d) && KeyOk(s, k)
    ensures Kept(DoRemoveFailed(s, c, n), d, k)
  {
    assert s.Remove(n) == s;
  }

  lemma AfterRemove(s: State, c: nat, n: nat, d: nat, k: nat)
    requires Control(s) && s.At(c, Failing(n)) && !s.muHeld && c in s.calls
    requires KeyOk(s, n) && View(s, c) && View(s, d) && KeyOk(s, k)
    ensures Kept(DoRemoveFailed(s, c, n), d, k)
  {
    if n in s.pending {
      AfterRemoveKnown(s, c, n, d, k);
    } else {
      AfterRemoveUnknown(s, c, n, d, k);
    }
  }

  lemma AfterFinishKnown(s: State, c: nat, d: nat, k: nat)
    requires Control(s) && s.At(c, Finishing(Some(c))) && c in s.calls && View(s, c) && View(s, d) && KeyOk(s, k)
    ensures Kept(DoFinishFailed(s, c, Some(c)), d, k)
  {
  }

  lemma AfterFinishUnknown(s: State, c: nat, d: nat, k: nat)
    requires Control(s) && s.At(c, Finishing(None)) && c in s.calls && View(s, c) && View(s, d) && KeyOk(s, k)
    ensures Kept(DoFinishFailed(s, c, None), d, k)
  {
  }

  lemma AfterFinish(s: State, c: nat, found: Option<nat>, d: nat, k: nat)
    requires Control(s) && s.At(c, Finishing(found)) && c in s.calls && View(s, c) && View(s, d) && KeyOk(s, k)
    ensures Kept(DoFinishFailed(s, c, found), d, k)
  {
    assert found in {None, Some(c)};
    if found == None {
      AfterFinishUnknown(s, c, d, k);
    } else {
      AfterFinishKnown(s, c, d, k);
    }
  }

  lemma AfterReadSeq(s: State, c: nat, d: nat, k: nat)
    requires Control(s) && CancelEnabled(s, c, ReadSeq) && View(s, c) && View(s, d) && KeyOk(s, k)
    ensures Kept(DoReadSeq(s, c), d, k)
  {
  }

  lemma AfterCancelKnown(s: State, c: nat, n: nat, d: nat, k: nat)
    requires Control(s) && CancelEnabled(s, c, RemoveCancelled) && s.cancellers[c].num == n && n in s.pending
    requires KeyOk(s, n) && View(s, c) && View(s, d) && KeyOk(s, k)
    ensures Kept(DoRemoveCancelled(s, c, n), d, k)
  {
    assert s.pending[n] == c;
    if s.calls[c].token == InPending {
      assert DoRemoveCancelled(s, c, n)
          == s.SetToken(c, Dropped).Remove(n).(cancellers := s.cancellers[c := Cancelled(n)]);
    } else {
      assert DoRemoveCancelled(s, c, n) == s.Remove(n).(cancellers := s.cancellers[c := Cancelled(n)]);
    }
  }

  lemma AfterCancelUnknown(s: State, c: nat, n: nat, d: nat, k: nat)
    requires Control(s) && CancelEnabled(s, c, RemoveCancelled) && s.cancellers[c].num == n && n !in s.pending
    requires View(s, c) && View(s, d) && KeyOk(s, k)
    ensures Kept(DoRemoveCancelled(s, c, n), d, k)
  {
    assert s.Remove(n) == s;
  }

  lemma AfterCancel(s: State, c: nat, n: nat, d: nat, k: nat)
    requires Control(s) && CancelEnabled(s, c, RemoveCancelled) && s.cancellers[c].num == n
    requires KeyOk(s, n) && View(s, c) && View(s, d) && KeyOk(s, k)
    ensures Kept(DoRemoveCancelled(s, c, n), d, k)
  {
    if n in s.pending {
      AfterCancelKnown(s, c, n, d, k);
    } else {
      AfterCancelUnknown(s, c, n, d, k);
    }
  }

  lemma AfterHeader(s: State, ok: bool, n: nat, isError: bool, d: nat, k: nat)
    requires Control(s) && ReceiveEnabled(s, ReadHeader(ok, n, isError)) && View(s, d) && KeyOk(s, k)
    ensures Kept(DoReadHeader(s, ok, n, isError), d, k)
  {
  }

  lemma AfterHeadedKnown(s: State, n: nat, isError: bool, c: nat, d: nat, k: nat)
    requires Control(s) && s.receiver == Headed(n, isError) && !s.muHeld && n in s.pending && s.pending[n] == c
    requires KeyOk(s, n) && View(s, c) && View(s, d) && KeyOk(s, k)
    ensures Kept(DoRemoveHeaded(s, n, isError), d, k)
  {
    assert DoRemoveHeaded(s, n, isError)
        == s.SetToken(c, AtReceiver).Remove(n).(receiver := Looked(Some(c), n, isError));
  }

  lemma AfterHeadedUnknown(s: State, n: nat, isError: bool, d: nat, k: nat)
    requires Control(s) && s.receiver == Headed(n, isError) && !s.muHeld && n !in s.pending && View(s, d) && KeyOk(s, k)
    ensures Kept(DoRemoveHeaded(s, n, isError), d, k)
  {
    assert s.Remove(n).pending == s.pending;
  }

  lemma AfterBody(s: State, found: Option<nat>, n: nat, isError: bool, ok: bool, d: nat, k: nat)
    requires Control(s) && s.receiver == Looked(found, n, isError) && View(s, d) && KeyOk(s, k)
    ensures Kept(DoReadBody(s, found, n, isError, ok), d, k)
  {
  }

  lemma AfterComplete(s: State, c: nat, n: nat, failed: bool, more: bool, d: nat, k: nat)
    requires Control(s) && s.receiver == Completing(c, n, failed, more) && View(s, c) && View(s, d) && KeyOk(s, k)
    ensures Kept(DoCompleteOne(s, c, n, failed, more), d, k)
  {
  }

  lemma AfterTermLock(s: State, d: nat, k: nat)
    requires Control(s) && ReceiveEnabled(s, LockForTermination) && View(s, d) && KeyOk(s, k)
    ensures Kept(DoLockForTermination(s), d, k)
  {
  }

  lemma AfterLockMu(s: State, d: nat, k: nat)
    requires Control(s) && ReceiveEnabled(s, LockMu) && View(s, d) && KeyOk(s, k)
    ensures Kept(DoLockMu(s), d, k)
  {
  }

  lemma AfterTerminateOne(s: State, key: nat, left: set<nat>, d: nat, k: nat)
    requires Control(s) && s.receiver == Terminating(left) && key in left && key in s.pending
    requires View(s, s.pending[key]) && KeyOk(s, key) && View(s, d) && KeyOk(s, k)
    ensures Kept(DoTerminateOne(s, key, left), d, k)
  {
  }

  lemma AfterEnd(s: State, d: nat, k: nat)
    requires Control(s) && ReceiveEnabled(s, EndTermination) && View(s, d) && KeyOk(s, k)
    ensures Kept(DoEndTermination(s), d, k)
  {
  }

  lemma AfterClose(s: State, d: nat, k: nat)
    requires Control(s) && !s.muHeld && View(s, d) && KeyOk(s, k)
    ensures Kept(s.(closing := true), d, k)
  {
  }
  // ---- every step ----

  lemma SendKept(s: State, c: nat, step: SendStep, d: nat, k: nat)
    requires Inv(s) && SendEnabled(s, c, step)
    ensures Kept(ApplySend(s, c, step), d, k)
  {
    match step
    case Go => AfterGo(s, c, d, k);
    case LockSending => AfterLock(s, c, d, k);
    case Register => AfterRegister(s, c, d, k);
    case Refuse => AfterRefuse(s, c, d, k);
    case Prepare => AfterPrepare(s, c, d, k);
    case Write(ok) => AfterWrite(s, c, ok, d, k);
    case RemoveFailed => AfterRemove(s, c, s.senders[c].num, d, k);
    case FinishFailed => AfterFinish(s, c, s.senders[c].found, d, k);
  }

  lemma CancelKept(s: State, c: nat, step: CancelStep, d: nat, k: nat)
    requires Inv(s) && CancelEnabled(s, c, step)
    ensures Kept(ApplyCancel(s, c, step), d, k)
  {
    match step
    case ReadSeq => AfterReadSeq(s, c, d, k);
    case RemoveCancelled => AfterCancel(s, c, s.cancellers[c].num, d, k);
  }

  lemma ReceiveKept(s: State, step: ReceiveStep, d: nat, k: nat)
    requires Inv(s) && ReceiveEnabled(s, step)
    ensures Kept(ApplyReceive(s, step), d, k)
  {
    match step
    case ReadHeader(ok, n, isError) => AfterHeader(s, ok, n, isError, d, k);
    case RemoveHeaded =>
      var n, e := s.receiver.num, s.receiver.isError;
      if n in s.pending {
        AfterHeadedKnown(s, n, e, s.pending[n], d, k);
      } else {
        AfterHeadedUnknown(s, n, e, d, k);
      }
    case ReadBody(ok) => AfterBody(s, s.receiver.found, s.receiver.num, s.receiver.isError, ok, d, k);
    case CompleteOne => AfterComplete(s, s.receiver.call, s.receiver.num, s.receiver.failed, s.receiver.more, d, k);
    case LockForTermination => AfterTermLock(s, d, k);
    case LockMu => AfterLockMu(s, d, k);
    case TerminateOne(key) => AfterTerminateOne(s, key, s.receiver.left, d, k);
    case EndTermination => AfterEnd(s, d, k);
  }

  lemma StepKept(s: State, step: Step, d: nat, k: nat)
    requires Inv(s) && Enabled(s, step)
    ensures Kept(Apply(s, step), d, k)
  {
    match step
    case Send(c, x) => SendKept(s, c, x, d, k);
    case Cancel(c, x) => CancelKept(s, c, x, d, k);
    case Receive(r) => ReceiveKept(s, r, d, k);
    case Close => AfterClose(s, d, k);
  }

  lemma StepKeeps(s: State, step: Step)
    requires Inv(s) && Enabled(s, step)
    ensures Inv(Apply(s, step))
  {
    var s' := Apply(s, step);
    forall d: nat, k: nat ensures Kept(s', d, k) { StepKept(s, step, d, k); }
    assert Kept(s', 0, 0);
    forall d ensures if d in s'.calls then CallOk(s', d) && TokenOk(s', d) else d !in s'.wire { assert Kept(s', d, 0); }
    forall k ensures KeyOk(s', k) { assert Kept(s', 0, k); }
  }

  /** Every reachable state satisfies the invariant. */
  lemma {:induction false} RunKeeps(steps: seq<Step>)
    ensures Inv(Run(steps))
  {
    if steps != [] {
      var s, step := Run(steps[..|steps| - 1]), steps[|steps| - 1];
      RunKeeps(steps[..|steps| - 1]);
      if Enabled(s, step) {
        StepKeeps(s, step);
      }
    }
  }
}
