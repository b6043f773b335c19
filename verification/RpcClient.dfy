/** The call table of the RPC client (psygo/rpc/client.go) as a transition system: any number of senders and
    cancellers, one receiver that also terminates, two mutexes. A step is one access to shared state or one stretch
    under client.mu; what the codec does is up to the step. */
module RpcClients {
  import opened Options

  /** Why a call completed. */
  datatype Outcome = ShutDown | WriteError | Reply(num: nat, failed: bool) | Terminated

  /** Where the goroutine of Client.send is. */
  datatype Sender =
    | WantSending
    | HasSending               // holds sending
    | Refusing                 // holds sending: registerCall refused
    | Preparing(num: nat)      // holds sending: registered
    | Writing(num: nat)        // holds sending: the header is set
    | Failing(num: nat)        // holds sending: Write failed
    | Finishing(found: Option<nat>) // holds sending: what removeCall found
    | Sent

  /** Where the goroutine of Client.receive is. */
  datatype Receiver =
    | AtRead
    | Headed(num: nat, isError: bool)
    | Looked(found: Option<nat>, num: nat, isError: bool)
    | Completing(call: nat, num: nat, failed: bool, more: bool)
    | WantTermination
    | TermSending              // holds sending
    | Terminating(left: set<nat>) // holds sending and mu: the keys not yet visited
    | Stopped

  /** Where Client.Call is once its context is done; num is what it read from call.Seq. */
  datatype Canceller = NotCancelled | Cancelling(num: nat) | Cancelled(num: nat)

  datatype Holder = BySender(c: nat) | ByReceiver

  /** Who has to complete a call. A history: a step looks at a token only to update it. */
  datatype Token = AtSender | InPending | AtFailing | AtReceiver | Dropped | Done

  /** dones counts the sends on call.Done. */
  datatype Call = Call(num: nat, dones: nat, outcome: Option<Outcome>, token: Token)

  /** registered and wire are histories: the call of each number, and the number each request was written with. */
  datatype State = State(
    sending: Option<Holder>,
    muHeld: bool,
    header: nat,
    next: nat,
    pending: map<nat, nat>,
    closing: bool,
    shutdown: bool,
    calls: map<nat, Call>,
    senders: map<nat, Sender>,
    cancellers: map<nat, Canceller>,
    receiver: Receiver,
    registered: map<nat, nat>,
    wire: map<nat, nat>)
  {
    predicate At(c: nat, p: Sender) {
      c in senders && senders[c] == p
    }

    function SetSender(c: nat, p: Sender): State {
      this.(senders := senders[c := p])
    }

    /** call.done(), with what it reports. */
    function Complete(c: nat, outcome: Outcome): State {
      if c in calls
      then this.(calls := calls[c := calls[c].(dones := calls[c].dones + 1, outcome := Some(outcome), token := Done)])
      else this
    }

    function SetToken(c: nat, t: Token): State {
      if c in calls then this.(calls := calls[c := calls[c].(token := t)]) else this
    }

    /** removeCall(k). */
    function Lookup(k: nat): Option<nat> {
      if k in pending then Some(pending[k]) else None
    }

    function Remove(k: nat): State {
      this.(pending := pending - {k})
    }
  }

  /** newClientCodec. */
  function Init(): State {
    State(None, false, 0, 1, map[], false, false, map[], map[], map[], AtRead, map[], map[])
  }

  datatype SendStep =
    | Go
    | LockSending
    | Register
    | Refuse
    | Prepare
    | Write(ok: bool)
    | RemoveFailed
    | FinishFailed

  datatype CancelStep = ReadSeq | RemoveCancelled

  datatype ReceiveStep =
    | ReadHeader(ok: bool, num: nat, isError: bool)
    | RemoveHeaded
    | ReadBody(ok: bool)
    | CompleteOne
    | LockForTermination
    | LockMu
    | TerminateOne(key: nat)
    | EndTermination

  datatype Step = Send(c: nat, s: SendStep) | Cancel(c: nat, x: CancelStep) | Receive(r: ReceiveStep) | Close

  // ---- send ----

  function DoGo(s: State, c: nat): State {
    s.(calls := s.calls[c := Call(0, 0, None, AtSender)],
       senders := s.senders[c := WantSending],
       cancellers := s.cancellers[c := NotCancelled])
  }

  function DoLockSending(s: State, c: nat): State {
    s.(sending := Some(BySender(c))).SetSender(c, HasSending)
  }

  function DoRegister(s: State, c: nat): State
    requires c in s.calls
  {
    if s.closing || s.shutdown then s.SetSender(c, Refusing)
    else
      s.(calls := s.calls[c := s.calls[c].(num := s.next, token := InPending)],
         pending := s.pending[s.next := c],
         registered := s.registered[s.next := c],
         next := s.next + 1).SetSender(c, Preparing(s.next))
  }

  function DoRefuse(s: State, c: nat): State {
    s.Complete(c, ShutDown).(sending := None).SetSender(c, Sent)
  }

  function DoPrepare(s: State, c: nat, k: nat): State {
    s.(header := k).SetSender(c, Writing(k))
  }

  function DoWrite(s: State, c: nat, k: nat, ok: bool): State {
    var s' := s.(wire := s.wire[c := s.header]);
    if ok then s'.(sending := None).SetSender(c, Sent) else s'.SetSender(c, Failing(k))
  }

  function DoRemoveFailed(s: State, c: nat, k: nat): State {
    var s' := if k in s.pending then s.SetToken(s.pending[k], AtFailing) else s;
    s'.Remove(k).SetSender(c, Finishing(s.Lookup(k)))
  }

  function DoFinishFailed(s: State, c: nat, found: Option<nat>): State {
    var s' := if found.Some? then s.Complete(found.value, WriteError) else s;
    s'.(sending := None).SetSender(c, Sent)
  }

  predicate SendEnabled(s: State, c: nat, step: SendStep) {
    if step.Go? then c !in s.senders && c !in s.calls
    else
      && c in s.senders && c in s.calls
      && match step
         case Go => false
         case LockSending => s.senders[c].WantSending? && s.sending == None
         case Register => s.senders[c].HasSending? && !s.muHeld
         case Refuse => s.senders[c].Refusing?
         case Prepare => s.senders[c].Preparing?
         case Write(_) => s.senders[c].Writing?
         case RemoveFailed => s.senders[c].Failing? && !s.muHeld
         case FinishFailed => s.senders[c].Finishing?
  }

  function ApplySend(s: State, c: nat, step: SendStep): State
    requires SendEnabled(s, c, step)
  {
    match step
    case Go => DoGo(s, c)
    case LockSending => DoLockSending(s, c)
    case Register => DoRegister(s, c)
    case Refuse => DoRefuse(s, c)
    case Prepare => DoPrepare(s, c, s.senders[c].num)
    case Write(ok) => DoWrite(s, c, s.senders[c].num, ok)
    case RemoveFailed => DoRemoveFailed(s, c, s.senders[c].num)
    case FinishFailed => DoFinishFailed(s, c, s.senders[c].found)
  }

  // ---- cancellation in Call, and Close ----

  function DoReadSeq(s: State, c: nat): State
    requires c in s.calls
  {
    s.(cancellers := s.cancellers[c := Cancelling(s.calls[c].num)])
  }

  function DoRemoveCancelled(s: State, c: nat, k: nat): State {
    var s' := if k in s.pending && s.pending[k] in s.calls && s.calls[s.pending[k]].token == InPending
              then s.SetToken(s.pending[k], Dropped) else s;
    s'.Remove(k).(cancellers := s.cancellers[c := Cancelled(k)])
  }

  predicate CancelEnabled(s: State, c: nat, step: CancelStep) {
    && c in s.cancellers && c in s.calls
    && match step
       case ReadSeq => s.cancellers[c].NotCancelled?
       case RemoveCancelled => s.cancellers[c].Cancelling? && !s.muHeld
  }

  function ApplyCancel(s: State, c: nat, step: CancelStep): State
    requires CancelEnabled(s, c, step)
  {
    match step
    case ReadSeq => DoReadSeq(s, c)
    case RemoveCancelled => DoRemoveCancelled(s, c, s.cancellers[c].num)
  }

  // ---- receive and terminateCalls ----

  function DoReadHeader(s: State, ok: bool, k: nat, isError: bool): State {
    s.(receiver := if ok then Headed(k, isError) else WantTermination)
  }

  function DoRemoveHeaded(s: State, k: nat, isError: bool): State {
    var s' := if k in s.pending then s.SetToken(s.pending[k], AtReceiver) else s;
    s'.Remove(k).(receiver := Looked(s.Lookup(k), k, isError))
  }

  function DoReadBody(s: State, found: Option<nat>, k: nat, isError: bool, ok: bool): State {
    s.(receiver := if found.Some? then Completing(found.value, k, isError || !ok, ok)
                   else if ok then AtRead else WantTermination)
  }

  function DoCompleteOne(s: State, c: nat, k: nat, failed: bool, more: bool): State {
    s.Complete(c, Reply(k, failed)).(receiver := if more then AtRead else WantTermination)
  }

  function DoLockForTermination(s: State): State {
    s.(sending := Some(ByReceiver), receiver := TermSending)
  }

  function DoLockMu(s: State): State {
    s.(muHeld := true, shutdown := true, receiver := Terminating(s.pending.Keys))
  }

  function DoTerminateOne(s: State, key: nat, left: set<nat>): State
    requires key in s.pending
  {
    s.Complete(s.pending[key], Terminated).(receiver := Terminating(left - {key}))
  }

  function DoEndTermination(s: State): State {
    s.(muHeld := false, sending := None, receiver := Stopped)
  }

  predicate ReceiveEnabled(s: State, step: ReceiveStep) {
    match step
    case ReadHeader(_, _, _) => s.receiver.AtRead?
    case RemoveHeaded => s.receiver.Headed? && !s.muHeld
    case ReadBody(_) => s.receiver.Looked?
    case CompleteOne => s.receiver.Completing?
    case LockForTermination => s.receiver.WantTermination? && s.sending == None
    case LockMu => s.receiver.TermSending? && !s.muHeld
    case TerminateOne(key) => s.receiver.Terminating? && key in s.receiver.left && key in s.pending
    case EndTermination => s.receiver.Terminating? && s.receiver.left == {}
  }

  function ApplyReceive(s: State, step: ReceiveStep): State
    requires ReceiveEnabled(s, step)
  {
    match step
    case ReadHeader(ok, k, isError) => DoReadHeader(s, ok, k, isError)
    case RemoveHeaded => DoRemoveHeaded(s, s.receiver.num, s.receiver.isError)
    case ReadBody(ok) => DoReadBody(s, s.receiver.found, s.receiver.num, s.receiver.isError, ok)
    case CompleteOne => DoCompleteOne(s, s.receiver.call, s.receiver.num, s.receiver.failed, s.receiver.more)
    case LockForTermination => DoLockForTermination(s)
    case LockMu => DoLockMu(s)
    case TerminateOne(key) => DoTerminateOne(s, key, s.receiver.left)
    case EndTermination => DoEndTermination(s)
  }

  predicate Enabled(s: State, step: Step) {
    match step
    case Send(c, x) => SendEnabled(s, c, x)
    case Cancel(c, x) => CancelEnabled(s, c, x)
    case Receive(r) => ReceiveEnabled(s, r)
    case Close => !s.muHeld
  }

  function Apply(s: State, step: Step): State
    requires Enabled(s, step)
  {
    match step
    case Send(c, x) => ApplySend(s, c, x)
    case Cancel(c, x) => ApplyCancel(s, c, x)
    case Receive(r) => ApplyReceive(s, r)
    case Close => s.(closing := true)
  }

  /** The state after a run; steps that are not enabled do nothing. */
  function Run(steps: seq<Step>): State {
    if steps == [] then Init()
    else
      var s, step := Run(steps[..|steps| - 1]), steps[|steps| - 1];
      if Enabled(s, step) then Apply(s, step) else s
  }
}
