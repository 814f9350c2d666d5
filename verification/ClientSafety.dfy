/** Every step of every interleaving keeps the invariant, or is the caller panic that
    Subscribe is open to. */
module ClientSafety {
  import opened Bytes
  import opened Commands
  import opened ClientCore
  import opened ClientMachine
  import opened ClientInvariant

  // ---------------------------------------------------------------- steps

  lemma StartKeepsInv(s: State, s': State, c: CallId, call: Call)
    requires Inv(s) && Starts(s, s', c, call)
    ensures Inv(s')
  {
    assert Tables(s);
    hide Inv, Tables, CallsKept, Starts;
    StartTables(s, s', c, call);
    StartCalls(s, s', c, call);
    Assemble(s, s', c);
  }

  lemma TakeKeyKeepsInv(s: State, s': State, c: CallId)
    requires Inv(s) && TakesKey(s, s', c) && IsOpen(s.core.inboxes, c)
    ensures Inv(s')
  {
    assert Tables(s);
    hide Inv, Tables, CallsKept, TakesKey;
    SubRegisterTables(s, s', c);
    SubRegisterCalls(s, s', c);
    Assemble(s, s', c);
  }

  lemma SubRegisterKeepsInv(s: State, c: CallId)
    requires Inv(s) && c in s.calls && s.calls[c].phase.Entering? && s.calls[c].key.Some?
    ensures Inv(SubEntered(s, c))
  {
    assert !HoldsEntry(s, c) && SubscriptionOk(s, c);
    hide Inv;
    match SubscribeRefusal(s.core, s.calls[c].key.value)
    case Some(why) => MoveKeepsInv(s, c, Refused(why));
    case None => TakeKeyKeepsInv(s, SubEntered(s, c), c);
  }

  /** send returning `out` to whoever called it. */
  lemma ReturnKeepsInv(s: State, c: CallId, out: SendOutcome)
    requires Inv(s) && c in s.calls && !HoldsEntry(s, c) && out != Reply(None)
    requires s.calls[c].phase.Building? || InFlight(s.calls[c].phase)
    ensures Inv(Returned(s, c, out))
  {
    hide Inv;
    MoveKeepsInv(s, c, if s.calls[c].key.None? then Done(out) else Handling(out));
  }

  lemma SwapKeepsInv(s: State, s': State, c: CallId, ch: Chan<BrokerResult>)
    requires Inv(s) && SwapsResult(s, s', c, ch)
    ensures Inv(s')
  {
    assert Tables(s);
    hide Inv, Tables, CallsKept, SwapsResult;
    ResultTables(s, s', c, ch);
    ResultCalls(s, s', c, ch);
    Assemble(s, s', c);
  }

  lemma SendRegisterKeepsInv(s: State, c: CallId)
    requires Inv(s) && c in s.calls && s.calls[c].phase.Building?
    ensures Inv(SendEntered(s, c))
  {
    if s.core.closed {
      assert !HoldsEntry(s, c);
      var s1 := s.(core := Registered(s.core, s.calls[c].cid, c));
      hide Inv;
      SwapKeepsInv(s, s1, c, Chan(1, [], false));
      ReturnKeepsInv(s1, c, Failed(ClientClosed));
    } else {
      var s' := SendEntered(s, c);
      assert Tables(s);
      hide Inv, Tables, CallsKept;
      SendRegisterTables(s, s', c);
      SendRegisterCalls(s, s', c);
      Assemble(s, s', c);
    }
  }

  /** A waiting call never receives the zero value of a closed channel. */
  lemma ReceivesAResult(s: State, c: CallId)
    requires Inv(s) && c in s.calls && s.calls[c].phase.Waiting? && CanReceive(s, c)
    ensures HasResult(s, c) && !HoldsEntry(s, c)
  {
    assert CommandOk(s, c);
  }

  lemma OutcomeIsReal(r: BrokerResult)
    requires r != ZERO_RESULT
    ensures OutcomeOf(r) != Reply(None)
  {
  }

  lemma ReceiveKeepsInv(s: State, c: CallId)
    requires Inv(s) && c in s.calls && s.calls[c].phase.Waiting? && CanReceive(s, c)
    ensures Inv(Received(s, c))
  {
    hide Inv, OutcomeOf, HoldsEntry;
    ReceivesAResult(s, c);
    var ch := s.core.results[c];
    var out := OutcomeOf(ch.buf[0]);
    OutcomeIsReal(ch.buf[0]);
    ReturnKeepsInv(s, c, out);
    SwapKeepsInv(Returned(s, c, out), Received(s, c), c, ch.(buf := ch.buf[1..]));
  }

  lemma SendUnregisterKeepsInv(s: State, c: CallId)
    requires Inv(s) && c in s.calls && s.calls[c].phase.Abandoning?
    ensures Inv(SendLeft(s, c))
  {
    var s' := SendLeft(s, c);
    assert Tables(s);
    hide Inv, Tables, CallsKept;
    SendUnregisterTables(s, s', c, s'.calls[c].phase);
    SendUnregisterCalls(s, s', c, s'.calls[c].phase);
    Assemble(s, s', c);
  }

  lemma BufferKeepsInv(s: State, s': State, c: CallId, buf: seq<Message>)
    requires Inv(s) && Rebuffers(s, s', c, buf)
    ensures Inv(s')
  {
    assert Tables(s);
    hide Inv, Tables, CallsKept, Rebuffers;
    BufferTables(s, s', c, buf);
    BufferCalls(s, s', c, buf);
    Assemble(s, s', c);
  }

  /** The only panics: Subscribe pushes to, or closes, its inbox when that is closed. */
  predicate Panics(s: State, step: Step) {
    match step
    case Handle(c) => c in s.calls && s.calls[c].phase.Handling? && Pushes(s.calls[c].phase.out) && InboxShut(s, c)
    case CloseOwn(c) => InboxShut(s, c)
    case _ => false
  }

  /** Pushing the first message into the inbox. */
  lemma PushKeepsInv(s: State, c: CallId, p: Phase)
    requires Inv(s) && c in s.calls && CanHandle(s, c) && Pushes(s.calls[c].phase.out) && !Panics(s, Handle(c))
    requires p == Done(s.calls[c].phase.out)
    ensures Inv(Handled(s, c))
  {
    assert !HoldsEntry(s, c) && s.core.inboxes[c].cap == INBOX_CAPACITY;
    hide Inv;
    MoveKeepsInv(s, c, p);
    BufferKeepsInv(Moved(s, c, p), Handled(s, c), c, s.core.inboxes[c].buf + [p.out.msg.value.msg]);
  }

  lemma LeaveKeepsInv(s: State, s': State, c: CallId)
    requires Inv(s) && Leaves(s, s', c)
    ensures Inv(s')
  {
    assert Tables(s);
    hide Inv, Tables, CallsKept, Leaves;
    LeaveTables(s, s', c);
    LeaveCalls(s, s', c);
    Assemble(s, s', c);
  }

  lemma HandleKeepsInv(s: State, c: CallId)
    requires Inv(s) && c in s.calls && CanHandle(s, c) && !Panics(s, Handle(c))
    ensures Inv(Handled(s, c))
  {
    var p := Done(s.calls[c].phase.out);
    assert !HoldsEntry(s, c) && SubscriptionOk(s, c);
    hide Inv;
    if Pushes(p.out) {
      PushKeepsInv(s, c, p);
    } else if Accepts(p.out) {
      MoveKeepsInv(s, c, p);
    } else {
      LeaveKeepsInv(s, Handled(s, c), c);
    }
  }

  lemma CloseOwnKeepsInv(s: State, c: CallId)
    requires Inv(s) && c in s.calls && s.calls[c].phase.Closing? && c in s.core.inboxes && !Panics(s, CloseOwn(c))
    ensures Inv(ClosedOwn(s, c))
  {
    var s' := ClosedOwn(s, c);
    assert Tables(s) && ClosesOwn(s, s', c);
    hide Inv, Tables, CallsKept, ClosesOwn;
    CloseOwnTables(s, s', c);
    CloseOwnCalls(s, s', c);
    Assemble(s, s', c);
  }

  lemma CallStepKeepsInv(s: State, step: Step)
    requires Inv(s) && Enabled(s, step) && !Panics(s, step)
    requires !step.DispatchNext? && !step.ReadFails? && !step.CloseClient? && !step.ReadBlock?
    ensures Inv(Apply(s, step))
  {
    var s' := Apply(s, step);
    match step
    case StartSend(c, cid) => StartKeepsInv(s, s', c, s'.calls[c]);
    case StartSubscribe(c, cid, key) => StartKeepsInv(s, s', c, s'.calls[c]);
    case SubRegister(c) => SubRegisterKeepsInv(s, c);
    case BuildFails(c) => ReturnKeepsInv(s, c, Failed(BuildFailed));
    case SendRegister(c) => SendRegisterKeepsInv(s, c);
    case Write(c, ok) => MoveKeepsInv(s, c, if ok then Waiting else Abandoning(WriteFailed));
    case Receive(c) => ReceiveKeepsInv(s, c);
    case Cancel(c) => MoveKeepsInv(s, c, Abandoning(Cancelled));
    case SendUnregister(c) => SendUnregisterKeepsInv(s, c);
    case Handle(c) => HandleKeepsInv(s, c);
    case CloseOwn(c) => CloseOwnKeepsInv(s, c);
    case Consume(c) => BufferKeepsInv(s, s', c, s.core.inboxes[c].buf[1..]);
  }

  lemma ReaderStepKeepsInv(s: State, step: Step)
    requires Inv(s) && Enabled(s, step)
    requires step.DispatchNext? || step.ReadFails? || step.CloseClient? || step.ReadBlock?
    ensures Inv(Apply(s, step))
  {
    hide Inv, Dispatched, Drained;
    var s' := Apply(s, step);
    var s1 := s.(core := s'.core);
    match step
    case DispatchNext => DispatchKeepsInv(s, s1, s.reader.pending[0]); ReaderIrrelevant(s1, s');
    case ReadFails => DrainKeepsInv(s, s1, ReadFailed); ReaderIrrelevant(s1, s');
    case CloseClient => DrainKeepsInv(s, s', ClientClosed);
    case ReadBlock(_) => ReaderIrrelevant(s, s');
  }

  /** The invariant survives every step that does not panic; a panicking step is one of
      Subscribe's two unlocked channel operations; no step faults under the lock. */
  lemma StepKeepsInv(s: State, step: Step)
    requires Inv(s) && Enabled(s, step)
    ensures if Panics(s, step) then Apply(s, step).core.fault == CallerPanic
            else Inv(Apply(s, step)) && Apply(s, step).core.fault == NoFault
  {
    if !Panics(s, step) {
      if step.DispatchNext? || step.ReadFails? || step.CloseClient? || step.ReadBlock? {
        ReaderStepKeepsInv(s, step);
      } else {
        CallStepKeepsInv(s, step);
      }
    }
  }
}
