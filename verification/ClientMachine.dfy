/** Every interleaving of callers, the reader and the consumers of a client. Each critical
    section, each channel operation outside the lock and each write is one step. */
module ClientMachine {
  import opened Bytes
  import opened Protocol
  import opened Commands
  import opened ClientCore

  // ---------------------------------------------------------------- calls

  /** How send ends: a reply (None would be the zero value of a closed channel), an error
      reply of the server, or a failure on this side. */
  datatype SendOutcome = Reply(msg: Option<BrokerMsg>) | ServerError(msg: Option<BrokerMsg>) | Failed(why: Failure)

  datatype Phase =
    | Entering                    // Subscribe, before its critical section
    | Building                    // send, before its critical section
    | Writing                     // registered, the write has not returned
    | Waiting                     // in the select of send
    | Abandoning(why: Failure)    // the write failed or the context ended; not yet unregistered
    | Handling(out: SendOutcome)  // Subscribe, send has returned
    | Closing(out: SendOutcome)   // Subscribe, the key is deleted, close(ch) comes next
    | Done(out: SendOutcome)      // returned
    | Refused(why: Failure)       // Subscribe, turned away in its critical section

  /** A call of send, or of Subscribe when `key` is present. */
  datatype Call = Call(cid: CorrID, key: Option<Key>, phase: Phase)

  datatype Reader = Reading | Dispatching(pending: seq<Transmission>) | Exited

  datatype State = State(version: uint16, core: Core, calls: map<CallId, Call>, reader: Reader)

  function Init(version: uint16): State {
    State(version, NEW_CORE, map[], Reading)
  }

  predicate InFlight(p: Phase) {
    p.Writing? || p.Waiting? || p.Abandoning?
  }

  /** Subscribe succeeds when send returns OK or a first message. */
  predicate Accepts(out: SendOutcome) {
    out.Reply? && out.msg.Some? && (out.msg.value.OK? || out.msg.value.MSG?)
  }

  predicate Pushes(out: SendOutcome) {
    out.Reply? && out.msg.Some? && out.msg.value.MSG?
  }

  function OutcomeOf(r: BrokerResult): SendOutcome {
    if r.err.Some? then Failed(r.err.value)
    else if r.msg.Some? && r.msg.value.ERR? then ServerError(r.msg)
    else Reply(r.msg)
  }

  // ---------------------------------------------------------------- steps

  datatype Step =
    | StartSend(c: CallId, cid: CorrID)
    | StartSubscribe(c: CallId, cid: CorrID, key: Key)
    | SubRegister(c: CallId)
    | BuildFails(c: CallId)
    | SendRegister(c: CallId)
    | Write(c: CallId, ok: bool)
    | Receive(c: CallId)
    | Cancel(c: CallId)
    | SendUnregister(c: CallId)
    | Handle(c: CallId)
    | CloseOwn(c: CallId)
    | Consume(c: CallId)
    | ReadBlock(ts: seq<Transmission>)
    | DispatchNext
    | ReadFails
    | CloseClient

  /** An identifier that no call has used: the randomness of newCorrID. */
  predicate FreshID(s: State, cid: CorrID) {
    cid != NO_CORR_ID && forall d <- s.calls :: s.calls[d].cid != cid
  }

  predicate CanReceive(s: State, c: CallId) {
    c in s.core.results && (s.core.results[c].buf != [] || s.core.results[c].closed)
  }

  predicate CanPush(s: State, c: CallId) {
    c in s.core.inboxes && (s.core.inboxes[c].closed || s.core.inboxes[c].HasRoom())
  }

  predicate CanHandle(s: State, c: CallId)
    requires c in s.calls
  {
    && s.calls[c].phase.Handling? && s.calls[c].key.Some?
    && (Pushes(s.calls[c].phase.out) ==> CanPush(s, c))
  }

  /** Only the caller that Subscribe returned the channel to can receive from it. */
  predicate CanConsume(s: State, c: CallId)
    requires c in s.calls
  {
    && s.calls[c].key.Some? && s.calls[c].phase.Done? && Accepts(s.calls[c].phase.out)
    && c in s.core.inboxes && s.core.inboxes[c].buf != []
  }

  /** No step follows a fault. */
  predicate Enabled(s: State, step: Step) {
    s.core.fault == NoFault &&
    match step
    case StartSend(c, cid) => c !in s.calls && FreshID(s, cid)
    case StartSubscribe(c, cid, _) => c !in s.calls && FreshID(s, cid)
    case SubRegister(c) => c in s.calls && s.calls[c].phase.Entering? && s.calls[c].key.Some?
    case BuildFails(c) => c in s.calls && s.calls[c].phase.Building?
    case SendRegister(c) => c in s.calls && s.calls[c].phase.Building?
    case Write(c, _) => c in s.calls && s.calls[c].phase.Writing?
    case Receive(c) => c in s.calls && s.calls[c].phase.Waiting? && CanReceive(s, c)
    case Cancel(c) => c in s.calls && s.calls[c].phase.Waiting?
    case SendUnregister(c) => c in s.calls && s.calls[c].phase.Abandoning?
    case Handle(c) => c in s.calls && CanHandle(s, c)
    case CloseOwn(c) => c in s.calls && s.calls[c].phase.Closing? && c in s.core.inboxes
    case Consume(c) => c in s.calls && CanConsume(s, c)
    case ReadBlock(_) => s.reader.Reading?
    case DispatchNext => s.reader.Dispatching? && s.reader.pending != []
    case ReadFails => s.reader.Reading?
    case CloseClient => true
  }

  function Moved(s: State, c: CallId, p: Phase): State
    requires c in s.calls
  {
    s.(calls := s.calls[c := s.calls[c].(phase := p)])
  }

  /** send returns: to its caller, or to the Subscribe around it. */
  function Returned(s: State, c: CallId, out: SendOutcome): State
    requires c in s.calls
  {
    Moved(s, c, if s.calls[c].key.None? then Done(out) else Handling(out))
  }

  function Pending(ts: seq<Transmission>): Reader {
    if ts == [] then Reading else Dispatching(ts)
  }

  function StartedSend(s: State, c: CallId, cid: CorrID): State {
    s.(calls := s.calls[c := Call(cid, None, Building)])
  }

  function StartedSubscribe(s: State, c: CallId, cid: CorrID, key: Key): State {
    s.(core := InboxMade(s.core, c), calls := s.calls[c := Call(cid, Some(key), Entering)])
  }

  /** The critical section that opens Subscribe. */
  function SubEntered(s: State, c: CallId): State
    requires c in s.calls && s.calls[c].key.Some?
  {
    var key := s.calls[c].key.value;
    match SubscribeRefusal(s.core, key)
    case Some(why) => Moved(s, c, Refused(why))
    case None => Moved(s.(core := SubRegistered(s.core, key, c)), c, Building)
  }

  /** The critical section of send. */
  function SendEntered(s: State, c: CallId): State
    requires c in s.calls
  {
    var s' := s.(core := Registered(s.core, s.calls[c].cid, c));
    if s.core.closed then Returned(s', c, Failed(ClientClosed)) else Moved(s', c, Writing)
  }

  /** Receiving from the response channel: its result, or the zero value once it is empty. */
  function Received(s: State, c: CallId): State
    requires c in s.calls && CanReceive(s, c)
  {
    var ch := s.core.results[c];
    if ch.buf == [] then Returned(s, c, OutcomeOf(ZERO_RESULT))
    else Returned(s.(core := s.core.(results := s.core.results[c := ch.(buf := ch.buf[1..])])), c, OutcomeOf(ch.buf[0]))
  }

  /** The clean-up of send. */
  function SendLeft(s: State, c: CallId): State
    requires c in s.calls && s.calls[c].phase.Abandoning?
  {
    Returned(s.(core := Unregistered(s.core, s.calls[c].cid)), c, Failed(s.calls[c].phase.why))
  }

  /** Subscribe looks at what send returned: done, push the first message, or clean up. */
  function Handled(s: State, c: CallId): State
    requires c in s.calls && CanHandle(s, c)
  {
    var out := s.calls[c].phase.out;
    if Pushes(out) then Moved(s.(core := InboxPushed(s.core, c, out.msg.value.msg)), c, Done(out))
    else if Accepts(out) then Moved(s, c, Done(out))
    else Moved(s.(core := SubUnregistered(s.core, s.calls[c].key.value)), c, Closing(out))
  }

  function ClosedOwn(s: State, c: CallId): State
    requires c in s.calls && s.calls[c].phase.Closing? && c in s.core.inboxes
  {
    Moved(s.(core := InboxClosed(s.core, c)), c, Done(s.calls[c].phase.out))
  }

  function Consumed(s: State, c: CallId): State
    requires c in s.core.inboxes && s.core.inboxes[c].buf != []
  {
    var ch := s.core.inboxes[c];
    s.(core := s.core.(inboxes := s.core.inboxes[c := ch.(buf := ch.buf[1..])]))
  }

  ghost function Apply(s: State, step: Step): State
    requires Enabled(s, step)
  {
    match step
    case StartSend(c, cid) => StartedSend(s, c, cid)
    case StartSubscribe(c, cid, key) => StartedSubscribe(s, c, cid, key)
    case SubRegister(c) => SubEntered(s, c)
    case BuildFails(c) => Returned(s, c, Failed(BuildFailed))
    case SendRegister(c) => SendEntered(s, c)
    case Write(c, ok) => Moved(s, c, if ok then Waiting else Abandoning(WriteFailed))
    case Receive(c) => Received(s, c)
    case Cancel(c) => Moved(s, c, Abandoning(Cancelled))
    case SendUnregister(c) => SendLeft(s, c)
    case Handle(c) => Handled(s, c)
    case CloseOwn(c) => ClosedOwn(s, c)
    case Consume(c) => Consumed(s, c)
    case ReadBlock(ts) => s.(reader := Pending(ts))
    case DispatchNext =>
      s.(core := Dispatched(s.version, s.core, s.reader.pending[0]), reader := Pending(s.reader.pending[1..]))
    case ReadFails => s.(core := Drained(s.core, ReadFailed), reader := Exited)
    case CloseClient => s.(core := Drained(s.core, ClientClosed))
  }
}
