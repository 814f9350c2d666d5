/** The shared state of smp/client.go and the critical sections that change it: as
    functions on a snapshot, and as the methods of the object that holds the fields. */
module ClientCore {
  import opened Bytes
  import opened Protocol
  import opened Commands

  // ---------------------------------------------------------------- channels

  /** A Go channel: capacity, buffered values, and whether it was closed. */
  datatype Chan<T> = Chan(cap: nat, buf: seq<T>, closed: bool) {
    predicate HasRoom() {
      |buf| < cap
    }

    function Put(x: T): Chan<T> {
      this.(buf := buf + [x])
    }

    function Close(): Chan<T> {
      this.(closed := true)
    }
  }

  /** Each channel is named by the call that made it. */
  type CallId = nat
  type Key = bytes

  const INBOX_CAPACITY := 32

  datatype Failure = ClientClosed | ReadFailed | WriteFailed | Cancelled | BuildFailed | AlreadySubscribed

  datatype BrokerResult = BrokerResult(msg: Option<BrokerMsg>, err: Option<Failure>)

  /** What a receive from a closed, empty channel yields. */
  const ZERO_RESULT := BrokerResult(None, None)

  /** LockedFault: a step under the lock closed or sent to a closed channel, or blocked.
      CallerPanic: a caller closed or sent to a closed channel outside the lock. */
  datatype Fault = NoFault | LockedFault | CallerPanic

  // ---------------------------------------------------------------- snapshots

  datatype Core = Core(
    closed: bool,
    sentCmds: map<CorrID, CallId>,
    subs: map<Key, CallId>,
    results: map<CallId, Chan<BrokerResult>>,
    inboxes: map<CallId, Chan<Message>>,
    fault: Fault)

  const NEW_CORE := Core(false, map[], map[], map[], map[], NoFault)

  /** Sending a result to `ch` and then closing it neither panics nor blocks. */
  predicate CanAnswer(results: map<CallId, Chan<BrokerResult>>, ch: CallId) {
    ch in results && !results[ch].closed && results[ch].HasRoom()
  }

  predicate IsOpen(inboxes: map<CallId, Chan<Message>>, ch: CallId) {
    ch in inboxes && !inboxes[ch].closed
  }

  function WithAnswer(results: map<CallId, Chan<BrokerResult>>, ch: CallId, r: BrokerResult): map<CallId, Chan<BrokerResult>>
    requires ch in results
  {
    results[ch := results[ch].Put(r).Close()]
  }

  /** dispatch, for a transmission that answers a command. */
  function Answered(core: Core, cid: CorrID, msg: BrokerMsg): Core {
    if cid !in core.sentCmds then core
    else
      var ch := core.sentCmds[cid];
      if !CanAnswer(core.results, ch) then core.(fault := LockedFault)
      else core.(results := WithAnswer(core.results, ch, BrokerResult(Some(msg), None)),
                 sentCmds := core.sentCmds - {cid})
  }

  /** dispatch, for a transmission that the server pushes. */
  function Delivered(core: Core, key: Key, msg: BrokerMsg): Core {
    if key !in core.subs then core
    else
      var ch := core.subs[key];
      match msg
      case MSG(m) =>
        if !IsOpen(core.inboxes, ch) then core.(fault := LockedFault)
        else if core.inboxes[ch].HasRoom() then core.(inboxes := core.inboxes[ch := core.inboxes[ch].Put(m)])
        else core
      case END =>
        if !IsOpen(core.inboxes, ch) then core.(fault := LockedFault)
        else core.(inboxes := core.inboxes[ch := core.inboxes[ch].Close()], subs := core.subs - {key})
      case _ => core
  }

  function Dispatched(v: uint16, core: Core, t: Transmission): Core {
    match DecodeBroker(v, t.command)
    case Err(_) => core
    case Ok(msg) =>
      if t.corrID == NO_CORR_ID then Delivered(core, t.entityID, msg) else Answered(core, t.corrID, msg)
  }

  function DispatchedAll(v: uint16, core: Core, ts: seq<Transmission>): Core
    decreases |ts|
  {
    if ts == [] then core else DispatchedAll(v, Dispatched(v, core, ts[0]), ts[1..])
  }

  ghost predicate Injective<K(!new)>(table: map<K, CallId>) {
    forall j, k | j in table && k in table && table[j] == table[k] :: j == k
  }

  ghost predicate CommandsSafe(sentCmds: map<CorrID, CallId>, results: map<CallId, Chan<BrokerResult>>) {
    Injective(sentCmds) && forall k <- sentCmds :: CanAnswer(results, sentCmds[k])
  }

  ghost predicate SubsSafe(subs: map<Key, CallId>, inboxes: map<CallId, Chan<Message>>) {
    Injective(subs) && forall k <- subs :: IsOpen(inboxes, subs[k])
  }

  /** Emptying both tables under the lock succeeds: every registered channel can take a
      result or be closed, and none is registered twice. */
  ghost predicate DrainSafe(core: Core) {
    CommandsSafe(core.sentCmds, core.results) && SubsSafe(core.subs, core.inboxes)
  }

  function SomeAnswered(results: map<CallId, Chan<BrokerResult>>, chs: set<CallId>, r: BrokerResult): map<CallId, Chan<BrokerResult>> {
    map ch | ch in results :: if ch in chs then results[ch].Put(r).Close() else results[ch]
  }

  function SomeClosed(inboxes: map<CallId, Chan<Message>>, chs: set<CallId>): map<CallId, Chan<Message>> {
    map ch | ch in inboxes :: if ch in chs then inboxes[ch].Close() else inboxes[ch]
  }

  /** Close and handleReadError: the first of them to run fails every waiting command with
      `why`, closes every inbox and empties both tables. */
  ghost function Drained(core: Core, why: Failure): Core {
    if core.closed then core
    else if !DrainSafe(core) then core.(closed := true, fault := LockedFault)
    else Core(true, map[], map[],
              SomeAnswered(core.results, core.sentCmds.Values, BrokerResult(None, Some(why))),
              SomeClosed(core.inboxes, core.subs.Values),
              core.fault)
  }

  /** send: making the response channel and registering it. */
  function Registered(core: Core, cid: CorrID, ch: CallId): Core {
    var made := core.(results := core.results[ch := Chan(1, [], false)]);
    if core.closed then made else made.(sentCmds := core.sentCmds[cid := ch])
  }

  function Unregistered(core: Core, cid: CorrID): Core {
    core.(sentCmds := core.sentCmds - {cid})
  }

  function InboxMade(core: Core, ch: CallId): Core {
    core.(inboxes := core.inboxes[ch := Chan(INBOX_CAPACITY, [], false)])
  }

  /** Subscribe refuses a closed client and a key that is already taken. */
  function SubscribeRefusal(core: Core, key: Key): Option<Failure> {
    if core.closed then Some(ClientClosed)
    else if key in core.subs then Some(AlreadySubscribed)
    else None
  }

  function SubRegistered(core: Core, key: Key, ch: CallId): Core {
    if SubscribeRefusal(core, key).Some? then core else core.(subs := core.subs[key := ch])
  }

  function SubUnregistered(core: Core, key: Key): Core {
    core.(subs := core.subs - {key})
  }

  /** close(ch), outside the lock. */
  function InboxClosed(core: Core, ch: CallId): Core
    requires ch in core.inboxes
  {
    if core.inboxes[ch].closed then core.(fault := CallerPanic)
    else core.(inboxes := core.inboxes[ch := core.inboxes[ch].Close()])
  }

  /** ch <- m, outside the lock, once it does not block. */
  function InboxPushed(core: Core, ch: CallId, m: Message): Core
    requires ch in core.inboxes
    requires core.inboxes[ch].closed || core.inboxes[ch].HasRoom()
  {
    if core.inboxes[ch].closed then core.(fault := CallerPanic)
    else core.(inboxes := core.inboxes[ch := core.inboxes[ch].Put(m)])
  }

  // ---------------------------------------------------------------- the reader, undisturbed

  datatype ReadResult = Block(payload: bytes) | ReadError

  function BlockEffect(v: uint16, sess: bytes, core: Core, block: bytes): Core {
    match ParseBlock(v, sess, block)
    case Err(_) => core
    case Ok(ts) => DispatchedAll(v, core, ts)
  }

  ghost function LoopEffect(v: uint16, sess: bytes, core: Core, blocks: seq<ReadResult>): Core
    decreases |blocks|
  {
    if blocks == [] then core
    else match blocks[0]
      case ReadError => Drained(core, ReadFailed)
      case Block(payload) => LoopEffect(v, sess, BlockEffect(v, sess, core, payload), blocks[1..])
  }

  /** The read error that ends the loop, if any, finds tables it can empty. */
  ghost predicate Unfaulted(v: uint16, sess: bytes, core: Core, blocks: seq<ReadResult>)
    decreases |blocks|
  {
    if blocks == [] then true
    else match blocks[0]
      case ReadError => core.closed || DrainSafe(core)
      case Block(payload) => Unfaulted(v, sess, BlockEffect(v, sess, core, payload), blocks[1..])
  }

  // ---------------------------------------------------------------- emptying a table

  /** `now` is `was` without some entries, no two of which name the same channel. */
  ghost predicate Shrunk<K(!new)>(was: map<K, CallId>, now: map<K, CallId>) {
    && (forall k <- now :: k in was && was[k] == now[k])
    && (forall j, k | j in was && k in was && j !in now && k !in now && was[j] == was[k] :: j == k)
  }

  ghost function Removed<K(!new)>(was: map<K, CallId>, now: map<K, CallId>): set<CallId> {
    set k | k in was && k !in now :: was[k]
  }

  lemma RemoveOne<K(!new)>(was: map<K, CallId>, now: map<K, CallId>, k: K)
    requires Shrunk(was, now) && k in now
    ensures Removed(was, now - {k}) == Removed(was, now) + {was[k]}
    ensures was[k] !in Removed(was, now) ==> Shrunk(was, now - {k})
  {
    assert forall j | j in was :: j !in now - {k} <==> j !in now || j == k;
  }

  lemma RemovedAll<K(!new)>(was: map<K, CallId>)
    ensures Removed(was, map[]) == was.Values
  {
  }

  lemma AnswerNone(results: map<CallId, Chan<BrokerResult>>, r: BrokerResult)
    ensures SomeAnswered(results, {}, r) == results
  {
  }

  lemma StillAnswerable(results: map<CallId, Chan<BrokerResult>>, chs: set<CallId>, ch: CallId, r: BrokerResult)
    ensures CanAnswer(SomeAnswered(results, chs, r), ch) <==> CanAnswer(results, ch) && ch !in chs
    ensures CanAnswer(results, ch) && ch !in chs ==> SomeAnswered(results, chs, r)[ch] == results[ch]
  {
  }

  lemma AnswerOneMore(results: map<CallId, Chan<BrokerResult>>, chs: set<CallId>, ch: CallId, r: BrokerResult)
    requires ch in results && ch !in chs
    ensures SomeAnswered(results, chs + {ch}, r) == WithAnswer(SomeAnswered(results, chs, r), ch, r)
  {
  }

  lemma CloseNone(inboxes: map<CallId, Chan<Message>>)
    ensures SomeClosed(inboxes, {}) == inboxes
  {
  }

  lemma StillOpen(inboxes: map<CallId, Chan<Message>>, chs: set<CallId>, ch: CallId)
    ensures IsOpen(SomeClosed(inboxes, chs), ch) <==> IsOpen(inboxes, ch) && ch !in chs
    ensures IsOpen(inboxes, ch) && ch !in chs ==> SomeClosed(inboxes, chs)[ch] == inboxes[ch]
  {
  }

  lemma CloseOneMore(inboxes: map<CallId, Chan<Message>>, chs: set<CallId>, ch: CallId)
    requires ch in inboxes && ch !in chs
    ensures SomeClosed(inboxes, chs + {ch}) == SomeClosed(inboxes, chs)[ch := inboxes[ch].Close()]
  {
  }

  // ---------------------------------------------------------------- the object

  class Client {
    const version: uint16
    const sessID: bytes
    var closed: bool
    var sentCmds: map<CorrID, CallId>
    var subs: map<Key, CallId>
    var results: map<CallId, Chan<BrokerResult>>
    var inboxes: map<CallId, Chan<Message>>
    var fault: Fault

    function View(): Core
      reads this
    {
      Core(closed, sentCmds, subs, results, inboxes, fault)
    }

    constructor (version: uint16, sessID: bytes)
      ensures this.version == version && this.sessID == sessID
      ensures View() == NEW_CORE
    {
      this.version, this.sessID := version, sessID;
      closed, sentCmds, subs, results, inboxes, fault := false, map[], map[], map[], map[], NoFault;
    }

    method Dispatch(t: Transmission)
      modifies this
      ensures View() == Dispatched(version, old(View()), t)
    {
      var decoded := DecodeBrokerMsg(version, t.command);
      if decoded.Err? {
        return;
      }
      var msg := decoded.value;
      if t.corrID == NO_CORR_ID {
        var key := t.entityID;
        if key !in subs {
          return;
        }
        var ch := subs[key];
        match msg {
          case MSG(m) =>
            if !IsOpen(inboxes, ch) {
              fault := LockedFault;
            } else if inboxes[ch].HasRoom() {
              inboxes := inboxes[ch := inboxes[ch].Put(m)];
            }
          case END =>
            if !IsOpen(inboxes, ch) {
              fault := LockedFault;
            } else {
              inboxes := inboxes[ch := inboxes[ch].Close()];
              subs := subs - {key};
            }
          case _ =>
        }
        return;
      }
      if t.corrID in sentCmds {
        var ch := sentCmds[t.corrID];
        if !CanAnswer(results, ch) {
          fault := LockedFault;
          return;
        }
        results := results[ch := results[ch].Put(BrokerResult(Some(msg), None))];
        results := results[ch := results[ch].Close()];
        sentCmds := sentCmds - {t.corrID};
      }
    }

    /** The first of the two loops that Close and handleReadError share. Go's map iteration
        order is arbitrary, hence the arbitrary choice of the next key. */
    method DrainCommands(r: BrokerResult) returns (ok: bool)
      modifies this`sentCmds, this`results, this`fault
      ensures ok <==> old(CommandsSafe(sentCmds, results))
      ensures ok ==>
                && sentCmds == map[] && fault == old(fault)
                && results == SomeAnswered(old(results), old(sentCmds).Values, r)
      ensures !ok ==> fault == LockedFault
    {
      ghost var table, before := sentCmds, results;
      AnswerNone(before, r);
      assert Removed(table, table) == {};
      hide SomeAnswered;
      while sentCmds != map[]
        invariant fault == old(fault)
        invariant Shrunk(table, sentCmds)
        invariant forall k | k in table && k !in sentCmds :: CanAnswer(before, table[k])
        invariant results == SomeAnswered(before, Removed(table, sentCmds), r)
        decreases sentCmds.Keys
      {
        var k :| k in sentCmds;
        var ch := sentCmds[k];
        StillAnswerable(before, Removed(table, sentCmds), ch, r);
        if !CanAnswer(results, ch) {
          fault := LockedFault;
          return false;
        }
        RemoveOne(table, sentCmds, k);
        AnswerOneMore(before, Removed(table, sentCmds), ch, r);
        results := results[ch := results[ch].Put(r)];
        results := results[ch := results[ch].Close()];
        sentCmds := sentCmds - {k};
      }
      RemovedAll(table);
      return true;
    }

    /** The second loop: closing and removing every subscription. */
    method DrainSubs() returns (ok: bool)
      modifies this`subs, this`inboxes, this`fault
      ensures ok <==> old(SubsSafe(subs, inboxes))
      ensures ok ==>
                && subs == map[] && fault == old(fault)
                && inboxes == SomeClosed(old(inboxes), old(subs).Values)
      ensures !ok ==> fault == LockedFault
    {
      ghost var table, before := subs, inboxes;
      CloseNone(before);
      assert Removed(table, table) == {};
      hide SomeClosed;
      while subs != map[]
        invariant fault == old(fault)
        invariant Shrunk(table, subs)
        invariant forall k | k in table && k !in subs :: IsOpen(before, table[k])
        invariant inboxes == SomeClosed(before, Removed(table, subs))
        decreases subs.Keys
      {
        var k :| k in subs;
        var ch := subs[k];
        StillOpen(before, Removed(table, subs), ch);
        if !IsOpen(inboxes, ch) {
          fault := LockedFault;
          return false;
        }
        RemoveOne(table, subs, k);
        CloseOneMore(before, Removed(table, subs), ch);
        inboxes := inboxes[ch := inboxes[ch].Close()];
        subs := subs - {k};
      }
      RemovedAll(table);
      return true;
    }

    /** What Close and handleReadError do under the lock. A fault ends it at once. */
    method DrainTables(why: Failure)
      modifies this
      ensures closed
      ensures old(closed || DrainSafe(View())) ==> View() == Drained(old(View()), why)
      ensures !old(closed || DrainSafe(View())) ==> closed && fault == LockedFault
    {
      if closed {
        return;
      }
      closed := true;
      var ok := DrainCommands(BrokerResult(None, Some(why)));
      if ok {
        ok := DrainSubs();
      }
    }

    /** The critical section of Close. Closing the transport and waiting for the reader
        come after it and touch none of these fields. */
    method Close()
      modifies this
      ensures closed
      ensures old(closed || DrainSafe(View())) ==> View() == Drained(old(View()), ClientClosed)
      ensures !old(closed || DrainSafe(View())) ==> closed && fault == LockedFault
    {
      DrainTables(ClientClosed);
    }

    method HandleReadError()
      modifies this
      ensures closed
      ensures old(closed || DrainSafe(View())) ==> View() == Drained(old(View()), ReadFailed)
      ensures !old(closed || DrainSafe(View())) ==> closed && fault == LockedFault
    {
      DrainTables(ReadFailed);
    }

    /** The critical section of send; `ok` is false when the client is closed. */
    method Register(cid: CorrID, ch: CallId) returns (ok: bool)
      modifies this
      ensures ok == !old(closed)
      ensures View() == Registered(old(View()), cid, ch)
    {
      results := results[ch := Chan(1, [], false)];
      if closed {
        return false;
      }
      sentCmds := sentCmds[cid := ch];
      return true;
    }

    /** The clean-up of send after a failed write or a cancelled context. */
    method Unregister(cid: CorrID)
      modifies this
      ensures View() == Unregistered(old(View()), cid)
    {
      sentCmds := sentCmds - {cid};
    }

    /** The opening of Subscribe: a fresh inbox, then the critical section. */
    method Subscribe(key: Key, ch: CallId) returns (refusal: Option<Failure>)
      modifies this
      ensures refusal == SubscribeRefusal(old(View()), key)
      ensures View() == SubRegistered(InboxMade(old(View()), ch), key, ch)
    {
      inboxes := inboxes[ch := Chan(32, [], false)];
      if closed {
        return Some(ClientClosed);
      }
      if key in subs {
        return Some(AlreadySubscribed);
      }
      subs := subs[key := ch];
      return None;
    }

    method UnregisterSub(key: Key)
      modifies this
      ensures View() == SubUnregistered(old(View()), key)
    {
      subs := subs - {key};
    }

    method CloseInbox(ch: CallId)
      requires ch in inboxes
      modifies this
      ensures View() == InboxClosed(old(View()), ch)
    {
      if inboxes[ch].closed {
        fault := CallerPanic;
      } else {
        inboxes := inboxes[ch := inboxes[ch].Close()];
      }
    }

    /** `blocked` reports a send that has to wait for room. */
    method PushInbox(ch: CallId, m: Message) returns (blocked: bool)
      requires ch in inboxes
      modifies this
      ensures blocked == old(!inboxes[ch].closed && !inboxes[ch].HasRoom())
      ensures View() == if blocked then old(View()) else InboxPushed(old(View()), ch, m)
    {
      if inboxes[ch].closed {
        fault := CallerPanic;
        return false;
      }
      if |inboxes[ch].buf| >= inboxes[ch].cap {
        return true;
      }
      inboxes := inboxes[ch := inboxes[ch].Put(m)];
      return false;
    }

    /** One round of readLoop with nothing in between: all transmissions of the block in
        wire order, or none of them when any is malformed. */
    method HandleBlock(block: bytes)
      modifies this
      ensures View() == BlockEffect(version, sessID, old(View()), block)
    {
      hide Dispatched, ParseBlock;
      var decoded := DecodeBlock(version, sessID, block);
      if decoded.Err? {
        return;
      }
      var txs := decoded.value;
      for i := 0 to |txs|
        invariant DispatchedAll(version, old(View()), txs) == DispatchedAll(version, View(), txs[i..])
      {
        Dispatch(txs[i]);
        assert txs[i..][1..] == txs[i + 1..];
      }
    }

    /** readLoop without interference: blocks until the first read error. */
    method ReadLoop(blocks: seq<ReadResult>)
      modifies this
      ensures old(Unfaulted(version, sessID, View(), blocks)) ==>
                View() == LoopEffect(version, sessID, old(View()), blocks)
      ensures !old(Unfaulted(version, sessID, View(), blocks)) ==> closed && fault == LockedFault
    {
      for i := 0 to |blocks|
        invariant Unfaulted(version, sessID, View(), blocks[i..]) <==> old(Unfaulted(version, sessID, View(), blocks))
        invariant old(Unfaulted(version, sessID, View(), blocks)) ==>
                    LoopEffect(version, sessID, old(View()), blocks) == LoopEffect(version, sessID, View(), blocks[i..])
      {
        assert blocks[i..][1..] == blocks[i + 1..];
        match blocks[i] {
          case ReadError =>
            HandleReadError();
            return;
          case Block(payload) =>
            HandleBlock(payload);
        }
      }
    }
  }
}
