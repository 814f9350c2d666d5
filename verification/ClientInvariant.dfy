/** The invariant of the client machine, kept by every step of every interleaving. */
module ClientInvariant {
  import opened Bytes
  import opened Protocol
  import opened Commands
  import opened ClientCore
  import opened ClientMachine

  // ---------------------------------------------------------------- what holds

  predicate HoldsEntry(s: State, c: CallId) {
    c in s.calls && s.calls[c].cid in s.core.sentCmds && s.core.sentCmds[s.calls[c].cid] == c
  }

  predicate HoldsKey(s: State, c: CallId) {
    c in s.calls && s.calls[c].key.Some? && s.calls[c].key.value in s.core.subs
    && s.core.subs[s.calls[c].key.value] == c
  }

  /** A result that is there to be received: never the zero value. */
  predicate HasResult(s: State, c: CallId) {
    && c in s.core.results && s.core.results[c].closed
    && |s.core.results[c].buf| == 1 && s.core.results[c].buf[0] != ZERO_RESULT
  }

  predicate InboxShut(s: State, c: CallId) {
    c in s.core.inboxes && s.core.inboxes[c].closed
  }

  /** A Subscribe between its critical section and its clean-up, or one that succeeded. */
  predicate Subscribed(call: Call) {
    && call.key.Some?
    && (call.phase.Building? || InFlight(call.phase) || call.phase.Handling? || (call.phase.Done? && Accepts(call.phase.out)))
  }

  /** A Subscribe whose next step closes a channel that is closed already. */
  predicate DoomedOn(s: State, d: CallId, key: Key) {
    d in s.calls && s.calls[d].key == Some(key) && s.calls[d].phase.Closing? && InboxShut(s, d)
  }

  ghost predicate SomeoneDoomed(s: State, key: Key) {
    exists d :: DoomedOn(s, d, key)
  }

  ghost predicate CommandTable(s: State) {
    forall cid <- s.core.sentCmds ::
      var c := s.core.sentCmds[cid];
      && c in s.calls && s.calls[c].cid == cid && InFlight(s.calls[c].phase)
      && c in s.core.results && s.core.results[c] == Chan(1, [], false)
  }

  ghost predicate SubTable(s: State) {
    forall key <- s.core.subs ::
      var c := s.core.subs[key];
      c in s.calls && s.calls[c].key == Some(key) && Subscribed(s.calls[c]) && IsOpen(s.core.inboxes, c)
  }

  ghost predicate Inboxes(s: State) {
    && (forall c <- s.core.inboxes :: c in s.calls && s.core.inboxes[c].cap == INBOX_CAPACITY && |s.core.inboxes[c].buf| <= INBOX_CAPACITY)
    && (forall c | c in s.calls && s.calls[c].key.Some? :: c in s.core.inboxes)
  }

  ghost predicate Identifiers(s: State) {
    && (forall c <- s.calls :: s.calls[c].cid != NO_CORR_ID)
    && (forall c, d | c in s.calls && d in s.calls && s.calls[c].cid == s.calls[d].cid :: c == d)
  }

  /** A call past its critical section owns its entry and waits on an empty open channel,
      or its channel is closed and holds one result. */
  predicate CommandOk(s: State, c: CallId)
    requires c in s.calls
  {
    InFlight(s.calls[c].phase) ==> HoldsEntry(s, c) || HasResult(s, c)
  }

  /** A subscription is registered, or was closed, or lost its key to a doomed Subscribe. */
  ghost predicate SubscriptionOk(s: State, c: CallId)
    requires c in s.calls
  {
    var call := s.calls[c];
    && (call.key.None? ==> !call.phase.Entering? && !call.phase.Handling? && !call.phase.Closing?)
    && (call.phase.Entering? ==> IsOpen(s.core.inboxes, c))
    && (Subscribed(call) ==> HoldsKey(s, c) || InboxShut(s, c) || SomeoneDoomed(s, call.key.value))
    && (call.key.Some? && call.phase.Done? && !Accepts(call.phase.out) ==> InboxShut(s, c))
    && ((call.phase.Handling? || call.phase.Done?) ==> call.phase.out != Reply(None))
    && (call.phase.Closing? ==> call.phase.out != Reply(None) && !Accepts(call.phase.out))
  }

  ghost predicate Tables(s: State) {
    && CommandTable(s) && SubTable(s) && Inboxes(s) && Identifiers(s)
    && (s.core.closed ==> s.core.sentCmds == map[] && s.core.subs == map[])
    && s.core.fault == NoFault
  }

  ghost predicate Inv(s: State) {
    Tables(s) && forall c <- s.calls :: CommandOk(s, c) && SubscriptionOk(s, c)
  }

  lemma InitInv(version: uint16)
    ensures Inv(Init(version))
  {
  }

  // ---------------------------------------------------------------- tables a step leaves alone

  lemma CommandFrame(s: State, s': State)
    requires CommandTable(s) && s'.core.sentCmds == s.core.sentCmds
    requires forall c | c in s.calls && InFlight(s.calls[c].phase) && c in s.core.results ::
               c in s'.calls && s'.calls[c].cid == s.calls[c].cid && InFlight(s'.calls[c].phase)
               && c in s'.core.results && s'.core.results[c] == s.core.results[c]
    ensures CommandTable(s')
  {
  }

  lemma SubFrame(s: State, s': State)
    requires SubTable(s) && s'.core.subs == s.core.subs
    requires forall c | c in s.calls && Subscribed(s.calls[c]) && IsOpen(s.core.inboxes, c) ::
               c in s'.calls && s'.calls[c].key == s.calls[c].key && Subscribed(s'.calls[c]) && IsOpen(s'.core.inboxes, c)
    ensures SubTable(s')
  {
    hide Subscribed;
  }

  /** The same calls with the same identifiers and keys. */
  predicate SameCalls(s: State, s': State) {
    s'.calls.Keys == s.calls.Keys
    && forall c <- s.calls :: s'.calls[c].cid == s.calls[c].cid && s'.calls[c].key == s.calls[c].key
  }

  lemma InboxFrame(s: State, s': State)
    requires Inboxes(s) && s'.core.inboxes == s.core.inboxes && SameCalls(s, s')
    ensures Inboxes(s')
  {
  }

  lemma IdFrame(s: State, s': State)
    requires Identifiers(s) && SameCalls(s, s')
    ensures Identifiers(s')
  {
  }

  /** One call changes phase; what else changes is up to the step. */
  ghost predicate Rephased(s: State, s': State, c: CallId, p: Phase) {
    c in s.calls && s'.calls == s.calls[c := s.calls[c].(phase := p)]
  }

  lemma RephasedCalls(s: State, s': State, c: CallId, p: Phase)
    requires Rephased(s, s', c, p)
    ensures SameCalls(s, s')
  {
  }

  lemma RephasedCommands(s: State, s': State, c: CallId, p: Phase)
    requires CommandTable(s) && Rephased(s, s', c, p) && (HoldsEntry(s, c) ==> InFlight(p))
    requires s'.core.sentCmds == s.core.sentCmds && s'.core.results == s.core.results
    ensures CommandTable(s')
  {
  }

  // ---------------------------------------------------------------- calls next to a step

  /** What one call can see of a step elsewhere: it keeps its entry or gets a result, it
      keeps its result, its inbox stays closed, and it keeps its key or its inbox is closed
      or its key was taken by a doomed Subscribe. */
  ghost predicate Undisturbed(s: State, s': State, d: CallId)
    requires d in s.calls
  {
    && d in s'.calls && s'.calls[d] == s.calls[d]
    && (InFlight(s.calls[d].phase) && HoldsEntry(s, d) ==> HoldsEntry(s', d) || HasResult(s', d))
    && (InFlight(s.calls[d].phase) && HasResult(s, d) ==> HasResult(s', d))
    && (InboxShut(s, d) ==> InboxShut(s', d))
    && (s.calls[d].phase.Entering? && IsOpen(s.core.inboxes, d) ==> IsOpen(s'.core.inboxes, d))
    && (HoldsKey(s, d) ==> HoldsKey(s', d) || InboxShut(s', d) || SomeoneDoomed(s', s.calls[d].key.value))
  }

  ghost predicate DoomKept(s: State, s': State) {
    forall key | SomeoneDoomed(s, key) :: SomeoneDoomed(s', key)
  }

  lemma DoomStays(s: State, s': State)
    requires forall d, key | DoomedOn(s, d, key) :: DoomedOn(s', d, key)
    ensures DoomKept(s, s')
  {
    forall key | SomeoneDoomed(s, key)
      ensures SomeoneDoomed(s', key)
    {
      var d :| DoomedOn(s, d, key);
      assert DoomedOn(s', d, key);
    }
  }

  lemma OthersKeep(s: State, s': State, d: CallId)
    requires d in s.calls && CommandOk(s, d) && SubscriptionOk(s, d)
    requires Undisturbed(s, s', d) && DoomKept(s, s')
    ensures CommandOk(s', d) && SubscriptionOk(s', d)
  {
    hide SomeoneDoomed, HoldsEntry, HoldsKey, HasResult;
  }

  /** What a step of call `c` owes to the calls: its own stays well placed, the others are
      undisturbed and doom persists. */
  ghost predicate CallsKept(s: State, s': State, c: CallId) {
    && s'.calls.Keys <= s.calls.Keys + {c}
    && (c in s'.calls ==> CommandOk(s', c) && SubscriptionOk(s', c))
    && (forall d | d in s.calls && d != c :: Undisturbed(s, s', d))
    && DoomKept(s, s')
  }

  lemma Assemble(s: State, s': State, c: CallId)
    requires Inv(s) && Tables(s') && CallsKept(s, s', c)
    ensures Inv(s')
  {
    hide Tables, CommandOk, SubscriptionOk, DoomKept, Undisturbed;
    forall d | d in s'.calls
      ensures CommandOk(s', d) && SubscriptionOk(s', d)
    {
      if d != c {
        OthersKeep(s, s', d);
      }
    }
  }

  // ---------------------------------------------------------------- moving one call

  /** Call `c` may go to `p` without touching a channel or a table. */
  predicate MayMove(s: State, c: CallId, p: Phase)
    requires c in s.calls
  {
    var call := s.calls[c];
    && !call.phase.Closing? && !p.Closing? && !p.Entering?
    && (call.key.None? ==> !p.Handling?)
    && ((p.Handling? || p.Done?) ==> p.out != Reply(None))
    && (call.key.Some? && p.Done? ==> Accepts(p.out))
    && (InFlight(p) ==> InFlight(call.phase))
    && (HoldsEntry(s, c) ==> InFlight(p))
    && (Subscribed(call.(phase := p)) <==> Subscribed(call))
  }

  /** Only the phase of call `c` changes. */
  ghost predicate MovesTo(s: State, s': State, c: CallId, p: Phase) {
    c in s.calls && MayMove(s, c, p) && s' == Moved(s, c, p)
  }

  lemma MoveTables(s: State, s': State, c: CallId, p: Phase)
    requires Tables(s) && MovesTo(s, s', c, p)
    ensures Tables(s')
  {
    hide CommandTable, SubTable, Inboxes, Identifiers;
    RephasedCommands(s, s', c, p);
    SubFrame(s, s');
    RephasedCalls(s, s', c, p);
    hide SameCalls;
    InboxFrame(s, s');
    IdFrame(s, s');
  }

  lemma MoveCalls(s: State, s': State, c: CallId, p: Phase)
    requires Inv(s) && MovesTo(s, s', c, p)
    ensures CallsKept(s, s', c)
  {
    hide CommandTable, SubTable, Inboxes, Identifiers;
    DoomStays(s, s');
    hide SomeoneDoomed;
    assert c in s.calls ==> CommandOk(s, c) && SubscriptionOk(s, c);
    hide Inv;
  }

  lemma MoveKeepsInv(s: State, c: CallId, p: Phase)
    requires Inv(s) && c in s.calls && MayMove(s, c, p)
    ensures Inv(Moved(s, c, p))
  {
    hide Tables, CallsKept, MayMove, CommandOk, SubscriptionOk;
    MoveTables(s, Moved(s, c, p), c, p);
    MoveCalls(s, Moved(s, c, p), c, p);
    Assemble(s, Moved(s, c, p), c);
  }

  // ---------------------------------------------------------------- new calls

  lemma StartInboxes(s: State, s': State, c: CallId, call: Call)
    requires Inboxes(s) && c !in s.calls && s'.calls == s.calls[c := call]
    requires call.key.None? ==> s'.core.inboxes == s.core.inboxes
    requires call.key.Some? ==> s'.core.inboxes == s.core.inboxes[c := Chan(INBOX_CAPACITY, [], false)]
    ensures Inboxes(s')
  {
  }

  lemma StartIds(s: State, s': State, c: CallId, call: Call)
    requires Identifiers(s) && c !in s.calls && FreshID(s, call.cid) && s'.calls == s.calls[c := call]
    ensures Identifiers(s')
  {
  }

  /** A new call; a Subscribe brings its inbox. */
  ghost predicate Starts(s: State, s': State, c: CallId, call: Call) {
    && c !in s.calls && FreshID(s, call.cid)
    && s' == (if call.key.None? then StartedSend(s, c, call.cid) else StartedSubscribe(s, c, call.cid, call.key.value))
    && call == s'.calls[c]
  }

  lemma StartTables(s: State, s': State, c: CallId, call: Call)
    requires Tables(s) && Starts(s, s', c, call)
    ensures Tables(s')
  {
    StartInboxes(s, s', c, call);
    StartIds(s, s', c, call);
    hide CommandTable, SubTable, Inboxes, Identifiers;
    CommandFrame(s, s');
    SubFrame(s, s');
  }

  lemma StartCalls(s: State, s': State, c: CallId, call: Call)
    requires Inv(s) && Starts(s, s', c, call)
    ensures CallsKept(s, s', c)
  {
    hide CommandTable, SubTable, Inboxes, Identifiers;
    DoomStays(s, s');
    hide SomeoneDoomed;
    hide Inv;
  }

  lemma DistinctIds(s: State, c: CallId)
    requires Identifiers(s) && c in s.calls
    ensures forall d | d in s.calls && d != c :: s.calls[d].cid != s.calls[c].cid
  {
  }

  // ---------------------------------------------------------------- send

  /** A response channel that nobody waits on is replaced. */
  ghost predicate SwapsResult(s: State, s': State, c: CallId, ch: Chan<BrokerResult>) {
    && (c in s.calls ==> !InFlight(s.calls[c].phase))
    && s' == s.(core := s.core.(results := s.core.results[c := ch]))
  }

  lemma ResultTables(s: State, s': State, c: CallId, ch: Chan<BrokerResult>)
    requires Tables(s) && SwapsResult(s, s', c, ch)
    ensures Tables(s')
  {
    hide CommandTable, SubTable, Inboxes, Identifiers;
    CommandFrame(s, s');
    SubFrame(s, s');
    InboxFrame(s, s');
    IdFrame(s, s');
  }

  lemma ResultCalls(s: State, s': State, c: CallId, ch: Chan<BrokerResult>)
    requires Inv(s) && SwapsResult(s, s', c, ch)
    ensures CallsKept(s, s', c)
  {
    hide CommandTable, SubTable, Inboxes, Identifiers;
    DoomStays(s, s');
    hide SomeoneDoomed;
    assert c in s.calls ==> CommandOk(s, c) && SubscriptionOk(s, c);
    hide Inv;
  }

  /** send enters on an open client. */
  ghost predicate Registers(s: State, s': State, c: CallId) {
    && c in s.calls && s.calls[c].phase.Building? && !s.core.closed
    && s' == Moved(s.(core := Registered(s.core, s.calls[c].cid, c)), c, Writing)
  }

  lemma SendRegisterCommands(s: State, s': State, c: CallId)
    requires CommandTable(s) && Registers(s, s', c)
    ensures CommandTable(s')
  {
  }

  lemma SendRegisterTables(s: State, s': State, c: CallId)
    requires Tables(s) && Registers(s, s', c)
    ensures Tables(s')
  {
    SendRegisterCommands(s, s', c);
    hide CommandTable, SubTable, Inboxes, Identifiers;
    SubFrame(s, s');
    RephasedCalls(s, s', c, Writing);
    hide SameCalls;
    InboxFrame(s, s');
    IdFrame(s, s');
  }

  lemma SendRegisterOther(s: State, s': State, c: CallId, d: CallId)
    requires Registers(s, s', c)
    requires d in s.calls && d != c && s.calls[d].cid != s.calls[c].cid
    ensures Undisturbed(s, s', d)
  {
    hide SomeoneDoomed;
  }

  lemma SendRegisterDoom(s: State, s': State, c: CallId)
    requires Registers(s, s', c)
    ensures s'.calls.Keys == s.calls.Keys && DoomKept(s, s')
  {
    DoomStays(s, s');
  }

  lemma SendRegisterOwn(s: State, s': State, c: CallId)
    requires Inv(s) && DoomKept(s, s') && Registers(s, s', c)
    ensures c in s'.calls && CommandOk(s', c) && SubscriptionOk(s', c)
  {
    hide CommandTable, SubTable, Inboxes, Identifiers, SomeoneDoomed;
    assert CommandOk(s, c) && SubscriptionOk(s, c);
    hide Inv;
  }

  lemma SendRegisterCalls(s: State, s': State, c: CallId)
    requires Inv(s) && Registers(s, s', c)
    ensures CallsKept(s, s', c)
  {
    DistinctIds(s, c);
    SendRegisterDoom(s, s', c);
    SendRegisterOwn(s, s', c);
    hide Tables, CommandOk, SubscriptionOk, DoomKept, Undisturbed, SomeoneDoomed, Registers;
    forall d | d in s.calls && d != c
      ensures Undisturbed(s, s', d)
    {
      SendRegisterOther(s, s', c, d);
    }
  }

  /** send cleans up and returns a failure. */
  ghost predicate Unregisters(s: State, s': State, c: CallId, p: Phase) {
    && c in s.calls && s.calls[c].phase.Abandoning?
    && s' == Moved(s.(core := Unregistered(s.core, s.calls[c].cid)), c, p) && (p.Handling? || p.Done?)
    && p.out.Failed? && (p.Done? <==> s.calls[c].key.None?)
  }

  lemma SendUnregisterCommands(s: State, s': State, c: CallId, p: Phase)
    requires CommandTable(s) && Identifiers(s) && Unregisters(s, s', c, p)
    ensures CommandTable(s')
  {
  }

  lemma SendUnregisterTables(s: State, s': State, c: CallId, p: Phase)
    requires Tables(s) && Unregisters(s, s', c, p)
    ensures Tables(s')
  {
    SendUnregisterCommands(s, s', c, p);
    hide CommandTable, SubTable, Inboxes, Identifiers;
    SubFrame(s, s');
    RephasedCalls(s, s', c, p);
    hide SameCalls;
    InboxFrame(s, s');
    IdFrame(s, s');
  }

  lemma SendUnregisterOther(s: State, s': State, c: CallId, p: Phase, d: CallId)
    requires Unregisters(s, s', c, p)
    requires d in s.calls && d != c && s.calls[d].cid != s.calls[c].cid
    ensures Undisturbed(s, s', d)
  {
    hide SomeoneDoomed;
  }

  lemma SendUnregisterDoom(s: State, s': State, c: CallId, p: Phase)
    requires Unregisters(s, s', c, p)
    ensures s'.calls.Keys == s.calls.Keys && DoomKept(s, s')
  {
    DoomStays(s, s');
  }

  lemma SendUnregisterOwn(s: State, s': State, c: CallId, p: Phase)
    requires Inv(s) && DoomKept(s, s') && Unregisters(s, s', c, p)
    ensures c in s'.calls && CommandOk(s', c) && SubscriptionOk(s', c)
  {
    hide CommandTable, SubTable, Inboxes, Identifiers, SomeoneDoomed;
    assert CommandOk(s, c) && SubscriptionOk(s, c);
    hide Inv;
  }

  lemma SendUnregisterCalls(s: State, s': State, c: CallId, p: Phase)
    requires Inv(s) && Unregisters(s, s', c, p)
    ensures CallsKept(s, s', c)
  {
    DistinctIds(s, c);
    SendUnregisterDoom(s, s', c, p);
    SendUnregisterOwn(s, s', c, p);
    hide Tables, CommandOk, SubscriptionOk, DoomKept, Undisturbed, SomeoneDoomed, Unregisters;
    forall d | d in s.calls && d != c
      ensures Undisturbed(s, s', d)
    {
      SendUnregisterOther(s, s', c, p, d);
    }
  }

  // ---------------------------------------------------------------- Subscribe

  /** Subscribe enters and gets its key. */
  ghost predicate TakesKey(s: State, s': State, c: CallId) {
    && c in s.calls && s.calls[c].phase.Entering? && s.calls[c].key.Some?
    && SubscribeRefusal(s.core, s.calls[c].key.value).None?
    && s' == SubEntered(s, c)
  }

  lemma SubRegisterKeys(s: State, s': State, c: CallId)
    requires SubTable(s) && IsOpen(s.core.inboxes, c) && TakesKey(s, s', c)
    ensures SubTable(s')
  {
  }

  lemma SubRegisterTables(s: State, s': State, c: CallId)
    requires Tables(s)
    requires IsOpen(s.core.inboxes, c)
    requires TakesKey(s, s', c)
    ensures Tables(s')
  {
    SubRegisterKeys(s, s', c);
    hide CommandTable, SubTable, Inboxes, Identifiers;
    RephasedCommands(s, s', c, Building);
    RephasedCalls(s, s', c, Building);
    hide SameCalls;
    InboxFrame(s, s');
    IdFrame(s, s');
  }

  lemma SubRegisterCalls(s: State, s': State, c: CallId)
    requires Inv(s) && IsOpen(s.core.inboxes, c) && TakesKey(s, s', c)
    ensures CallsKept(s, s', c)
  {
    hide CommandTable, SubTable, Inboxes, Identifiers;
    DoomStays(s, s');
    hide SomeoneDoomed;
    assert c in s.calls ==> CommandOk(s, c) && SubscriptionOk(s, c);
    hide Inv;
  }

  /** Subscribe deletes its key, whoever holds it by now. */
  ghost predicate Leaves(s: State, s': State, c: CallId) {
    && c in s.calls && s.calls[c].phase.Handling? && s.calls[c].key.Some? && !Accepts(s.calls[c].phase.out)
    && s' == Moved(s.(core := SubUnregistered(s.core, s.calls[c].key.value)), c, Closing(s.calls[c].phase.out))
  }

  lemma LeaveKeys(s: State, s': State, c: CallId)
    requires SubTable(s) && Leaves(s, s', c)
    ensures SubTable(s')
  {
  }

  lemma LeaveTables(s: State, s': State, c: CallId)
    requires Tables(s) && Leaves(s, s', c)
    ensures Tables(s')
  {
    LeaveKeys(s, s', c);
    hide CommandTable, SubTable, Inboxes, Identifiers;
    RephasedCommands(s, s', c, s'.calls[c].phase);
    RephasedCalls(s, s', c, s'.calls[c].phase);
    hide SameCalls;
    InboxFrame(s, s');
    IdFrame(s, s');
  }

  /** Either the call held its key itself, or someone on that key, perhaps the call, is
      about to close a closed inbox. */
  lemma LeaveDooms(s: State, s': State, c: CallId)
    requires Inv(s) && Leaves(s, s', c)
    ensures HoldsKey(s, c) || SomeoneDoomed(s', s.calls[c].key.value)
  {
    hide CommandTable, SubTable, Inboxes, Identifiers, CommandOk;
    var key := s.calls[c].key.value;
    assert SubscriptionOk(s, c);
    if InboxShut(s, c) {
      assert DoomedOn(s', c, key);
    } else if SomeoneDoomed(s, key) {
      DoomStays(s, s');
    }
  }

  lemma LeaveOther(s: State, s': State, c: CallId, d: CallId)
    requires Leaves(s, s', c)
    requires d in s.calls && d != c && (HoldsKey(s, c) || SomeoneDoomed(s', s.calls[c].key.value))
    ensures Undisturbed(s, s', d)
  {
    hide SomeoneDoomed;
  }

  lemma LeaveDoom(s: State, s': State, c: CallId)
    requires Leaves(s, s', c)
    ensures s'.calls.Keys == s.calls.Keys && DoomKept(s, s')
  {
    DoomStays(s, s');
  }

  lemma LeaveOwn(s: State, s': State, c: CallId)
    requires Inv(s) && DoomKept(s, s') && Leaves(s, s', c)
    ensures c in s'.calls && CommandOk(s', c) && SubscriptionOk(s', c)
  {
    hide CommandTable, SubTable, Inboxes, Identifiers, SomeoneDoomed;
    assert CommandOk(s, c) && SubscriptionOk(s, c);
    hide Inv;
  }

  lemma LeaveCalls(s: State, s': State, c: CallId)
    requires Inv(s) && Leaves(s, s', c)
    ensures CallsKept(s, s', c)
  {
    LeaveDooms(s, s', c);
    LeaveDoom(s, s', c);
    LeaveOwn(s, s', c);
    hide Tables, CommandOk, SubscriptionOk, DoomKept, Undisturbed, SomeoneDoomed, Leaves;
    forall d | d in s.calls && d != c
      ensures Undisturbed(s, s', d)
    {
      LeaveOther(s, s', c, d);
    }
  }

  /** Subscribe closes its inbox, which is open. */
  ghost predicate ClosesOwn(s: State, s': State, c: CallId) {
    && c in s.calls && s.calls[c].phase.Closing? && IsOpen(s.core.inboxes, c)
    && s' == Moved(s.(core := s.core.(inboxes := s.core.inboxes[c := s.core.inboxes[c].Close()])), c, Done(s.calls[c].phase.out))
  }

  lemma CloseOwnInboxes(s: State, s': State, c: CallId)
    requires Inboxes(s) && ClosesOwn(s, s', c)
    ensures Inboxes(s')
  {
  }

  lemma CloseOwnKeys(s: State, s': State, c: CallId)
    requires SubTable(s) && ClosesOwn(s, s', c)
    ensures SubTable(s')
  {
  }

  lemma CloseOwnTables(s: State, s': State, c: CallId)
    requires Tables(s) && ClosesOwn(s, s', c)
    ensures Tables(s')
  {
    CloseOwnInboxes(s, s', c);
    CloseOwnKeys(s, s', c);
    hide CommandTable, SubTable, Inboxes, Identifiers;
    RephasedCommands(s, s', c, s'.calls[c].phase);
    RephasedCalls(s, s', c, s'.calls[c].phase);
    hide SameCalls;
    IdFrame(s, s');
  }

  lemma CloseOwnCalls(s: State, s': State, c: CallId)
    requires Inv(s) && ClosesOwn(s, s', c)
    ensures CallsKept(s, s', c)
  {
    hide CommandTable, SubTable, Inboxes, Identifiers;
    DoomStays(s, s');
    hide SomeoneDoomed;
    assert c in s.calls ==> CommandOk(s, c) && SubscriptionOk(s, c);
    hide Inv;
  }

  /** Messages go into an inbox or come out of it. */
  ghost predicate Rebuffers(s: State, s': State, c: CallId, buf: seq<Message>) {
    && c in s.core.inboxes && |buf| <= INBOX_CAPACITY
    && s' == s.(core := s.core.(inboxes := s.core.inboxes[c := s.core.inboxes[c].(buf := buf)]))
  }

  lemma BufferInboxes(s: State, s': State, c: CallId, buf: seq<Message>)
    requires Inboxes(s) && Rebuffers(s, s', c, buf)
    ensures Inboxes(s')
  {
  }

  lemma BufferTables(s: State, s': State, c: CallId, buf: seq<Message>)
    requires Tables(s) && Rebuffers(s, s', c, buf)
    ensures Tables(s')
  {
    BufferInboxes(s, s', c, buf);
    hide CommandTable, SubTable, Inboxes, Identifiers;
    CommandFrame(s, s');
    SubFrame(s, s');
    IdFrame(s, s');
  }

  lemma BufferCalls(s: State, s': State, c: CallId, buf: seq<Message>)
    requires Inv(s) && Rebuffers(s, s', c, buf)
    ensures CallsKept(s, s', c)
  {
    hide CommandTable, SubTable, Inboxes, Identifiers;
    DoomStays(s, s');
    hide SomeoneDoomed;
    assert c in s.calls ==> CommandOk(s, c) && SubscriptionOk(s, c);
    hide Inv;
  }

  // ---------------------------------------------------------------- the reader and Close

  /** An END closes a registered inbox and removes its key. */
  ghost predicate Ends(s: State, s': State, c: CallId, key: Key) {
    && key in s.core.subs && s.core.subs[key] == c && IsOpen(s.core.inboxes, c)
    && s' == s.(core := s.core.(inboxes := s.core.inboxes[c := s.core.inboxes[c].Close()], subs := s.core.subs - {key}))
  }

  lemma EndKeys(s: State, s': State, c: CallId, key: Key)
    requires SubTable(s) && Ends(s, s', c, key)
    ensures SubTable(s')
  {
  }

  lemma EndInboxes(s: State, s': State, c: CallId, key: Key)
    requires Inboxes(s) && Ends(s, s', c, key)
    ensures Inboxes(s')
  {
  }

  lemma EndTables(s: State, s': State, c: CallId, key: Key)
    requires Tables(s) && Ends(s, s', c, key)
    ensures Tables(s')
  {
    EndKeys(s, s', c, key);
    EndInboxes(s, s', c, key);
    hide CommandTable, SubTable, Inboxes, Identifiers;
    CommandFrame(s, s');
    IdFrame(s, s');
  }

  lemma EndCalls(s: State, s': State, c: CallId, key: Key)
    requires Inv(s) && Ends(s, s', c, key)
    ensures CallsKept(s, s', c)
  {
    assert c in s.calls && s.calls[c].key == Some(key) by {
      hide CommandTable, Inboxes, Identifiers;
    }
    hide CommandTable, SubTable, Inboxes, Identifiers;
    DoomStays(s, s');
    hide SomeoneDoomed;
    assert c in s.calls ==> CommandOk(s, c) && SubscriptionOk(s, c);
    hide Inv;
  }

  /** A call that holds its entry gets a result and loses the entry. */
  ghost predicate Answers(s: State, s': State, c: CallId, r: BrokerResult) {
    && HoldsEntry(s, c) && CanAnswer(s.core.results, c) && r != ZERO_RESULT
    && s' == s.(core := s.core.(results := WithAnswer(s.core.results, c, r), sentCmds := s.core.sentCmds - {s.calls[c].cid}))
  }

  lemma AnswerCommands(s: State, s': State, c: CallId, r: BrokerResult)
    requires CommandTable(s) && Identifiers(s) && Answers(s, s', c, r)
    ensures CommandTable(s')
  {
  }

  lemma AnswerTables(s: State, s': State, c: CallId, r: BrokerResult)
    requires Tables(s) && Answers(s, s', c, r)
    ensures Tables(s')
  {
    AnswerCommands(s, s', c, r);
    hide CommandTable, SubTable, Inboxes, Identifiers;
    SubFrame(s, s');
    InboxFrame(s, s');
    IdFrame(s, s');
  }

  lemma AnswerOther(s: State, s': State, c: CallId, r: BrokerResult, d: CallId)
    requires Answers(s, s', c, r)
    requires d in s.calls && d != c && s.calls[d].cid != s.calls[c].cid
    ensures Undisturbed(s, s', d)
  {
    hide SomeoneDoomed;
  }

  lemma AnswerDoom(s: State, s': State, c: CallId, r: BrokerResult)
    requires Answers(s, s', c, r)
    ensures s'.calls.Keys == s.calls.Keys && DoomKept(s, s')
  {
    DoomStays(s, s');
  }

  lemma AnswerOwn(s: State, s': State, c: CallId, r: BrokerResult)
    requires Inv(s) && DoomKept(s, s') && Answers(s, s', c, r)
    ensures c in s'.calls && CommandOk(s', c) && SubscriptionOk(s', c)
  {
    assert s.core.results[c].buf == [];
    hide CommandTable, SubTable, Inboxes, Identifiers, SomeoneDoomed;
    assert CommandOk(s, c) && SubscriptionOk(s, c);
    hide Inv;
  }

  lemma AnswerCalls(s: State, s': State, c: CallId, r: BrokerResult)
    requires Inv(s) && Answers(s, s', c, r)
    ensures CallsKept(s, s', c)
  {
    DistinctIds(s, c);
    AnswerDoom(s, s', c, r);
    AnswerOwn(s, s', c, r);
    hide Tables, CommandOk, SubscriptionOk, DoomKept, Undisturbed, SomeoneDoomed, Answers;
    forall d | d in s.calls && d != c
      ensures Undisturbed(s, s', d)
    {
      AnswerOther(s, s', c, r, d);
    }
  }

  /** A step of the reader or of Close, which is no call's own. */
  ghost predicate AllUndisturbed(s: State, s': State) {
    s'.calls == s.calls && DoomKept(s, s') && forall d <- s.calls :: Undisturbed(s, s', d)
  }

  lemma AssembleAll(s: State, s': State)
    requires Inv(s) && Tables(s') && AllUndisturbed(s, s')
    ensures Inv(s')
  {
    hide Tables, CommandOk, SubscriptionOk, DoomKept, Undisturbed;
    forall d | d in s'.calls
      ensures CommandOk(s', d) && SubscriptionOk(s', d)
    {
      OthersKeep(s, s', d);
    }
  }

  lemma ReaderTables(s: State, s': State)
    requires Tables(s) && s'.core == s.core && s'.calls == s.calls
    ensures Tables(s')
  {
    hide CommandTable, SubTable, Inboxes, Identifiers;
    CommandFrame(s, s');
    SubFrame(s, s');
    InboxFrame(s, s');
    IdFrame(s, s');
  }

  /** Nothing in the invariant depends on the reader. */
  lemma ReaderIrrelevant(s: State, s': State)
    requires Inv(s) && s'.core == s.core && s'.calls == s.calls
    ensures Inv(s')
  {
    assert Tables(s') && DoomKept(s, s') by {
      hide CommandTable, SubTable, Inboxes, Identifiers, Inv;
      ReaderTables(s, s');
      DoomStays(s, s');
    }
    hide Tables, SomeoneDoomed, DoomKept;
    forall d | d in s.calls
      ensures Undisturbed(s, s', d)
    {
      hide Inv;
    }
    hide Undisturbed, Inv;
    AssembleAll(s, s');
  }

  /** The first of Close and the read error runs. */
  ghost predicate Drains(s: State, s': State, why: Failure) {
    !s.core.closed && s' == s.(core := Drained(s.core, why))
  }

  /** Emptying the tables neither panics nor blocks. */
  lemma TablesCanBeDrained(s: State)
    requires Tables(s)
    ensures DrainSafe(s.core)
  {
    hide Inboxes, Identifiers;
  }

  lemma EmptyTables(s: State)
    requires s.core.sentCmds == map[] && s.core.subs == map[]
    ensures CommandTable(s) && SubTable(s)
  {
  }

  lemma DrainInboxes(s: State, s': State)
    requires Inboxes(s) && s'.calls == s.calls
    requires s'.core.inboxes == SomeClosed(s.core.inboxes, s.core.subs.Values)
    ensures Inboxes(s')
  {
  }

  lemma DrainTables(s: State, s': State, why: Failure)
    requires Tables(s) && Drains(s, s', why)
    ensures Tables(s')
  {
    TablesCanBeDrained(s);
    hide DrainSafe;
    assert s'.core.sentCmds == map[] && s'.core.subs == map[];
    DrainInboxes(s, s');
    hide Inboxes, Identifiers, CommandTable, SubTable;
    IdFrame(s, s');
    EmptyTables(s');
  }

  lemma DrainOther(s: State, s': State, why: Failure, d: CallId)
    requires CommandTable(s) && SubTable(s) && DrainSafe(s.core) && Drains(s, s', why)
    requires d in s.calls
    ensures Undisturbed(s, s', d)
  {
    hide DrainSafe, SomeoneDoomed;
  }

  lemma DrainDoom(s: State, s': State, why: Failure)
    requires DrainSafe(s.core) && Drains(s, s', why)
    ensures s'.calls == s.calls && DoomKept(s, s')
  {
    hide DrainSafe;
    DoomStays(s, s');
  }

  lemma DrainKeepsInv(s: State, s': State, why: Failure)
    requires Inv(s) && s' == s.(core := Drained(s.core, why))
    ensures Inv(s')
  {
    if s.core.closed {
      ReaderIrrelevant(s, s');
    } else {
      TablesCanBeDrained(s);
      DrainTables(s, s', why);
      DrainDoom(s, s', why);
      hide DrainSafe, Undisturbed, CommandTable, SubTable, Drained, CommandOk, SubscriptionOk, DoomKept;
      forall d | d in s.calls
        ensures Undisturbed(s, s', d)
      {
        DrainOther(s, s', why, d);
      }
      hide Inv, Tables;
      AssembleAll(s, s');
    }
  }

  // ---------------------------------------------------------------- dispatch

  lemma DeliverKeepsInv(s: State, s': State, key: Key, msg: BrokerMsg)
    requires Inv(s) && s' == s.(core := Delivered(s.core, key, msg))
    ensures Inv(s')
  {
    if key in s.core.subs && (msg.MSG? || msg.END?) {
      var ch := s.core.subs[key];
      assert IsOpen(s.core.inboxes, ch) && s.core.inboxes[ch].cap == INBOX_CAPACITY;
      hide Inv, Tables, CallsKept;
      if msg.END? {
        EndTables(s, s', ch, key);
        EndCalls(s, s', ch, key);
        Assemble(s, s', ch);
      } else if s.core.inboxes[ch].HasRoom() {
        var buf := s.core.inboxes[ch].buf + [msg.msg];
        BufferTables(s, s', ch, buf);
        BufferCalls(s, s', ch, buf);
        Assemble(s, s', ch);
      }
    }
  }

  lemma AnswerKeepsInv(s: State, s': State, cid: CorrID, msg: BrokerMsg)
    requires Inv(s) && s' == s.(core := Answered(s.core, cid, msg))
    ensures Inv(s')
  {
    if cid in s.core.sentCmds {
      var ch := s.core.sentCmds[cid];
      var r := BrokerResult(Some(msg), None);
      assert HoldsEntry(s, ch) && s.calls[ch].cid == cid && CanAnswer(s.core.results, ch);
      hide Inv, Tables, CallsKept;
      AnswerTables(s, s', ch, r);
      AnswerCalls(s, s', ch, r);
      Assemble(s, s', ch);
    }
  }

  /** dispatch never finds a registered channel closed or full. */
  lemma DispatchKeepsInv(s: State, s': State, t: Transmission)
    requires Inv(s) && s' == s.(core := Dispatched(s.version, s.core, t))
    ensures Inv(s')
  {
    hide Inv, Delivered, Answered, DecodeBroker;
    match DecodeBroker(s.version, t.command)
    case Err(_) =>
    case Ok(msg) =>
      if t.corrID == NO_CORR_ID {
        DeliverKeepsInv(s, s', t.entityID, msg);
      } else {
        AnswerKeepsInv(s, s', t.corrID, msg);
      }
  }
}
