/** Runs on which the client misbehaves. */
module ClientExamples {
  import opened Bytes
  import opened Protocol
  import opened Commands
  import opened ClientCore
  import opened ClientMachine
  import opened ClientInvariant
  import opened ClientRuns
  import opened ClientPanics

  // ---------------------------------------------------------------- closed while subscribing

  /** Subscribe has taken its key and Close runs before its send enters. */
  function ClosedTooEarly(cid: CorrID, key: Key): seq<Step> {
    [StartSubscribe(0, cid, key), SubRegister(0), CloseClient, SendRegister(0), Handle(0), CloseOwn(0)]
  }

  function Taken(version: uint16, cid: CorrID, key: Key): State {
    var core := Core(false, map[], map[key := 0], map[], map[0 := Chan(INBOX_CAPACITY, [], false)], NoFault);
    State(version, core, map[0 := Call(cid, Some(key), Building)], Reading)
  }

  lemma TakesTheKey(version: uint16, cid: CorrID, key: Key)
    requires cid != NO_CORR_ID
    ensures var run := [StartSubscribe(0, cid, key)] + [SubRegister(0)];
            Valid(Init(version), run) && Exec(Init(version), run) == Taken(version, cid, key)
  {
    LastStep(Init(version), [], StartSubscribe(0, cid, key));
    assert [] + [StartSubscribe(0, cid, key)] == [StartSubscribe(0, cid, key)];
    LastStep(Init(version), [StartSubscribe(0, cid, key)], SubRegister(0));
    assert Exec(Init(version), [StartSubscribe(0, cid, key)] + [SubRegister(0)]).core == Taken(version, cid, key).core;
    assert Exec(Init(version), [StartSubscribe(0, cid, key)] + [SubRegister(0)]).calls == Taken(version, cid, key).calls;
  }

  function Shut(version: uint16, cid: CorrID, key: Key, results: map<CallId, Chan<BrokerResult>>, phase: Phase): State {
    var core := Core(true, map[], map[], results, map[0 := Chan(INBOX_CAPACITY, [], true)], NoFault);
    State(version, core, map[0 := Call(cid, Some(key), phase)], Reading)
  }

  lemma CloseShuts(version: uint16, cid: CorrID, key: Key)
    ensures Enabled(Taken(version, cid, key), CloseClient)
    ensures Apply(Taken(version, cid, key), CloseClient) == Shut(version, cid, key, map[], Building)
  {
    var core := Taken(version, cid, key).core;
    assert DrainSafe(core);
    assert core.subs[key] in core.subs.Values;
    assert SomeClosed(core.inboxes, core.subs.Values) == map[0 := Chan(INBOX_CAPACITY, [], true)];
    assert SomeAnswered(core.results, core.sentCmds.Values, BrokerResult(None, Some(ClientClosed))) == map[];
  }

  lemma SendFails(version: uint16, cid: CorrID, key: Key, made: map<CallId, Chan<BrokerResult>>)
    requires made == map[0 := Chan(1, [], false)]
    ensures var s, out := Shut(version, cid, key, map[], Building), Failed(ClientClosed);
            && Enabled(s, SendRegister(0)) && Apply(s, SendRegister(0)) == Shut(version, cid, key, made, Handling(out))
  {
  }

  lemma CleanUpPanics(version: uint16, cid: CorrID, key: Key, made: map<CallId, Chan<BrokerResult>>, out: SendOutcome)
    requires out == Failed(ClientClosed)
    ensures var s, s' := Shut(version, cid, key, made, Handling(out)), Shut(version, cid, key, made, Closing(out));
            && Enabled(s, Handle(0)) && Apply(s, Handle(0)) == s'
            && Enabled(s', CloseOwn(0)) && Apply(s', CloseOwn(0)).core.fault == CallerPanic
  {
  }

  lemma FailingSendPanics(version: uint16, cid: CorrID, key: Key)
    ensures var s := Shut(version, cid, key, map[], Building);
            var run := [SendRegister(0), Handle(0), CloseOwn(0)];
            Valid(s, run) && Exec(s, run).core.fault == CallerPanic
  {
    hide Enabled, Apply, Shut;
    var made: map<CallId, Chan<BrokerResult>> := map[0 := Chan(1, [], false)];
    var out := Failed(ClientClosed);
    SendFails(version, cid, key, made);
    CleanUpPanics(version, cid, key, made, out);
    FirstStep(Shut(version, cid, key, made, Closing(out)), CloseOwn(0), []);
    FirstStep(Shut(version, cid, key, made, Handling(out)), Handle(0), [CloseOwn(0)]);
    FirstStep(Shut(version, cid, key, map[], Building), SendRegister(0), [Handle(0), CloseOwn(0)]);
    assert [SendRegister(0), Handle(0), CloseOwn(0)] == [SendRegister(0)] + ([Handle(0)] + ([CloseOwn(0)] + []));
  }

  /** Subscription channels are not closed only once: Close and then Subscribe's own
      clean-up close the same channel, and the second close panics. */
  lemma CloseDuringSubscribePanics(version: uint16, cid: CorrID, key: Key)
    requires cid != NO_CORR_ID
    ensures Valid(Init(version), ClosedTooEarly(cid, key))
    ensures Exec(Init(version), ClosedTooEarly(cid, key)).core.fault == CallerPanic
  {
    var s2 := Taken(version, cid, key);
    var first, tail := [StartSubscribe(0, cid, key)] + [SubRegister(0)], [SendRegister(0), Handle(0), CloseOwn(0)];
    TakesTheKey(version, cid, key);
    CloseShuts(version, cid, key);
    FailingSendPanics(version, cid, key);
    hide Enabled, Apply, Taken, Shut;
    FirstStep(s2, CloseClient, tail);
    Joined(Init(version), first, [CloseClient] + tail);
    assert first + ([CloseClient] + tail) == ClosedTooEarly(cid, key);
  }

  // ---------------------------------------------------------------- evicting another subscription

  /** END closes the first subscription, a second one takes the key, and the first one's
      send fails. */
  function Replacing(cid: CorrID, key: Key): seq<Step> {
    [ReadBlock([Transmission(NO_CORR_ID, key, END_TAG, [])]), DispatchNext,
     StartSubscribe(1, cid, key), SubRegister(1), BuildFails(0)]
  }

  function AfterEnd(version: uint16, cid: CorrID, key: Key): State {
    var core := Core(false, map[], map[], map[], map[0 := Chan(INBOX_CAPACITY, [], true)], NoFault);
    State(version, core, map[0 := Call(cid, Some(key), Building)], Reading)
  }

  function Replaced(version: uint16, cid: CorrID, cid': CorrID, key: Key, phase: Phase): State {
    var core := Core(false, map[], map[key := 1], map[],
                     map[0 := Chan(INBOX_CAPACITY, [], true), 1 := Chan(INBOX_CAPACITY, [], false)], NoFault);
    State(version, core, map[0 := Call(cid, Some(key), phase), 1 := Call(cid', Some(key), Building)], Reading)
  }

  lemma EndCloses(version: uint16, cid: CorrID, cid': CorrID, key: Key)
    ensures var s, run := Taken(version, cid, key), Replacing(cid', key)[..2];
            Valid(s, run) && Exec(s, run) == AfterEnd(version, cid, key)
  {
    var t := Transmission(NO_CORR_ID, key, END_TAG, []);
    var s0 := Taken(version, cid, key);
    var s1 := s0.(reader := Dispatching([t]));
    BrokerExact(version, END_TAG, END);
    hide DecodeBroker;
    assert Apply(s0, ReadBlock([t])) == s1;
    assert Apply(s1, DispatchNext) == AfterEnd(version, cid, key) by {
      assert s0.core.subs - {key} == map[];
      assert [t][1..] == [];
    }
    hide Enabled, Apply;
    FirstStep(s1, DispatchNext, []);
    FirstStep(s0, ReadBlock([t]), [DispatchNext]);
    assert Replacing(cid', key)[..2] == [ReadBlock([t])] + ([DispatchNext] + []);
  }

  lemma SecondRegisters(version: uint16, cid: CorrID, cid': CorrID, key: Key)
    requires cid' != NO_CORR_ID && cid != cid'
    ensures var s := AfterEnd(version, cid, key);
            && Enabled(s, StartSubscribe(1, cid', key))
            && Enabled(Apply(s, StartSubscribe(1, cid', key)), SubRegister(1))
            && Apply(Apply(s, StartSubscribe(1, cid', key)), SubRegister(1)) == Replaced(version, cid, cid', key, Building)
  {
  }

  lemma FirstFails(version: uint16, cid: CorrID, cid': CorrID, key: Key)
    ensures var s := Replaced(version, cid, cid', key, Building);
            Enabled(s, BuildFails(0)) && Apply(s, BuildFails(0)) == Replaced(version, cid, cid', key, Handling(Failed(BuildFailed)))
  {
  }

  lemma SecondTakesTheKey(version: uint16, cid: CorrID, cid': CorrID, key: Key)
    requires cid' != NO_CORR_ID && cid != cid'
    ensures var s, run := AfterEnd(version, cid, key), Replacing(cid', key)[2..];
            Valid(s, run) && Exec(s, run) == Replaced(version, cid, cid', key, Handling(Failed(BuildFailed)))
  {
    hide Enabled, Apply, AfterEnd, Replaced;
    var s0 := AfterEnd(version, cid, key);
    var s2 := Replaced(version, cid, cid', key, Building);
    SecondRegisters(version, cid, cid', key);
    FirstFails(version, cid, cid', key);
    FirstStep(s2, BuildFails(0), []);
    FirstStep(Apply(s0, StartSubscribe(1, cid', key)), SubRegister(1), [BuildFails(0)]);
    FirstStep(s0, StartSubscribe(1, cid', key), [SubRegister(1)] + [BuildFails(0)]);
    assert Replacing(cid', key)[2..] == [StartSubscribe(1, cid', key)] + ([SubRegister(1)] + ([BuildFails(0)] + []));
  }

  lemma ReplacedIsEvicted(version: uint16, cid: CorrID, cid': CorrID, key: Key)
    ensures var s := Replaced(version, cid, cid', key, Handling(Failed(BuildFailed)));
            && HoldsKey(s, 1) && Enabled(s, Handle(0))
            && !HoldsKey(Apply(s, Handle(0)), 1) && IsOpen(Apply(s, Handle(0)).core.inboxes, 1)
  {
  }

  /** Deleting by key: the clean-up of the first Subscribe then unregisters the second,
      whose inbox stays open. */
  lemma EvictionHappens(version: uint16, cid: CorrID, cid': CorrID, key: Key)
    requires cid != NO_CORR_ID && cid' != NO_CORR_ID && cid != cid'
    ensures var run := [StartSubscribe(0, cid, key), SubRegister(0)] + Replacing(cid', key);
            && Valid(Init(version), run)
            && var s := Exec(Init(version), run);
            && HoldsKey(s, 1) && Enabled(s, Handle(0))
            && !HoldsKey(Apply(s, Handle(0)), 1) && IsOpen(Apply(s, Handle(0)).core.inboxes, 1)
  {
    hide Enabled, Apply, Taken, AfterEnd, Replaced, HoldsKey, IsOpen;
    var first, middle, last := [StartSubscribe(0, cid, key)] + [SubRegister(0)], Replacing(cid', key)[..2], Replacing(cid', key)[2..];
    TakesTheKey(version, cid, key);
    EndCloses(version, cid, cid', key);
    SecondTakesTheKey(version, cid, cid', key);
    ReplacedIsEvicted(version, cid, cid', key);
    Joined(Taken(version, cid, key), middle, last);
    Joined(Init(version), first, middle + last);
    assert middle + last == Replacing(cid', key);
    assert first + Replacing(cid', key) == [StartSubscribe(0, cid, key), SubRegister(0)] + Replacing(cid', key);
  }

  // ---------------------------------------------------------------- a Subscribe that never returns

  function Copies<T>(x: T, n: nat): (xs: seq<T>)
    ensures |xs| == n && forall i | 0 <= i < n :: xs[i] == x
  {
    if n == 0 then [] else [x] + Copies(x, n - 1)
  }

  /** A Subscribe that waits for its response, with `buf` in its inbox. */
  function Listening(version: uint16, cid: CorrID, key: Key, buf: seq<Message>, pending: seq<Transmission>): State {
    var core := Core(false, map[cid := 0], map[key := 0], map[0 := Chan(1, [], false)],
                     map[0 := Chan(INBOX_CAPACITY, buf, false)], NoFault);
    State(version, core, map[0 := Call(cid, Some(key), Waiting)], Pending(pending))
  }

  lemma PushArrives(version: uint16, cid: CorrID, key: Key, buf: seq<Message>, push: Transmission, m: Message, rest: seq<Transmission>)
    requires |buf| < INBOX_CAPACITY
    requires push.corrID == NO_CORR_ID && push.entityID == key && Means(version, push.command, MSG(m))
    ensures var s := Listening(version, cid, key, buf, [push] + rest);
            Enabled(s, DispatchNext) && Apply(s, DispatchNext) == Listening(version, cid, key, buf + [m], rest)
  {
    BrokerExact(version, push.command, MSG(m));
    hide DecodeBroker, Means;
    assert ([push] + rest)[1..] == rest;
  }

  lemma {:induction false} Flooded(version: uint16, cid: CorrID, key: Key, buf: seq<Message>, n: nat,
                                   push: Transmission, m: Message, rest: seq<Transmission>)
    requires |buf| + n <= INBOX_CAPACITY
    requires push.corrID == NO_CORR_ID && push.entityID == key && Means(version, push.command, MSG(m))
    ensures var s, run := Listening(version, cid, key, buf, Copies(push, n) + rest), Times(DispatchNext, n);
            Valid(s, run) && Exec(s, run) == Listening(version, cid, key, buf + Copies(m, n), rest)
    decreases n
  {
    hide Enabled, Apply, Listening, Means;
    if n == 0 {
      assert Copies(push, n) + rest == rest && buf + Copies(m, n) == buf;
    } else {
      var tail := Copies(push, n - 1) + rest;
      assert Copies(push, n) + rest == [push] + tail;
      PushArrives(version, cid, key, buf, push, m, tail);
      Flooded(version, cid, key, buf + [m], n - 1, push, m, rest);
      FirstStep(Listening(version, cid, key, buf, [push] + tail), DispatchNext, Times(DispatchNext, n - 1));
      assert (buf + [m]) + Copies(m, n - 1) == buf + Copies(m, n);
    }
  }

  /** 32 pushes and then the response with the first message, in one block. */
  function Flood(push: Transmission, reply: Transmission): seq<Step> {
    [SendRegister(0), Write(0, true), ReadBlock(Copies(push, 32) + [reply])] + Times(DispatchNext, 32) + [DispatchNext, Receive(0)]
  }

  lemma FloodBegins(version: uint16, cid: CorrID, key: Key, ts: seq<Transmission>)
    requires ts != []
    ensures var s, run := Taken(version, cid, key), [SendRegister(0), Write(0, true), ReadBlock(ts)];
            Valid(s, run) && Exec(s, run) == Listening(version, cid, key, [], ts)
  {
    var s0 := Taken(version, cid, key);
    var s2 := Listening(version, cid, key, [], []);
    var s1 := s2.(calls := s2.calls[0 := s2.calls[0].(phase := Writing)]);
    assert Apply(s0, SendRegister(0)) == s1;
    assert Apply(s1, Write(0, true)) == s2;
    assert Apply(s2, ReadBlock(ts)) == Listening(version, cid, key, [], ts);
    hide Enabled, Apply;
    FirstStep(s2, ReadBlock(ts), []);
    FirstStep(s1, Write(0, true), [ReadBlock(ts)]);
    FirstStep(s0, SendRegister(0), [Write(0, true), ReadBlock(ts)]);
    assert [SendRegister(0), Write(0, true), ReadBlock(ts)] == [SendRegister(0)] + ([Write(0, true)] + ([ReadBlock(ts)] + []));
  }

  lemma FloodEnds(version: uint16, cid: CorrID, key: Key, buf: seq<Message>, reply: Transmission, m: Message)
    requires cid != NO_CORR_ID && |buf| == 32
    requires reply.corrID == cid && Means(version, reply.command, MSG(m))
    ensures var s, run := Listening(version, cid, key, buf, [reply]), [DispatchNext, Receive(0)];
            Valid(s, run) && Blocked(Exec(s, run), 0, Reply(Some(MSG(m))))
  {
    BrokerExact(version, reply.command, MSG(m));
    hide DecodeBroker, Means;
    var s0 := Listening(version, cid, key, buf, [reply]);
    var s1 := Apply(s0, DispatchNext);
    assert s1.core.results[0] == Chan(1, [BrokerResult(Some(MSG(m)), None)], true);
    assert Enabled(s1, Receive(0)) && Blocked(Apply(s1, Receive(0)), 0, Reply(Some(MSG(m))));
    hide Enabled, Apply;
    FirstStep(s1, Receive(0), []);
    FirstStep(s0, DispatchNext, [Receive(0)]);
    assert [DispatchNext, Receive(0)] == [DispatchNext] + ([Receive(0)] + []);
  }

  lemma FloodParts(cid: CorrID, key: Key, push: Transmission, reply: Transmission)
    ensures [StartSubscribe(0, cid, key), SubRegister(0)] + Flood(push, reply)
            == [StartSubscribe(0, cid, key)] + [SubRegister(0)]
             + ([SendRegister(0), Write(0, true), ReadBlock(Copies(push, 32) + [reply])]
                + (Times(DispatchNext, 32) + [DispatchNext, Receive(0)]))
  {
    hide Copies, Times;
  }

  /** A server that pushes 32 messages before it answers SUB with the first one blocks that
      Subscribe for good. */
  lemma FloodBlocks(version: uint16, cid: CorrID, key: Key, push: Transmission, reply: Transmission, m: Message)
    requires cid != NO_CORR_ID
    requires push.corrID == NO_CORR_ID && push.entityID == key && Means(version, push.command, MSG(m))
    requires reply.corrID == cid && Means(version, reply.command, MSG(m))
    ensures var run := [StartSubscribe(0, cid, key), SubRegister(0)] + Flood(push, reply);
            Valid(Init(version), run) && Blocked(Exec(Init(version), run), 0, Reply(Some(MSG(m))))
  {
    hide Enabled, Apply, Taken, Listening, Means, Blocked;
    var ts := Copies(push, 32) + [reply];
    var first := [StartSubscribe(0, cid, key)] + [SubRegister(0)];
    var begin: seq<Step> := [SendRegister(0), Write(0, true), ReadBlock(ts)];
    var end: seq<Step> := [DispatchNext, Receive(0)];
    TakesTheKey(version, cid, key);
    FloodBegins(version, cid, key, ts);
    Flooded(version, cid, key, [], 32, push, m, [reply]);
    assert [] + Copies(m, 32) == Copies(m, 32);
    FloodEnds(version, cid, key, Copies(m, 32), reply, m);
    FloodParts(cid, key, push, reply);
    hide Copies, Times, Flood;
    Joined(Listening(version, cid, key, [], ts), Times(DispatchNext, 32), end);
    Joined(Taken(version, cid, key), begin, Times(DispatchNext, 32) + end);
    Joined(Init(version), first, begin + (Times(DispatchNext, 32) + end));
  }

  // ---------------------------------------------------------------- two writes at once

  function Starting(cid: CorrID, cid': CorrID): seq<Step> {
    [StartSend(0, cid), StartSend(1, cid'), SendRegister(0), SendRegister(1)]
  }

  lemma StartTwo(version: uint16, cid: CorrID, cid': CorrID)
    requires cid != NO_CORR_ID && cid' != NO_CORR_ID && cid != cid'
    ensures var s0 := Init(version);
            && Enabled(s0, StartSend(0, cid))
            && var s1 := Apply(s0, StartSend(0, cid));
            && Enabled(s1, StartSend(1, cid'))
            && Apply(s1, StartSend(1, cid')) == s0.(calls := map[0 := Call(cid, None, Building), 1 := Call(cid', None, Building)])
  {
  }

  lemma RegisterTwo(s: State, cid: CorrID, cid': CorrID)
    requires s.core == NEW_CORE && cid != cid'
    requires s.calls == map[0 := Call(cid, None, Building), 1 := Call(cid', None, Building)]
    ensures Enabled(s, SendRegister(0))
    ensures var s' := Apply(s, SendRegister(0));
            && Enabled(s', SendRegister(1))
            && var s'' := Apply(s', SendRegister(1));
            && (forall c, ok | c == 0 || c == 1 :: Enabled(s'', Write(c, ok)))
            && 0 in s''.calls && s''.calls[0].phase == Writing && 1 in s''.calls && s''.calls[1].phase == Writing
  {
  }

  /** Two calls can be in their writes at the same time, and either write may then end
      first. */
  lemma WritesOverlap(version: uint16, cid: CorrID, cid': CorrID)
    requires cid != NO_CORR_ID && cid' != NO_CORR_ID && cid != cid'
    ensures Valid(Init(version), Starting(cid, cid'))
    ensures var s := Exec(Init(version), Starting(cid, cid'));
            && 0 in s.calls && s.calls[0].phase == Writing && 1 in s.calls && s.calls[1].phase == Writing
            && forall c, ok | c == 0 || c == 1 :: Enabled(s, Write(c, ok))
  {
    hide Apply, Enabled;
    var s0 := Init(version);
    StartTwo(version, cid, cid');
    var s1 := Apply(s0, StartSend(0, cid));
    var s2 := Apply(s1, StartSend(1, cid'));
    RegisterTwo(s2, cid, cid');
    var s3 := Apply(s2, SendRegister(0));
    FirstStep(s3, SendRegister(1), []);
    FirstStep(s2, SendRegister(0), [SendRegister(1)] + []);
    FirstStep(s1, StartSend(1, cid'), [SendRegister(0)] + ([SendRegister(1)] + []));
    FirstStep(s0, StartSend(0, cid), [StartSend(1, cid')] + ([SendRegister(0)] + ([SendRegister(1)] + [])));
    assert Starting(cid, cid') == [StartSend(0, cid)] + ([StartSend(1, cid')] + ([SendRegister(0)] + ([SendRegister(1)] + [])));
  }

  // ---------------------------------------------------------------- a confirmed subscription

  /** The server answers SUB with OK. */
  function Confirming(cid: CorrID): seq<Step> {
    [SendRegister(0), Write(0, true), ReadBlock([Transmission(cid, [], OK_TAG, [])]), DispatchNext, Receive(0), Handle(0)]
  }

  function Confirmed(version: uint16, cid: CorrID, key: Key, buf: seq<BrokerResult>, phase: Phase): State {
    var core := Core(false, map[], map[key := 0], map[0 := Chan(1, buf, true)],
                     map[0 := Chan(INBOX_CAPACITY, [], false)], NoFault);
    State(version, core, map[0 := Call(cid, Some(key), phase)], Reading)
  }

  lemma OkArrives(version: uint16, cid: CorrID, key: Key)
    requires cid != NO_CORR_ID
    ensures var s := Listening(version, cid, key, [], [Transmission(cid, [], OK_TAG, [])]);
            && Enabled(s, DispatchNext)
            && Apply(s, DispatchNext) == Confirmed(version, cid, key, [BrokerResult(Some(OK), None)], Waiting)
  {
    BrokerExact(version, OK_TAG, OK);
    hide DecodeBroker;
    var ok := Transmission(cid, [], OK_TAG, []);
    var s := Apply(Listening(version, cid, key, [], [ok]), DispatchNext);
    assert s.core.results[0] == Chan(1, [BrokerResult(Some(OK), None)], true);
    assert s.core.results == map[0 := s.core.results[0]];
    assert s.core.sentCmds == map[] && [ok][1..] == [];
  }

  lemma OkReturns(version: uint16, cid: CorrID, key: Key)
    ensures var s := Confirmed(version, cid, key, [BrokerResult(Some(OK), None)], Waiting);
            && Enabled(s, Receive(0))
            && Apply(s, Receive(0)) == Confirmed(version, cid, key, [], Handling(Reply(Some(OK))))
  {
    var s := Apply(Confirmed(version, cid, key, [BrokerResult(Some(OK), None)], Waiting), Receive(0));
    assert s.core.results[0] == Chan(1, [], true) && s.core.results == map[0 := s.core.results[0]];
  }

  lemma OkConfirms(version: uint16, cid: CorrID, key: Key)
    ensures var s := Confirmed(version, cid, key, [], Handling(Reply(Some(OK))));
            Enabled(s, Handle(0)) && Apply(s, Handle(0)) == Confirmed(version, cid, key, [], Done(Reply(Some(OK))))
  {
  }

  lemma OkCourse(version: uint16, cid: CorrID, key: Key, ts: seq<Transmission>)
    requires cid != NO_CORR_ID && ts == [Transmission(cid, [], OK_TAG, [])]
    ensures var s, run := Listening(version, cid, key, [], ts), [DispatchNext] + ([Receive(0)] + ([Handle(0)] + []));
            Valid(s, run) && Exec(s, run) == Confirmed(version, cid, key, [], Done(Reply(Some(OK))))
  {
    hide Enabled, Apply, Listening, Confirmed;
    OkArrives(version, cid, key);
    OkReturns(version, cid, key);
    OkConfirms(version, cid, key);
    FirstStep(Confirmed(version, cid, key, [], Handling(Reply(Some(OK)))), Handle(0), []);
    FirstStep(Confirmed(version, cid, key, [BrokerResult(Some(OK), None)], Waiting), Receive(0), [Handle(0)] + []);
    FirstStep(Listening(version, cid, key, [], ts), DispatchNext, [Receive(0)] + ([Handle(0)] + []));
  }

  lemma ConfirmedIsOpen(version: uint16, cid: CorrID, key: Key)
    ensures var s := Confirmed(version, cid, key, [], Done(Reply(Some(OK))));
            && s.core.fault == NoFault && 0 in s.calls && s.calls[0].phase == Done(Reply(Some(OK)))
            && HoldsKey(s, 0) && IsOpen(s.core.inboxes, 0)
  {
  }

  /** The ordinary course: SUB is answered OK, Subscribe returns its channel, and the
      subscription is registered and open. */
  lemma OkSubscribes(version: uint16, cid: CorrID, key: Key)
    requires cid != NO_CORR_ID
    ensures var run := [StartSubscribe(0, cid, key), SubRegister(0)] + Confirming(cid);
            && Valid(Init(version), run)
            && var s := Exec(Init(version), run);
            && s.core.fault == NoFault && 0 in s.calls && s.calls[0].phase == Done(Reply(Some(OK)))
            && HoldsKey(s, 0) && IsOpen(s.core.inboxes, 0)
  {
    var ts := [Transmission(cid, [], OK_TAG, [])];
    var first := [StartSubscribe(0, cid, key)] + [SubRegister(0)];
    var begin: seq<Step> := [SendRegister(0), Write(0, true), ReadBlock(ts)];
    var end := [DispatchNext] + ([Receive(0)] + ([Handle(0)] + []));
    ConfirmedIsOpen(version, cid, key);
    hide Enabled, Apply, Taken, Listening, Confirmed, HoldsKey, IsOpen;
    TakesTheKey(version, cid, key);
    FloodBegins(version, cid, key, ts);
    OkCourse(version, cid, key, ts);
    Joined(Taken(version, cid, key), begin, end);
    Joined(Init(version), first, begin + end);
    assert first + (begin + end) == [StartSubscribe(0, cid, key), SubRegister(0)] + Confirming(cid);
  }
}
