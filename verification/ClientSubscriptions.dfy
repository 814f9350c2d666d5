/** The inbox of a subscription over whole runs: what goes in and comes out, who closes it,
    and exactly when Subscribe panics on it. */
module ClientSubscriptions {
  import opened Bytes
  import opened Protocol
  import opened Commands
  import opened ClientCore
  import opened ClientMachine
  import opened ClientInvariant
  import opened ClientSafety
  import opened ClientRuns

  // ---------------------------------------------------------------- one step, seen from an inbox

  /** What the server pushes to the inbox of call `c` in this step. */
  function PushedTo(s: State, step: Step, c: CallId): Option<BrokerMsg>
    requires Enabled(s, step)
  {
    if !step.DispatchNext? then None
    else
      var t := s.reader.pending[0];
      if t.corrID != NO_CORR_ID || t.entityID !in s.core.subs || s.core.subs[t.entityID] != c then None
      else
        match DecodeBroker(s.version, t.command)
        case Ok(msg) => Some(msg)
        case Err(_) => None
  }

  /** Close, a read error or an END closes the inbox of call `c` and takes its key. */
  predicate Shuts(s: State, step: Step, c: CallId)
    requires Enabled(s, step)
  {
    HoldsKey(s, c) && (step.CloseClient? || step.ReadFails? || PushedTo(s, step, c) == Some(END))
  }

  predicate PushesFirst(s: State, step: Step, c: CallId)
    requires Enabled(s, step)
  {
    step == Handle(c) && Pushes(s.calls[c].phase.out)
  }

  function InboxAfter(s: State, step: Step, c: CallId): Chan<Message>
    requires Enabled(s, step) && c in s.core.inboxes
  {
    var ch := s.core.inboxes[c];
    if Shuts(s, step, c) || step == CloseOwn(c) then ch.Close()
    else if step == Consume(c) then ch.(buf := ch.buf[1..])
    else if PushesFirst(s, step, c) then
      if ch.closed then ch else ch.Put(s.calls[c].phase.out.msg.value.msg)
    else
      match PushedTo(s, step, c)
      case Some(MSG(m)) => if |ch.buf| < INBOX_CAPACITY then ch.Put(m) else ch
      case _ => ch
  }

  lemma DrainedInbox(s: State, s': State, c: CallId, why: Failure)
    requires Inv(s) && c in s.core.inboxes && s'.core == Drained(s.core, why)
    ensures c in s'.core.inboxes
    ensures s'.core.inboxes[c] == if HoldsKey(s, c) then s.core.inboxes[c].Close() else s.core.inboxes[c]
  {
    TablesCanBeDrained(s);
    hide DrainSafe;
  }

  /** What the invariant says of one inbox. */
  lemma InboxFacts(s: State, c: CallId)
    requires Inv(s)
    ensures c in s.core.inboxes ==> c in s.calls && s.core.inboxes[c].cap == INBOX_CAPACITY && |s.core.inboxes[c].buf| <= INBOX_CAPACITY
    ensures c in s.calls && s.calls[c].key.Some? ==> c in s.core.inboxes
    ensures forall key | key in s.core.subs && s.core.subs[key] == c :: HoldsKey(s, c) && s.calls[c].key == Some(key)
    ensures HoldsKey(s, c) ==> Subscribed(s.calls[c]) && IsOpen(s.core.inboxes, c)
  {
  }

  lemma DispatchedInbox(s: State, s': State, c: CallId, t: Transmission, push: Option<BrokerMsg>)
    requires Inv(s) && c in s.core.inboxes && s'.core == Dispatched(s.version, s.core, t)
    requires push == if t.corrID != NO_CORR_ID || t.entityID !in s.core.subs || s.core.subs[t.entityID] != c then None
                     else match DecodeBroker(s.version, t.command)
                          case Ok(msg) => Some(msg)
                          case Err(_) => None
    ensures c in s'.core.inboxes
    ensures s'.core.inboxes[c] ==
            match push
            case Some(END) => s.core.inboxes[c].Close()
            case Some(MSG(m)) => if |s.core.inboxes[c].buf| < INBOX_CAPACITY then s.core.inboxes[c].Put(m) else s.core.inboxes[c]
            case _ => s.core.inboxes[c]
  {
    hide Inv, DecodeBroker;
    InboxFacts(s, c);
  }

  lemma ReaderInbox(s: State, step: Step, c: CallId)
    requires Inv(s) && Enabled(s, step) && c in s.core.inboxes
    requires step.DispatchNext? || step.CloseClient? || step.ReadFails?
    ensures c in Apply(s, step).core.inboxes && Apply(s, step).core.inboxes[c] == InboxAfter(s, step, c)
  {
    hide Inv, Dispatched, Drained, DecodeBroker, HoldsKey;
    if step.CloseClient? {
      DrainedInbox(s, Apply(s, step), c, ClientClosed);
    } else if step.ReadFails? {
      DrainedInbox(s, Apply(s, step), c, ReadFailed);
    } else {
      InboxFacts(s, c);
      DispatchedInbox(s, Apply(s, step), c, s.reader.pending[0], PushedTo(s, step, c));
    }
  }

  lemma HandleInbox(s: State, d: CallId, c: CallId)
    requires d in s.calls && CanHandle(s, d) && c in s.core.inboxes
    ensures c in Handled(s, d).core.inboxes
    ensures var ch := s.core.inboxes[c];
            Handled(s, d).core.inboxes[c] ==
            if d == c && Pushes(s.calls[d].phase.out) && !ch.closed then ch.Put(s.calls[d].phase.out.msg.value.msg) else ch
  {
  }

  lemma CallInbox(s: State, step: Step, c: CallId)
    requires Enabled(s, step) && c in s.core.inboxes && c in s.calls
    requires !step.DispatchNext? && !step.CloseClient? && !step.ReadFails?
    ensures c in Apply(s, step).core.inboxes && Apply(s, step).core.inboxes[c] == InboxAfter(s, step, c)
  {
    hide HoldsKey;
    assert PushedTo(s, step, c) == None && !Shuts(s, step, c);
    hide PushedTo, Shuts;
    if step.Handle? {
      HandleInbox(s, step.c, c);
    } else if step.CloseOwn? || step.Consume? || step.StartSubscribe? {
      hide Handled;
    } else {
      hide Handled;
      assert Apply(s, step).core.inboxes == s.core.inboxes;
    }
  }

  lemma InboxEffect(s: State, step: Step, c: CallId)
    requires Inv(s) && Enabled(s, step) && c in s.core.inboxes
    ensures c in Apply(s, step).core.inboxes && Apply(s, step).core.inboxes[c] == InboxAfter(s, step, c)
  {
    hide Inv, Apply, InboxAfter;
    if step.DispatchNext? || step.CloseClient? || step.ReadFails? {
      ReaderInbox(s, step, c);
    } else {
      InboxFacts(s, c);
      CallInbox(s, step, c);
    }
  }

  lemma DispatchKeepsInboxes(v: uint16, core: Core, t: Transmission)
    ensures Dispatched(v, core, t).inboxes.Keys == core.inboxes.Keys
  {
    hide DecodeBroker;
  }

  lemma DrainKeepsInboxes(core: Core, why: Failure)
    ensures Drained(core, why).inboxes.Keys == core.inboxes.Keys
  {
    hide DrainSafe;
  }

  lemma StepKeepsInboxes(s: State, step: Step)
    requires Enabled(s, step) && !step.StartSubscribe?
    ensures Apply(s, step).core.inboxes.Keys == s.core.inboxes.Keys
  {
    hide Dispatched, Drained;
    if step.DispatchNext? {
      DispatchKeepsInboxes(s.version, s.core, s.reader.pending[0]);
    } else if step.CloseClient? {
      DrainKeepsInboxes(s.core, ClientClosed);
    } else if step.ReadFails? {
      DrainKeepsInboxes(s.core, ReadFailed);
    }
  }

  /** Only StartSubscribe makes an inbox, and makes it empty and open. */
  lemma NewInbox(s: State, step: Step, c: CallId)
    requires Enabled(s, step) && c !in s.core.inboxes && c in Apply(s, step).core.inboxes
    ensures c !in s.calls && Apply(s, step).core.inboxes[c] == Chan(INBOX_CAPACITY, [], false)
  {
    if !step.StartSubscribe? {
      StepKeepsInboxes(s, step);
      assert false;
    }
  }

  // ---------------------------------------------------------------- a bounded queue

  datatype Event = Push(m: Message) | Inline(m: Message) | Take(m: Message)

  function EventsIn(s: State, step: Step, c: CallId): seq<Event>
    requires Enabled(s, step)
  {
    if step == Consume(c) then [Take(s.core.inboxes[c].buf[0])]
    else if PushesFirst(s, step, c) then [Inline(s.calls[c].phase.out.msg.value.msg)]
    else
      match PushedTo(s, step, c)
      case Some(MSG(m)) => [Push(m)]
      case _ => []
  }

  /** What happens to the inbox of call `c` over a run: server pushes while it is
      registered, the inline message of Subscribe, and receives. */
  ghost function Trace(s: State, run: seq<Step>, c: CallId): seq<Event>
    requires Valid(s, run)
    decreases |run|
  {
    if run == [] then [] else EventsIn(s, run[0], c) + Trace(Apply(s, run[0]), run[1..], c)
  }

  /** A first-in first-out queue of capacity 32 that drops a push when it is full, makes an
      inline message wait, and hands out its oldest message. */
  function Replay(buf: seq<Message>, events: seq<Event>): Option<seq<Message>>
    decreases |events|
  {
    if events == [] then Some(buf)
    else match events[0]
      case Push(m) => Replay(if |buf| < 32 then buf + [m] else buf, events[1..])
      case Inline(m) => if |buf| < 32 then Replay(buf + [m], events[1..]) else None
      case Take(m) => if buf != [] && buf[0] == m then Replay(buf[1..], events[1..]) else None
  }

  function InboxBuf(s: State, c: CallId): seq<Message> {
    if c in s.core.inboxes then s.core.inboxes[c].buf else []
  }

  lemma NoEventsBefore(s: State, step: Step, c: CallId)
    requires Inv(s) && Enabled(s, step) && c !in s.core.inboxes
    ensures EventsIn(s, step, c) == []
  {
    hide Inv, DecodeBroker, HoldsKey;
    InboxFacts(s, c);
  }

  lemma EffectReplays(s: State, step: Step, c: CallId)
    requires Enabled(s, step) && c in s.core.inboxes && !Panics(s, step)
    requires |s.core.inboxes[c].buf| <= INBOX_CAPACITY == s.core.inboxes[c].cap
    ensures Replay(InboxBuf(s, c), EventsIn(s, step, c)) == Some(InboxAfter(s, step, c).buf)
  {
    hide HoldsKey;
  }

  lemma StepReplays(s: State, step: Step, c: CallId)
    requires Inv(s) && Enabled(s, step) && !Panics(s, step)
    ensures Replay(InboxBuf(s, c), EventsIn(s, step, c)) == Some(InboxBuf(Apply(s, step), c))
  {
    hide Inv, Apply;
    InboxFacts(s, c);
    if c in s.core.inboxes {
      InboxEffect(s, step, c);
      hide Shuts, PushedTo;
      assert Enabled(s, step) && (step == Consume(c) ==> s.core.inboxes[c].buf != []);
      hide Enabled;
      EffectReplays(s, step, c);
    } else {
      NoEventsBefore(s, step, c);
      if c in Apply(s, step).core.inboxes {
        NewInbox(s, step, c);
      }
    }
  }

  lemma {:induction false} ReplayAppend(buf: seq<Message>, es: seq<Event>, fs: seq<Event>)
    requires Replay(buf, es).Some?
    ensures Replay(buf, es + fs) == Replay(Replay(buf, es).value, fs)
    decreases |es|
  {
    if es == [] {
      assert es + fs == fs;
    } else {
      assert (es + fs)[0] == es[0] && (es + fs)[1..] == es[1..] + fs;
      match es[0]
      case Push(m) => ReplayAppend(if |buf| < 32 then buf + [m] else buf, es[1..], fs);
      case Inline(m) => ReplayAppend(buf + [m], es[1..], fs);
      case Take(m) => ReplayAppend(buf[1..], es[1..], fs);
    }
  }

  /** An inbox behaves like the queue, whatever the interleaving. */
  lemma {:induction false} InboxIsQueue(s: State, run: seq<Step>, c: CallId)
    requires Clean(s, run)
    ensures Replay(InboxBuf(s, c), Trace(s, run, c)) == Some(InboxBuf(Exec(s, run), c))
    decreases |run|
  {
    hide Inv, Apply, Enabled, Panics, InboxBuf, EventsIn;
    if run == [] {
    } else {
      var s' := Apply(s, run[0]);
      Head(s, run);
      StepReplays(s, run[0], c);
      InboxIsQueue(s', run[1..], c);
      ReplayAppend(InboxBuf(s, c), EventsIn(s, run[0], c), Trace(s', run[1..], c));
    }
  }

  // ---------------------------------------------------------------- conservation

  /** The messages offered to a queue, in order. */
  function Offered(events: seq<Event>): seq<Message> {
    if events == [] then []
    else (if events[0].Take? then [] else [events[0].m]) + Offered(events[1..])
  }

  function TakenFrom(events: seq<Event>): seq<Message> {
    if events == [] then []
    else (if events[0].Take? then [events[0].m] else []) + TakenFrom(events[1..])
  }

  function Inlines(events: seq<Event>): nat {
    if events == [] then 0 else (if events[0].Inline? then 1 else 0) + Inlines(events[1..])
  }

  /** Which of the offered messages a queue that starts with `n` messages keeps: all but
      the pushes that find 32 in it. */
  function Keeps(n: nat, events: seq<Event>): seq<bool>
    decreases |events|
  {
    if events == [] then []
    else match events[0]
      case Push(_) => [n < 32] + Keeps(if n < 32 then n + 1 else n, events[1..])
      case Inline(_) => [true] + Keeps(n + 1, events[1..])
      case Take(_) => Keeps(if n == 0 then 0 else n - 1, events[1..])
  }

  /** The elements of `xs` whose flag is `keep`, in order. */
  function Filter<T>(xs: seq<T>, flags: seq<bool>, keep: bool): seq<T>
    requires |xs| == |flags|
  {
    if xs == [] then []
    else (if flags[0] == keep then [xs[0]] else []) + Filter(xs[1..], flags[1..], keep)
  }

  lemma FilterCons<T>(x: T, xs: seq<T>, flag: bool, flags: seq<bool>)
    requires |xs| == |flags|
    ensures Filter([x] + xs, [flag] + flags, true) == (if flag then [x] else []) + Filter(xs, flags, true)
  {
    assert ([x] + xs)[1..] == xs && ([flag] + flags)[1..] == flags;
  }

  lemma {:induction false} FilterSplits<T>(xs: seq<T>, flags: seq<bool>)
    requires |xs| == |flags|
    ensures |Filter(xs, flags, true)| + |Filter(xs, flags, false)| == |xs|
  {
    if xs == [] {
    } else {
      FilterSplits(xs[1..], flags[1..]);
    }
  }

  /** Nothing is lost, doubled or reordered except the dropped pushes. */
  predicate Conserved(buf: seq<Message>, events: seq<Event>) {
    && Replay(buf, events).Some?
    && |Keeps(|buf|, events)| == |Offered(events)|
    && buf + Filter(Offered(events), Keeps(|buf|, events), true) == TakenFrom(events) + Replay(buf, events).value
  }

  lemma PushConserves(buf: seq<Message>, m: Message, events: seq<Event>, rest: seq<Event>)
    requires events != [] && events[0] == Push(m) && rest == events[1..]
    requires Conserved(if |buf| < 32 then buf + [m] else buf, rest)
    ensures Conserved(buf, events)
  {
    hide Filter;
    var buf' := if |buf| < 32 then buf + [m] else buf;
    FilterCons(m, Offered(rest), |buf| < 32, Keeps(|buf'|, rest));
    assert [] + TakenFrom(rest) == TakenFrom(rest);
    var kept := Filter(Offered(rest), Keeps(|buf'|, rest), true);
    if |buf| < 32 {
      assert buf + ([m] + kept) == (buf + [m]) + kept;
    } else {
      assert [] + kept == kept;
    }
  }

  lemma InlineConserves(buf: seq<Message>, m: Message, events: seq<Event>, rest: seq<Event>)
    requires events != [] && events[0] == Inline(m) && rest == events[1..] && |buf| < 32
    requires Conserved(buf + [m], rest)
    ensures Conserved(buf, events)
  {
    hide Filter;
    FilterCons(m, Offered(rest), true, Keeps(|buf| + 1, rest));
    assert [] + TakenFrom(rest) == TakenFrom(rest);
    var kept := Filter(Offered(rest), Keeps(|buf| + 1, rest), true);
    assert buf + ([m] + kept) == (buf + [m]) + kept;
  }

  lemma TakeUnfolds(n: nat, events: seq<Event>)
    requires n > 0 && events != [] && events[0].Take?
    ensures Offered(events) == Offered(events[1..]) && Keeps(n, events) == Keeps(n - 1, events[1..])
    ensures TakenFrom(events) == [events[0].m] + TakenFrom(events[1..])
  {
    assert [] + Offered(events[1..]) == Offered(events[1..]);
  }

  lemma TakeConserves(buf: seq<Message>, m: Message, events: seq<Event>, rest: seq<Event>)
    requires events != [] && events[0] == Take(m) && rest == events[1..] && buf != [] && buf[0] == m
    requires Conserved(buf[1..], rest)
    ensures Conserved(buf, events)
  {
    TakeUnfolds(|buf|, events);
    hide Filter, Offered, Keeps, TakenFrom;
    var kept, end := Filter(Offered(rest), Keeps(|buf[1..]|, rest), true), Replay(buf[1..], rest).value;
    assert buf + kept == [m] + (buf[1..] + kept);
    assert TakenFrom(events) + end == [m] + (TakenFrom(rest) + end);
  }

  lemma {:induction false} QueueConserves(buf: seq<Message>, events: seq<Event>)
    requires Replay(buf, events).Some?
    ensures Conserved(buf, events)
    decreases |events|
  {
    if events == [] {
      assert Filter(Offered(events), Keeps(|buf|, events), true) == [];
    } else {
      hide Conserved;
      var rest := events[1..];
      match events[0]
      case Push(m) =>
        QueueConserves(if |buf| < 32 then buf + [m] else buf, rest);
        PushConserves(buf, m, events, rest);
      case Inline(m) =>
        QueueConserves(buf + [m], rest);
        InlineConserves(buf, m, events, rest);
      case Take(m) =>
        QueueConserves(buf[1..], rest);
        TakeConserves(buf, m, events, rest);
    }
  }

  /** After Subscribe has handled its response, it pushes nothing more. */
  lemma StepInlines(s: State, step: Step, c: CallId)
    requires Enabled(s, step)
    ensures EventsIn(s, step, c) == [] || |EventsIn(s, step, c)| == 1
    ensures Inlines(EventsIn(s, step, c)) == (if PushesFirst(s, step, c) then 1 else 0)
    ensures PushesFirst(s, step, c) ==> c in s.calls && Rank(s.calls[c].phase) == 2 && Own(step, c)
  {
    hide DecodeBroker;
  }

  lemma {:induction false} InlinesAppend(es: seq<Event>, fs: seq<Event>)
    ensures Inlines(es + fs) == Inlines(es) + Inlines(fs)
  {
    if es == [] {
      assert es + fs == fs;
    } else {
      assert (es + fs)[0] == es[0] && (es + fs)[1..] == es[1..] + fs;
      InlinesAppend(es[1..], fs);
    }
  }

  function InlinesLeft(s: State, c: CallId): nat {
    if c in s.calls && Rank(s.calls[c].phase) < 2 then 0 else 1
  }

  lemma StepInlinesLeft(s: State, step: Step, c: CallId)
    requires Enabled(s, step)
    ensures InlinesLeft(Apply(s, step), c) + Inlines(EventsIn(s, step, c)) <= InlinesLeft(s, c)
  {
    StepInlines(s, step, c);
    if c in s.calls {
      OnlyOwnSteps(s, step, c);
      if Own(step, c) {
        OwnStepsDescend(s, step, c);
      }
    }
    hide Apply, Own, EventsIn;
  }

  /** At most one message of an inbox came inline. */
  lemma {:induction false} AtMostOneInline(s: State, run: seq<Step>, c: CallId)
    requires Valid(s, run)
    ensures Inlines(Trace(s, run, c)) <= InlinesLeft(s, c)
    decreases |run|
  {
    hide Apply, Enabled, EventsIn, InlinesLeft;
    if run == [] {
    } else {
      StepInlinesLeft(s, run[0], c);
      AtMostOneInline(Apply(s, run[0]), run[1..], c);
      InlinesAppend(EventsIn(s, run[0], c), Trace(Apply(s, run[0]), run[1..], c));
    }
  }

  /** The books of one inbox in any run of a new client: the kept offers, in order, are
      what was received followed by what is buffered; every other offer found 32 messages
      buffered; at most one offer was inline. */
  lemma InboxBooks(version: uint16, run: seq<Step>, c: CallId)
    requires Valid(Init(version), run) && Exec(Init(version), run).core.fault == NoFault
    ensures var es := Trace(Init(version), run, c);
            var offered, keeps := Offered(es), Keeps(0, es);
            && |keeps| == |offered|
            && Filter(offered, keeps, true) == TakenFrom(es) + InboxBuf(Exec(Init(version), run), c)
            && |Filter(offered, keeps, true)| + |Filter(offered, keeps, false)| == |offered|
            && Inlines(es) <= 1
  {
    InitInv(version);
    hide Inv, Inlines, Offered, Keeps, Filter, TakenFrom;
    var es := Trace(Init(version), run, c);
    InboxIsQueue(Init(version), run, c);
    QueueConserves([], es);
    FilterSplits(Offered(es), Keeps(0, es));
    AtMostOneInline(Init(version), run, c);
    assert [] + Filter(Offered(es), Keeps(0, es), true) == Filter(Offered(es), Keeps(0, es), true);
  }
}
