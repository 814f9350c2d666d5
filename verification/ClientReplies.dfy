/** What send returns: at most one result is ever put on its channel, and what it returns is
    the first thing that it hears. */
module ClientReplies {
  import opened Bytes
  import opened Protocol
  import opened Commands
  import opened ClientCore
  import opened ClientMachine
  import opened ClientInvariant
  import opened ClientSafety
  import opened ClientRuns

  /** What a step means for a call in flight: a decodable transmission with its identifier,
      or the one Close or read error that closes the client. */
  function NewsIn(s: State, step: Step, c: CallId): Option<BrokerResult>
    requires Enabled(s, step)
  {
    if c !in s.calls || !InFlight(s.calls[c].phase) then None
    else if step.DispatchNext? && s.reader.pending[0].corrID == s.calls[c].cid then
      match DecodeBroker(s.version, s.reader.pending[0].command)
      case Ok(msg) => Some(BrokerResult(Some(msg), None))
      case Err(_) => None
    else if step.CloseClient? && !s.core.closed then Some(BrokerResult(None, Some(ClientClosed)))
    else if step.ReadFails? && !s.core.closed then Some(BrokerResult(None, Some(ReadFailed)))
    else None
  }

  function Told(news: Option<BrokerResult>): seq<BrokerResult> {
    if news.Some? then [news.value] else []
  }

  /** What a call hears in a step: its news, or that it came to a closed client. */
  function HeardIn(s: State, step: Step, c: CallId): seq<BrokerResult>
    requires Enabled(s, step)
  {
    if step == SendRegister(c) && s.core.closed then [BrokerResult(None, Some(ClientClosed))]
    else Told(NewsIn(s, step, c))
  }

  /** Everything call `c` hears over a run, in order, from its registration on. */
  ghost function Heard(s: State, run: seq<Step>, c: CallId): seq<BrokerResult>
    requires Valid(s, run)
    decreases |run|
  {
    if run == [] then [] else HeardIn(s, run[0], c) + Heard(Apply(s, run[0]), run[1..], c)
  }

  lemma NewsIsReal(s: State, step: Step, c: CallId)
    requires Enabled(s, step) && NewsIn(s, step, c).Some?
    ensures NewsIn(s, step, c).value != ZERO_RESULT
    ensures c in s.calls && InFlight(s.calls[c].phase) && !Own(step, c)
    ensures step.DispatchNext? || step.CloseClient? || step.ReadFails?
  {
    hide DecodeBroker;
  }

  // ---------------------------------------------------------------- one step, seen from a call

  /** The channel of a call is untouched by the steps of others, except that a call that
      holds its entry gets a result and loses the entry in the same step. */
  ghost predicate Settled(s: State, s': State, c: CallId, result: Option<BrokerResult>) {
    if HoldsEntry(s, c) && result.Some? then
      !HoldsEntry(s', c) && c in s'.core.results && s'.core.results[c] == Chan(1, [result.value], true)
    else
      && (HoldsEntry(s', c) <==> HoldsEntry(s, c))
      && (c in s.core.results <==> c in s'.core.results)
      && (c in s.core.results ==> s'.core.results[c] == s.core.results[c])
  }

  lemma DrainSettles(s: State, s': State, c: CallId, why: Failure)
    requires Inv(s) && c in s.calls
    requires s'.core == Drained(s.core, why) && s'.calls == s.calls
    ensures Settled(s, s', c, Some(BrokerResult(None, Some(why))))
  {
    TablesCanBeDrained(s);
    hide DrainSafe;
  }

  lemma EntryFacts(s: State, c: CallId, cid: CorrID)
    requires Inv(s) && c in s.calls && cid in s.core.sentCmds
    ensures CanAnswer(s.core.results, s.core.sentCmds[cid])
    ensures s.core.sentCmds[cid] == c <==> s.calls[c].cid == cid
  {
  }

  lemma UntouchedSettles(s: State, s': State, c: CallId)
    requires c in s.calls && c in s'.calls && s'.calls[c] == s.calls[c]
    requires s'.core.sentCmds == s.core.sentCmds && s'.core.results == s.core.results
    ensures Settled(s, s', c, None)
  {
  }

  /** The answer to one identifier leaves the calls with other identifiers alone. */
  lemma AnswerSettles(s: State, s': State, c: CallId, cid: CorrID, msg: BrokerMsg)
    requires Inv(s) && c in s.calls
    requires s'.core == Answered(s.core, cid, msg) && s'.calls == s.calls
    ensures Settled(s, s', c, if cid == s.calls[c].cid then Some(BrokerResult(Some(msg), None)) else None)
  {
    hide Inv;
    CallFacts(s, c);
    if cid in s.core.sentCmds {
      EntryFacts(s, c, cid);
    }
  }

  lemma DispatchSettles(s: State, s': State, c: CallId, t: Transmission, result: Option<BrokerResult>)
    requires Inv(s) && c in s.calls
    requires s'.core == Dispatched(s.version, s.core, t) && s'.calls == s.calls
    requires result == match DecodeBroker(s.version, t.command)
                       case Err(_) => None
                       case Ok(msg) => if t.corrID == s.calls[c].cid then Some(BrokerResult(Some(msg), None)) else None
    ensures Settled(s, s', c, result)
  {
    hide Inv, DecodeBroker, Settled;
    CallFacts(s, c);
    match DecodeBroker(s.version, t.command)
    case Err(_) => UntouchedSettles(s, s', c);
    case Ok(msg) =>
      if t.corrID == NO_CORR_ID {
        UntouchedSettles(s, s', c);
      } else {
        AnswerSettles(s, s', c, t.corrID, msg);
      }
  }

  lemma UnregisteredIsUnsettled(s: State, s': State, c: CallId, r: BrokerResult)
    requires !HoldsEntry(s, c) && Settled(s, s', c, Some(r))
    ensures Settled(s, s', c, None)
  {
  }

  lemma DispatchResult(s: State, c: CallId)
    requires Inv(s) && Enabled(s, DispatchNext) && c in s.calls
    ensures Settled(s, Apply(s, DispatchNext), c, NewsIn(s, DispatchNext, c))
  {
    hide Inv, DecodeBroker, Settled, Dispatched;
    var t := s.reader.pending[0];
    var result := match DecodeBroker(s.version, t.command)
      case Err(_) => None
      case Ok(msg) => if t.corrID == s.calls[c].cid then Some(BrokerResult(Some(msg), None)) else None;
    DispatchSettles(s, Apply(s, DispatchNext), c, t, result);
    if !InFlight(s.calls[c].phase) {
      CallFacts(s, c);
      if result.Some? {
        UnregisteredIsUnsettled(s, Apply(s, DispatchNext), c, result.value);
      }
    }
  }

  lemma DrainResult(s: State, step: Step, c: CallId, why: Failure)
    requires Inv(s) && Enabled(s, step) && c in s.calls
    requires (step.CloseClient? && why == ClientClosed) || (step.ReadFails? && why == ReadFailed)
    ensures Settled(s, Apply(s, step), c, NewsIn(s, step, c))
  {
    hide Inv, Settled;
    CallFacts(s, c);
    if s.core.closed {
      UntouchedSettles(s, Apply(s, step), c);
    } else {
      hide Drained;
      DrainSettles(s, Apply(s, step), c, why);
      if !InFlight(s.calls[c].phase) {
        UnregisteredIsUnsettled(s, Apply(s, step), c, BrokerResult(None, Some(why)));
      }
    }
  }

  lemma DifferentIds(s: State, c: CallId, d: CallId)
    requires Inv(s) && c in s.calls && d in s.calls && c != d
    ensures s.calls[c].cid != s.calls[d].cid
  {
  }

  lemma EnteringSettles(s: State, d: CallId, c: CallId)
    requires c in s.calls && d in s.calls && c != d && s.calls[c].cid != s.calls[d].cid
    ensures Settled(s, SendEntered(s, d), c, None)
  {
  }

  lemma ReceivingSettles(s: State, d: CallId, c: CallId)
    requires c in s.calls && d in s.calls && c != d && CanReceive(s, d)
    ensures Settled(s, Received(s, d), c, None)
  {
  }

  lemma LeavingSettles(s: State, d: CallId, c: CallId)
    requires c in s.calls && d in s.calls && c != d && s.calls[c].cid != s.calls[d].cid && s.calls[d].phase.Abandoning?
    ensures Settled(s, SendLeft(s, d), c, None)
  {
  }

  lemma OtherCallsSettle(s: State, step: Step, c: CallId)
    requires Inv(s) && Enabled(s, step) && c in s.calls && !Own(step, c)
    requires !step.DispatchNext? && !step.CloseClient? && !step.ReadFails?
    ensures Settled(s, Apply(s, step), c, None)
  {
    hide Inv, Settled;
    if step.SendRegister? {
      DifferentIds(s, c, step.c);
      EnteringSettles(s, step.c, c);
    } else if step.Receive? {
      ReceivingSettles(s, step.c, c);
    } else if step.SendUnregister? {
      DifferentIds(s, c, step.c);
      LeavingSettles(s, step.c, c);
    } else {
      UntouchedSettles(s, Apply(s, step), c);
    }
  }

  lemma OthersSettle(s: State, step: Step, c: CallId)
    requires Inv(s) && Enabled(s, step) && c in s.calls && !Own(step, c)
    ensures Settled(s, Apply(s, step), c, NewsIn(s, step, c))
  {
    hide Inv, Apply, Settled, DecodeBroker;
    if step.DispatchNext? {
      DispatchResult(s, c);
    } else if step.CloseClient? {
      DrainResult(s, step, c, ClientClosed);
    } else if step.ReadFails? {
      DrainResult(s, step, c, ReadFailed);
    } else {
      OtherCallsSettle(s, step, c);
    }
  }

  // ---------------------------------------------------------------- at most one result

  /** Past its critical section and without its entry. */
  predicate Spent(s: State, c: CallId) {
    c in s.calls && Rank(s.calls[c].phase) <= 5 && !HoldsEntry(s, c)
  }

  predicate Puts(s: State, s': State, c: CallId) {
    c in s.core.results && c in s'.core.results && |s'.core.results[c].buf| > |s.core.results[c].buf|
  }

  lemma OwnNeverPuts(s: State, step: Step, c: CallId)
    requires Inv(s) && Enabled(s, step) && c in s.calls && Own(step, c)
    ensures !Puts(s, Apply(s, step), c)
    ensures Spent(s, c) ==> Spent(Apply(s, step), c)
  {
    assert CommandOk(s, c);
    hide Inv;
    OwnStepsDescend(s, step, c);
  }

  lemma StartNeverPuts(s: State, step: Step, c: CallId)
    requires Enabled(s, step) && CommandTable(s) && c !in s.calls && DrainSafe(s.core)
    ensures !Puts(s, Apply(s, step), c)
  {
    hide DecodeBroker, DrainSafe;
  }

  /** A result is put only by dispatch, Close or a read error, on the channel of a call that
      holds its entry, and takes the entry away. */
  lemma PutSpends(s: State, step: Step, c: CallId)
    requires Inv(s) && Enabled(s, step)
    ensures Spent(s, c) ==> Spent(Apply(s, step), c) && !Puts(s, Apply(s, step), c)
    ensures Puts(s, Apply(s, step), c) ==> Spent(Apply(s, step), c)
    ensures Puts(s, Apply(s, step), c) ==> step.DispatchNext? || step.CloseClient? || step.ReadFails?
  {
    if c !in s.calls {
      TablesCanBeDrained(s);
      StartNeverPuts(s, step, c);
    } else if Own(step, c) {
      OwnNeverPuts(s, step, c);
    } else {
      CallFacts(s, c);
      OthersSettle(s, step, c);
      OnlyOwnSteps(s, step, c);
      hide Inv, Apply, Enabled, NewsIn, CommandOk;
      assert Puts(s, Apply(s, step), c) ==> HoldsEntry(s, c) && NewsIn(s, step, c).Some?;
      if NewsIn(s, step, c).Some? {
        NewsIsReal(s, step, c);
      }
    }
  }

  ghost function ResultsPut(s: State, run: seq<Step>, c: CallId): nat
    requires Valid(s, run)
    decreases |run|
  {
    if run == [] then 0
    else (if Puts(s, Apply(s, run[0]), c) then 1 else 0) + ResultsPut(Apply(s, run[0]), run[1..], c)
  }

  /** No call ever gets a second result, whatever the server sends. */
  lemma {:induction false} AtMostOneResult(s: State, run: seq<Step>, c: CallId)
    requires Clean(s, run)
    ensures ResultsPut(s, run, c) <= if Spent(s, c) then 0 else 1
    decreases |run|
  {
    if run == [] {
    } else {
      hide Inv, Apply, Enabled, Panics, Puts, Spent;
      Head(s, run);
      PutSpends(s, run[0], c);
      AtMostOneResult(Apply(s, run[0]), run[1..], c);
    }
  }

  // ---------------------------------------------------------------- the first one heard

  predicate Ended(p: Phase) {
    p.Handling? || p.Closing? || p.Done?
  }

  /** A call that gives up does so in one of three steps of its own. */
  function GaveUpIn(step: Step, c: CallId): Option<Failure> {
    match step
    case BuildFails(d) => if c == d then Some(BuildFailed) else None
    case Write(d, ok) => if c == d && !ok then Some(WriteFailed) else None
    case Cancel(d) => if c == d then Some(Cancelled) else None
    case _ => None
  }

  function Either(g: Option<Failure>, g': Option<Failure>): Option<Failure> {
    if g.Some? then g else g'
  }

  function GaveUp(run: seq<Step>, c: CallId): Option<Failure> {
    if run == [] then None else Either(GaveUpIn(run[0], c), GaveUp(run[1..], c))
  }

  /** A failure comes back as that failure, ERR as an error of the server, and every other
      message as a reply. */
  predicate ReturnedFor(r: BrokerResult, out: SendOutcome) {
    match r
    case BrokerResult(_, Some(why)) => out == Failed(why)
    case BrokerResult(Some(ERR(kind, detail)), None) => out == ServerError(Some(ERR(kind, detail)))
    case BrokerResult(msg, None) => out == Reply(msg)
  }

  /** A call that gave up returns why; any other returns the first thing it heard. */
  predicate Explains(out: SendOutcome, h: seq<BrokerResult>, g: Option<Failure>) {
    match g
    case Some(why) => out == Failed(why)
    case None => h != [] && ReturnedFor(h[0], out)
  }

  lemma OutcomeIsReturned(r: BrokerResult)
    ensures ReturnedFor(r, OutcomeOf(r))
  {
  }

  /** Nothing has been heard while the entry is held; a result that waits is the first thing
      heard; a call gives up at most once. */
  ghost predicate Accounted(s: State, c: CallId, h: seq<BrokerResult>, g: Option<Failure>) {
    if c !in s.calls then h == [] && g == None
    else
      var p := s.calls[c].phase;
      && (Rank(p) >= 6 || HoldsEntry(s, c) ==> h == [])
      && (Rank(p) >= 4 ==> g == None)
      && (InFlight(p) && !HoldsEntry(s, c) ==> HasResult(s, c) && h != [] && s.core.results[c].buf[0] == h[0])
      && (p.Abandoning? ==> g == Some(p.why))
      && (Ended(p) ==> Explains(p.out, h, g))
  }

  lemma ReceiveAccounted(s: State, c: CallId, h: seq<BrokerResult>, g: Option<Failure>)
    requires c in s.calls && s.calls[c].phase.Waiting? && CanReceive(s, c) && Accounted(s, c, h, g)
    requires HoldsEntry(s, c) ==> s.core.results[c] == Chan(1, [], false)
    ensures Accounted(Received(s, c), c, h, g)
  {
    OutcomeIsReturned(h[0]);
    hide OutcomeOf, ReturnedFor;
  }

  lemma LeaveAccounted(s: State, c: CallId, h: seq<BrokerResult>, g: Option<Failure>)
    requires c in s.calls && s.calls[c].phase.Abandoning? && Accounted(s, c, h, g)
    ensures Accounted(SendLeft(s, c), c, h, g)
  {
    hide ReturnedFor;
  }

  lemma BuildFailsAccounted(s: State, c: CallId, h: seq<BrokerResult>, g: Option<Failure>)
    requires c in s.calls && s.calls[c].phase.Building? && !HoldsEntry(s, c) && Accounted(s, c, h, g)
    ensures Accounted(Returned(s, c, Failed(BuildFailed)), c, h, Some(BuildFailed))
  {
    hide ReturnedFor;
  }

  lemma RephaseAccounted(s: State, s': State, c: CallId, h: seq<BrokerResult>, g: Option<Failure>, g': Option<Failure>)
    requires c in s.calls && c in s'.calls && s'.calls[c].cid == s.calls[c].cid
    requires s'.core.sentCmds == s.core.sentCmds && s'.core.results == s.core.results
    requires var p, p' := s.calls[c].phase, s'.calls[c].phase;
             || (Ended(p) && Ended(p') && p'.out == p.out && g' == None)
             || (InFlight(p) && InFlight(p') && Rank(p) >= 4 &&
                 (if p'.Abandoning? then g' == Some(p'.why) else g' == None))
             || (Rank(p) >= 6 && g' == None && (p'.Building? || p'.Refused?))
    requires Accounted(s, c, h, g)
    ensures Accounted(s', c, h, Either(g, g'))
  {
    hide Explains;
  }

  lemma OwnAccounted(s: State, step: Step, c: CallId, h: seq<BrokerResult>, g: Option<Failure>)
    requires Inv(s) && Enabled(s, step) && c in s.calls && Own(step, c) && !step.SendRegister?
    requires Accounted(s, c, h, g)
    ensures Accounted(Apply(s, step), c, h, Either(g, GaveUpIn(step, c)))
  {
    hide Inv, Explains;
    CallFacts(s, c);
    if step.Receive? {
      ReceiveAccounted(s, c, h, g);
    } else if step.SendUnregister? {
      LeaveAccounted(s, c, h, g);
    } else if step.BuildFails? {
      BuildFailsAccounted(s, c, h, g);
    } else {
      OnlyOwnSteps(s, step, c);
      RephaseAccounted(s, Apply(s, step), c, h, g, GaveUpIn(step, c));
    }
  }

  lemma EnterAccounted(s: State, c: CallId)
    requires c in s.calls && s.calls[c].phase.Building? && !HoldsEntry(s, c) && Accounted(s, c, [], None)
    ensures Accounted(SendEntered(s, c), c, if s.core.closed then [BrokerResult(None, Some(ClientClosed))] else [], None)
  {
  }

  lemma OthersAccounted(s: State, s': State, c: CallId, h: seq<BrokerResult>, g: Option<Failure>, news: Option<BrokerResult>)
    requires c in s.calls && c in s'.calls && s'.calls[c] == s.calls[c]
    requires CommandOk(s, c) && (HoldsEntry(s, c) ==> InFlight(s.calls[c].phase))
    requires Settled(s, s', c, news)
    requires news.Some? ==> news.value != ZERO_RESULT && InFlight(s.calls[c].phase)
    requires Accounted(s, c, h, g)
    ensures Accounted(s', c, h + Told(news), g)
  {
    hide ReturnedFor;
  }

  lemma NothingHeardYet(s: State, c: CallId, h: seq<BrokerResult>, g: Option<Failure>)
    requires Accounted(s, c, h, g) && (c in s.calls ==> s.calls[c].phase.Building?)
    ensures h == [] && g == None
  {
  }

  lemma RegisterAccounted(s: State, c: CallId, h: seq<BrokerResult>, g: Option<Failure>)
    requires Inv(s) && Enabled(s, SendRegister(c)) && Accounted(s, c, h, g)
    ensures g == None
    ensures Accounted(Apply(s, SendRegister(c)), c, h + HeardIn(s, SendRegister(c), c), None)
  {
    hide Inv, Accounted, SendEntered;
    CallFacts(s, c);
    NothingHeardYet(s, c, h, g);
    EnterAccounted(s, c);
    assert h + HeardIn(s, SendRegister(c), c) == HeardIn(s, SendRegister(c), c);
  }

  lemma StartAccounted(s: State, step: Step, c: CallId)
    requires Inv(s) && Enabled(s, step) && c !in s.calls
    ensures Accounted(Apply(s, step), c, [], None) && GaveUpIn(step, c) == None
  {
    assert CommandTable(s);
    hide Dispatched, Drained, Inv;
  }

  lemma StepAccounted(s: State, step: Step, c: CallId, h: seq<BrokerResult>, g: Option<Failure>)
    requires Inv(s) && Enabled(s, step) && !Panics(s, step)
    requires Accounted(s, c, h, g)
    ensures Accounted(Apply(s, step), c, h + HeardIn(s, step, c), Either(g, GaveUpIn(step, c)))
  {
    hide Inv, Accounted, Panics, NewsIn;
    if NewsIn(s, step, c).Some? {
      NewsIsReal(s, step, c);
    }
    if step == SendRegister(c) {
      RegisterAccounted(s, c, h, g);
    } else if c in s.calls && Own(step, c) {
      OwnAccounted(s, step, c, h, g);
      assert HeardIn(s, step, c) == [] && h + [] == h;
    } else if c in s.calls {
      CallFacts(s, c);
      OthersSettle(s, step, c);
      OnlyOwnSteps(s, step, c);
      hide Apply, Enabled, Settled, HoldsEntry, CommandOk;
      OthersAccounted(s, Apply(s, step), c, h, g, NewsIn(s, step, c));
    } else {
      NothingHeardYet(s, c, h, g);
      StartAccounted(s, step, c);
      assert h + HeardIn(s, step, c) == [];
    }
  }

  lemma {:induction false} RunAccounted(s: State, run: seq<Step>, c: CallId, h: seq<BrokerResult>, g: Option<Failure>)
    requires Clean(s, run) && Accounted(s, c, h, g)
    ensures Accounted(Exec(s, run), c, h + Heard(s, run, c), Either(g, GaveUp(run, c)))
    decreases |run|
  {
    hide Inv, Apply, Enabled, Panics, Accounted, HeardIn, GaveUpIn;
    if run == [] {
      assert h + Heard(s, run, c) == h;
    } else {
      Head(s, run);
      StepAccounted(s, run[0], c, h, g);
      RunAccounted(Apply(s, run[0]), run[1..], c, h + HeardIn(s, run[0], c), Either(g, GaveUpIn(run[0], c)));
      assert h + Heard(s, run, c) == h + HeardIn(s, run[0], c) + Heard(Apply(s, run[0]), run[1..], c);
    }
  }

  /** What send returns is settled by what happened in the run. A call that gave up returns
      the failure of the step in which it did. Any other returns the first thing it heard: a
      reply or a server error is the first decodable transmission with its identifier since it
      registered, and "closed" and "read failed" name the Close or the read error that closed
      the client before any such transmission came, or the closed client that it came to. A
      call that still holds its entry has heard nothing. */
  lemma FirstHeardIsReturned(version: uint16, run: seq<Step>, c: CallId)
    requires Valid(Init(version), run)
    requires var s := Exec(Init(version), run); s.core.fault == NoFault && c in s.calls
    ensures var s := Exec(Init(version), run);
            && (Ended(s.calls[c].phase) ==> Explains(s.calls[c].phase.out, Heard(Init(version), run, c), GaveUp(run, c)))
            && (s.calls[c].phase.Abandoning? ==> GaveUp(run, c) == Some(s.calls[c].phase.why))
            && (HoldsEntry(s, c) ==> Heard(Init(version), run, c) == [])
  {
    InitInv(version);
    hide Inv;
    RunAccounted(Init(version), run, c, [], None);
    assert [] + Heard(Init(version), run, c) == Heard(Init(version), run, c);
  }
}
