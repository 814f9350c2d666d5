/** Runs of the client machine: what holds in every reachable state, and what closing the
    client does for good. */
module ClientRuns {
  import opened Bytes
  import opened Protocol
  import opened Commands
  import opened ClientCore
  import opened ClientMachine
  import opened ClientInvariant
  import opened ClientSafety

  ghost predicate Valid(s: State, run: seq<Step>)
    decreases |run|
  {
    run == [] || (Enabled(s, run[0]) && Valid(Apply(s, run[0]), run[1..]))
  }

  ghost function Exec(s: State, run: seq<Step>): State
    requires Valid(s, run)
    decreases |run|
  {
    if run == [] then s else Exec(Apply(s, run[0]), run[1..])
  }

  /** A run that ends without a fault, from a state that satisfies the invariant. */
  ghost predicate Clean(s: State, run: seq<Step>) {
    Inv(s) && Valid(s, run) && Exec(s, run).core.fault == NoFault
  }

  lemma InvMeansNoFault(s: State)
    requires Inv(s)
    ensures s.core.fault == NoFault
  {
  }

  lemma FaultEnds(s: State, run: seq<Step>)
    requires Valid(s, run) && s.core.fault != NoFault
    ensures run == []
  {
  }

  /** Up to the first panic of a caller, every run keeps the invariant; and there is no
      other fault: no step closes a closed channel, sends to one or blocks under the lock. */
  lemma {:induction false} RunKeepsInv(s: State, run: seq<Step>)
    requires Inv(s) && Valid(s, run)
    ensures Exec(s, run).core.fault == NoFault ==> Inv(Exec(s, run))
    ensures Exec(s, run).core.fault != LockedFault
    decreases |run|
  {
    hide Inv, Apply, Panics, Enabled;
    if run == [] {
      InvMeansNoFault(s);
    } else {
      StepKeepsInv(s, run[0]);
      if Panics(s, run[0]) {
        FaultEnds(Apply(s, run[0]), run[1..]);
      } else {
        RunKeepsInv(Apply(s, run[0]), run[1..]);
      }
    }
  }

  /** The first step of a clean run leaves a clean run. */
  lemma Head(s: State, run: seq<Step>)
    requires Clean(s, run) && run != []
    ensures Enabled(s, run[0]) && !Panics(s, run[0])
    ensures Clean(Apply(s, run[0]), run[1..]) && Exec(s, run) == Exec(Apply(s, run[0]), run[1..])
  {
    hide Inv, Apply, Panics, Enabled;
    StepKeepsInv(s, run[0]);
    if Panics(s, run[0]) {
      FaultEnds(Apply(s, run[0]), run[1..]);
      assert Exec(s, run) == Apply(s, run[0]);
    }
  }

  /** In every state reachable from a new client, before the first panic of a caller. */
  lemma Reachable(version: uint16, run: seq<Step>)
    requires Valid(Init(version), run)
    ensures var s := Exec(Init(version), run); s.core.fault == CallerPanic || Inv(s)
  {
    hide Inv;
    InitInv(version);
    RunKeepsInv(Init(version), run);
  }

  /** A caller that waits owns its table entry and an empty open channel, or its channel is
      closed and holds one result; what it receives is never the zero value. */
  lemma NoOrphans(version: uint16, run: seq<Step>, c: CallId)
    requires Valid(Init(version), run)
    requires var s := Exec(Init(version), run); s.core.fault == NoFault && c in s.calls && s.calls[c].phase.Waiting?
    ensures var s := Exec(Init(version), run);
            && c in s.core.results
            && (HoldsEntry(s, c) <==> s.core.results[c] == Chan(1, [], false))
            && (!HoldsEntry(s, c) <==> HasResult(s, c))
            && (Enabled(s, Receive(c)) <==> HasResult(s, c))
  {
    var s := Exec(Init(version), run);
    Reachable(version, run);
    hide Valid, Exec;
    assert CommandOk(s, c);
  }

  /** Every registered inbox is open, holds at most 32 messages and has one key. */
  lemma RegisteredInboxes(version: uint16, run: seq<Step>)
    requires Valid(Init(version), run) && Exec(Init(version), run).core.fault == NoFault
    ensures var core := Exec(Init(version), run).core;
            && SubsSafe(core.subs, core.inboxes)
            && forall key <- core.subs :: |core.inboxes[core.subs[key]].buf| <= 32
  {
    var s := Exec(Init(version), run);
    Reachable(version, run);
    hide Valid, Exec;
    TablesCanBeDrained(s);
  }

  /** What the invariant says of one call. */
  lemma CallFacts(s: State, c: CallId)
    requires Inv(s) && c in s.calls
    ensures CommandOk(s, c) && s.calls[c].cid != NO_CORR_ID
    ensures HoldsEntry(s, c) ==> InFlight(s.calls[c].phase) && c in s.core.results && s.core.results[c] == Chan(1, [], false)
  {
  }

  // ---------------------------------------------------------------- composing runs

  lemma FirstStep(s: State, step: Step, rest: seq<Step>)
    requires Enabled(s, step) && Valid(Apply(s, step), rest)
    ensures Valid(s, [step] + rest) && Exec(s, [step] + rest) == Exec(Apply(s, step), rest)
  {
    hide Enabled, Apply;
    assert ([step] + rest)[1..] == rest;
  }

  lemma {:induction false} LastStep(s: State, run: seq<Step>, step: Step)
    requires Valid(s, run) && Enabled(Exec(s, run), step)
    ensures Valid(s, run + [step]) && Exec(s, run + [step]) == Apply(Exec(s, run), step)
    decreases |run|
  {
    hide Enabled, Apply;
    if run == [] {
      assert run + [step] == [step] + [];
      FirstStep(s, step, []);
    } else {
      LastStep(Apply(s, run[0]), run[1..], step);
      assert run + [step] == [run[0]] + (run[1..] + [step]);
      FirstStep(s, run[0], run[1..] + [step]);
    }
  }

  lemma {:induction false} Joined(s: State, run: seq<Step>, more: seq<Step>)
    requires Valid(s, run) && Valid(Exec(s, run), more)
    ensures Valid(s, run + more) && Exec(s, run + more) == Exec(Exec(s, run), more)
    decreases |run|
  {
    hide Enabled, Apply;
    if run == [] {
      assert run + more == more;
    } else {
      Joined(Apply(s, run[0]), run[1..], more);
      assert run + more == [run[0]] + (run[1..] + more);
      FirstStep(s, run[0], run[1..] + more);
    }
  }

  function Times(step: Step, n: nat): (run: seq<Step>)
    ensures |run| == n
  {
    if n == 0 then [] else [step] + Times(step, n - 1)
  }

  // ---------------------------------------------------------------- whose step

  /** The steps a call takes itself, besides starting and draining its inbox. */
  predicate Own(step: Step, c: CallId) {
    match step
    case SubRegister(d) => c == d
    case BuildFails(d) => c == d
    case SendRegister(d) => c == d
    case Write(d, _) => c == d
    case Receive(d) => c == d
    case Cancel(d) => c == d
    case SendUnregister(d) => c == d
    case Handle(d) => c == d
    case CloseOwn(d) => c == d
    case _ => false
  }

  lemma OnlyOwnSteps(s: State, step: Step, c: CallId)
    requires Enabled(s, step) && c in s.calls
    ensures c in Apply(s, step).calls
    ensures Apply(s, step).calls[c] == s.calls[c].(phase := Apply(s, step).calls[c].phase)
    ensures !Own(step, c) ==> Apply(s, step).calls[c] == s.calls[c]
  {
    hide Dispatched, Drained;
  }

  function Rank(p: Phase): nat {
    match p
    case Entering => 7
    case Building => 6
    case Writing => 5
    case Waiting => 4
    case Abandoning(_) => 3
    case Handling(_) => 2
    case Closing(_) => 1
    case Done(_) => 0
    case Refused(_) => 0
  }

  lemma OwnStepsDescend(s: State, step: Step, c: CallId)
    requires Enabled(s, step) && c in s.calls && Own(step, c)
    ensures c in Apply(s, step).calls && Rank(Apply(s, step).calls[c].phase) < Rank(s.calls[c].phase)
  {
  }

  function OwnSteps(run: seq<Step>, c: CallId): nat {
    if run == [] then 0 else (if Own(run[0], c) then 1 else 0) + OwnSteps(run[1..], c)
  }

  /** A call takes at most as many steps of its own as its rank, in any run. */
  lemma {:induction false} OwnStepsBounded(s: State, run: seq<Step>, c: CallId)
    requires Valid(s, run) && c in s.calls
    ensures c in Exec(s, run).calls
    ensures OwnSteps(run, c) + Rank(Exec(s, run).calls[c].phase) <= Rank(s.calls[c].phase)
    decreases |run|
  {
    hide Apply, Enabled, Own, Rank;
    if run == [] {
    } else {
      var s' := Apply(s, run[0]);
      OnlyOwnSteps(s, run[0], c);
      if Own(run[0], c) {
        OwnStepsDescend(s, run[0], c);
      }
      OwnStepsBounded(s', run[1..], c);
    }
  }

  // ---------------------------------------------------------------- closed

  /** After Close or a read error, dispatch changes nothing. */
  lemma ClosedIgnoresDispatch(s: State, t: Transmission)
    requires Inv(s) && s.core.closed
    ensures Dispatched(s.version, s.core, t) == s.core
  {
    hide DecodeBroker;
  }

  lemma ClosedStep(s: State, step: Step)
    requires Inv(s) && Enabled(s, step) && s.core.closed
    ensures Apply(s, step).core.closed
  {
    hide Dispatched;
    if step.DispatchNext? {
      ClosedIgnoresDispatch(s, s.reader.pending[0]);
    }
  }

  /** Close and the read error, whichever comes first. */
  predicate Closes(step: Step) {
    step.CloseClient? || step.ReadFails?
  }

  lemma StepCloses(s: State, step: Step)
    requires Enabled(s, step)
    ensures Apply(s, step).core.closed <==> s.core.closed || Closes(step)
  {
    hide DecodeBroker, DrainSafe, SomeAnswered, SomeClosed;
  }

  lemma {:induction false} ClosedOverRun(s: State, run: seq<Step>)
    requires Valid(s, run)
    ensures Exec(s, run).core.closed <==> s.core.closed || exists step <- run :: Closes(step)
    decreases |run|
  {
    hide Apply, Enabled, Closes;
    if run == [] {
    } else {
      StepCloses(s, run[0]);
      ClosedOverRun(Apply(s, run[0]), run[1..]);
      assert run == [run[0]] + run[1..];
    }
  }

  /** A client is closed exactly if Close was called or a read failed, with or without
      faults: neither dispatch nor any clean-up of a call closes it, and nothing opens it
      again. */
  lemma ClosedExactly(version: uint16, run: seq<Step>)
    requires Valid(Init(version), run)
    ensures Exec(Init(version), run).core.closed <==> exists step <- run :: step.CloseClient? || step.ReadFails?
  {
    hide Exec, Valid;
    ClosedOverRun(Init(version), run);
    assert (exists step <- run :: Closes(step)) <==> exists step <- run :: step.CloseClient? || step.ReadFails?;
  }

  function Opens(closed: bool): nat {
    if closed then 0 else 1
  }

  ghost function Flips(s: State, run: seq<Step>): nat
    requires Valid(s, run)
    decreases |run|
  {
    if run == [] then 0
    else (if s.core.closed != Apply(s, run[0]).core.closed then 1 else 0) + Flips(Apply(s, run[0]), run[1..])
  }

  /** `closed` changes at most once over a run, from false to true; from then on both
      tables are empty. */
  lemma {:induction false} ClosesOnce(s: State, run: seq<Step>)
    requires Clean(s, run)
    ensures Flips(s, run) + Opens(Exec(s, run).core.closed) == Opens(s.core.closed)
    ensures Exec(s, run).core.closed ==> Exec(s, run).core.sentCmds == map[] && Exec(s, run).core.subs == map[]
    decreases |run|
  {
    if run == [] {
    } else {
      hide Inv, Apply, Enabled, Panics;
      Head(s, run);
      if s.core.closed {
        ClosedStep(s, run[0]);
      }
      ClosesOnce(Apply(s, run[0]), run[1..]);
    }
  }

  /** The step a call that is not finished takes next on a closed client. */
  function NextStep(c: CallId, p: Phase): Step
    requires Rank(p) > 0
  {
    match p
    case Entering => SubRegister(c)
    case Building => SendRegister(c)
    case Writing => Write(c, true)
    case Waiting => Receive(c)
    case Abandoning(_) => SendUnregister(c)
    case Handling(_) => Handle(c)
    case Closing(_) => CloseOwn(c)
  }

  /** Subscribe wants to push the first message into an open inbox that is full. */
  predicate StuckPush(s: State, c: CallId) {
    && c in s.calls && s.calls[c].phase.Handling? && Pushes(s.calls[c].phase.out)
    && c in s.core.inboxes && !s.core.inboxes[c].closed && |s.core.inboxes[c].buf| == INBOX_CAPACITY
  }

  /** On a closed client a waiting call has its result, and every inbox is there. */
  lemma ClosedWaits(s: State, c: CallId)
    requires Inv(s) && s.core.closed && c in s.calls
    ensures s.core.fault == NoFault
    ensures s.calls[c].phase.Waiting? ==> CanReceive(s, c)
    ensures s.calls[c].phase.Entering? || s.calls[c].phase.Handling? || s.calls[c].phase.Closing? ==>
              && s.calls[c].key.Some? && c in s.core.inboxes
              && s.core.inboxes[c].cap == INBOX_CAPACITY && |s.core.inboxes[c].buf| <= INBOX_CAPACITY
  {
    CallFacts(s, c);
    assert SubscriptionOk(s, c);
  }

  /** On a closed client no call has to wait for anyone: its next step is enabled, and
      brings it closer to its end. The one exception is the push to a full inbox. */
  lemma ClosedFinishes(s: State, c: CallId)
    requires Inv(s) && s.core.closed && c in s.calls && Rank(s.calls[c].phase) > 0
    ensures var step := NextStep(c, s.calls[c].phase);
            && Own(step, c)
            && (Enabled(s, step) <==> !StuckPush(s, c))
            && (Enabled(s, step) ==> c in Apply(s, step).calls && Rank(Apply(s, step).calls[c].phase) < Rank(s.calls[c].phase))
  {
    var step := NextStep(c, s.calls[c].phase);
    ClosedWaits(s, c);
    hide Inv;
    if Enabled(s, step) {
      OwnStepsDescend(s, step, c);
    }
  }

  // ---------------------------------------------------------------- nobody waits for ever

  /** The inbox that a Subscribe has at every point of it. */
  lemma OwnInbox(s: State, c: CallId)
    requires Inv(s) && c in s.calls
    ensures s.core.fault == NoFault
    ensures s.calls[c].phase.Entering? || s.calls[c].phase.Handling? || s.calls[c].phase.Closing? ==> s.calls[c].key.Some?
    ensures s.calls[c].key.Some? ==>
              c in s.core.inboxes && s.core.inboxes[c].cap == INBOX_CAPACITY && |s.core.inboxes[c].buf| <= INBOX_CAPACITY
  {
    assert SubscriptionOk(s, c);
  }

  lemma HasStep(s: State, c: CallId) returns (step: Step)
    requires Inv(s) && c in s.calls && Rank(s.calls[c].phase) > 0 && !StuckPush(s, c)
    ensures Own(step, c) && Enabled(s, step)
  {
    hide Inv;
    OwnInbox(s, c);
    step := if s.calls[c].phase.Waiting? then Cancel(c) else NextStep(c, s.calls[c].phase);
  }

  lemma StuckHasNoStep(s: State, step: Step, c: CallId)
    requires c in s.calls && Own(step, c) && Enabled(s, step)
    requires c in s.core.inboxes ==> s.core.inboxes[c].cap == INBOX_CAPACITY
    ensures !StuckPush(s, c)
  {
  }

  lemma InboxCapacity(s: State, c: CallId)
    requires Inv(s)
    ensures c in s.core.inboxes ==> s.core.inboxes[c].cap == INBOX_CAPACITY
  {
  }

  /** In every reachable state a call that is not finished has a step of its own to take,
      though it may be to give up waiting; the one exception is the push to a full inbox. */
  lemma NeverStuck(version: uint16, run: seq<Step>, c: CallId)
    requires Valid(Init(version), run)
    requires var s := Exec(Init(version), run); s.core.fault == NoFault && c in s.calls
    ensures var s := Exec(Init(version), run);
            (exists step :: Own(step, c) && Enabled(s, step)) <==> Rank(s.calls[c].phase) > 0 && !StuckPush(s, c)
  {
    var s := Exec(Init(version), run);
    Reachable(version, run);
    InboxCapacity(s, c);
    hide Valid, Exec, Inv, Enabled, StuckPush, Own;
    if exists step :: Own(step, c) && Enabled(s, step) {
      var step :| Own(step, c) && Enabled(s, step);
      OwnStepsDescend(s, step, c);
      StuckHasNoStep(s, step, c);
    }
    if Rank(s.calls[c].phase) > 0 && !StuckPush(s, c) {
      var step := HasStep(s, c);
    }
  }

  lemma PendingStep(s: State, step: Step)
    requires Enabled(s, step) && s.reader != Dispatching([])
    ensures Apply(s, step).reader != Dispatching([])
  {
    hide Dispatched, Drained;
  }

  lemma {:induction false} PendingNeverEmpty(s: State, run: seq<Step>)
    requires Valid(s, run) && s.reader != Dispatching([])
    ensures Exec(s, run).reader != Dispatching([])
    decreases |run|
  {
    if run == [] {
    } else {
      PendingStep(s, run[0]);
      hide Apply, Enabled;
      PendingNeverEmpty(Apply(s, run[0]), run[1..]);
    }
  }

  /** Nor does the reader ever wait for a caller or a consumer: it can dispatch what it has
      read, and then read anything. */
  lemma ReaderGoesOn(version: uint16, run: seq<Step>)
    requires Valid(Init(version), run) && Exec(Init(version), run).core.fault == NoFault
    ensures var s := Exec(Init(version), run);
            && Enabled(s, CloseClient)
            && match s.reader
               case Reading => Enabled(s, ReadFails) && forall ts :: Enabled(s, ReadBlock(ts))
               case Dispatching(_) => Enabled(s, DispatchNext)
               case Exited => true
  {
    PendingNeverEmpty(Init(version), run);
  }
}
