/** Exactly when Subscribe panics, and exactly when it blocks for good. */
module ClientPanics {
  import opened Bytes
  import opened Commands
  import opened ClientCore
  import opened ClientMachine
  import opened ClientInvariant
  import opened ClientSafety
  import opened ClientRuns
  import opened ClientSubscriptions

  // ---------------------------------------------------------------- subscribed no more

  /** A Subscribe that was refused or has failed, or a plain send. */
  predicate Gone(s: State, c: CallId) {
    c in s.calls && !s.calls[c].phase.Entering? && !Subscribed(s.calls[c])
  }

  lemma ClosingFails(s: State, c: CallId)
    requires Inv(s) && c in s.calls && s.calls[c].phase.Closing?
    ensures !Accepts(s.calls[c].phase.out)
  {
    assert SubscriptionOk(s, c);
  }

  lemma ClosingEnds(s: State, c: CallId)
    requires Enabled(s, CloseOwn(c))
    ensures s.calls[c].phase.Closing? && c in Apply(s, CloseOwn(c)).calls
    ensures Apply(s, CloseOwn(c)).calls[c] == s.calls[c].(phase := Done(s.calls[c].phase.out))
  {
  }

  lemma ClosedIsGone(s: State, c: CallId)
    requires Inv(s) && Enabled(s, CloseOwn(c))
    ensures Gone(Apply(s, CloseOwn(c)), c) && Rank(Apply(s, CloseOwn(c)).calls[c].phase) == 0
  {
    ClosingEnds(s, c);
    hide Inv, Apply;
    ClosingFails(s, c);
  }

  lemma GoneStep(s: State, step: Step, c: CallId)
    requires Inv(s) && Enabled(s, step) && Gone(s, c)
    ensures Gone(Apply(s, step), c)
  {
    hide Inv, Apply;
    OnlyOwnSteps(s, step, c);
    if Own(step, c) {
      OwnStepsDescend(s, step, c);
      if s.calls[c].key.Some? {
        assert step == CloseOwn(c);
        ClosedIsGone(s, c);
      }
    }
  }

  lemma {:induction false} GoneForGood(s: State, run: seq<Step>, c: CallId)
    requires Clean(s, run) && Gone(s, c)
    ensures Gone(Exec(s, run), c)
    decreases |run|
  {
    if run == [] {
    } else {
      hide Inv, Apply, Enabled, Panics, Gone;
      Head(s, run);
      GoneStep(s, run[0], c);
      GoneForGood(Apply(s, run[0]), run[1..], c);
    }
  }

  // ---------------------------------------------------------------- who closes an inbox

  /** Somewhere in the run, Close, a read error or an END found `c` registered. */
  ghost predicate WasShut(s: State, run: seq<Step>, c: CallId)
    requires Valid(s, run)
    decreases |run|
  {
    run != [] && (Shuts(s, run[0], c) || WasShut(Apply(s, run[0]), run[1..], c))
  }

  lemma StepShuts(s: State, step: Step, c: CallId)
    requires Inv(s) && Enabled(s, step) && step != CloseOwn(c)
    ensures InboxShut(Apply(s, step), c) <==> InboxShut(s, c) || Shuts(s, step, c)
  {
    hide Inv, Apply, HoldsKey, PushedTo;
    InboxFacts(s, c);
    if c in s.core.inboxes {
      InboxEffect(s, step, c);
      hide Enabled;
    } else if c in Apply(s, step).core.inboxes {
      NewInbox(s, step, c);
    }
  }

  /** The inbox of a call that has not failed is closed exactly if one of the three shut
      it. */
  lemma {:induction false} ShutIff(s: State, run: seq<Step>, c: CallId)
    requires Clean(s, run)
    requires var end := Exec(s, run); c in end.calls && (Rank(end.calls[c].phase) > 0 || Subscribed(end.calls[c]))
    ensures InboxShut(Exec(s, run), c) <==> InboxShut(s, c) || WasShut(s, run, c)
    decreases |run|
  {
    hide Inv, Apply, Panics, InboxShut, Shuts, Enabled;
    if run == [] {
    } else {
      var s' := Apply(s, run[0]);
      Head(s, run);
      if run[0] == CloseOwn(c) {
        ClosedIsGone(s, c);
        OwnStepsBounded(s', run[1..], c);
        GoneForGood(s', run[1..], c);
      }
      StepShuts(s, run[0], c);
      ShutIff(s', run[1..], c);
    }
  }

  lemma EmptyStart(version: uint16, c: CallId)
    ensures !InboxShut(Init(version), c)
  {
  }

  /** The inline push and the clean-up close of Subscribe panic exactly when, earlier in
      the run, Close, a read error or an END found the subscription registered. */
  lemma PanicExactly(version: uint16, run: seq<Step>, c: CallId, step: Step)
    requires Valid(Init(version), run) && Exec(Init(version), run).core.fault == NoFault
    requires Enabled(Exec(Init(version), run), step)
    requires step == CloseOwn(c) || PushesFirst(Exec(Init(version), run), step, c)
    ensures Apply(Exec(Init(version), run), step).core.fault == CallerPanic <==> WasShut(Init(version), run, c)
  {
    var s := Exec(Init(version), run);
    InitInv(version);
    Reachable(version, run);
    assert c in s.calls && Rank(s.calls[c].phase) > 0;
    hide Inv, Valid, Exec, WasShut, InboxShut;
    assert !InboxShut(Init(version), c) by {
      EmptyStart(version, c);
    }
    ShutIff(Init(version), run, c);
    StepKeepsInv(s, step);
    hide Apply;
  }

  // ---------------------------------------------------------------- failed calls

  /** A Subscribe that returned an error left its inbox closed, unregistered, and itself
      without a table entry. */
  lemma FailedSubscribeIsCleanedUp(version: uint16, run: seq<Step>, c: CallId)
    requires Valid(Init(version), run)
    requires var s := Exec(Init(version), run);
             && s.core.fault == NoFault && c in s.calls && s.calls[c].key.Some?
             && s.calls[c].phase.Done? && !Accepts(s.calls[c].phase.out)
    ensures var s := Exec(Init(version), run);
            && InboxShut(s, c) && !HoldsEntry(s, c)
            && forall key <- s.core.subs :: s.core.subs[key] != c
  {
    var s := Exec(Init(version), run);
    Reachable(version, run);
    hide Valid, Exec;
    assert SubscriptionOk(s, c);
  }

  // ---------------------------------------------------------------- about to panic

  lemma DoomedStep(s: State, step: Step, d: CallId, key: Key)
    requires Inv(s) && Enabled(s, step) && !Panics(s, step) && DoomedOn(s, d, key)
    ensures DoomedOn(Apply(s, step), d, key)
  {
    OnlyOwnSteps(s, step, d);
    StepShuts(s, step, d);
    assert !Own(step, d);
    hide Inv, Apply;
  }

  /** A doomed Subscribe takes no further step but the one that panics. */
  lemma {:induction false} DoomLasts(s: State, run: seq<Step>, d: CallId, key: Key)
    requires Clean(s, run) && DoomedOn(s, d, key)
    ensures DoomedOn(Exec(s, run), d, key)
    ensures Enabled(Exec(s, run), CloseOwn(d)) && Apply(Exec(s, run), CloseOwn(d)).core.fault == CallerPanic
    decreases |run|
  {
    if run == [] {
      hide Inv;
    } else {
      hide Inv, Apply, Enabled, Panics, DoomedOn;
      Head(s, run);
      DoomedStep(s, run[0], d, key);
      DoomLasts(Apply(s, run[0]), run[1..], d, key);
    }
  }

  // ---------------------------------------------------------------- the blocked push

  predicate Blocked(s: State, c: CallId, out: SendOutcome) {
    && c in s.calls && s.calls[c].phase == Handling(out) && Pushes(out)
    && c in s.core.inboxes && |s.core.inboxes[c].buf| == INBOX_CAPACITY
  }

  lemma BlockedStep(s: State, step: Step, c: CallId, out: SendOutcome)
    requires Inv(s) && Enabled(s, step) && !Panics(s, step) && Blocked(s, c, out)
    ensures Blocked(Apply(s, step), c, out)
  {
    InboxFacts(s, c);
    OnlyOwnSteps(s, step, c);
    InboxEffect(s, step, c);
    assert !Own(step, c) && step != Consume(c);
    hide Inv, Apply, Shuts, PushedTo;
  }

  /** A Subscribe that has to push its first message into a full inbox never returns:
      nobody else can receive from that inbox yet. */
  lemma {:induction false} BlockedForGood(s: State, run: seq<Step>, c: CallId, out: SendOutcome)
    requires Clean(s, run) && Blocked(s, c, out)
    ensures Blocked(Exec(s, run), c, out)
    decreases |run|
  {
    if run == [] {
    } else {
      hide Inv, Apply, Enabled, Panics, Blocked;
      Head(s, run);
      BlockedStep(s, run[0], c, out);
      BlockedForGood(Apply(s, run[0]), run[1..], c, out);
    }
  }

  // ---------------------------------------------------------------- when the push blocks

  predicate AllPushes(events: seq<Event>) {
    forall e <- events :: e.Push?
  }

  /** A queue that nobody takes from has as many messages as were pushed, up to 32. */
  lemma {:induction false} PushesFill(buf: seq<Message>, events: seq<Event>)
    requires AllPushes(events) && |buf| <= 32
    ensures Replay(buf, events).Some?
    ensures |Replay(buf, events).value| == if |buf| + |events| < 32 then |buf| + |events| else 32
    decreases |events|
  {
    if events == [] {
    } else {
      assert events[0].Push?;
      PushesFill(if |buf| < 32 then buf + [events[0].m] else buf, events[1..]);
    }
  }

  /** Receives and the inline message come after Subscribe has handled its response. */
  lemma OnlyPushesBefore(s: State, step: Step, c: CallId)
    requires Enabled(s, step)
    ensures AllPushes(EventsIn(s, step, c)) || (c in Apply(s, step).calls && Rank(Apply(s, step).calls[c].phase) == 0)
  {
    hide DecodeBroker, Dispatched, Drained;
    if step == Consume(c) {
      OnlyOwnSteps(s, step, c);
    }
  }

  lemma {:induction false} UnfinishedTrace(s: State, run: seq<Step>, c: CallId)
    requires Valid(s, run)
    requires var end := Exec(s, run); c in end.calls && Rank(end.calls[c].phase) > 0
    ensures AllPushes(Trace(s, run, c))
    decreases |run|
  {
    hide Apply, Enabled, EventsIn, Rank;
    if run == [] {
    } else {
      var s' := Apply(s, run[0]);
      OnlyPushesBefore(s, run[0], c);
      if c in s'.calls {
        OwnStepsBounded(s', run[1..], c);
      }
      UnfinishedTrace(s', run[1..], c);
    }
  }

  lemma PushStep(s: State, c: CallId, out: SendOutcome)
    requires Inv(s) && c in s.calls && s.calls[c].phase == Handling(out) && Pushes(out)
    ensures Blocked(s, c, out) <==> |InboxBuf(s, c)| == 32
    ensures Enabled(s, Handle(c)) <==> InboxShut(s, c) || !Blocked(s, c, out)
    ensures !InboxShut(s, c) && !Blocked(s, c, out) ==>
              var s' := Apply(s, Handle(c));
              && s'.core.fault == NoFault && c in s'.calls && s'.calls[c].phase == Done(out)
              && InboxBuf(s', c) == InboxBuf(s, c) + [out.msg.value.msg]
  {
    InboxFacts(s, c);
    InvMeansNoFault(s);
    assert SubscriptionOk(s, c);
    hide Inv;
  }

  /** Subscribe's push of its first message, in any run of a new client, meets one of three
      fates, told apart by what happened before. If Close, a read error or an END shut the
      inbox it panics (PanicExactly). Otherwise it waits, and then for good
      (BlockedForGood), exactly if at least 32 pushes were dispatched to the inbox. In all
      other cases it puts the message last and Subscribe returns. */
  lemma BlocksExactly(version: uint16, run: seq<Step>, c: CallId, out: SendOutcome)
    requires Valid(Init(version), run)
    requires var s := Exec(Init(version), run);
             s.core.fault == NoFault && c in s.calls && s.calls[c].phase == Handling(out) && Pushes(out)
    ensures AllPushes(Trace(Init(version), run, c))
    ensures var s := Exec(Init(version), run);
            var shut, pushes := WasShut(Init(version), run, c), |Trace(Init(version), run, c)|;
            && (Blocked(s, c, out) <==> pushes >= 32)
            && (Enabled(s, Handle(c)) <==> shut || pushes < 32)
            && (!shut && pushes < 32 ==>
                  var s' := Apply(s, Handle(c));
                  && s'.core.fault == NoFault && c in s'.calls && s'.calls[c].phase == Done(out)
                  && InboxBuf(s', c) == InboxBuf(s, c) + [out.msg.value.msg])
  {
    var s := Exec(Init(version), run);
    InitInv(version);
    Reachable(version, run);
    UnfinishedTrace(Init(version), run, c);
    EmptyStart(version, c);
    hide Inv, Valid, Exec, WasShut, InboxShut, Trace, AllPushes, Enabled, Apply, Replay, Blocked;
    InboxIsQueue(Init(version), run, c);
    PushesFill([], Trace(Init(version), run, c));
    ShutIff(Init(version), run, c);
    PushStep(s, c, out);
  }
}
