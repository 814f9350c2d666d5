/** How long a subscription stays registered: exactly until its inbox is shut or another
    Subscribe's clean-up takes its key. */
module ClientRegistration {
  import opened Bytes
  import opened Protocol
  import opened Commands
  import opened ClientCore
  import opened ClientMachine
  import opened ClientInvariant
  import opened ClientSafety
  import opened ClientRuns
  import opened ClientSubscriptions
  import opened ClientPanics

  /** The clean-up of another Subscribe deletes the key that `c` holds. */
  predicate Evicts(s: State, step: Step, c: CallId)
    requires Enabled(s, step)
  {
    && step.Handle? && step.c != c && !Accepts(s.calls[step.c].phase.out)
    && HoldsKey(s, c) && s.calls[c].key == s.calls[step.c].key
  }

  /** Somewhere in the run, the clean-up of another Subscribe took the key of `c`. */
  ghost predicate WasEvicted(s: State, run: seq<Step>, c: CallId)
    requires Valid(s, run)
    decreases |run|
  {
    run != [] && (Evicts(s, run[0], c) || WasEvicted(Apply(s, run[0]), run[1..], c))
  }

  /** A call that may still register its key. */
  predicate Before(s: State, c: CallId) {
    c !in s.calls || s.calls[c].phase.Entering?
  }

  predicate IsSubscribed(s: State, c: CallId) {
    c in s.calls && Subscribed(s.calls[c])
  }

  /** What the invariant says of a call and a key. */
  lemma KeyFacts(s: State, c: CallId)
    requires Inv(s)
    ensures HoldsKey(s, c) ==> IsSubscribed(s, c)
    ensures c in s.calls && s.calls[c].key.Some? && s.calls[c].key.value in s.core.subs ==>
              var d := s.core.subs[s.calls[c].key.value]; HoldsKey(s, d) && s.calls[d].key == s.calls[c].key
  {
  }

  // ---------------------------------------------------------------- one step, seen from a key

  lemma DrainedKey(s: State, s': State, c: CallId, why: Failure)
    requires Inv(s) && s'.core == Drained(s.core, why)
    ensures !HoldsKey(s', c)
  {
    TablesCanBeDrained(s);
    hide DrainSafe;
  }

  lemma DispatchedKey(s: State, s': State, c: CallId, t: Transmission, push: Option<BrokerMsg>)
    requires Inv(s) && s'.core == Dispatched(s.version, s.core, t) && s'.calls == s.calls
    requires push == if t.corrID != NO_CORR_ID || t.entityID !in s.core.subs || s.core.subs[t.entityID] != c then None
                     else match DecodeBroker(s.version, t.command)
                          case Ok(msg) => Some(msg)
                          case Err(_) => None
    ensures HoldsKey(s', c) <==> HoldsKey(s, c) && push != Some(END)
  {
    hide Inv, DecodeBroker;
    InboxFacts(s, c);
    if t.entityID in s.core.subs {
      InboxFacts(s, s.core.subs[t.entityID]);
    }
  }

  lemma ReaderKey(s: State, step: Step, c: CallId)
    requires Inv(s) && Enabled(s, step)
    requires step.DispatchNext? || step.CloseClient? || step.ReadFails?
    ensures HoldsKey(Apply(s, step), c) <==> HoldsKey(s, c) && !Shuts(s, step, c)
  {
    hide Inv, Dispatched, Drained, DecodeBroker, HoldsKey;
    if step.CloseClient? {
      DrainedKey(s, Apply(s, step), c, ClientClosed);
    } else if step.ReadFails? {
      DrainedKey(s, Apply(s, step), c, ReadFailed);
    } else {
      DispatchedKey(s, Apply(s, step), c, s.reader.pending[0], PushedTo(s, step, c));
    }
  }

  lemma EnteredKey(s: State, d: CallId, c: CallId)
    requires d in s.calls && s.calls[d].key.Some?
    requires c == d ==> !HoldsKey(s, c)
    ensures HoldsKey(SubEntered(s, d), c)
       <==> HoldsKey(s, c) || (c == d && SubscribeRefusal(s.core, s.calls[d].key.value) == None)
  {
  }

  lemma HandledKey(s: State, d: CallId, c: CallId)
    requires d in s.calls && CanHandle(s, d)
    ensures HoldsKey(Handled(s, d), c)
       <==> HoldsKey(s, c) && (Accepts(s.calls[d].phase.out) || s.calls[c].key != s.calls[d].key)
  {
  }

  lemma SameKey(s: State, s': State, c: CallId)
    requires c in s.calls && c in s'.calls && s'.calls[c].key == s.calls[c].key && s'.core.subs == s.core.subs
    ensures HoldsKey(s', c) <==> HoldsKey(s, c)
  {
  }

  lemma KeyUntouched(s: State, step: Step, c: CallId)
    requires Enabled(s, step) && c in s.calls
    requires !step.DispatchNext? && !step.CloseClient? && !step.ReadFails? && !step.SubRegister? && !step.Handle?
    ensures HoldsKey(Apply(s, step), c) <==> HoldsKey(s, c)
  {
    OnlyOwnSteps(s, step, c);
    hide HoldsKey;
    assert Apply(s, step).core.subs == s.core.subs;
    SameKey(s, Apply(s, step), c);
  }

  /** Registering, and giving the key up in its own clean-up. */
  predicate Takes(s: State, step: Step, c: CallId)
    requires Enabled(s, step)
  {
    step == SubRegister(c) && SubscribeRefusal(s.core, s.calls[c].key.value) == None
  }

  predicate GivesUp(s: State, step: Step, c: CallId)
    requires Enabled(s, step)
  {
    step == Handle(c) && !Accepts(s.calls[c].phase.out)
  }

  /** What any step does to the registration of any call. */
  lemma KeyEffect(s: State, step: Step, c: CallId)
    requires Inv(s) && Enabled(s, step) && c in s.calls
    ensures HoldsKey(Apply(s, step), c)
       <==> || (HoldsKey(s, c) && !Shuts(s, step, c) && !Evicts(s, step, c) && !GivesUp(s, step, c))
            || Takes(s, step, c)
  {
    hide Inv, HoldsKey, DecodeBroker;
    KeyFacts(s, c);
    if step.DispatchNext? || step.CloseClient? || step.ReadFails? {
      hide Apply;
      ReaderKey(s, step, c);
    } else if step.SubRegister? {
      EnteredKey(s, step.c, c);
    } else if step.Handle? {
      HandledKey(s, step.c, c);
    } else {
      hide Apply;
      KeyUntouched(s, step, c);
    }
  }

  // ---------------------------------------------------------------- over a run

  /** Past its critical section and without its key. */
  predicate Unregistered(s: State, c: CallId) {
    !Before(s, c) && !HoldsKey(s, c)
  }

  lemma StaysUnregistered(s: State, step: Step, c: CallId)
    requires Inv(s) && Enabled(s, step) && Unregistered(s, c)
    ensures Unregistered(Apply(s, step), c)
    ensures !Shuts(s, step, c) && !Evicts(s, step, c) && !PushedTo(s, step, c).Some?
  {
    hide Inv, Apply, HoldsKey;
    KeyEffect(s, step, c);
    InboxFacts(s, c);
    OnlyOwnSteps(s, step, c);
    if Own(step, c) {
      OwnStepsDescend(s, step, c);
    }
    hide Enabled, PushedTo;
  }

  lemma LosesKey(s: State, step: Step, c: CallId)
    requires Inv(s) && Enabled(s, step) && (Shuts(s, step, c) || Evicts(s, step, c))
    ensures Unregistered(Apply(s, step), c)
  {
    hide Inv, Apply, HoldsKey;
    KeyFacts(s, c);
    KeyEffect(s, step, c);
    OnlyOwnSteps(s, step, c);
    if Own(step, c) {
      OwnStepsDescend(s, step, c);
    }
    hide Enabled, PushedTo;
  }

  predicate NoPushes(events: seq<Event>) {
    forall e <- events :: !e.Push?
  }

  lemma NoPushIn(s: State, step: Step, c: CallId)
    requires Enabled(s, step) && PushedTo(s, step, c) == None
    ensures NoPushes(EventsIn(s, step, c))
  {
    hide PushedTo, Enabled;
  }

  /** A key that was lost is never regained, and the server's pushes no longer arrive. */
  lemma {:induction false} LostForGood(s: State, run: seq<Step>, c: CallId)
    requires Clean(s, run) && Unregistered(s, c)
    ensures Unregistered(Exec(s, run), c) && NoPushes(Trace(s, run, c))
    ensures !WasShut(s, run, c) && !WasEvicted(s, run, c)
    decreases |run|
  {
    if run == [] {
    } else {
      hide Inv, Apply, Enabled, Panics, Unregistered, EventsIn, Shuts, Evicts, PushedTo;
      Head(s, run);
      StaysUnregistered(s, run[0], c);
      NoPushIn(s, run[0], c);
      LostForGood(Apply(s, run[0]), run[1..], c);
    }
  }

  predicate MayHold(s: State, c: CallId) {
    Before(s, c) || HoldsKey(s, c)
  }

  lemma CallMayHold(s: State, step: Step, c: CallId)
    requires Enabled(s, step) && c in s.calls && MayHold(s, c) && (HoldsKey(s, c) ==> !Before(s, c))
    requires HoldsKey(Apply(s, step), c)
        <==> || (HoldsKey(s, c) && !Shuts(s, step, c) && !Evicts(s, step, c) && !GivesUp(s, step, c))
             || Takes(s, step, c)
    ensures Gone(Apply(s, step), c) || (MayHold(Apply(s, step), c) <==> !Shuts(s, step, c) && !Evicts(s, step, c))
  {
    OnlyOwnSteps(s, step, c);
    hide HoldsKey, PushedTo, Shuts, Evicts;
    if step == SubRegister(c) || step == Handle(c) {
      assert !Takes(s, step, c) && step.SubRegister? ==> Apply(s, step).calls[c].phase.Refused?;
      assert GivesUp(s, step, c) ==> Apply(s, step).calls[c].phase.Closing?;
    } else {
      hide Enabled;
    }
  }

  lemma StartMayHold(s: State, step: Step, c: CallId)
    requires Inv(s) && Enabled(s, step) && c !in s.calls
    ensures MayHold(Apply(s, step), c) || Gone(Apply(s, step), c)
    ensures !Shuts(s, step, c) && !Evicts(s, step, c)
  {
    hide Inv, Dispatched, Drained, PushedTo;
  }

  /** One step of a call that will still be subscribed at the end. */
  lemma StepMayHold(s: State, step: Step, c: CallId)
    requires Inv(s) && Enabled(s, step)
    ensures Gone(Apply(s, step), c) || (MayHold(Apply(s, step), c) <==> MayHold(s, c) && !Shuts(s, step, c) && !Evicts(s, step, c))
  {
    KeyFacts(s, c);
    if Unregistered(s, c) {
      hide Inv, Apply, HoldsKey;
      StaysUnregistered(s, step, c);
    } else if c in s.calls {
      hide Inv, HoldsKey, Subscribed;
      KeyEffect(s, step, c);
      CallMayHold(s, step, c);
    } else {
      StartMayHold(s, step, c);
    }
  }

  lemma OneLoss(s: State, step: Step, c: CallId)
    requires Enabled(s, step)
    ensures !(Shuts(s, step, c) && Evicts(s, step, c))
  {
    hide HoldsKey;
  }

  /** A subscription holds its key exactly until one of the two things takes it, and at most
      one of them ever does. */
  lemma {:induction false} KeyOverRun(s: State, run: seq<Step>, c: CallId)
    requires Clean(s, run) && IsSubscribed(Exec(s, run), c)
    ensures MayHold(Exec(s, run), c) <==> MayHold(s, c) && !WasShut(s, run, c) && !WasEvicted(s, run, c)
    ensures !(WasShut(s, run, c) && WasEvicted(s, run, c))
    decreases |run|
  {
    if run == [] {
    } else {
      hide Inv, Apply, Enabled, Panics, MayHold, Unregistered, Shuts, Evicts;
      var step, s' := run[0], Apply(s, run[0]);
      Head(s, run);
      StepMayHold(s, step, c);
      if Gone(s', c) {
        GoneForGood(s', run[1..], c);
      }
      KeyOverRun(s', run[1..], c);
      if Shuts(s, step, c) || Evicts(s, step, c) {
        LosesKey(s, step, c);
        LostForGood(s', run[1..], c);
        OneLoss(s, step, c);
      }
    }
  }

  // ---------------------------------------------------------------- the runs of a new client

  /** A subscription of a new client is registered exactly if nothing shut its inbox and no
      clean-up of another Subscribe took its key; its inbox is open exactly if nothing shut
      it. The two agree exactly if it was not evicted, and an eviction leaves a Subscribe on
      the key that is about to panic. */
  lemma RegisteredIffOpen(version: uint16, run: seq<Step>, c: CallId)
    requires Valid(Init(version), run)
    requires var s := Exec(Init(version), run); s.core.fault == NoFault && IsSubscribed(s, c)
    ensures var s := Exec(Init(version), run);
            var shut, evicted := WasShut(Init(version), run, c), WasEvicted(Init(version), run, c);
            && (HoldsKey(s, c) <==> !shut && !evicted)
            && (IsOpen(s.core.inboxes, c) <==> !shut)
            && ((HoldsKey(s, c) <==> IsOpen(s.core.inboxes, c)) <==> !evicted)
            && (evicted ==> SomeoneDoomed(s, s.calls[c].key.value))
  {
    var s := Exec(Init(version), run);
    InitInv(version);
    Reachable(version, run);
    hide Valid, Exec, WasShut, WasEvicted, SomeoneDoomed;
    KeyOverRun(Init(version), run, c);
    EmptyStart(version, c);
    ShutIff(Init(version), run, c);
    assert SubscriptionOk(s, c);
    InboxFacts(s, c);
  }

  // ---------------------------------------------------------------- evicting someone else

  /** The clean-up of Subscribe deletes by key. It takes the key from whoever holds it
      exactly if the Subscribe had lost that key before. */
  lemma EvictsExactly(version: uint16, run: seq<Step>, c: CallId, d: CallId)
    requires Valid(Init(version), run)
    requires var s := Exec(Init(version), run);
             && s.core.fault == NoFault && Enabled(s, Handle(c)) && !Accepts(s.calls[c].phase.out)
             && HoldsKey(s, d) && s.calls[d].key == s.calls[c].key
    ensures Evicts(Exec(Init(version), run), Handle(c), d)
       <==> WasShut(Init(version), run, c) || WasEvicted(Init(version), run, c)
  {
    var s := Exec(Init(version), run);
    assert IsSubscribed(s, c);
    hide Valid, Exec, WasShut, WasEvicted, SomeoneDoomed;
    RegisteredIffOpen(version, run, c);
  }

  lemma EvictingDooms(s: State, s': State, c: CallId, d: CallId)
    requires Inv(s) && Leaves(s, s', c)
    requires d != c && HoldsKey(s, d) && s.calls[d].key == s.calls[c].key
    ensures SomeoneDoomed(s', s.calls[d].key.value)
  {
    hide Inv, SomeoneDoomed, Leaves;
    LeaveDooms(s, s', c);
  }

  lemma EvictingLeaves(s: State, c: CallId)
    requires c in s.calls && CanHandle(s, c) && !Accepts(s.calls[c].phase.out)
    ensures Leaves(s, Handled(s, c), c) && Handled(s, c).core.inboxes == s.core.inboxes
    ensures Handled(s, c).core.fault == s.core.fault
  {
  }

  lemma EvictionStep(s: State, s': State, c: CallId, d: CallId)
    requires Inv(s) && Enabled(s, Handle(c)) && Evicts(s, Handle(c), d) && s' == Apply(s, Handle(c))
    ensures s'.core.fault == NoFault && Unregistered(s', d) && IsOpen(s'.core.inboxes, d)
    ensures d in s'.calls && s'.calls[d].key.Some? && SomeoneDoomed(s', s'.calls[d].key.value)
  {
    hide Inv, SomeoneDoomed, Handled, Leaves, IsOpen, Unregistered;
    assert s' == Handled(s, c) && s.core.fault == NoFault;
    EvictingLeaves(s, c);
    InboxFacts(s, d);
    OnlyOwnSteps(s, Handle(c), d);
    assert d != c && s.calls[d].key == s.calls[c].key;
    LosesKey(s, Handle(c), d);
    hide Apply, Enabled, Evicts;
    EvictingDooms(s, s', c, d);
  }

  /** Then a Subscribe on that key is about to panic. The victim's inbox stays open. */
  lemma EvictionDooms(version: uint16, run: seq<Step>, c: CallId, d: CallId)
    requires Valid(Init(version), run)
    requires var s := Exec(Init(version), run);
             && s.core.fault == NoFault && Enabled(s, Handle(c)) && Evicts(s, Handle(c), d)
    ensures var s' := Apply(Exec(Init(version), run), Handle(c));
            && s'.core.fault == NoFault && Unregistered(s', d) && IsOpen(s'.core.inboxes, d)
            && d in s'.calls && s'.calls[d].key.Some? && SomeoneDoomed(s', s'.calls[d].key.value)
  {
    hide Inv, Valid, Exec, SomeoneDoomed, Apply, Evicts;
    var s := Exec(Init(version), run);
    Reachable(version, run);
    EvictionStep(s, Apply(s, Handle(c)), c, d);
  }

  /** Whatever happens afterwards, the victim never gets its key back, and nothing that the
      server pushes reaches it. */
  lemma EvictedForGood(version: uint16, run: seq<Step>, c: CallId, d: CallId, more: seq<Step>)
    requires Valid(Init(version), run)
    requires var s := Exec(Init(version), run);
             && s.core.fault == NoFault && Enabled(s, Handle(c)) && Evicts(s, Handle(c), d)
             && Valid(Apply(s, Handle(c)), more) && Exec(Apply(s, Handle(c)), more).core.fault == NoFault
    ensures var s' := Apply(Exec(Init(version), run), Handle(c));
            !HoldsKey(Exec(s', more), d) && NoPushes(Trace(s', more, d))
  {
    var s := Exec(Init(version), run);
    Reachable(version, run);
    EvictionDooms(version, run, c, d);
    hide Inv, Apply, Evicts, SomeoneDoomed, Valid, Exec, Trace;
    StepKeepsInv(s, Handle(c));
    LostForGood(Apply(s, Handle(c)), more, d);
  }
}
