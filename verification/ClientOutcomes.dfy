/** What Subscribe makes of the responses it gets, and of the state it finds. */
module ClientOutcomes {
  import opened Bytes
  import opened ClientCore
  import opened ClientMachine
  import opened ClientInvariant
  import opened ClientRuns
  import opened ClientReplies

  // ---------------------------------------------------------------- entering

  lemma TakenExactly(s: State, c: CallId)
    requires Inv(s) && c in s.calls && s.calls[c].phase.Entering?
    ensures s.core.fault == NoFault && s.calls[c].key.Some? && IsOpen(s.core.inboxes, c)
    ensures s.calls[c].key.value in s.core.subs
       <==> exists d :: d != c && HoldsKey(s, d) && s.calls[d].key == s.calls[c].key
  {
    assert SubscriptionOk(s, c);
    var key := s.calls[c].key.value;
    if key in s.core.subs {
      assert HoldsKey(s, s.core.subs[key]);
    }
  }

  /** A Subscribe is turned away from a closed client, and from an open one exactly if
      another call holds its key. Otherwise it registers its inbox and goes on to send. */
  lemma RefusedExactly(version: uint16, run: seq<Step>, c: CallId)
    requires Valid(Init(version), run)
    requires var s := Exec(Init(version), run);
             s.core.fault == NoFault && c in s.calls && s.calls[c].phase.Entering?
    ensures var s := Exec(Init(version), run);
            && s.calls[c].key.Some? && Enabled(s, SubRegister(c))
            && var s' := Apply(s, SubRegister(c));
               var closed := exists step <- run :: step.CloseClient? || step.ReadFails?;
               var taken := exists d :: d != c && HoldsKey(s, d) && s.calls[d].key == s.calls[c].key;
            && c in s'.calls
            && s'.calls[c].phase == (if closed then Refused(ClientClosed)
                                     else if taken then Refused(AlreadySubscribed)
                                     else Building)
            && (if closed || taken then s'.core == s.core else HoldsKey(s', c) && IsOpen(s'.core.inboxes, c))
  {
    var s := Exec(Init(version), run);
    Reachable(version, run);
    ClosedExactly(version, run);
    hide Valid, Exec;
    TakenExactly(s, c);
    hide Inv;
  }

  // ---------------------------------------------------------------- the response

  /** What Subscribe does with what send returned, told by the messages themselves. */
  predicate HandledAs(s: State, s': State, c: CallId, out: SendOutcome)
    requires c in s.calls && s.calls[c].key.Some? && c in s.core.inboxes
  {
    match out
    case Reply(Some(OK)) =>
      s' == s.(calls := s.calls[c := s.calls[c].(phase := Done(out))])
    case Reply(Some(MSG(m))) =>
      && !s.core.inboxes[c].closed && |s.core.inboxes[c].buf| < 32
      && s' == s.(calls := s.calls[c := s.calls[c].(phase := Done(out))],
                  core := s.core.(inboxes := s.core.inboxes[c := s.core.inboxes[c].(buf := s.core.inboxes[c].buf + [m])]))
    case _ =>
      s' == s.(calls := s.calls[c := s.calls[c].(phase := Closing(out))],
               core := s.core.(subs := s.core.subs - {s.calls[c].key.value}))
  }

  lemma HandleExactly(s: State, c: CallId)
    requires Inv(s) && c in s.calls && s.calls[c].phase.Handling?
    ensures s.calls[c].key.Some? && c in s.core.inboxes
    ensures var out := s.calls[c].phase.out;
            && (!(out.Reply? && out.msg.Some? && out.msg.value.MSG?) ==> Enabled(s, Handle(c)))
            && (Enabled(s, Handle(c)) && Apply(s, Handle(c)).core.fault == NoFault ==> HandledAs(s, Apply(s, Handle(c)), c, out))
  {
    hide Inv;
    OwnInbox(s, c);
  }

  /** After the clean-up deleted the key, closing the inbox ends the call. */
  lemma CloseExactly(s: State, c: CallId)
    requires Inv(s) && c in s.calls && s.calls[c].phase.Closing?
    ensures Enabled(s, CloseOwn(c))
    ensures Apply(s, CloseOwn(c)).core.fault == NoFault ==>
              && c in Apply(s, CloseOwn(c)).calls
              && Apply(s, CloseOwn(c)).calls[c].phase == Done(s.calls[c].phase.out)
              && InboxShut(Apply(s, CloseOwn(c)), c)
  {
    hide Inv;
    OwnInbox(s, c);
  }

  /** How a Subscribe ends is settled by what happened in the run. If it did not give up and
      the first thing it heard is OK, it leaves everything as it is and succeeds; if that is
      a message, it puts it last into its inbox and succeeds, unless the push has to wait or
      panics (BlocksExactly, PanicExactly); in every other case, and only then, it deletes
      its key and goes on to close its inbox. */
  lemma SubscribeExactly(version: uint16, run: seq<Step>, c: CallId)
    requires Valid(Init(version), run)
    requires var s := Exec(Init(version), run);
             s.core.fault == NoFault && c in s.calls && s.calls[c].phase.Handling?
    ensures var s, h := Exec(Init(version), run), Heard(Init(version), run, c);
            var out := s.calls[c].phase.out;
            && Explains(out, h, GaveUp(run, c))
            && s.calls[c].key.Some? && c in s.core.inboxes
            && (!(out.Reply? && out.msg.Some? && out.msg.value.MSG?) ==> Enabled(s, Handle(c)))
            && (Enabled(s, Handle(c)) && Apply(s, Handle(c)).core.fault == NoFault ==> HandledAs(s, Apply(s, Handle(c)), c, out))
  {
    Reachable(version, run);
    FirstHeardIsReturned(version, run, c);
    hide Inv, Valid, Exec, Enabled, Apply, HandledAs;
    HandleExactly(Exec(Init(version), run), c);
  }

  predicate SucceedsWith(out: SendOutcome) {
    match out
    case Reply(Some(OK)) => true
    case Reply(Some(MSG(_))) => true
    case _ => false
  }

  lemma ReceiveExactly(s: State, c: CallId)
    requires s.core.fault == NoFault && c in s.calls && s.calls[c].key.Some? && c in s.core.inboxes
    requires s.calls[c].phase.Done? && SucceedsWith(s.calls[c].phase.out)
    ensures Enabled(s, Consume(c)) <==> s.core.inboxes[c].buf != []
    ensures Enabled(s, Consume(c)) ==>
              var ch := s.core.inboxes[c];
              Apply(s, Consume(c)) == s.(core := s.core.(inboxes := s.core.inboxes[c := ch.(buf := ch.buf[1..])]))
  {
  }

  /** Once Subscribe has returned with OK or with a message, its caller can receive exactly
      when the inbox holds something, and gets the oldest. */
  lemma ReceivesTheOldest(version: uint16, run: seq<Step>, c: CallId)
    requires Valid(Init(version), run)
    requires var s := Exec(Init(version), run);
             && s.core.fault == NoFault && c in s.calls && s.calls[c].key.Some?
             && s.calls[c].phase.Done? && SucceedsWith(s.calls[c].phase.out)
    ensures var s := Exec(Init(version), run);
            && c in s.core.inboxes
            && var ch := s.core.inboxes[c];
            && (Enabled(s, Consume(c)) <==> ch.buf != [])
            && (Enabled(s, Consume(c)) ==>
                  Apply(s, Consume(c)) == s.(core := s.core.(inboxes := s.core.inboxes[c := ch.(buf := ch.buf[1..])])))
  {
    hide Valid, Exec, Inv, Enabled, Apply;
    Reachable(version, run);
    OwnInbox(Exec(Init(version), run), c);
    ReceiveExactly(Exec(Init(version), run), c);
  }
}
