/** The client fed by octets: every byte-level run is a run of the client machine, and what
    gets dispatched is what the stream of blocks says, in wire order. */
module ClientBytes {
  import opened Bytes
  import opened Protocol
  import opened Transport
  import opened ClientCore
  import opened ClientMachine
  import opened ClientInvariant
  import opened ClientSafety
  import opened ClientRuns

  /** A client and the octets that have arrived but have not been read. */
  datatype Wired = Wired(s: State, incoming: bytes)

  datatype ByteStep =
    | Internal(step: Step)      // a caller, a consumer, Close or a dispatch
    | Arrives(octets: bytes)
    | ReadNext                  // ReadBlock returns
    | HangUp                    // ReadBlock fails for want of a whole block

  /** What a whole frame holds: a length that does not fit fails the read, a malformed
      block is skipped. */
  datatype Frame = Broken | Malformed | Whole(ts: seq<Transmission>)

  function FrameOf(v: uint16, sess: bytes, octets: bytes): Frame
    requires |octets| == BLOCK_SIZE
  {
    match Unpad(octets)
    case Err(_) => Broken
    case Ok(block) =>
      match ParseBlock(v, sess, block)
      case Err(_) => Malformed
      case Ok(ts) => Whole(ts)
  }

  predicate ByteEnabled(w: Wired, b: ByteStep) {
    match b
    case Internal(step) => !step.ReadBlock? && !step.ReadFails? && Enabled(w.s, step)
    case Arrives(_) => true
    case ReadNext => w.s.core.fault == NoFault && w.s.reader.Reading? && |w.incoming| >= BLOCK_SIZE
    case HangUp => w.s.core.fault == NoFault && w.s.reader.Reading?
  }

  ghost function ByteApply(sess: bytes, w: Wired, b: ByteStep): Wired
    requires ByteEnabled(w, b)
  {
    match b
    case Internal(step) => w.(s := Apply(w.s, step))
    case Arrives(octets) => w.(incoming := w.incoming + octets)
    case HangUp => w.(s := Apply(w.s, ReadFails))
    case ReadNext =>
      var rest := w.incoming[BLOCK_SIZE..];
      match FrameOf(w.s.version, sess, w.incoming[..BLOCK_SIZE])
      case Broken => Wired(Apply(w.s, ReadFails), rest)
      case Malformed => Wired(w.s, rest)
      case Whole(ts) => Wired(Apply(w.s, ReadBlock(ts)), rest)
  }

  ghost predicate ByteValid(sess: bytes, w: Wired, run: seq<ByteStep>)
    decreases |run|
  {
    run == [] || (ByteEnabled(w, run[0]) && ByteValid(sess, ByteApply(sess, w, run[0]), run[1..]))
  }

  ghost function ByteExec(sess: bytes, w: Wired, run: seq<ByteStep>): Wired
    requires ByteValid(sess, w, run)
    decreases |run|
  {
    if run == [] then w else ByteExec(sess, ByteApply(sess, w, run[0]), run[1..])
  }

  /** Reading one block of 16384 octets: only a length that does not fit ends the reader; a
      block that does not decode is used up and changes nothing; any other one is what the
      reader dispatches next. */
  lemma ReadNextExactly(sess: bytes, w: Wired)
    requires ByteEnabled(w, ReadNext)
    ensures var w' := ByteApply(sess, w, ReadNext);
            && w'.incoming == w.incoming[16384..]
            && match Unpad(w.incoming[..16384])
               case Err(_) => w'.s.reader == Exited && w'.s.calls == w.s.calls && w'.s.core == Drained(w.s.core, ReadFailed)
               case Ok(block) =>
                 match ParseBlock(w.s.version, sess, block)
                 case Err(_) => w'.s == w.s
                 case Ok(ts) => w'.s == if ts == [] then w.s else w.s.(reader := Dispatching(ts))
  {
    hide Unpad, ParseBlock, Drained;
  }

  // ---------------------------------------------------------------- refinement

  /** The step of the client machine behind a byte-level step, if there is one: arriving
      octets change nothing, nor does a malformed block. */
  function Lowered(sess: bytes, w: Wired, b: ByteStep): seq<Step>
    requires ByteEnabled(w, b)
  {
    match b
    case Internal(step) => [step]
    case Arrives(_) => []
    case HangUp => [ReadFails]
    case ReadNext =>
      match FrameOf(w.s.version, sess, w.incoming[..BLOCK_SIZE])
      case Broken => [ReadFails]
      case Malformed => []
      case Whole(ts) => [ReadBlock(ts)]
  }

  ghost function LoweredRun(sess: bytes, w: Wired, run: seq<ByteStep>): seq<Step>
    requires ByteValid(sess, w, run)
    decreases |run|
  {
    if run == [] then [] else Lowered(sess, w, run[0]) + LoweredRun(sess, ByteApply(sess, w, run[0]), run[1..])
  }

  lemma StepRefines(sess: bytes, w: Wired, b: ByteStep)
    requires ByteEnabled(w, b)
    ensures var steps := Lowered(sess, w, b);
            Valid(w.s, steps) && Exec(w.s, steps) == ByteApply(sess, w, b).s
  {
    hide FrameOf, Apply;
    var steps := Lowered(sess, w, b);
    if steps != [] {
      FirstStep(w.s, steps[0], []);
      assert steps == [steps[0]] + [];
    }
  }

  /** Every byte-level run is a run of the client machine that ends in the same state. */
  lemma {:induction false} BytesRefine(sess: bytes, w: Wired, run: seq<ByteStep>)
    requires ByteValid(sess, w, run)
    ensures Valid(w.s, LoweredRun(sess, w, run))
    ensures Exec(w.s, LoweredRun(sess, w, run)) == ByteExec(sess, w, run).s
    decreases |run|
  {
    hide ByteApply, Lowered, ByteEnabled, Apply, Enabled;
    if run == [] {
    } else {
      var w' := ByteApply(sess, w, run[0]);
      StepRefines(sess, w, run[0]);
      BytesRefine(sess, w', run[1..]);
      Joined(w.s, Lowered(sess, w, run[0]), LoweredRun(sess, w', run[1..]));
    }
  }

  /** What holds of the client machine holds of a client fed by octets: no octets that a
      server may send, cut up in any way, make it fault under the lock, break its invariant,
      or leave a waiting caller without an entry and without a result. */
  lemma ByteRunsAreSafe(version: uint16, sess: bytes, run: seq<ByteStep>)
    requires ByteValid(sess, Wired(Init(version), []), run)
    ensures var s := ByteExec(sess, Wired(Init(version), []), run).s;
            && s.core.fault != LockedFault
            && (s.core.fault == NoFault ==> Inv(s))
            && (s.core.fault == NoFault ==>
                  forall c <- s.calls | s.calls[c].phase.Waiting? :: HoldsEntry(s, c) <==> !HasResult(s, c))
  {
    var w := Wired(Init(version), []);
    hide ByteValid, ByteExec, Inv, Valid, Exec;
    var steps := LoweredRun(sess, w, run);
    BytesRefine(sess, w, run);
    InitInv(version);
    RunKeepsInv(Init(version), steps);
    var s := ByteExec(sess, w, run).s;
    if s.core.fault == NoFault {
      forall c | c in s.calls && s.calls[c].phase.Waiting?
        ensures HoldsEntry(s, c) <==> !HasResult(s, c)
      {
        NoOrphans(version, steps, c);
      }
    }
  }

  // ---------------------------------------------------------------- wire order

  /** The transmissions of a stream of blocks: malformed blocks have none, and a block with
      a bad length ends the reading. */
  function StreamOf(v: uint16, sess: bytes, stream: bytes): seq<Transmission>
    decreases |stream|
  {
    if |stream| < BLOCK_SIZE then []
    else
      match FrameOf(v, sess, stream[..BLOCK_SIZE])
      case Broken => []
      case Malformed => StreamOf(v, sess, stream[BLOCK_SIZE..])
      case Whole(ts) => ts + StreamOf(v, sess, stream[BLOCK_SIZE..])
  }

  function ArrivedIn(b: ByteStep): bytes {
    if b.Arrives? then b.octets else []
  }

  function ArrivedBy(run: seq<ByteStep>): bytes {
    if run == [] then [] else ArrivedIn(run[0]) + ArrivedBy(run[1..])
  }

  function PendingOf(reader: Reader): seq<Transmission> {
    if reader.Dispatching? then reader.pending else []
  }

  function DispatchedIn(w: Wired, b: ByteStep): seq<Transmission>
    requires ByteEnabled(w, b)
  {
    if b == Internal(DispatchNext) then [w.s.reader.pending[0]] else []
  }

  ghost function DispatchedBy(sess: bytes, w: Wired, run: seq<ByteStep>): seq<Transmission>
    requires ByteValid(sess, w, run)
    decreases |run|
  {
    if run == [] then []
    else DispatchedIn(w, run[0]) + DispatchedBy(sess, ByteApply(sess, w, run[0]), run[1..])
  }

  /** What is still to be dispatched, if `more` is going to arrive. */
  ghost function Ahead(sess: bytes, w: Wired, more: bytes): seq<Transmission> {
    PendingOf(w.s.reader) + if w.s.reader.Exited? then [] else StreamOf(w.s.version, sess, w.incoming + more)
  }

  lemma FailAhead(sess: bytes, w: Wired, more: bytes)
    requires w.s.reader.Exited?
    ensures Ahead(sess, w, more) == []
  {
  }

  lemma ArriveAhead(sess: bytes, w: Wired, octets: bytes, more: bytes)
    ensures Ahead(sess, w.(incoming := w.incoming + octets), more) == Ahead(sess, w, octets + more)
  {
    hide StreamOf;
    assert w.incoming + octets + more == w.incoming + (octets + more);
  }

  /** The reader moves in three steps only. */
  lemma ReaderMoves(s: State, step: Step)
    requires Enabled(s, step)
    ensures Apply(s, step).version == s.version
    ensures Apply(s, step).reader ==
            match step
            case ReadBlock(ts) => Pending(ts)
            case ReadFails => Exited
            case DispatchNext => Pending(s.reader.pending[1..])
            case _ => s.reader
    ensures step.DispatchNext? ==> s.reader.Dispatching? && s.reader.pending != []
  {
    hide Dispatched, Drained;
  }

  lemma SameAhead(sess: bytes, w: Wired, w': Wired, more: bytes)
    requires w'.incoming == w.incoming && w'.s.reader == w.s.reader && w'.s.version == w.s.version
    ensures [] + Ahead(sess, w', more) == Ahead(sess, w, more)
  {
    hide StreamOf;
  }

  lemma InternalAhead(sess: bytes, w: Wired, step: Step, more: bytes)
    requires ByteEnabled(w, Internal(step))
    ensures var w' := w.(s := Apply(w.s, step));
            && DispatchedIn(w, Internal(step)) + Ahead(sess, w', more) == Ahead(sess, w, [] + more)
            && (w'.s.reader.Exited? <==> w.s.reader.Exited?)
  {
    hide Apply, StreamOf, Enabled;
    assert [] + more == more;
    ReaderMoves(w.s, step);
    var w' := w.(s := Apply(w.s, step));
    if step.DispatchNext? {
      var p := w.s.reader.pending;
      var later := StreamOf(w.s.version, sess, w.incoming + more);
      assert Ahead(sess, w, more) == p + later && Ahead(sess, w', more) == p[1..] + later;
      assert [p[0]] + (p[1..] + later) == p + later;
    } else {
      assert w'.s.reader == w.s.reader;
      hide Ahead;
      SameAhead(sess, w, w', more);
    }
  }

  lemma ReadingAhead(sess: bytes, w: Wired, more: bytes)
    requires w.s.reader.Reading?
    ensures Ahead(sess, w, more) == StreamOf(w.s.version, sess, w.incoming + more)
  {
    hide StreamOf;
  }

  lemma PendingAhead(sess: bytes, w: Wired, ts: seq<Transmission>, more: bytes)
    requires w.s.reader == Pending(ts)
    ensures Ahead(sess, w, more) == ts + StreamOf(w.s.version, sess, w.incoming + more)
  {
    hide StreamOf;
  }

  lemma StreamSplits(v: uint16, sess: bytes, incoming: bytes, more: bytes)
    requires |incoming| >= BLOCK_SIZE
    ensures StreamOf(v, sess, incoming + more) ==
            match FrameOf(v, sess, incoming[..BLOCK_SIZE])
            case Broken => []
            case Malformed => StreamOf(v, sess, incoming[BLOCK_SIZE..] + more)
            case Whole(ts) => ts + StreamOf(v, sess, incoming[BLOCK_SIZE..] + more)
  {
    hide FrameOf;
    var stream := incoming + more;
    assert stream[..BLOCK_SIZE] == incoming[..BLOCK_SIZE];
    assert stream[BLOCK_SIZE..] == incoming[BLOCK_SIZE..] + more;
  }

  lemma ReadAhead(sess: bytes, w: Wired, more: bytes)
    requires ByteEnabled(w, ReadNext)
    ensures var w' := ByteApply(sess, w, ReadNext);
            Ahead(sess, w', more) == if w'.s.reader.Exited? then [] else Ahead(sess, w, [] + more)
  {
    hide FrameOf, Apply, StreamOf, Ahead;
    assert [] + more == more;
    var rest := w.incoming[BLOCK_SIZE..];
    StreamSplits(w.s.version, sess, w.incoming, more);
    match FrameOf(w.s.version, sess, w.incoming[..BLOCK_SIZE])
    case Broken =>
      ReaderMoves(w.s, ReadFails);
      FailAhead(sess, Wired(Apply(w.s, ReadFails), rest), more);
    case Malformed =>
      ReadingAhead(sess, w, more);
      ReadingAhead(sess, Wired(w.s, rest), more);
    case Whole(ts) =>
      ReaderMoves(w.s, ReadBlock(ts));
      ReadingAhead(sess, w, more);
      PendingAhead(sess, Wired(Apply(w.s, ReadBlock(ts)), rest), ts, more);
  }

  /** One step dispatches the head of what is ahead, or nothing; only the reader's exit,
      which is for good, drops what is ahead. */
  lemma StepAhead(sess: bytes, w: Wired, b: ByteStep, more: bytes)
    requires ByteEnabled(w, b)
    ensures var w' := ByteApply(sess, w, b);
            var now, then' := Ahead(sess, w, ArrivedIn(b) + more), DispatchedIn(w, b) + Ahead(sess, w', more);
            && then' <= now
            && (w.s.reader.Exited? ==> w'.s.reader.Exited?)
            && (!w'.s.reader.Exited? ==> then' == now)
  {
    hide Ahead;
    match b
    case Arrives(octets) => ArriveAhead(sess, w, octets, more);
    case Internal(step) => InternalAhead(sess, w, step, more);
    case HangUp => FailAhead(sess, w.(s := Apply(w.s, ReadFails)), more);
    case ReadNext => ReadAhead(sess, w, more);
  }

  /** The client dispatches, in wire order, the transmissions of the blocks it receives:
      never any other, and all of them unless the reader has stopped or they are still
      ahead of it. */
  lemma {:induction false} DispatchesTheStream(sess: bytes, w: Wired, run: seq<ByteStep>)
    requires ByteValid(sess, w, run)
    ensures var end := ByteExec(sess, w, run);
            var done, all := DispatchedBy(sess, w, run) + Ahead(sess, end, []), Ahead(sess, w, ArrivedBy(run));
            done <= all && (!end.s.reader.Exited? ==> done == all)
    ensures w.s.reader.Exited? ==> ByteExec(sess, w, run).s.reader.Exited?
    decreases |run|
  {
    hide ByteApply, ByteEnabled, DispatchedIn, Ahead;
    if run == [] {
    } else {
      var w' := ByteApply(sess, w, run[0]);
      StepAhead(sess, w, run[0], ArrivedBy(run[1..]));
      DispatchesTheStream(sess, w', run[1..]);
    }
  }

  // ---------------------------------------------------------------- one block, undisturbed

  lemma DispatchOne(s: State, t: Transmission, ts: seq<Transmission>)
    requires Inv(s) && s.reader == Dispatching([t] + ts)
    ensures Enabled(s, DispatchNext)
    ensures Inv(Apply(s, DispatchNext))
    ensures Apply(s, DispatchNext) == s.(core := Dispatched(s.version, s.core, t), reader := Pending(ts))
  {
    InvMeansNoFault(s);
    hide Inv, Dispatched;
    assert ([t] + ts)[1..] == ts;
    ReaderStepKeepsInv(s, DispatchNext);
  }

  /** When nobody interferes, dispatching what is pending is DispatchedAll. */
  lemma {:induction false} DispatchesInOrder(s: State, ts: seq<Transmission>)
    requires Inv(s) && s.reader == Pending(ts)
    ensures Valid(s, Times(DispatchNext, |ts|))
    ensures Exec(s, Times(DispatchNext, |ts|)) == s.(core := DispatchedAll(s.version, s.core, ts), reader := Reading)
    decreases |ts|
  {
    hide Inv, Apply, Enabled, Dispatched;
    if ts == [] {
    } else {
      assert ts == [ts[0]] + ts[1..];
      DispatchOne(s, ts[0], ts[1..]);
      DispatchesInOrder(Apply(s, DispatchNext), ts[1..]);
      FirstStep(s, DispatchNext, Times(DispatchNext, |ts| - 1));
    }
  }

  lemma ReadsBlock(s: State, ts: seq<Transmission>)
    requires Inv(s) && s.reader == Reading
    ensures Enabled(s, ReadBlock(ts)) && Apply(s, ReadBlock(ts)) == s.(reader := Pending(ts))
    ensures Inv(s.(reader := Pending(ts)))
  {
    InvMeansNoFault(s);
    hide Inv;
    ReaderIrrelevant(s, s.(reader := Pending(ts)));
  }

  function BlockRun(v: uint16, sess: bytes, block: bytes): seq<Step> {
    match ParseBlock(v, sess, block)
    case Ok(ts) => [ReadBlock(ts)] + Times(DispatchNext, |ts|)
    case Err(_) => []
  }

  /** A block read and dispatched without interference has the effect that
      Client.HandleBlock has: all its transmissions in wire order, or nothing. */
  lemma BlockRuns(s: State, sess: bytes, block: bytes)
    requires Inv(s) && s.reader == Reading
    ensures Valid(s, BlockRun(s.version, sess, block))
    ensures Exec(s, BlockRun(s.version, sess, block)) == s.(core := BlockEffect(s.version, sess, s.core, block))
  {
    hide Inv, ParseBlock, DispatchedAll, Apply, Enabled;
    var decoded := ParseBlock(s.version, sess, block);
    if decoded.Ok? {
      var ts := decoded.value;
      ReadsBlock(s, ts);
      DispatchesInOrder(s.(reader := Pending(ts)), ts);
      FirstStep(s, ReadBlock(ts), Times(DispatchNext, |ts|));
    }
  }

  function LoopRun(v: uint16, sess: bytes, blocks: seq<ReadResult>): seq<Step>
    decreases |blocks|
  {
    if blocks == [] then []
    else
      match blocks[0]
      case ReadError => [ReadFails]
      case Block(payload) => BlockRun(v, sess, payload) + LoopRun(v, sess, blocks[1..])
  }

  lemma {:induction false} DispatchNeverFaults(s: State, ts: seq<Transmission>)
    requires Inv(s)
    ensures DispatchedAll(s.version, s.core, ts).fault == NoFault
    decreases |ts|
  {
    hide Inv, Dispatched;
    if ts == [] {
      InvMeansNoFault(s);
    } else {
      var s' := s.(core := Dispatched(s.version, s.core, ts[0]));
      DispatchKeepsInv(s, s', ts[0]);
      DispatchNeverFaults(s', ts[1..]);
    }
  }

  lemma BlockNeverFaults(s: State, sess: bytes, block: bytes)
    requires Inv(s)
    ensures BlockEffect(s.version, sess, s.core, block).fault == NoFault
  {
    hide Inv, ParseBlock, DispatchedAll;
    InvMeansNoFault(s);
    match ParseBlock(s.version, sess, block)
    case Err(_) =>
    case Ok(ts) => DispatchNeverFaults(s, ts);
  }

  lemma StillReading(s: State, sess: bytes, block: bytes)
    requires Inv(s) && s.reader == Reading
    ensures Inv(s.(core := BlockEffect(s.version, sess, s.core, block)))
  {
    hide Inv, ParseBlock, DispatchedAll, BlockEffect, Enabled, Apply;
    BlockRuns(s, sess, block);
    RunKeepsInv(s, BlockRun(s.version, sess, block));
    BlockNeverFaults(s, sess, block);
  }

  lemma ReadErrorRuns(s: State)
    requires Inv(s) && s.reader == Reading
    ensures Enabled(s, ReadFails) && Apply(s, ReadFails).core == Drained(s.core, ReadFailed)
  {
    InvMeansNoFault(s);
  }

  /** The same for any list of blocks up to the first read error: what Client.ReadLoop does
      is this run. */
  lemma {:induction false} LoopRuns(s: State, sess: bytes, blocks: seq<ReadResult>)
    requires Inv(s) && s.reader == Reading
    ensures Valid(s, LoopRun(s.version, sess, blocks))
    ensures Exec(s, LoopRun(s.version, sess, blocks)).core == LoopEffect(s.version, sess, s.core, blocks)
    decreases |blocks|
  {
    hide Inv, BlockRun, BlockEffect, Drained, Enabled, Apply;
    if blocks == [] {
    } else {
      match blocks[0]
      case ReadError =>
        ReadErrorRuns(s);
        FirstStep(s, ReadFails, []);
        assert [ReadFails] + [] == [ReadFails];
      case Block(payload) =>
        var s' := s.(core := BlockEffect(s.version, sess, s.core, payload));
        BlockRuns(s, sess, payload);
        StillReading(s, sess, payload);
        LoopRuns(s', sess, blocks[1..]);
        Joined(s, BlockRun(s.version, sess, payload), LoopRun(s.version, sess, blocks[1..]));
    }
  }

  // ---------------------------------------------------------------- from server to client

  function Flatten(tss: seq<seq<Transmission>>): seq<Transmission> {
    if tss == [] then [] else tss[0] + Flatten(tss[1..])
  }

  /** `payloads` are the blocks that the encoder makes of the lists `tss`. */
  ghost predicate Encodes(v: uint16, sess: bytes, tss: seq<seq<Transmission>>, payloads: seq<bytes>) {
    && |tss| == |payloads|
    && forall i | 0 <= i < |tss| :: EncodeAll(v, sess, tss[i]) == Ok(payloads[i]) && |payloads[i]| <= MAX_PAYLOAD
  }

  lemma PaddedBlock(v: uint16, sess: bytes, ts: seq<Transmission>, payload: bytes)
    requires EncodeAll(v, sess, ts) == Ok(payload) && |payload| <= MAX_PAYLOAD
    ensures FrameOf(v, sess, Pad(payload)) == Whole(ts)
  {
    EncodeThenDecode(v, sess, ts, []);
    PadThenUnpad(payload);
    hide EncodeAll, ParseBlock, Unpad, Pad;
  }

  /** The whole blocks at the front of an encoded stream hold the first lists. */
  lemma {:induction false} EncodedStream(v: uint16, sess: bytes, tss: seq<seq<Transmission>>, payloads: seq<bytes>, stream: bytes)
    requires Encodes(v, sess, tss, payloads) && forall p <- payloads :: |p| <= MAX_PAYLOAD
    requires stream <= PadAll(payloads)
    ensures |stream| / BLOCK_SIZE <= |tss|
    ensures StreamOf(v, sess, stream) == Flatten(tss[..|stream| / BLOCK_SIZE])
    decreases |tss|
  {
    hide EncodeAll, Pad, FrameOf;
    if |stream| >= BLOCK_SIZE {
      var rest := stream[BLOCK_SIZE..];
      assert stream[..BLOCK_SIZE] == Pad(payloads[0]) && rest <= PadAll(payloads[1..]);
      PaddedBlock(v, sess, tss[0], payloads[0]);
      EncodedStream(v, sess, tss[1..], payloads[1..], rest);
      assert tss[..|stream| / BLOCK_SIZE] == [tss[0]] + tss[1..][..|rest| / BLOCK_SIZE];
    }
  }

  lemma {:induction false} FlattenGrows(tss: seq<seq<Transmission>>, n: nat)
    requires n <= |tss|
    ensures Flatten(tss[..n]) <= Flatten(tss)
  {
    if n == 0 {
    } else {
      assert tss[..n][0] == tss[0] && tss[..n][1..] == tss[1..][..n - 1];
      FlattenGrows(tss[1..], n - 1);
    }
  }

  /** Whatever the interleaving and however the octets are cut up, in the middle of a block
      too: when the octets that have arrived begin the padded encodings of the lists `tss`,
      the client dispatches the transmissions of `tss` one by one in order. As long as its
      reader runs, those of the whole blocks are all dispatched or still ahead. */
  lemma ServerToClient(version: uint16, sess: bytes, run: seq<ByteStep>, tss: seq<seq<Transmission>>, payloads: seq<bytes>)
    requires ByteValid(sess, Wired(Init(version), []), run)
    requires Encodes(version, sess, tss, payloads)
    requires (forall p <- payloads :: |p| <= MAX_PAYLOAD) && ArrivedBy(run) <= PadAll(payloads)
    ensures var w := Wired(Init(version), []);
            var end, blocks := ByteExec(sess, w, run), |ArrivedBy(run)| / BLOCK_SIZE;
            && DispatchedBy(sess, w, run) <= Flatten(tss)
            && blocks <= |tss|
            && (!end.s.reader.Exited? ==> DispatchedBy(sess, w, run) + Ahead(sess, end, []) == Flatten(tss[..blocks]))
  {
    var w := Wired(Init(version), []);
    var arrived := ArrivedBy(run);
    hide StreamOf, FrameOf, ByteValid, ByteExec, DispatchedBy, Encodes, ArrivedBy, PadAll, Flatten;
    DispatchesTheStream(sess, w, run);
    EncodedStream(version, sess, tss, payloads, arrived);
    FlattenGrows(tss, |arrived| / BLOCK_SIZE);
    assert [] + arrived == arrived;
    assert Ahead(sess, w, arrived) == [] + Flatten(tss[..|arrived| / BLOCK_SIZE]) == Flatten(tss[..|arrived| / BLOCK_SIZE]);
    var done := DispatchedBy(sess, w, run);
    assert done <= done + Ahead(sess, ByteExec(sess, w, run), []);
  }
}
