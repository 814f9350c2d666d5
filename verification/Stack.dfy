/** The wire stack as a whole: lists of transmissions through blocks and padding and back,
    and the block that send builds for one command. */
module Stack {
  import opened Bytes
  import opened Encoding
  import opened Protocol
  import opened Commands
  import opened Transport
  import opened WireFormat

  // ---------------------------------------------------------------- lists of transmissions

  /** How many octets one transmission takes in a block, its length prefix included. */
  function WireSize(v: uint16, sess: bytes, t: Transmission): nat {
    2 + (1 + |t.authorization|)
    + (if v < VERSION_V7 then 1 + |sess| else 0)
    + (if t.corrID == NO_CORR_ID then 1 else 25)
    + (1 + |t.entityID|)
    + |t.command|
  }

  function BlockSize(v: uint16, sess: bytes, ts: seq<Transmission>): nat {
    if ts == [] then 1 else BlockSize(v, sess, ts[..|ts| - 1]) + WireSize(v, sess, ts[|ts| - 1])
  }

  /** A list that one transport block can carry. */
  predicate Fits(v: uint16, sess: bytes, ts: seq<Transmission>) {
    |ts| <= 255 && AllWithinLimits(sess, ts) && BlockSize(v, sess, ts) <= MAX_PAYLOAD
  }

  /** EncodeTransmission for each, EncodeBlock, WriteBlock. */
  function Sent(v: uint16, sess: bytes, ts: seq<Transmission>): Result<bytes> {
    match EncodeAll(v, sess, ts)
    case Err(e) => Err(e)
    case Ok(payload) => if |payload| > MAX_PAYLOAD then Err(LargeBlock) else Ok(Pad(payload))
  }

  /** ReadBlock, DecodeBlock. */
  function Arrived(v: uint16, sess: bytes, octets: bytes): Result<seq<Transmission>> {
    match ReadFrame(octets).0
    case Err(e) => Err(e)
    case Ok(payload) => ParseBlock(v, sess, payload)
  }

  lemma WireSizeIsLength(v: uint16, sess: bytes, t: Transmission)
    requires WithinLimits(sess, t)
    ensures |WireBytes(v, sess, t)| + 2 == WireSize(v, sess, t)
  {
  }

  lemma LastSize(v: uint16, sess: bytes, t: Transmission)
    requires WithinLimits(sess, t) && |WireBytes(v, sess, t)| <= MAX_LARGE
    ensures |LargeBytes(WireBytes(v, sess, t))| == WireSize(v, sess, t)
  {
    WireSizeIsLength(v, sess, t);
    hide WireBytes, WireSize;
  }

  lemma {:induction false} FramedSize(v: uint16, sess: bytes, ts: seq<Transmission>)
    requires AllWithinLimits(sess, ts) && Blockable(Wires(v, sess, ts))
    ensures 1 + |Framed(Wires(v, sess, ts))| == BlockSize(v, sess, ts)
    decreases |ts|
  {
    hide WireBytes, WireSize, LargeBytes;
    if ts == [] {
    } else {
      var front, last := ts[..|ts| - 1], ts[|ts| - 1];
      var wires := Wires(v, sess, front);
      assert Wires(v, sess, ts) == wires + [WireBytes(v, sess, last)];
      assert forall b | b in wires :: b in Wires(v, sess, ts);
      FramedSize(v, sess, front);
      assert WireBytes(v, sess, last) in Wires(v, sess, ts);
      FramedAppend(wires, WireBytes(v, sess, last));
      LastSize(v, sess, last);
    }
  }

  /** In a list that fits, no transmission is too long for its length prefix. */
  lemma {:induction false} EachIsSmall(v: uint16, sess: bytes, ts: seq<Transmission>, i: nat)
    requires AllWithinLimits(sess, ts) && i < |ts|
    ensures |WireBytes(v, sess, ts[i])| < BlockSize(v, sess, ts)
    decreases |ts|
  {
    hide WireBytes, WireSize;
    WireSizeIsLength(v, sess, ts[i]);
    if i < |ts| - 1 {
      EachIsSmall(v, sess, ts[..|ts| - 1], i);
    }
  }

  /** Encoding and padding succeed for exactly the lists that fit. */
  lemma SentIffFits(v: uint16, sess: bytes, ts: seq<Transmission>)
    ensures Sent(v, sess, ts).Ok? <==> Fits(v, sess, ts)
  {
    hide WireBytes, Framed, Pad, BlockSize;
    if AllWithinLimits(sess, ts) && |ts| <= 255 {
      var wires := Wires(v, sess, ts);
      if BlockSize(v, sess, ts) <= MAX_PAYLOAD {
        forall i | 0 <= i < |ts|
          ensures |wires[i]| <= MAX_LARGE
        {
          EachIsSmall(v, sess, ts, i);
        }
      }
      if Blockable(wires) {
        FramedSize(v, sess, ts);
      }
    }
  }

  /** The full round trip: every list that fits, the zero identifier included, is read back
      as it was, from the front of any octets that follow. */
  lemma SentArrives(v: uint16, sess: bytes, ts: seq<Transmission>, tail: bytes)
    requires Fits(v, sess, ts)
    ensures Sent(v, sess, ts).Ok? && |Sent(v, sess, ts).value| == BLOCK_SIZE
    ensures Arrived(v, sess, Sent(v, sess, ts).value + tail) == Ok(ts)
    ensures ReadFrame(Sent(v, sess, ts).value + tail).1 == tail
  {
    SentIffFits(v, sess, ts);
    hide Fits, Pad, Unpad, ParseBlock;
    var payload := EncodeAll(v, sess, ts).value;
    EncodeThenDecode(v, sess, ts, []);
    hide EncodeAll;
    PadThenUnpad(payload);
    assert (Pad(payload) + tail)[..BLOCK_SIZE] == Pad(payload) && (Pad(payload) + tail)[BLOCK_SIZE..] == tail;
  }

  // ---------------------------------------------------------------- one command

  /** A key that authorizes octets under a nonce, or fails. */
  type Signer = (bytes, CorrID) -> Option<bytes>

  /** The transmission of a command before it is authorized. */
  function Bare(cid: CorrID, entityID: bytes, command: bytes): Transmission {
    Transmission(cid, entityID, command, [])
  }

  /** The transmission that send ends up with. */
  function Signed(v: uint16, sess: bytes, key: Option<Signer>, drawn: Option<CorrID>, entityID: bytes, cmd: Command): Result<Transmission> {
    match CommandBytes(v, cmd)
    case Err(e) => Err(e)
    case Ok(command) =>
      if drawn.None? then Err(NoRandomness) else
      var t := Bare(drawn.value, entityID, command);
      if !WithinLimits(sess, t) then Err(ShortStringTooLong)
      else if key.None? then Ok(t)
      else
        match key.value(AuthBytes(sess, t), drawn.value)
        case None => Err(Unauthorized)
        case Some(sig) => if |sig| > MAX_SHORT then Err(ShortStringTooLong) else Ok(t.(authorization := sig))
  }

  function Built(v: uint16, sess: bytes, key: Option<Signer>, drawn: Option<CorrID>, entityID: bytes, cmd: Command): Result<bytes> {
    match Signed(v, sess, key, drawn, entityID, cmd)
    case Err(e) => Err(e)
    case Ok(t) =>
      var wire := WireBytes(v, sess, t);
      if |wire| > MAX_LARGE then Err(TransmissionTooLarge) else Ok(BlockBytes([wire]))
  }

  /** What send hands to WriteBlock: encode the command, draw an identifier if there is one
      to be had, authorize, encode again. */
  method BuildBlock(v: uint16, sess: bytes, key: Option<Signer>, drawn: Option<CorrID>, entityID: bytes, cmd: Command)
    returns (r: Result<bytes>)
    ensures r == Built(v, sess, key, drawn, entityID, cmd)
  {
    hide CommandBytes, WireBytes, AuthBytes, BlockBytes;
    var cmdBytes :- EncodeCommand(v, cmd);
    if drawn.None? {
      return Err(NoRandomness);
    }
    var cid := drawn.value;
    var tx := Transmission(cid, entityID, cmdBytes, []);
    var bare :- EncodeTransmission(v, sess, tx);
    if key.Some? {
      var sig := key.value(bare.1, cid);
      if sig.None? {
        return Err(Unauthorized);
      }
      tx := tx.(authorization := sig.value);
    }
    var signed :- EncodeTransmission(v, sess, tx);
    r := EncodeBlock([signed.0]);
  }

  /** What a key makes of the octets of a transmission; without a key, an empty
      authorization. */
  function Authorization(key: Option<Signer>, sess: bytes, t: Transmission): Option<bytes>
    requires |sess| <= 255 && |t.entityID| <= 255
  {
    match key
    case None => Some([])
    case Some(sign) => sign(AuthBytes(sess, t), t.corrID)
  }

  lemma SignedExactly(v: uint16, sess: bytes, key: Option<Signer>, cid: CorrID, entityID: bytes, cmd: Command)
    requires CommandBytes(v, cmd).Ok? && |sess| <= 255 && |entityID| <= 255
    ensures var t := Transmission(cid, entityID, CommandBytes(v, cmd).value, []);
            var auth := Authorization(key, sess, t);
            Signed(v, sess, key, Some(cid), entityID, cmd) ==
            if auth.None? then Err(Unauthorized)
            else if |auth.value| > 255 then Err(ShortStringTooLong)
            else Ok(t.(authorization := auth.value))
  {
    hide CommandBytes, AuthBytes;
    var t := Transmission(cid, entityID, CommandBytes(v, cmd).value, []);
    assert t.(authorization := []) == t;
  }

  /** A block is built exactly if the strings of the command are short, an identifier could
      be drawn, session and entity identifiers are short, the authorization, empty without
      a key, is there and short, and the transmission is no longer than its prefix can say.
      The block then holds that one transmission. */
  lemma BuiltExactly(v: uint16, sess: bytes, key: Option<Signer>, drawn: Option<CorrID>, entityID: bytes, cmd: Command, block: bytes)
    ensures Built(v, sess, key, drawn, entityID, cmd) == Ok(block)
       <==> && HasShortStrings(cmd) && drawn.Some? && |sess| <= 255 && |entityID| <= 255
            && var t := Transmission(drawn.value, entityID, CommandBytes(v, cmd).value, []);
               var auth := Authorization(key, sess, t);
            && auth.Some? && |auth.value| <= 255
            && var t' := t.(authorization := auth.value);
            && WireSize(v, sess, t') <= 2 + 65535
            && block == BlockBytes([WireBytes(v, sess, t')])
  {
    CommandSpelled(v, cmd);
    hide CommandBytes, Spelled, HasShortStrings, BlockBytes, AuthBytes, WireBytes, WireSize, Authorization;
    if HasShortStrings(cmd) && drawn.Some? && |sess| <= 255 && |entityID| <= 255 {
      SignedExactly(v, sess, key, drawn.value, entityID, cmd);
      hide Signed;
      var signed := Signed(v, sess, key, drawn, entityID, cmd);
      if signed.Ok? {
        WireSizeIsLength(v, sess, signed.value);
      }
    }
  }

  /** Which error stops the building, in the order of the tests. */
  lemma BuildErrors(v: uint16, sess: bytes, key: Option<Signer>, drawn: Option<CorrID>, entityID: bytes, cmd: Command)
    requires Built(v, sess, key, drawn, entityID, cmd).Err?
    ensures var e := Built(v, sess, key, drawn, entityID, cmd).error;
            if !HasShortStrings(cmd) then e == ShortStringTooLong
            else if drawn.None? then e == NoRandomness
            else if |sess| > 255 || |entityID| > 255 then e == ShortStringTooLong
            else
              var auth := Authorization(key, sess, Transmission(drawn.value, entityID, CommandBytes(v, cmd).value, []));
              e == if auth.None? then Unauthorized
                   else if |auth.value| > 255 then ShortStringTooLong
                   else TransmissionTooLarge
  {
    CommandSpelled(v, cmd);
    hide CommandBytes, Spelled, HasShortStrings, BlockBytes, AuthBytes, WireBytes, WireSize, Authorization;
    if HasShortStrings(cmd) && drawn.Some? && |sess| <= 255 && |entityID| <= 255 {
      SignedExactly(v, sess, key, drawn.value, entityID, cmd);
      hide Signed;
    }
  }

  /** The octets to authorize do not depend on the authorization, nor on the version: a
      receiver computes from what it decodes exactly the octets that the key was given. */
  lemma BuiltIsAuthentic(v: uint16, sess: bytes, key: Option<Signer>, drawn: Option<CorrID>, entityID: bytes, cmd: Command)
    requires Built(v, sess, key, drawn, entityID, cmd).Ok?
    ensures var block := Built(v, sess, key, drawn, entityID, cmd).value;
            && ParseBlock(v, sess, block).Ok?
            && |ParseBlock(v, sess, block).value| == 1
            && var t := ParseBlock(v, sess, block).value[0];
            && |sess| <= MAX_SHORT && |t.entityID| <= MAX_SHORT
            && drawn == Some(t.corrID) && t.entityID == entityID && CommandBytes(v, cmd) == Ok(t.command)
            && match key
               case None => t.authorization == []
               case Some(sign) => sign(AuthBytes(sess, t), t.corrID) == Some(t.authorization)
  {
    hide CommandBytes, WireBytes, ParseBlock;
    var t := Signed(v, sess, key, drawn, entityID, cmd).value;
    assert AuthBytes(sess, t) == AuthBytes(sess, t.(authorization := []));
    assert t.(authorization := []) == Bare(drawn.value, entityID, t.command);
    assert WithinLimits(sess, t);
    assert AllWithinLimits(sess, [t]) && Wires(v, sess, [t]) == [WireBytes(v, sess, t)];
    hide AuthBytes, BlockBytes;
    EncodeThenDecode(v, sess, [t], []);
  }

  /** Two blocks that send builds carry the same authorized octets only if they carry the
      same command, up to what the command transmits at each version. */
  lemma AuthenticIsUnambiguous(v: uint16, sess: bytes, t: Transmission, t': Transmission, cmd: Command, cmd': Command)
    requires |sess| <= MAX_SHORT && |t.entityID| <= MAX_SHORT && |t'.entityID| <= MAX_SHORT
    requires CommandBytes(v, cmd) == Ok(t.command) && CommandBytes(v, cmd') == Ok(t'.command)
    ensures AuthBytes(sess, t) == AuthBytes(sess, t')
       <==> t.corrID == t'.corrID && t.entityID == t'.entityID && Transmitted(v, cmd) == Transmitted(v, cmd')
  {
    hide CommandBytes, AuthBytes, Transmitted;
    AuthBytesInjective(sess, t, sess, t');
    CommandUnambiguous(v, cmd, cmd');
  }
}
