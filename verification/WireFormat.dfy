/** The octets on the wire, position by position, as section "SMP Transmission and transport
    block structure" of the protocol and the comments in smp/encoding.go give them. */
module WireFormat {
  import opened Bytes
  import opened Encoding
  import opened Protocol
  import opened Commands
  import opened Transport

  /** `t` stands at offset `i` of `s`. */
  predicate At(s: bytes, i: nat, t: bytes) {
    i + |t| <= |s| && forall k | 0 <= k < |t| :: s[i + k] == t[k]
  }

  /** The text `t` stands at offset `i` of `s`. */
  predicate TextAt(s: bytes, i: nat, t: string) {
    i + |t| <= |s| && forall k | 0 <= k < |t| :: s[i + k] == t[k] as int
  }

  predicate IsText(s: bytes, t: string) {
    |s| == |t| && TextAt(s, 0, t)
  }

  /** The number that octets spell, most significant first. */
  function Number(b: bytes): nat {
    if b == [] then 0 else Number(b[..|b| - 1]) * 0x100 + b[|b| - 1]
  }

  lemma AtFront(s: bytes, i: nat, t: bytes, more: bytes)
    requires At(s, i, t)
    ensures At(s + more, i, t)
  {
  }

  lemma AtBack(front: bytes, s: bytes, i: nat, t: bytes)
    requires At(s, i, t)
    ensures At(front + s, |front| + i, t)
  {
    forall k | 0 <= k < |t|
      ensures (front + s)[|front| + i + k] == t[k]
    {
      assert s[i + k] == t[k];
    }
  }

  lemma AtWhole(s: bytes)
    ensures At(s, 0, s)
  {
  }

  lemma Within(s: bytes, i: nat, t: bytes, k: nat, u: bytes)
    requires At(s, i, t) && At(t, k, u)
    ensures At(s, i + k, u)
  {
    forall j | 0 <= j < |u|
      ensures s[i + k + j] == u[j]
    {
      assert s[i + (k + j)] == t[k + j];
    }
  }

  lemma Slice(s: bytes, i: nat, t: bytes)
    requires At(s, i, t)
    ensures s[i..i + |t|] == t
  {
  }

  lemma NumberOfTwo(b: bytes)
    requires |b| == 2
    ensures var hi: int := b[0]; Number(b) == hi * 0x100 + b[1]
  {
    assert b[..1][..0] == [];
    assert Number(b[..1]) == b[0];
  }

  lemma LastTwo(b: bytes)
    requires |b| >= 2
    ensures Number(b) == Number(b[..|b| - 2]) * 0x1_0000 + Number(b[|b| - 2..])
  {
    NumberOfTwo(b[|b| - 2..]);
    assert b[..|b| - 1][..|b| - 2] == b[..|b| - 2];
  }

  lemma NumberOfFour(b: bytes)
    requires |b| == 4
    ensures Number(b) == Number(b[..2]) * 0x1_0000 + Number(b[2..])
  {
    LastTwo(b);
  }

  lemma NumberOfEight(b: bytes)
    requires |b| == 8
    ensures Number(b) == Number(b[..4]) * 0x1_0000_0000 + Number(b[4..])
  {
    LastTwo(b);
    LastTwo(b[..6]);
    LastTwo(b[4..]);
    assert b[..6][..4] == b[..4] && b[..6][4..] == b[4..][..2] && b[4..][2..] == b[6..];
    hide Number;
  }

  // ---------------------------------------------------------------- primitives

  lemma Word32Layout(v: uint32)
    ensures |Word32Bytes(v)| == 4 && Number(Word32Bytes(v)) == v
  {
    var w := Word32Bytes(v);
    NumberOfFour(w);
    NumberOfTwo(w[..2]);
    NumberOfTwo(w[2..]);
  }

  /** Integers are big-endian, signed ones in two's complement. */
  lemma IntegerLayout(a: uint16, b: uint32, c: int64)
    ensures |Word16Bytes(a)| == 2 && Number(Word16Bytes(a)) == a
    ensures |Word32Bytes(b)| == 4 && Number(Word32Bytes(b)) == b
    ensures |Int64Bytes(c)| == 8 && Number(Int64Bytes(c)) == if c < 0 then c + 0x1_0000_0000_0000_0000 else c
  {
    NumberOfTwo(Word16Bytes(a));
    Word32Layout(b);
    var u := Unsigned(c);
    Word32Layout(u / 0x1_0000_0000);
    Word32Layout(u % 0x1_0000_0000);
    var w := Int64Bytes(c);
    hide Word32Bytes, Number;
    NumberOfEight(w);
    assert w[..4] == Word32Bytes(u / 0x1_0000_0000) && w[4..] == Word32Bytes(u % 0x1_0000_0000);
  }

  lemma ShortLayout(v: bytes)
    requires |v| <= 255
    ensures var s := ShortBytes(v); |s| == 1 + |v| && s[0] == |v| && At(s, 1, v)
  {
  }

  lemma LargeLayout(v: bytes)
    requires |v| <= 65535
    ensures var s := LargeBytes(v); |s| == 2 + |v| && Number(s[..2]) == |v| && At(s, 2, v)
  {
    IntegerLayout(|v|, 0, 0);
    hide Word16Bytes, Number;
    assert LargeBytes(v)[..2] == Word16Bytes(|v|);
  }

  /** Strings carry their length in front, in one octet or two; flags and options are the
      letters T and F and the digits 1 and 0. */
  lemma StringLayout(short: bytes, long: bytes)
    requires |short| <= 255 && |long| <= 65535
    ensures var s := ShortBytes(short); |s| == 1 + |short| && s[0] == |short| && At(s, 1, short)
    ensures var s := LargeBytes(long); |s| == 2 + |long| && Number(s[..2]) == |long| && At(s, 2, long)
    ensures IsText(BoolBytes(true), "T") && IsText(BoolBytes(false), "F")
    ensures IsText(MaybeBytes(None), "0")
    ensures var s := MaybeBytes(Some(short)); TextAt(s, 0, "1") && s[1..] == ShortBytes(short)
  {
    ShortLayout(short);
    LargeLayout(long);
    hide ShortBytes, LargeBytes, At, Number;
  }

  // ---------------------------------------------------------------- transmissions

  /** Correlation identifier, entity and command, from offset `i` to the end. */
  predicate Tail(s: bytes, i: nat, t: Transmission) {
    var k := i + if t.corrID == NO_CORR_ID then 1 else 25;
    && k + 1 + |t.entityID| + |t.command| == |s|
    && (if t.corrID == NO_CORR_ID then s[i] == 0 else s[i] == 24 && At(s, i + 1, t.corrID))
    && s[k] == |t.entityID| && At(s, k + 1, t.entityID)
    && At(s, k + 1 + |t.entityID|, t.command)
  }

  lemma CorrLayout(c: CorrID)
    ensures var s := CorrBytes(c);
            if c == NO_CORR_ID then |s| == 1 && s[0] == 0 else |s| == 25 && s[0] == 24 && At(s, 1, c)
  {
  }

  lemma OneShort(a: bytes, more: bytes)
    requires |a| <= 255
    ensures var s := ShortBytes(a) + more; |s| >= 1 + |a| && s[0] == |a| && At(s, 1, a)
  {
    ShortLayout(a);
    hide ShortBytes;
    AtFront(ShortBytes(a), 1, a, more);
  }

  lemma TailLayout(front: bytes, t: Transmission)
    requires |t.entityID| <= 255
    ensures Tail(front + (CorrBytes(t.corrID) + (ShortBytes(t.entityID) + t.command)), |front|, t)
  {
    hide CorrBytes, ShortBytes, At;
    var corr, short := CorrBytes(t.corrID), ShortBytes(t.entityID);
    var rest := short + t.command;
    CorrLayout(t.corrID);
    ShortLayout(t.entityID);
    OneShort(t.entityID, t.command);
    AtWhole(t.command);
    AtBack(short, t.command, 0, t.command);
    AtBack(corr, rest, 1, t.entityID);
    AtBack(corr, rest, |short|, t.command);
    AtBack(front, corr + rest, |corr| + 1, t.entityID);
    AtBack(front, corr + rest, |corr| + |short|, t.command);
    if t.corrID != NO_CORR_ID {
      AtFront(corr, 1, t.corrID, rest);
      AtBack(front, corr + rest, 1, t.corrID);
    }
  }

  /** What is signed begins with the session identifier, at every version. */
  lemma AuthLayout(sess: bytes, t: Transmission)
    requires |sess| <= 255 && |t.entityID| <= 255
    ensures var s := AuthBytes(sess, t);
            |s| > 0 && s[0] == |sess| && At(s, 1, sess) && Tail(s, 1 + |sess|, t)
  {
    TailLayout([|sess|] + sess, t);
    assert AuthBytes(sess, t) == ([|sess|] + sess) + (CorrBytes(t.corrID) + (ShortBytes(t.entityID) + t.command));
  }

  lemma TwoShorts(a: bytes, b: bytes, more: bytes)
    requires |a| <= 255 && |b| <= 255
    ensures var s := ShortBytes(a) + ShortBytes(b) + more;
            && |s| >= 2 + |a| + |b| && s[0] == |a| && At(s, 1, a)
            && s[1 + |a|] == |b| && At(s, 2 + |a|, b)
  {
    ShortLayout(a);
    ShortLayout(b);
    hide ShortBytes;
    var x, y := ShortBytes(a), ShortBytes(b);
    AtFront(x, 1, a, y);
    AtBack(x, y, 1, b);
    AtFront(x + y, 1, a, more);
    AtFront(x + y, |x| + 1, b, more);
  }

  lemma WireParts(v: uint16, sess: bytes, t: Transmission)
    requires WithinLimits(sess, t)
    ensures var end := CorrBytes(t.corrID) + (ShortBytes(t.entityID) + t.command);
            WireBytes(v, sess, t) ==
            if v < 7 then ShortBytes(t.authorization) + ShortBytes(sess) + end else ShortBytes(t.authorization) + end
  {
    hide CorrBytes, ShortBytes;
  }

  /** What is sent begins with the authorization; the session identifier follows only below
      version 7. */
  lemma WireLayout(v: uint16, sess: bytes, t: Transmission)
    requires WithinLimits(sess, t)
    ensures var s, i := WireBytes(v, sess, t), 1 + |t.authorization|;
            && |s| >= i && s[0] == |t.authorization| && At(s, 1, t.authorization)
            && if v < 7 then |s| > i && s[i] == |sess| && At(s, i + 1, sess) && Tail(s, i + 1 + |sess|, t)
               else Tail(s, i, t)
  {
    hide CorrBytes, Tail, At, ShortBytes, WireBytes;
    WireParts(v, sess, t);
    var end := CorrBytes(t.corrID) + (ShortBytes(t.entityID) + t.command);
    ShortLayout(t.authorization);
    if v < 7 {
      ShortLayout(sess);
      TwoShorts(t.authorization, sess, end);
      TailLayout(ShortBytes(t.authorization) + ShortBytes(sess), t);
    } else {
      OneShort(t.authorization, end);
      TailLayout(ShortBytes(t.authorization), t);
    }
  }

  /** Below version 7 the signed octets follow the authorization on the wire as they are;
      from version 7 on they do so without the session identifier. */
  lemma WireCarriesAuth(v: uint16, sess: bytes, t: Transmission)
    requires WithinLimits(sess, t)
    ensures v < 7 ==> WireBytes(v, sess, t) == ShortBytes(t.authorization) + AuthBytes(sess, t)
    ensures v >= 7 ==>
              exists rest :: WireBytes(v, sess, t) == ShortBytes(t.authorization) + rest && AuthBytes(sess, t) == ShortBytes(sess) + rest
  {
    hide CorrBytes, ShortBytes;
    var rest := CorrBytes(t.corrID) + (ShortBytes(t.entityID) + t.command);
    assert AuthBytes(sess, t) == ShortBytes(sess) + rest;
    assert v >= 7 ==> WireBytes(v, sess, t) == ShortBytes(t.authorization) + rest;
  }

  // ---------------------------------------------------------------- blocks

  /** Where the `i`-th transmission of a block starts. */
  function Offset(bodies: seq<bytes>, i: nat): nat
    requires i <= |bodies|
  {
    if i == 0 then 1 else Offset(bodies, i - 1) + 2 + |bodies[i - 1]|
  }

  lemma {:induction false} OffsetOfTail(bodies: seq<bytes>, i: nat)
    requires 0 < i <= |bodies|
    ensures Offset(bodies, i) == 2 + |bodies[0]| + Offset(bodies[1..], i - 1)
  {
    if i == 1 {
      assert Offset(bodies, 0) == 1;
    } else {
      OffsetOfTail(bodies, i - 1);
    }
  }

  lemma FramedFirst(bodies: seq<bytes>)
    requires (forall b <- bodies :: |b| <= MAX_LARGE) && bodies != []
    ensures Framed(bodies) == LargeBytes(bodies[0]) + Framed(bodies[1..])
  {
  }

  lemma LargeLength(b: bytes)
    requires |b| <= MAX_LARGE
    ensures |LargeBytes(b)| == 2 + |b|
  {
  }

  lemma {:induction false} FramedLength(bodies: seq<bytes>)
    requires forall b <- bodies :: |b| <= MAX_LARGE
    ensures |Framed(bodies)| + 1 == Offset(bodies, |bodies|)
  {
    hide LargeBytes;
    if bodies == [] {
      assert Offset(bodies, 0) == 1;
    } else {
      FramedLength(bodies[1..]);
      OffsetOfTail(bodies, |bodies|);
      LargeLength(bodies[0]);
    }
  }

  lemma {:induction false} FramedLayout(bodies: seq<bytes>, i: nat)
    requires (forall b <- bodies :: |b| <= MAX_LARGE) && i < |bodies|
    ensures Offset(bodies, i) >= 1 && At(Framed(bodies), Offset(bodies, i) - 1, LargeBytes(bodies[i]))
  {
    hide LargeBytes, Framed, At;
    var first, rest := LargeBytes(bodies[0]), Framed(bodies[1..]);
    FramedFirst(bodies);
    if i == 0 {
      AtWhole(first);
      AtFront(first, 0, first, rest);
    } else {
      hide Offset;
      FramedLayout(bodies[1..], i - 1);
      OffsetOfTail(bodies, i);
      LargeLength(bodies[0]);
      AtBack(first, rest, Offset(bodies[1..], i - 1) - 1, LargeBytes(bodies[i]));
    }
  }

  lemma BlockPart(s: bytes, at: nat, body: bytes)
    requires At(s, at, body) && |body| >= 2
    ensures at + |body| <= |s| && s[at..at + 2] == body[..2]
  {
  }

  /** A block is one octet for the count, and then each transmission behind its length in
      two octets. */
  lemma BlockLayout(bodies: seq<bytes>, i: nat)
    requires Blockable(bodies) && i < |bodies|
    ensures var s, at := BlockBytes(bodies), Offset(bodies, i);
            && |s| == Offset(bodies, |bodies|) && s[0] == |bodies|
            && at + 2 + |bodies[i]| <= |s|
            && Number(s[at..at + 2]) == |bodies[i]| && At(s, at + 2, bodies[i])
  {
    hide LargeBytes, Framed, Number, Offset, At;
    FramedLength(bodies);
    FramedLayout(bodies, i);
    LargeLayout(bodies[i]);
    var s, at, body := BlockBytes(bodies), Offset(bodies, i), LargeBytes(bodies[i]);
    AtBack([|bodies|], Framed(bodies), at - 1, body);
    Within(s, at, body, 2, bodies[i]);
    BlockPart(s, at, body);
  }

  /** A transport block is the length of the payload in two octets, the payload, and then
      '#' up to 16384 octets. */
  lemma PadLayout(payload: bytes)
    requires |payload| <= 16382
    ensures var s := Pad(payload);
            && |s| == 16384 && Number(s[..2]) == |payload| && At(s, 2, payload)
            && forall i | 2 + |payload| <= i < 16384 :: s[i] == '#' as int
  {
    IntegerLayout(|payload|, 0, 0);
    hide Word16Bytes, Number;
    assert Pad(payload)[..2] == Word16Bytes(|payload|);
  }

  // ---------------------------------------------------------------- commands and messages

  lemma TagsAreText()
    ensures IsText(NEW_TAG, "NEW ") && IsText(SUB_TAG, "SUB") && IsText(SEND_TAG, "SEND ")
    ensures IsText(ACK_TAG, "ACK ") && IsText(PING_TAG, "PING")
    ensures IsText(IDS_TAG, "IDS ") && IsText(MSG_TAG, "MSG ") && IsText(OK_TAG, "OK")
    ensures IsText(PONG_TAG, "PONG") && IsText(END_TAG, "END") && IsText(ERR_TAG, "ERR ")
  {
  }

  /** Which commands can be encoded: those whose strings have at most 255 octets. */
  predicate HasShortStrings(c: Command) {
    match c
    case New(req) => |req.rcvAuthKey| <= 255 && |req.rcvDhKey| <= 255 && |req.basicAuth| <= 255
    case Ack(id) => |id| <= 255
    case _ => true
  }

  /** Every command, octet by octet. */
  predicate Spelled(v: uint16, c: Command, s: bytes) {
    match c
    case Ping => IsText(s, "PING")
    case Sub => IsText(s, "SUB")
    case Send(notification, body) =>
      |s| == 7 + |body| && TextAt(s, 0, "SEND ") && s[5] == (if notification then 'T' else 'F') as int && s[6] == ' ' as int && At(s, 7, body)
    case Ack(id) =>
      |s| == 5 + |id| && TextAt(s, 0, "ACK ") && s[4] == |id| && At(s, 5, id)
    case New(req) =>
      var i := 5 + |req.rcvAuthKey|;
      var j := i + 1 + |req.rcvDhKey|;
      var k := j + if req.basicAuth == [] then 1 else 2 + |req.basicAuth|;
      && |s| == k + (if v >= 9 then 2 else 1)
      && TextAt(s, 0, "NEW ")
      && s[4] == |req.rcvAuthKey| && At(s, 5, req.rcvAuthKey)
      && s[i] == |req.rcvDhKey| && At(s, i + 1, req.rcvDhKey)
      && (if req.basicAuth == [] then s[j] == '0' as int
          else s[j] == '1' as int && s[j + 1] == |req.basicAuth| && At(s, j + 2, req.basicAuth))
      && s[k] == (if req.subscribeMode == 0 then 'S' as int else req.subscribeMode)
      && (v >= 9 ==> s[k + 1] == (if req.senderCanSecure then 'T' else 'F') as int)
  }

  lemma NewStrings(req: NewQueueReq, s: bytes, end: bytes)
    requires HasShortStrings(New(req))
    requires s == NEW_TAG + (ShortBytes(req.rcvAuthKey) + ShortBytes(req.rcvDhKey) + end)
    ensures var i := 5 + |req.rcvAuthKey|;
            var j := i + 1 + |req.rcvDhKey|;
            && |s| == j + |end| && TextAt(s, 0, "NEW ")
            && s[4] == |req.rcvAuthKey| && At(s, 5, req.rcvAuthKey)
            && s[i] == |req.rcvDhKey| && At(s, i + 1, req.rcvDhKey)
            && At(s, j, end)
  {
    hide ShortBytes, At;
    var a, d := req.rcvAuthKey, req.rcvDhKey;
    var x, y := ShortBytes(a), ShortBytes(d);
    ShortLayout(a);
    ShortLayout(d);
    TwoShorts(a, d, end);
    AtBack(NEW_TAG, x + y + end, 1, a);
    AtBack(NEW_TAG, x + y + end, 2 + |a|, d);
    AtWhole(end);
    AtBack(x + y, end, 0, end);
    AtBack(NEW_TAG, x + y + end, |x + y|, end);
  }

  /** What follows the two keys of NEW. */
  function NewEnd(v: uint16, req: NewQueueReq): bytes
    requires |req.basicAuth| <= 255
  {
    MaybeBytes(if req.basicAuth == [] then None else Some(req.basicAuth))
    + ([if req.subscribeMode == 0 then SUBSCRIBE_ON_CREATE else req.subscribeMode]
    + if v >= VERSION_V9 then BoolBytes(req.senderCanSecure) else [])
  }

  lemma NewEndParts(v: uint16, req: NewQueueReq)
    requires |req.basicAuth| <= 255
    ensures var s, k := NewEnd(v, req), if req.basicAuth == [] then 1 else 2 + |req.basicAuth|;
            && |s| == k + (if v >= 9 then 2 else 1)
            && (if req.basicAuth == [] then s[0] == '0' as int
                else s[0] == '1' as int && s[1] == |req.basicAuth| && At(s, 2, req.basicAuth))
            && s[k] == (if req.subscribeMode == 0 then 'S' as int else req.subscribeMode)
            && (v >= 9 ==> s[k + 1] == (if req.senderCanSecure then 'T' else 'F') as int)
  {
  }

  lemma OctetAt(s: bytes, i: nat, t: bytes, k: nat)
    requires At(s, i, t) && k < |t|
    ensures i + k < |s| && s[i + k] == t[k]
  {
  }

  lemma NewOptions(v: uint16, req: NewQueueReq, s: bytes, j: nat)
    requires |req.basicAuth| <= 255 && At(s, j, NewEnd(v, req)) && |s| == j + |NewEnd(v, req)|
    ensures var k := j + if req.basicAuth == [] then 1 else 2 + |req.basicAuth|;
            && |s| == k + (if v >= 9 then 2 else 1)
            && (if req.basicAuth == [] then s[j] == '0' as int
                else s[j] == '1' as int && s[j + 1] == |req.basicAuth| && At(s, j + 2, req.basicAuth))
            && s[k] == (if req.subscribeMode == 0 then 'S' as int else req.subscribeMode)
            && (v >= 9 ==> s[k + 1] == (if req.senderCanSecure then 'T' else 'F') as int)
  {
    hide NewEnd, At;
    var end, k := NewEnd(v, req), if req.basicAuth == [] then 1 else 2 + |req.basicAuth|;
    NewEndParts(v, req);
    OctetAt(s, j, end, 0);
    OctetAt(s, j, end, k);
    if v >= 9 {
      OctetAt(s, j, end, k + 1);
    }
    if req.basicAuth != [] {
      OctetAt(s, j, end, 1);
      Within(s, j, end, 2, req.basicAuth);
    }
  }

  lemma NewForm(v: uint16, req: NewQueueReq)
    requires HasShortStrings(New(req)) && CommandBytes(v, New(req)).Ok?
    ensures CommandBytes(v, New(req)).value == NEW_TAG + (ShortBytes(req.rcvAuthKey) + ShortBytes(req.rcvDhKey) + NewEnd(v, req))
  {
    NewEncodable(v, req);
    NewLayout(v, req);
    hide NewFields, FieldsBytes, ShortBytes, MaybeBytes, BoolBytes;
  }

  lemma NewSpelled(v: uint16, req: NewQueueReq)
    requires HasShortStrings(New(req)) && CommandBytes(v, New(req)).Ok?
    ensures Spelled(v, New(req), CommandBytes(v, New(req)).value)
  {
    hide CommandBytes, NewEnd, ShortBytes, At, TextAt;
    var s := CommandBytes(v, New(req)).value;
    NewForm(v, req);
    NewStrings(req, s, NewEnd(v, req));
    NewOptions(v, req, s, 5 + |req.rcvAuthKey| + 1 + |req.rcvDhKey|);
  }

  /** EncodeCommand succeeds exactly for short strings, and then writes this. */
  lemma CommandSpelled(v: uint16, c: Command)
    ensures CommandBytes(v, c).Ok? <==> HasShortStrings(c)
    ensures CommandBytes(v, c).Err? ==> CommandBytes(v, c).error == ShortStringTooLong
    ensures HasShortStrings(c) ==> Spelled(v, c, CommandBytes(v, c).value)
  {
    if c.New? {
      NewEncodable(v, c.req);
      hide Spelled, NewFields, FieldsBytes;
      if HasShortStrings(c) {
        NewSpelled(v, c.req);
      }
    }
  }
}
