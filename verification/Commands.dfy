/** The commands a client issues and the messages a broker answers with, in smp/protocol.go. */
module Commands {
  import opened Bytes
  import opened Encoding
  import opened Protocol

  const NEW_TAG: bytes := [0x4E, 0x45, 0x57, 0x20]
  const SUB_TAG: bytes := [0x53, 0x55, 0x42]
  const SEND_TAG: bytes := [0x53, 0x45, 0x4E, 0x44, 0x20]
  const ACK_TAG: bytes := [0x41, 0x43, 0x4B, 0x20]
  const PING_TAG: bytes := [0x50, 0x49, 0x4E, 0x47]
  const IDS_TAG: bytes := [0x49, 0x44, 0x53, 0x20]
  const MSG_TAG: bytes := [0x4D, 0x53, 0x47, 0x20]
  const OK_TAG: bytes := [0x4F, 0x4B]
  const PONG_TAG: bytes := [0x50, 0x4F, 0x4E, 0x47]
  const END_TAG: bytes := [0x45, 0x4E, 0x44]
  const ERR_TAG: bytes := [0x45, 0x52, 0x52, 0x20]
  const SPACE: byte := 0x20
  const SUBSCRIBE_ON_CREATE: byte := 0x53

  // ---------------------------------------------------------------- commands

  datatype NewQueueReq = NewQueueReq(
    rcvAuthKey: bytes,
    rcvDhKey: bytes,
    basicAuth: bytes,
    subscribeMode: byte,
    senderCanSecure: bool)

  datatype Command =
    | New(req: NewQueueReq)
    | Sub
    | Send(notification: bool, body: bytes)
    | Ack(msgID: bytes)
    | Ping

  function NewFields(v: uint16, req: NewQueueReq): seq<Field> {
    [ Short(req.rcvAuthKey),
      Short(req.rcvDhKey),
      Maybe(if req.basicAuth == [] then None else Some(req.basicAuth)),
      Char(if req.subscribeMode == 0 then SUBSCRIBE_ON_CREATE else req.subscribeMode) ]
    + if v >= VERSION_V9 then [Bool(req.senderCanSecure)] else []
  }

  function CommandBytes(v: uint16, c: Command): Result<bytes> {
    match c
    case New(req) =>
      if forall f <- NewFields(v, req) :: Encoding.Encodable(f) then Ok(NEW_TAG + FieldsBytes(NewFields(v, req)))
      else Err(ShortStringTooLong)
    case Sub => Ok(SUB_TAG)
    case Send(n, body) => Ok(SEND_TAG + (BoolBytes(n) + ([SPACE] + body)))
    case Ack(id) => if |id| <= MAX_SHORT then Ok(ACK_TAG + ShortBytes(id)) else Err(ShortStringTooLong)
    case Ping => Ok(PING_TAG)
  }

  /** What of a command reaches the wire at version `v`: mode 0 stands for 'S', and the
      secure flag is dropped below version 9. */
  function Transmitted(v: uint16, c: Command): Command {
    match c
    case New(req) =>
      New(req.(subscribeMode := if req.subscribeMode == 0 then SUBSCRIBE_ON_CREATE else req.subscribeMode,
               senderCanSecure := v >= VERSION_V9 && req.senderCanSecure))
    case _ => c
  }

  lemma NewFieldsInjective(v: uint16, a: NewQueueReq, b: NewQueueReq)
    ensures NewFields(v, a) == NewFields(v, b) <==> Transmitted(v, New(a)) == Transmitted(v, New(b))
  {
    var x, y := NewFields(v, a), NewFields(v, b);
    assert |x| == |y|;
    if x == y {
      assert x[0] == y[0] && x[1] == y[1] && x[2] == y[2] && x[3] == y[3];
      assert v >= VERSION_V9 ==> x[4] == y[4];
    }
  }

  lemma NewKinds(v: uint16, a: NewQueueReq, b: NewQueueReq)
    ensures Kinds(NewFields(v, a)) == Kinds(NewFields(v, b))
  {
  }

  /** Commands of different kinds differ within their first two octets. */
  lemma TagsDiffer(v: uint16, a: Command, b: Command)
    requires CommandBytes(v, a).Ok? && CommandBytes(v, b).Ok?
    requires !(a.New? && b.New?) && !(a.Send? && b.Send?) && !(a.Ack? && b.Ack?)
    ensures CommandBytes(v, a) == CommandBytes(v, b) <==> a == b
  {
    hide FieldsBytes, NewFields, ShortBytes, BoolBytes;
    var x, y := CommandBytes(v, a).value, CommandBytes(v, b).value;
    assert x[0] == y[0] && x[1] == y[1] ==> a == b;
  }

  /** For one version, two commands share an encoding exactly when they transmit the same. */
  lemma CommandUnambiguous(v: uint16, a: Command, b: Command)
    requires CommandBytes(v, a).Ok? && CommandBytes(v, b).Ok?
    ensures CommandBytes(v, a) == CommandBytes(v, b) <==> Transmitted(v, a) == Transmitted(v, b)
  {
    hide FieldsBytes, NewFields;
    var x, y := CommandBytes(v, a).value, CommandBytes(v, b).value;
    match (a, b) {
      case (New(r), New(s)) =>
        NewFieldsInjective(v, r, s);
        NewKinds(v, r, s);
        SplitEqual(NEW_TAG, FieldsBytes(NewFields(v, r)), NEW_TAG, FieldsBytes(NewFields(v, s)));
        if x == y {
          assert FieldsBytes(NewFields(v, r)) + [] == FieldsBytes(NewFields(v, s)) + [];
          FieldsPrefixFree(NewFields(v, r), NewFields(v, s), [], []);
        }
      case (Send(m, p), Send(n, q)) =>
        SplitEqual(SEND_TAG, BoolBytes(m) + ([SPACE] + p), SEND_TAG, BoolBytes(n) + ([SPACE] + q));
        SplitEqual(BoolBytes(m), [SPACE] + p, BoolBytes(n), [SPACE] + q);
        SplitEqual([SPACE], p, [SPACE], q);
      case (Ack(i), Ack(j)) =>
        SplitEqual(ACK_TAG, ShortBytes(i), ACK_TAG, ShortBytes(j));
        SplitEqual([|i|], i, [|j|], j);
      case _ =>
        TagsDiffer(v, a, b);
    }
  }

  lemma NewEncodable(v: uint16, req: NewQueueReq)
    ensures (forall f <- NewFields(v, req) :: Encoding.Encodable(f))
       <==> |req.rcvAuthKey| <= MAX_SHORT && |req.rcvDhKey| <= MAX_SHORT && |req.basicAuth| <= MAX_SHORT
  {
    var fs := NewFields(v, req);
    assert fs[0] in fs && fs[1] in fs && fs[2] in fs;
  }

  lemma FieldsBytesFour(a: Field, b: Field, c: Field, d: Field, fs: seq<Field>)
    requires Encoding.Encodable(a) && Encoding.Encodable(b) && Encoding.Encodable(c) && Encoding.Encodable(d)
    requires forall f <- fs :: Encoding.Encodable(f)
    ensures forall f <- [a, b, c, d] + fs :: Encoding.Encodable(f)
    ensures FieldsBytes([a, b, c, d] + fs)
         == (FieldBytes(a) + FieldBytes(b)) + (FieldBytes(c) + (FieldBytes(d) + FieldsBytes(fs)))
  {
    hide FieldBytes, Encoding.Encodable;
    var f3, f2, f1 := [d] + fs, [c] + ([d] + fs), [b] + ([c] + ([d] + fs));
    assert FieldsBytes(f3) == FieldBytes(d) + FieldsBytes(fs) by { assert f3[1..] == fs; }
    assert FieldsBytes(f2) == FieldBytes(c) + FieldsBytes(f3) by { assert f2[1..] == f3; }
    assert FieldsBytes(f1) == FieldBytes(b) + FieldsBytes(f2) by { assert f1[1..] == f2; }
    assert FieldsBytes([a] + f1) == FieldBytes(a) + FieldsBytes(f1) by { assert ([a] + f1)[1..] == f1; }
    assert [a, b, c, d] + fs == [a] + f1;
  }

  lemma NewLayout(v: uint16, req: NewQueueReq)
    requires forall f <- NewFields(v, req) :: Encoding.Encodable(f)
    requires |req.rcvAuthKey| <= MAX_SHORT && |req.rcvDhKey| <= MAX_SHORT && |req.basicAuth| <= MAX_SHORT
    ensures FieldsBytes(NewFields(v, req))
         == (ShortBytes(req.rcvAuthKey) + ShortBytes(req.rcvDhKey))
          + (MaybeBytes(if req.basicAuth == [] then None else Some(req.basicAuth))
          + ([if req.subscribeMode == 0 then SUBSCRIBE_ON_CREATE else req.subscribeMode]
          + if v >= VERSION_V9 then BoolBytes(req.senderCanSecure) else []))
  {
    var mode := if req.subscribeMode == 0 then SUBSCRIBE_ON_CREATE else req.subscribeMode;
    var auth := Maybe(if req.basicAuth == [] then None else Some(req.basicAuth));
    var last := if v >= VERSION_V9 then [Bool(req.senderCanSecure)] else [];
    assert forall f <- last :: Encoding.Encodable(f);
    FieldsBytesFour(Short(req.rcvAuthKey), Short(req.rcvDhKey), auth, Char(mode), last);
    assert FieldsBytes(last) == if v >= VERSION_V9 then BoolBytes(req.senderCanSecure) + [] else [];
  }

  /** The NEW case of EncodeCommand. */
  method EncodeNew(v: uint16, req: NewQueueReq) returns (r: Result<bytes>)
    ensures r == CommandBytes(v, New(req))
  {
    hide FieldsBytes, ShortBytes, MaybeBytes, BoolBytes, NewFields;
    NewEncodable(v, req);
    var e := new Encoder();
    e.Raw(NEW_TAG);
    var _ :- e.ShortString(req.rcvAuthKey);
    var _ :- e.ShortString(req.rcvDhKey);
    var _ :- e.MaybeShortString(req.basicAuth != [], req.basicAuth);
    NewLayout(v, req);
    ghost var keys := ShortBytes(req.rcvAuthKey) + ShortBytes(req.rcvDhKey);
    ghost var auth := MaybeBytes(if req.basicAuth == [] then None else Some(req.basicAuth));
    assert e.buf == NEW_TAG + keys + auth;
    var mode := req.subscribeMode;
    if mode == 0 {
      mode := SUBSCRIBE_ON_CREATE;
    }
    e.Char(mode);
    if v >= VERSION_V9 {
      e.Bool(req.senderCanSecure);
    }
    ghost var last := [mode] + if v >= VERSION_V9 then BoolBytes(req.senderCanSecure) else [];
    assert e.buf == NEW_TAG + keys + auth + last;
    Concat4(NEW_TAG, keys, auth, last);
    return Ok(e.buf);
  }

  method EncodeCommand(v: uint16, c: Command) returns (r: Result<bytes>)
    ensures r == CommandBytes(v, c)
  {
    hide FieldsBytes, ShortBytes, BoolBytes, NewFields;
    var e := new Encoder();
    match c {
      case New(req) =>
        r := EncodeNew(v, req);
      case Sub =>
        return Ok(SUB_TAG);
      case Send(n, body) =>
        e.Raw(SEND_TAG);
        e.Bool(n);
        e.Char(SPACE);
        e.Raw(body);
        assert e.buf == SEND_TAG + BoolBytes(n) + [SPACE] + body;
        Concat4(SEND_TAG, BoolBytes(n), [SPACE], body);
        return Ok(e.buf);
      case Ack(id) =>
        e.Raw(ACK_TAG);
        var _ :- e.ShortString(id);
        assert e.buf == ACK_TAG + ShortBytes(id);
        return Ok(e.buf);
      case Ping =>
        return Ok(PING_TAG);
    }
  }

  // ---------------------------------------------------------------- broker messages

  /** A delivered message; its time stamp, flags and quota marker are inside the encrypted
      body and are left at their zero values by the source. */
  datatype Message = Message(id: bytes, body: bytes)

  datatype BrokerMsg =
    | IDS(recipientID: bytes, senderID: bytes, srvDhKey: bytes, sndCanSecure: bool)
    | MSG(msg: Message)
    | OK
    | PONG
    | END
    | ERR(kind: bytes, detail: bytes)

  function ParseIDS(v: uint16, body: bytes): Parse<BrokerMsg> {
    var rcv := ParseShort(body);
    if rcv.Stuck? then Stuck(rcv.error, rcv.rest) else
    var snd := ParseShort(rcv.rest);
    if snd.Stuck? then Stuck(snd.error, snd.rest) else
    var dh := ParseShort(snd.rest);
    if dh.Stuck? then Stuck(dh.error, dh.rest) else
    if v < VERSION_V9 then Parsed(IDS(rcv.value, snd.value, dh.value, false), dh.rest) else
    var secure := ParseBool(dh.rest);
    if secure.Stuck? then Stuck(secure.error, secure.rest) else
    Parsed(IDS(rcv.value, snd.value, dh.value, secure.value), secure.rest)
  }

  function ParseMSG(body: bytes): Parse<BrokerMsg> {
    var id := ParseShort(body);
    if id.Stuck? then Stuck(id.error, id.rest) else Parsed(MSG(Message(id.value, id.rest)), [])
  }

  function DecodeErr(body: bytes): BrokerMsg {
    var sp := IndexOf(body, SPACE);
    if sp == -1 then ERR(body, []) else ERR(body[..sp], body[sp + 1..])
  }

  function DecodeBroker(v: uint16, raw: bytes): Result<BrokerMsg> {
    if |raw| == 0 then Err(BadEncoding)
    else if IDS_TAG <= raw then ParseIDS(v, raw[4..]).ToResult()
    else if MSG_TAG <= raw then ParseMSG(raw[4..]).ToResult()
    else if raw == OK_TAG then Ok(OK)
    else if raw == PONG_TAG then Ok(PONG)
    else if raw == END_TAG then Ok(END)
    else if ERR_TAG <= raw then Ok(DecodeErr(raw[4..]))
    else Err(BadEncoding)
  }

  function IDSHead(v: uint16, m: BrokerMsg): bytes
    requires m.IDS? && |m.recipientID| <= MAX_SHORT && |m.senderID| <= MAX_SHORT && |m.srvDhKey| <= MAX_SHORT
  {
    IDS_TAG + (ShortBytes(m.recipientID) + (ShortBytes(m.senderID) + (ShortBytes(m.srvDhKey)
    + if v < VERSION_V9 then [] else BoolBytes(m.sndCanSecure))))
  }

  /** The octets that mean `m`: identifiers may be followed by anything, an error's kind
      ends at its first space, and everything else is written one way only. */
  ghost predicate Means(v: uint16, raw: bytes, m: BrokerMsg) {
    match m
    case IDS(rcv, snd, dh, secure) =>
      && |rcv| <= MAX_SHORT && |snd| <= MAX_SHORT && |dh| <= MAX_SHORT
      && (v < VERSION_V9 ==> !secure)
      && IDSHead(v, m) <= raw
    case MSG(Message(id, body)) => |id| <= MAX_SHORT && raw == MSG_TAG + (ShortBytes(id) + body)
    case OK => raw == OK_TAG
    case PONG => raw == PONG_TAG
    case END => raw == END_TAG
    case ERR(kind, detail) =>
      && SPACE !in kind
      && (raw == ERR_TAG + (kind + ([SPACE] + detail)) || (detail == [] && raw == ERR_TAG + kind))
  }

  lemma IDSJoin(v: uint16, m: BrokerMsg, tail: bytes, s3: bytes, s2: bytes, s1: bytes, s0: bytes)
    requires m.IDS? && |m.recipientID| <= MAX_SHORT && |m.senderID| <= MAX_SHORT && |m.srvDhKey| <= MAX_SHORT
    requires s3 == (if v < VERSION_V9 then [] else BoolBytes(m.sndCanSecure)) + tail
    requires s2 == ShortBytes(m.srvDhKey) + s3
    requires s1 == ShortBytes(m.senderID) + s2
    requires s0 == ShortBytes(m.recipientID) + s1
    ensures IDS_TAG + s0 == IDSHead(v, m) + tail
  {
    hide ShortBytes, BoolBytes;
  }

  lemma IDSRead(v: uint16, body: bytes)
    requires ParseIDS(v, body).Parsed?
    ensures Means(v, IDS_TAG + body, ParseIDS(v, body).value)
  {
    var rcv := ParseShort(body);
    var snd := ParseShort(rcv.rest);
    var dh := ParseShort(snd.rest);
    ShortExact(body, rcv.value, rcv.rest);
    ShortExact(rcv.rest, snd.value, snd.rest);
    ShortExact(snd.rest, dh.value, dh.rest);
    if v >= VERSION_V9 {
      BoolExact(dh.rest, ParseBool(dh.rest).value, ParseBool(dh.rest).rest);
    }
    var m, tail := ParseIDS(v, body).value, ParseIDS(v, body).rest;
    IDSJoin(v, m, tail, dh.rest, snd.rest, rcv.rest, body);
  }

  lemma IDSWritten(v: uint16, m: BrokerMsg, tail: bytes)
    requires m.IDS? && |m.recipientID| <= MAX_SHORT && |m.senderID| <= MAX_SHORT && |m.srvDhKey| <= MAX_SHORT
    requires v < VERSION_V9 ==> !m.sndCanSecure
    ensures IDS_TAG <= IDSHead(v, m) + tail
    ensures ParseIDS(v, (IDSHead(v, m) + tail)[4..]).ToResult() == Ok(m)
  {
    hide ShortBytes, BoolBytes;
    var flag := if v < VERSION_V9 then [] else BoolBytes(m.sndCanSecure);
    var s3 := flag + tail;
    var s2 := ShortBytes(m.srvDhKey) + s3;
    var s1 := ShortBytes(m.senderID) + s2;
    var s0 := ShortBytes(m.recipientID) + s1;
    assert (IDSHead(v, m) + tail)[4..] == s0;
    ShortExact(s0, m.recipientID, s1);
    ShortExact(s1, m.senderID, s2);
    ShortExact(s2, m.srvDhKey, s3);
    BoolExact(s3, m.sndCanSecure, tail);
  }

  lemma ErrRead(body: bytes)
    ensures var m := DecodeErr(body);
            SPACE !in m.kind && (body == m.kind + ([SPACE] + m.detail) || (m.detail == [] && body == m.kind))
  {
    hide IndexOf;
    var sp := IndexOf(body, SPACE);
    if sp >= 0 {
      assert body == body[..sp] + ([SPACE] + body[sp + 1..]);
    }
  }

  lemma ErrWritten(kind: bytes, detail: bytes)
    requires SPACE !in kind
    ensures DecodeErr(kind + ([SPACE] + detail)) == ERR(kind, detail) && DecodeErr(kind) == ERR(kind, [])
  {
    hide IndexOf;
    var body := kind + ([SPACE] + detail);
    assert body == kind + [SPACE] + detail;
    FirstCut(kind, SPACE, detail);
    assert body[..|kind|] == kind && body[|kind| + 1..] == detail;
  }

  lemma ErrExact(body: bytes, kind: bytes, detail: bytes)
    ensures DecodeErr(body) == ERR(kind, detail)
       <==> SPACE !in kind && (body == kind + ([SPACE] + detail) || (detail == [] && body == kind))
  {
    hide DecodeErr;
    ErrRead(body);
    if SPACE !in kind {
      ErrWritten(kind, detail);
    }
  }

  lemma BrokerRead(v: uint16, raw: bytes)
    requires DecodeBroker(v, raw).Ok?
    ensures Means(v, raw, DecodeBroker(v, raw).value)
  {
    hide ParseShort, ShortBytes, ParseIDS, IDSHead;
    if IDS_TAG <= raw {
      IDSRead(v, raw[4..]);
      assert raw == IDS_TAG + raw[4..];
    } else if MSG_TAG <= raw {
      assert raw == MSG_TAG + raw[4..];
      ShortExact(raw[4..], ParseShort(raw[4..]).value, ParseShort(raw[4..]).rest);
    } else if ERR_TAG <= raw && raw != OK_TAG && raw != PONG_TAG && raw != END_TAG {
      assert raw == ERR_TAG + raw[4..];
      var m := DecodeErr(raw[4..]);
      ErrExact(raw[4..], m.kind, m.detail);
    }
  }

  lemma BrokerWritten(v: uint16, raw: bytes, m: BrokerMsg)
    requires Means(v, raw, m)
    ensures DecodeBroker(v, raw) == Ok(m)
  {
    hide ParseIDS, ParseShort, ShortBytes, BoolBytes, DecodeErr;
    match m
    case IDS(_, _, _, _) =>
      var head := IDSHead(v, m);
      assert raw == head + raw[|head|..];
      IDSWritten(v, m, raw[|head|..]);
    case MSG(Message(id, body)) =>
      assert MSG_TAG <= raw && raw[4..] == ShortBytes(id) + body;
      ShortExact(raw[4..], id, body);
      assert raw[0] == 0x4D;
    case ERR(kind, detail) =>
      assert ERR_TAG <= raw && raw[0] == 0x45 && raw[1] == 0x52;
      if raw == ERR_TAG + (kind + ([SPACE] + detail)) {
        assert raw[4..] == kind + ([SPACE] + detail);
      } else {
        assert raw[4..] == kind;
      }
      ErrExact(raw[4..], kind, detail);
    case PONG =>
      assert raw[0] == 0x50;
    case _ =>
  }

  /** DecodeBrokerMsg accepts exactly the octets that mean some message, and returns it. */
  lemma BrokerExact(v: uint16, raw: bytes, m: BrokerMsg)
    ensures DecodeBroker(v, raw) == Ok(m) <==> Means(v, raw, m)
  {
    if DecodeBroker(v, raw) == Ok(m) {
      BrokerRead(v, raw);
    }
    if Means(v, raw, m) {
      BrokerWritten(v, raw, m);
    }
  }

  method DecodeIDS(v: uint16, body: bytes) returns (r: Result<BrokerMsg>)
    ensures r == ParseIDS(v, body).ToResult()
  {
    hide ParseShort, ParseBool;
    var d := new Decoder(body);
    var rcv :- d.ShortString();
    var snd :- d.ShortString();
    var dh :- d.ShortString();
    var secure := false;
    if v >= VERSION_V9 {
      secure :- d.Bool();
    }
    return Ok(IDS(rcv, snd, dh, secure));
  }

  method DecodeMSG(body: bytes) returns (r: Result<BrokerMsg>)
    ensures r == ParseMSG(body).ToResult()
  {
    var d := new Decoder(body);
    var id :- d.ShortString();
    var rest := d.Tail();
    return Ok(MSG(Message(id, rest)));
  }

  method DecodeBrokerMsg(v: uint16, raw: bytes) returns (r: Result<BrokerMsg>)
    ensures r == DecodeBroker(v, raw)
  {
    if |raw| == 0 {
      return Err(BadEncoding);
    }
    if IDS_TAG <= raw {
      r := DecodeIDS(v, raw[4..]);
    } else if MSG_TAG <= raw {
      r := DecodeMSG(raw[4..]);
    } else if raw == OK_TAG {
      r := Ok(OK);
    } else if raw == PONG_TAG {
      r := Ok(PONG);
    } else if raw == END_TAG {
      r := Ok(END);
    } else if ERR_TAG <= raw {
      r := Ok(DecodeErr(raw[4..]));
    } else {
      r := Err(BadEncoding);
    }
  }
}
