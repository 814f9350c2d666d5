/** Transmissions and counted blocks of smp/protocol.go. */
module Protocol {
  import opened Bytes
  import opened Encoding

  const VERSION_V7: uint16 := 7
  const VERSION_V9: uint16 := 9

  type CorrID = c: bytes | |c| == 24 witness Repeat(0, 24)

  /** The all-zero identifier marks a message that the server pushes on its own. */
  const NO_CORR_ID: CorrID := Repeat(0, 24)

  datatype Transmission = Transmission(
    corrID: CorrID,
    entityID: bytes,
    command: bytes,
    authorization: bytes)

  // ---------------------------------------------------------------- one transmission

  function CorrBytes(c: CorrID): bytes {
    if c == NO_CORR_ID then [0x00] else [0x18] + c
  }

  function ParseCorr(s: bytes): Parse<CorrID> {
    var p := ParseChar(s);
    if p.Stuck? then Stuck(p.error, p.rest) else
    if p.value == 0x00 then Parsed(NO_CORR_ID, p.rest)
    else if p.value == 0x18 then
      var p2 := Take(24, p.rest);
      if p2.Stuck? then Stuck(p2.error, p2.rest) else
      Parsed(p2.value, p2.rest)
    else Stuck(BadEncoding, p.rest)
  }

  /** The session identifier travels only below version 7. */
  function SessionBytes(v: uint16, sess: bytes): bytes
    requires v < VERSION_V7 ==> |sess| <= MAX_SHORT
  {
    if v < VERSION_V7 then ShortBytes(sess) else []
  }

  /** A transmission body whose correlation identifier is spelled as `corr`. */
  function Body(v: uint16, sess: bytes, t: Transmission, corr: bytes): bytes
    requires v < VERSION_V7 ==> |sess| <= MAX_SHORT
    requires |t.authorization| <= MAX_SHORT && |t.entityID| <= MAX_SHORT
  {
    ShortBytes(t.authorization) + (SessionBytes(v, sess) + (corr + (ShortBytes(t.entityID) + t.command)))
  }

  predicate WithinLimits(sess: bytes, t: Transmission) {
    |sess| <= MAX_SHORT && |t.entityID| <= MAX_SHORT && |t.authorization| <= MAX_SHORT
  }

  function WireBytes(v: uint16, sess: bytes, t: Transmission): bytes
    requires WithinLimits(sess, t)
  {
    Body(v, sess, t, CorrBytes(t.corrID))
  }

  /** What the authenticator covers. */
  function AuthBytes(sess: bytes, t: Transmission): bytes
    requires |sess| <= MAX_SHORT && |t.entityID| <= MAX_SHORT
  {
    ShortBytes(sess) + (CorrBytes(t.corrID) + (ShortBytes(t.entityID) + t.command))
  }

  function ParseSession(v: uint16, sess: bytes, s: bytes): Parse<()> {
    if v < VERSION_V7 then
      var p := ParseShort(s);
      if p.Stuck? then Stuck(p.error, p.rest) else
      if p.value == sess then Parsed((), p.rest) else Stuck(BadEncoding, p.rest)
    else
      Parsed((), s)
  }

  function ParseTransmission(v: uint16, sess: bytes, body: bytes): Parse<Transmission> {
    var p := ParseShort(body);
    if p.Stuck? then Stuck(p.error, p.rest) else
    var p2 := ParseSession(v, sess, p.rest);
    if p2.Stuck? then Stuck(p2.error, p2.rest) else
    var p3 := ParseCorr(p2.rest);
    if p3.Stuck? then Stuck(p3.error, p3.rest) else
    var p4 := ParseShort(p3.rest);
    if p4.Stuck? then Stuck(p4.error, p4.rest) else
    Parsed(Transmission(p3.value, p4.value, p4.rest, p.value), [])
  }

  /** Both spellings of an identifier that the decoder takes: the encoder's own and, for
      the zero identifier, the long one. */
  predicate SpellsCorr(corr: bytes, c: CorrID) {
    corr == CorrBytes(c) || corr == [0x18] + c
  }

  lemma CorrExact(s: bytes, c: CorrID, rest: bytes)
    ensures ParseCorr(s) == Parsed(c, rest) <==> s == CorrBytes(c) + rest || s == [0x18] + c + rest
  {
    assert [0x18] + (c + rest) == [0x18] + c + rest;
    CharExact(s, 0x18, c + rest);
    CharExact(s, 0x00, rest);
    TakeExact(24, c + rest, c, rest);
    if ParseCorr(s) == Parsed(c, rest) && s[0] != 0 {
      CharExact(s, 0x18, s[1..]);
      TakeExact(24, s[1..], c, rest);
    }
  }

  lemma SessionExact(v: uint16, sess: bytes, s: bytes, rest: bytes)
    ensures ParseSession(v, sess, s) == Parsed((), rest)
       <==> (v < VERSION_V7 ==> |sess| <= MAX_SHORT) && s == SessionBytes(v, sess) + rest
  {
    if v < VERSION_V7 {
      ShortExact(s, sess, rest);
    }
  }

  /** A body that decodes to `t`: every field present and within its limit, the session
      identifier the expected one, the correlation identifier spelled either way. */
  ghost predicate WellFormed(v: uint16, sess: bytes, body: bytes, t: Transmission) {
    && (v < VERSION_V7 ==> |sess| <= MAX_SHORT)
    && |t.authorization| <= MAX_SHORT
    && |t.entityID| <= MAX_SHORT
    && exists corr | SpellsCorr(corr, t.corrID) :: body == Body(v, sess, t, corr)
  }

  lemma TransmissionWritten(v: uint16, sess: bytes, t: Transmission, corr: bytes)
    requires v < VERSION_V7 ==> |sess| <= MAX_SHORT
    requires |t.authorization| <= MAX_SHORT && |t.entityID| <= MAX_SHORT
    requires SpellsCorr(corr, t.corrID)
    ensures ParseTransmission(v, sess, Body(v, sess, t, corr)) == Parsed(t, [])
  {
    var s3 := ShortBytes(t.entityID) + t.command;
    var s2 := corr + s3;
    var s1 := SessionBytes(v, sess) + s2;
    ShortExact(Body(v, sess, t, corr), t.authorization, s1);
    SessionExact(v, sess, s1, s2);
    CorrExact(s2, t.corrID, s3);
    ShortExact(s3, t.entityID, t.command);
  }

  lemma TransmissionRead(v: uint16, sess: bytes, body: bytes)
    requires ParseTransmission(v, sess, body).Parsed?
    ensures WellFormed(v, sess, body, ParseTransmission(v, sess, body).value)
  {
    var p1 := ParseShort(body);
    var p2 := ParseSession(v, sess, p1.rest);
    var p3 := ParseCorr(p2.rest);
    var p4 := ParseShort(p3.rest);
    ShortExact(body, p1.value, p1.rest);
    SessionExact(v, sess, p1.rest, p2.rest);
    CorrExact(p2.rest, p3.value, p3.rest);
    ShortExact(p3.rest, p4.value, p4.rest);
    var t := ParseTransmission(v, sess, body).value;
    var corr := if p2.rest == CorrBytes(p3.value) + p3.rest then CorrBytes(p3.value) else [0x18] + p3.value;
    assert SpellsCorr(corr, t.corrID) && body == Body(v, sess, t, corr);
  }

  /** The decoder accepts exactly the well-formed bodies and returns their fields. */
  lemma TransmissionExact(v: uint16, sess: bytes, body: bytes, t: Transmission)
    ensures ParseTransmission(v, sess, body).ToResult() == Ok(t) <==> WellFormed(v, sess, body, t)
  {
    if ParseTransmission(v, sess, body).ToResult() == Ok(t) {
      TransmissionRead(v, sess, body);
    }
    if WellFormed(v, sess, body, t) {
      var corr :| SpellsCorr(corr, t.corrID) && body == Body(v, sess, t, corr);
      TransmissionWritten(v, sess, t, corr);
    }
  }

  // ---------------------------------------------------------------- authenticated bytes

  /** No two commands share the bytes that a signature covers. */
  lemma AuthBytesInjective(sess: bytes, t: Transmission, sess': bytes, t': Transmission)
    requires |sess| <= MAX_SHORT && |t.entityID| <= MAX_SHORT
    requires |sess'| <= MAX_SHORT && |t'.entityID| <= MAX_SHORT
    ensures AuthBytes(sess, t) == AuthBytes(sess', t')
       <==> sess == sess' && t.corrID == t'.corrID && t.entityID == t'.entityID && t.command == t'.command
  {
    if AuthBytes(sess, t) == AuthBytes(sess', t') {
      var s2, s2' := ShortBytes(t.entityID) + t.command, ShortBytes(t'.entityID) + t'.command;
      var s1, s1' := CorrBytes(t.corrID) + s2, CorrBytes(t'.corrID) + s2';
      ShortExact(AuthBytes(sess, t), sess, s1);
      ShortExact(AuthBytes(sess, t), sess', s1');
      CorrExact(s1, t.corrID, s2);
      CorrExact(s1, t'.corrID, s2');
      ShortExact(s2, t.entityID, t.command);
      ShortExact(s2, t'.entityID, t'.command);
    }
  }

  // ---------------------------------------------------------------- blocks

  function Framed(bodies: seq<bytes>): bytes
    requires forall b <- bodies :: |b| <= MAX_LARGE
  {
    if bodies == [] then [] else LargeBytes(bodies[0]) + Framed(bodies[1..])
  }

  lemma FramedCons(b: bytes, bodies: seq<bytes>, tail: bytes)
    requires (forall x <- bodies :: |x| <= MAX_LARGE) && |b| <= MAX_LARGE
    ensures forall x <- [b] + bodies :: |x| <= MAX_LARGE
    ensures Framed([b] + bodies) + tail == LargeBytes(b) + (Framed(bodies) + tail)
  {
    assert ([b] + bodies)[1..] == bodies;
  }

  lemma {:induction false} FramedAppend(bodies: seq<bytes>, b: bytes)
    requires (forall x <- bodies :: |x| <= MAX_LARGE) && |b| <= MAX_LARGE
    ensures Framed(bodies + [b]) == Framed(bodies) + LargeBytes(b)
  {
    hide LargeBytes;
    if bodies == [] {
      assert Framed([b]) == LargeBytes(b) + [] == LargeBytes(b);
    } else {
      FramedAppend(bodies[1..], b);
      assert (bodies + [b])[1..] == bodies[1..] + [b];
    }
  }

  predicate Blockable(bodies: seq<bytes>) {
    |bodies| <= 255 && forall b <- bodies :: |b| <= MAX_LARGE
  }

  function BlockBytes(bodies: seq<bytes>): bytes
    requires Blockable(bodies)
  {
    [|bodies|] + Framed(bodies)
  }

  function Prepend<T>(ts: seq<T>, p: Parse<seq<T>>): Parse<seq<T>> {
    if p.Stuck? then p else Parsed(ts + p.value, p.rest)
  }

  /** `n` length-prefixed items, each handed to `item`; the first failure is the result. */
  function ParseItems<T>(item: bytes -> Result<T>, n: nat, s: bytes): Parse<seq<T>>
    decreases n
  {
    if n == 0 then Parsed([], s)
    else
      var p := ParseLarge(s);
      if p.Stuck? then Stuck(p.error, p.rest) else
      match item(p.value)
      case Err(e) => Stuck(e, p.rest)
      case Ok(t) => Prepend([t], ParseItems(item, n - 1, p.rest))
  }

  function ItemDecoder(v: uint16, sess: bytes): bytes -> Result<Transmission> {
    body => ParseTransmission(v, sess, body).ToResult()
  }

  function ParseBlock(v: uint16, sess: bytes, block: bytes): Result<seq<Transmission>> {
    var p := ParseChar(block);
    if p.Stuck? then Err(p.error) else ParseItems(ItemDecoder(v, sess), p.value, p.rest).ToResult()
  }

  /** `block` is a count, that many length-prefixed bodies, and `tail`. */
  ghost predicate Framing(block: bytes, bodies: seq<bytes>, tail: bytes) {
    Blockable(bodies) && block == BlockBytes(bodies) + tail
  }

  ghost predicate AllWellFormed(v: uint16, sess: bytes, bodies: seq<bytes>, ts: seq<Transmission>) {
    |bodies| == |ts| && forall i | 0 <= i < |ts| :: WellFormed(v, sess, bodies[i], ts[i])
  }

  lemma {:induction false} ItemsWritten<T>(item: bytes -> Result<T>, bodies: seq<bytes>, ts: seq<T>, tail: bytes)
    requires |bodies| == |ts| && forall b <- bodies :: |b| <= MAX_LARGE
    requires forall i | 0 <= i < |ts| :: item(bodies[i]) == Ok(ts[i])
    ensures ParseItems(item, |ts|, Framed(bodies) + tail) == Parsed(ts, tail)
  {
    hide ParseLarge, LargeBytes;
    if ts == [] {
      assert Framed(bodies) + tail == tail;
    } else {
      var rest := Framed(bodies[1..]) + tail;
      assert Framed(bodies) + tail == LargeBytes(bodies[0]) + rest;
      LargeWritten(bodies[0], rest);
      ItemsWritten(item, bodies[1..], ts[1..], tail);
      assert ts == [ts[0]] + ts[1..];
    }
  }

  lemma {:induction false} ItemsRead<T>(item: bytes -> Result<T>, n: nat, s: bytes)
    returns (bodies: seq<bytes>)
    requires ParseItems(item, n, s).Parsed?
    ensures |bodies| == n == |ParseItems(item, n, s).value| && forall b <- bodies :: |b| <= MAX_LARGE
    ensures s == Framed(bodies) + ParseItems(item, n, s).rest
    ensures forall i | 0 <= i < n :: item(bodies[i]) == Ok(ParseItems(item, n, s).value[i])
    decreases n
  {
    hide ParseLarge, LargeBytes;
    if n == 0 {
      bodies := [];
    } else {
      var p := ParseLarge(s);
      LargeRead(s);
      var more := ItemsRead(item, n - 1, p.rest);
      FramedCons(p.value, more, ParseItems(item, n - 1, p.rest).rest);
      bodies := [p.value] + more;
    }
  }

  lemma AllExact(v: uint16, sess: bytes, bodies: seq<bytes>, ts: seq<Transmission>)
    requires |bodies| == |ts|
    ensures AllWellFormed(v, sess, bodies, ts)
       <==> forall i | 0 <= i < |ts| :: ItemDecoder(v, sess)(bodies[i]) == Ok(ts[i])
  {
    forall i | 0 <= i < |ts|
      ensures ItemDecoder(v, sess)(bodies[i]) == Ok(ts[i]) <==> WellFormed(v, sess, bodies[i], ts[i])
    {
      TransmissionExact(v, sess, bodies[i], ts[i]);
    }
  }

  lemma BlockRead(v: uint16, sess: bytes, block: bytes, ts: seq<Transmission>)
    returns (bodies: seq<bytes>, tail: bytes)
    requires ParseBlock(v, sess, block) == Ok(ts)
    ensures Framing(block, bodies, tail) && AllWellFormed(v, sess, bodies, ts)
  {
    hide ParseItems, Framed, WellFormed, ItemDecoder;
    var p := ParseChar(block);
    CharExact(block, p.value, p.rest);
    tail := ParseItems(ItemDecoder(v, sess), p.value, p.rest).rest;
    bodies := ItemsRead(ItemDecoder(v, sess), p.value, p.rest);
    AllExact(v, sess, bodies, ts);
    assert [p.value] + (Framed(bodies) + tail) == BlockBytes(bodies) + tail;
  }

  lemma BlockWritten(v: uint16, sess: bytes, bodies: seq<bytes>, ts: seq<Transmission>, tail: bytes)
    requires Blockable(bodies) && AllWellFormed(v, sess, bodies, ts)
    ensures ParseBlock(v, sess, BlockBytes(bodies) + tail) == Ok(ts)
  {
    hide Framed, WellFormed, ParseItems, ItemDecoder, WireBytes;
    assert BlockBytes(bodies) + tail == [|bodies|] + (Framed(bodies) + tail);
    CharExact(BlockBytes(bodies) + tail, |bodies|, Framed(bodies) + tail);
    AllExact(v, sess, bodies, ts);
    ItemsWritten(ItemDecoder(v, sess), bodies, ts, tail);
  }

  /** DecodeBlock's language: it accepts a block exactly when the block is a count, that
      many length-prefixed well-formed bodies and anything after them. */
  lemma BlockExact(v: uint16, sess: bytes, block: bytes, ts: seq<Transmission>)
    ensures ParseBlock(v, sess, block) == Ok(ts)
       <==> exists bodies, tail :: Framing(block, bodies, tail) && AllWellFormed(v, sess, bodies, ts)
  {
    hide ParseBlock, AllWellFormed;
    if ParseBlock(v, sess, block) == Ok(ts) {
      var bodies, tail := BlockRead(v, sess, block, ts);
    }
    if exists bodies, tail :: Framing(block, bodies, tail) && AllWellFormed(v, sess, bodies, ts) {
      var bodies, tail :| Framing(block, bodies, tail) && AllWellFormed(v, sess, bodies, ts);
      BlockWritten(v, sess, bodies, ts, tail);
    }
  }

  // ---------------------------------------------------------------- re-encoding

  predicate AllWithinLimits(sess: bytes, ts: seq<Transmission>) {
    forall t <- ts :: WithinLimits(sess, t)
  }

  function Wires(v: uint16, sess: bytes, ts: seq<Transmission>): seq<bytes>
    requires AllWithinLimits(sess, ts)
  {
    seq(|ts|, i requires 0 <= i < |ts| => WireBytes(v, sess, ts[i]))
  }

  /** Encoding each transmission and then the block they share. */
  function EncodeAll(v: uint16, sess: bytes, ts: seq<Transmission>): Result<bytes> {
    if !AllWithinLimits(sess, ts) then Err(ShortStringTooLong)
    else if |ts| > 255 then Err(BadEncoding)
    else if !Blockable(Wires(v, sess, ts)) then Err(TransmissionTooLarge)
    else Ok(BlockBytes(Wires(v, sess, ts)))
  }

  lemma WiresWellFormed(v: uint16, sess: bytes, ts: seq<Transmission>)
    requires AllWithinLimits(sess, ts)
    ensures AllWellFormed(v, sess, Wires(v, sess, ts), ts)
  {
    forall i | 0 <= i < |ts|
      ensures WellFormed(v, sess, Wires(v, sess, ts)[i], ts[i])
    {
      assert ts[i] in ts && SpellsCorr(CorrBytes(ts[i].corrID), ts[i].corrID);
    }
  }

  /** Whatever the encoder produces decodes to the list it was given, also with octets
      appended. */
  lemma EncodeThenDecode(v: uint16, sess: bytes, ts: seq<Transmission>, tail: bytes)
    requires EncodeAll(v, sess, ts).Ok?
    ensures ParseBlock(v, sess, EncodeAll(v, sess, ts).value + tail) == Ok(ts)
    ensures ParseBlock(v, sess, EncodeAll(v, sess, ts).value) == Ok(ts)
  {
    WiresWellFormed(v, sess, ts);
    BlockWritten(v, sess, Wires(v, sess, ts), ts, tail);
    BlockWritten(v, sess, Wires(v, sess, ts), ts, []);
    assert EncodeAll(v, sess, ts).value + [] == EncodeAll(v, sess, ts).value;
  }

  /** A body that spells the zero identifier as 0x18 and 24 zeros. */
  ghost predicate SpellsZeroLong(v: uint16, sess: bytes, body: bytes, t: Transmission)
    requires WellFormed(v, sess, body, t)
  {
    t.corrID == NO_CORR_ID && body == Body(v, sess, t, [0x18] + NO_CORR_ID)
  }

  lemma BodyInjective(v: uint16, sess: bytes, t: Transmission, corr: bytes, corr': bytes)
    requires v < VERSION_V7 ==> |sess| <= MAX_SHORT
    requires |t.authorization| <= MAX_SHORT && |t.entityID| <= MAX_SHORT
    ensures |Body(v, sess, t, corr)| - |Body(v, sess, t, corr')| == |corr| - |corr'|
  {
  }

  /** A well-formed body is at least as long as its canonical form, and is the canonical
      form unless it spells the zero identifier long. */
  lemma BodyCanonical(v: uint16, sess: bytes, body: bytes, t: Transmission)
    requires |sess| <= MAX_SHORT && WellFormed(v, sess, body, t)
    ensures |WireBytes(v, sess, t)| <= |body|
    ensures body == WireBytes(v, sess, t) <==> !SpellsZeroLong(v, sess, body, t)
  {
    var corr :| SpellsCorr(corr, t.corrID) && body == Body(v, sess, t, corr);
    BodyInjective(v, sess, t, corr, CorrBytes(t.corrID));
    BodyInjective(v, sess, t, [0x18] + NO_CORR_ID, CorrBytes(t.corrID));
  }

  lemma {:induction false} FramedInjective(xs: seq<bytes>, ys: seq<bytes>, tail: bytes)
    requires (forall x <- xs :: |x| <= MAX_LARGE) && (forall y <- ys :: |y| <= MAX_LARGE)
    requires |xs| == |ys|
    ensures Framed(xs) + tail == Framed(ys) <==> xs == ys && tail == []
  {
    assert Framed(xs) + [] == Framed(xs);
    if xs == [] {
      assert Framed(xs) + tail == tail;
    } else if Framed(xs) + tail == Framed(ys) {
      var x, y := Framed(xs[1..]) + tail, Framed(ys[1..]);
      assert Framed(xs) + tail == LargeBytes(xs[0]) + x;
      LargeExact(Framed(ys), xs[0], x);
      LargeExact(Framed(ys), ys[0], y);
      FramedInjective(xs[1..], ys[1..], tail);
      assert xs == [xs[0]] + xs[1..] && ys == [ys[0]] + ys[1..];
    }
  }

  lemma AllCanonical(v: uint16, sess: bytes, bodies: seq<bytes>, ts: seq<Transmission>)
    requires |sess| <= MAX_SHORT && Blockable(bodies) && AllWellFormed(v, sess, bodies, ts)
    ensures AllWithinLimits(sess, ts) && Blockable(Wires(v, sess, ts))
    ensures bodies == Wires(v, sess, ts)
       <==> forall i | 0 <= i < |ts| :: !SpellsZeroLong(v, sess, bodies[i], ts[i])
  {
    forall t | t in ts ensures WithinLimits(sess, t) {
      var i :| 0 <= i < |ts| && ts[i] == t;
      assert WellFormed(v, sess, bodies[i], ts[i]);
    }
    var wires := Wires(v, sess, ts);
    forall i | 0 <= i < |ts|
      ensures |wires[i]| <= |bodies[i]| <= MAX_LARGE
      ensures bodies[i] == wires[i] <==> !SpellsZeroLong(v, sess, bodies[i], ts[i])
    {
      assert bodies[i] in bodies;
      BodyCanonical(v, sess, bodies[i], ts[i]);
    }
  }

  /** Re-encoding an accepted block always succeeds, decodes to the same list, and gives
      back the block itself exactly when nothing trailed it and no zero identifier was
      spelled long. */
  lemma Reencode(v: uint16, sess: bytes, block: bytes, ts: seq<Transmission>, bodies: seq<bytes>, tail: bytes)
    requires |sess| <= MAX_SHORT
    requires Framing(block, bodies, tail) && AllWellFormed(v, sess, bodies, ts)
    ensures EncodeAll(v, sess, ts).Ok?
    ensures ParseBlock(v, sess, EncodeAll(v, sess, ts).value) == Ok(ts)
    ensures EncodeAll(v, sess, ts).value == block
       <==> tail == [] && forall i | 0 <= i < |ts| :: !SpellsZeroLong(v, sess, bodies[i], ts[i])
  {
    hide ParseBlock, Framed, SpellsZeroLong, WellFormed, WireBytes;
    AllCanonical(v, sess, bodies, ts);
    EncodeThenDecode(v, sess, ts, []);
    FramedInjective(bodies, Wires(v, sess, ts), tail);
    assert block == [|ts|] + (Framed(bodies) + tail);
    SplitEqual([|ts|], Framed(bodies) + tail, [|ts|], Framed(Wires(v, sess, ts)));
  }

  // ---------------------------------------------------------------- reading item by item

  lemma ItemsDone<T>(item: bytes -> Result<T>, out: seq<T>, s: bytes)
    ensures Prepend(out, ParseItems(item, 0, s)) == Parsed(out, s)
  {
    assert out + [] == out;
  }

  /** How one round of the decoding loop changes what is left to decode. */
  lemma ItemsStep<T>(item: bytes -> Result<T>, out: seq<T>, n: nat, s: bytes)
    requires n > 0
    ensures ParseLarge(s).Stuck? ==> Prepend(out, ParseItems(item, n, s)).ToResult() == Err(ParseLarge(s).error)
    ensures ParseLarge(s).Parsed? ==>
              match item(ParseLarge(s).value)
              case Err(e) => Prepend(out, ParseItems(item, n, s)).ToResult() == Err(e)
              case Ok(t) => (Prepend(out, ParseItems(item, n, s))
                          == Prepend(out + [t], ParseItems(item, n - 1, ParseLarge(s).rest)))
  {
    hide ParseLarge;
    var p := ParseLarge(s);
    if p.Parsed? && item(p.value).Ok? {
      var t, q := item(p.value).value, ParseItems(item, n - 1, p.rest);
      if q.Parsed? {
        assert out + ([t] + q.value) == out + [t] + q.value;
      }
    }
  }

  lemma PrependNone<T>(p: Parse<seq<T>>)
    ensures Prepend([], p) == p
  {
    if p.Parsed? {
      assert [] + p.value == p.value;
    }
  }

  // ---------------------------------------------------------------- the methods

  method EncodeCorrID(e: Encoder, c: CorrID)
    modifies e
    ensures e.buf == old(e.buf) + CorrBytes(c)
  {
    if c == NO_CORR_ID {
      e.Char(0x00);
      return;
    }
    e.Char(0x18);
    e.Raw(c);
    assert e.buf == old(e.buf) + ([0x18] + c);
  }

  method DecodeCorrID(d: Decoder) returns (r: Result<CorrID>)
    requires d.Valid()
    modifies d
    ensures d.Valid() && d.pos >= old(d.pos)
    ensures r == ParseCorr(old(d.Rest())).ToResult() && d.Rest() == ParseCorr(old(d.Rest())).rest
  {
    var tag :- d.Char();
    match tag {
      case 0x00 => return Ok(NO_CORR_ID);
      case 0x18 =>
        var b :- d.Need(24);
        return Ok(b);
      case _ => return Err(BadEncoding);
    }
  }

  method EncodeTransmission(v: uint16, sess: bytes, t: Transmission) returns (r: Result<(bytes, bytes)>)
    ensures r == if WithinLimits(sess, t) then Ok((WireBytes(v, sess, t), AuthBytes(sess, t)))
                 else Err(ShortStringTooLong)
  {
    hide ShortBytes, CorrBytes;
    var a := new Encoder();
    var _ :- a.ShortString(sess);
    EncodeCorrID(a, t.corrID);
    var _ :- a.ShortString(t.entityID);
    a.Raw(t.command);
    Concat4(ShortBytes(sess), CorrBytes(t.corrID), ShortBytes(t.entityID), t.command);
    assert a.buf == AuthBytes(sess, t);
    var w := new Encoder();
    var _ :- w.ShortString(t.authorization);
    // The two lengths below were checked above, so these appends cannot fail.
    if v < VERSION_V7 {
      var again := w.ShortString(sess);
      assert again.Ok?;
    }
    ghost var front := w.buf;
    assert front == ShortBytes(t.authorization) + SessionBytes(v, sess);
    EncodeCorrID(w, t.corrID);
    var again := w.ShortString(t.entityID);
    assert again.Ok?;
    w.Raw(t.command);
    Concat4(front, CorrBytes(t.corrID), ShortBytes(t.entityID), t.command);
    assert w.buf == WireBytes(v, sess, t);
    return Ok((w.buf, a.buf));
  }

  method EncodeBlock(transmissions: seq<bytes>) returns (r: Result<bytes>)
    ensures r == if |transmissions| > 255 then Err(BadEncoding)
                 else if !Blockable(transmissions) then Err(TransmissionTooLarge)
                 else Ok(BlockBytes(transmissions))
  {
    if |transmissions| > 255 {
      return Err(BadEncoding);
    }
    var e := new Encoder();
    e.Char(|transmissions|);
    for i := 0 to |transmissions|
      invariant forall b <- transmissions[..i] :: |b| <= MAX_LARGE
      invariant e.buf == [|transmissions|] + Framed(transmissions[..i])
    {
      var t := transmissions[i];
      if |t| > 65535 {
        return Err(TransmissionTooLarge);
      }
      e.Word16(|t|);
      e.Raw(t);
      FramedAppend(transmissions[..i], t);
      assert transmissions[..i + 1] == transmissions[..i] + [t];
      assert e.buf == [|transmissions|] + (Framed(transmissions[..i]) + LargeBytes(t));
    }
    assert transmissions[..|transmissions|] == transmissions;
    return Ok(e.buf);
  }

  method DecodeTransmission(v: uint16, sess: bytes, body: bytes) returns (r: Result<Transmission>)
    ensures r == ParseTransmission(v, sess, body).ToResult()
  {
    var d := new Decoder(body);
    var auth :- d.ShortString();
    if v < VERSION_V7 {
      var got :- d.ShortString();
      if got != sess {
        return Err(BadEncoding);
      }
    }
    var cid :- DecodeCorrID(d);
    var entity :- d.ShortString();
    var cmd := d.Tail();
    return Ok(Transmission(cid, entity, cmd, auth));
  }

  /** The length and body of the next transmission in a block. */
  method NextBody(d: Decoder) returns (r: Result<bytes>)
    requires d.Valid()
    modifies d
    ensures d.Valid() && d.pos >= old(d.pos)
    ensures r == ParseLarge(old(d.Rest())).ToResult() && d.Rest() == ParseLarge(old(d.Rest())).rest
  {
    var tLen :- d.Word16();
    r := d.Need(tLen);
  }

  /** The loop of DecodeBlock. */
  method DecodeCounted(v: uint16, sess: bytes, d: Decoder, cnt: byte) returns (r: Result<seq<Transmission>>)
    requires d.Valid()
    modifies d
    ensures r == ParseItems(ItemDecoder(v, sess), cnt, old(d.Rest())).ToResult()
  {
    hide ParseItems, Prepend, ParseTransmission, ParseLarge;
    var out: seq<Transmission> := [];
    ghost var item, goal := ItemDecoder(v, sess), ParseItems(ItemDecoder(v, sess), cnt, d.Rest());
    PrependNone(goal);
    for i := 0 to cnt
      invariant d.Valid()
      invariant goal == Prepend(out, ParseItems(item, cnt - i, d.Rest()))
    {
      ItemsStep(item, out, cnt - i, d.Rest());
      var body :- NextBody(d);
      var tx :- DecodeTransmission(v, sess, body);
      out := out + [tx];
    }
    ItemsDone(item, out, d.Rest());
    return Ok(out);
  }

  /** Unread octets after the counted bodies are ignored, as ParseBlock does. */
  method DecodeBlock(v: uint16, sess: bytes, block: bytes) returns (r: Result<seq<Transmission>>)
    ensures r == ParseBlock(v, sess, block)
  {
    var d := new Decoder(block);
    var cnt :- d.Char();
    r := DecodeCounted(v, sess, d, cnt);
  }
}
