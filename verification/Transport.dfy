/** Fixed-size transport blocks of smp/transport.go: the padding that WriteBlock adds and
    ReadBlock strips, over the two octet streams of a connection. */
module Transport {
  import opened Bytes
  import opened Encoding

  const BLOCK_SIZE := 16384
  const MAX_PAYLOAD := 16382
  const HASH: byte := 0x23

  function Pad(payload: bytes): (block: bytes)
    requires |payload| <= MAX_PAYLOAD
    ensures |block| == BLOCK_SIZE
  {
    Word16Bytes(|payload|) + (payload + Repeat(HASH, MAX_PAYLOAD - |payload|))
  }

  function Unpad(block: bytes): Result<bytes>
    requires |block| == BLOCK_SIZE
  {
    var length: int := Word16Value(block[..2]);
    if length > MAX_PAYLOAD then Err(BadBlock) else Ok(block[2..2 + length])
  }

  /** Reading one block from a stream: a short stream is used up and reported. */
  function ReadFrame(stream: bytes): (Result<bytes>, bytes) {
    if |stream| < BLOCK_SIZE then (Err(ShortBlock), [])
    else (Unpad(stream[..BLOCK_SIZE]), stream[BLOCK_SIZE..])
  }

  /** Unpadding looks at the length and that many octets; the padding may be anything. */
  lemma UnpadExact(block: bytes, payload: bytes)
    requires |block| == BLOCK_SIZE
    ensures Unpad(block) == Ok(payload)
       <==> |payload| <= MAX_PAYLOAD && LargeBytes(payload) <= block
  {
    if |payload| <= MAX_PAYLOAD {
      Word16Digits(block[..2], |payload|);
      SplitEqual(block[..2], block[2..2 + |payload|], Word16Bytes(|payload|), payload);
      assert block[..2] + block[2..2 + |payload|] == block[..2 + |payload|];
    }
  }

  lemma PadThenUnpad(payload: bytes)
    requires |payload| <= MAX_PAYLOAD
    ensures Unpad(Pad(payload)) == Ok(payload)
  {
    hide Word16Bytes, Unpad;
    assert Pad(payload) == LargeBytes(payload) + Repeat(HASH, MAX_PAYLOAD - |payload|);
    UnpadExact(Pad(payload), payload);
  }

  function PadAll(payloads: seq<bytes>): bytes
    requires forall p <- payloads :: |p| <= MAX_PAYLOAD
  {
    if payloads == [] then [] else Pad(payloads[0]) + PadAll(payloads[1..])
  }

  function ReadFrames(n: nat, stream: bytes): (seq<Result<bytes>>, bytes) {
    if n == 0 then ([], stream)
    else
      var (r, rest) := ReadFrame(stream);
      var (rs, last) := ReadFrames(n - 1, rest);
      ([r] + rs, last)
  }

  function AllOk(payloads: seq<bytes>): seq<Result<bytes>> {
    if payloads == [] then [] else [Ok(payloads[0])] + AllOk(payloads[1..])
  }

  /** A stream of padded blocks is read back block by block, in order, and the octets
      behind it stay unread. */
  lemma {:induction false} StreamRoundTrip(payloads: seq<bytes>, tail: bytes)
    requires forall p <- payloads :: |p| <= MAX_PAYLOAD
    ensures ReadFrames(|payloads|, PadAll(payloads) + tail).0 == AllOk(payloads)
    ensures ReadFrames(|payloads|, PadAll(payloads) + tail).1 == tail
  {
    hide Pad, Unpad;
    if payloads == [] {
      assert PadAll(payloads) + tail == tail;
    } else {
      var stream := PadAll(payloads) + tail;
      assert stream[..BLOCK_SIZE] == Pad(payloads[0]);
      assert stream[BLOCK_SIZE..] == PadAll(payloads[1..]) + tail;
      PadThenUnpad(payloads[0]);
      StreamRoundTrip(payloads[1..], tail);
    }
  }

  /** How much of a block gets through. */
  function Cut(breaks: Option<nat>): (n: nat)
    ensures n <= BLOCK_SIZE
  {
    if breaks.Some? && breaks.value < BLOCK_SIZE then breaks.value else BLOCK_SIZE
  }

  class Conn {
    var incoming: bytes
    var outgoing: bytes

    constructor (incoming: bytes)
      ensures this.incoming == incoming && outgoing == []
    {
      this.incoming := incoming;
      outgoing := [];
    }

    /** With `breaks`, the connection takes only that many octets and then fails. */
    method WriteBlock(payload: bytes, breaks: Option<nat>) returns (r: Result<()>)
      modifies this`outgoing
      ensures |payload| > MAX_PAYLOAD ==> r == Err(LargeBlock) && outgoing == old(outgoing)
      ensures |payload| <= MAX_PAYLOAD ==>
                && r == (if breaks.Some? then Err(NetworkFailure) else Ok(()))
                && outgoing == old(outgoing) + Pad(payload)[..Cut(breaks)]
    {
      if |payload| > BLOCK_SIZE - 2 {
        return Err(LargeBlock);
      }
      var block := new byte[BLOCK_SIZE](_ => 0);
      block[0], block[1] := |payload| / 0x100, |payload| % 0x100;
      forall i | 0 <= i < |payload| {
        block[2 + i] := payload[i];
      }
      var start := 2 + |payload|;
      for i := start to BLOCK_SIZE
        invariant outgoing == old(outgoing)
        invariant block[..start] == LargeBytes(payload)
        invariant forall k | start <= k < i :: block[k] == HASH
      {
        block[i] := HASH;
      }
      assert block[..] == block[..start] + block[start..];
      assert block[start..] == Repeat(HASH, MAX_PAYLOAD - |payload|);
      assert block[..] == Pad(payload) && block[..Cut(breaks)] == block[..][..Cut(breaks)];
      outgoing := outgoing + block[..Cut(breaks)];
      return if breaks.Some? then Err(NetworkFailure) else Ok(());
    }

    /** With `breaks`, the connection fails after that many octets, unless they make a
        block or the stream ends before. */
    method ReadBlock(breaks: Option<nat>) returns (r: Result<bytes>)
      modifies this`incoming
      ensures if breaks.Some? && breaks.value < BLOCK_SIZE && breaks.value <= old(|incoming|)
              then r == Err(NetworkFailure) && incoming == old(incoming)[breaks.value..]
              else (r, incoming) == ReadFrame(old(incoming))
    {
      if breaks.Some? && breaks.value < BLOCK_SIZE && breaks.value <= |incoming| {
        incoming := incoming[breaks.value..];
        return Err(NetworkFailure);
      }
      if |incoming| < BLOCK_SIZE {
        incoming := [];
        return Err(ShortBlock);
      }
      var block := incoming[..BLOCK_SIZE];
      incoming := incoming[BLOCK_SIZE..];
      var length: int := Word16Value(block[..2]);
      if length > BLOCK_SIZE - 2 {
        return Err(BadBlock);
      }
      return Ok(block[2..2 + length]);
    }
  }
}
