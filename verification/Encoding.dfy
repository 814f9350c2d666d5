/** The wire primitives of smp/encoding.go: what each writes, how each is read back, and
    the two objects that apply them to a growing buffer and to a moving position. */
module Encoding {
  import opened Bytes

  const MAX_SHORT := 255
  const MAX_LARGE := 65535

  // ---------------------------------------------------------------- what is written

  function Word16Bytes(v: uint16): bytes {
    [v / 0x100, v % 0x100]
  }

  function Word32Bytes(v: uint32): bytes {
    Word16Bytes(v / 0x1_0000) + Word16Bytes(v % 0x1_0000)
  }

  /** Two's complement: Go's conversion of an int64 to uint64. */
  function Unsigned(v: int64): (u: int)
    ensures 0 <= u < 0x1_0000_0000_0000_0000
  {
    if v < 0 then v + 0x1_0000_0000_0000_0000 else v
  }

  /** Two's complement: Go's conversion of a uint64 to int64. */
  function Signed(u: int): (v: int64)
    requires 0 <= u < 0x1_0000_0000_0000_0000
    ensures Unsigned(v) == u
  {
    if u < 0x8000_0000_0000_0000 then u else u - 0x1_0000_0000_0000_0000
  }

  function Int64Bytes(v: int64): bytes {
    Word32Bytes(Unsigned(v) / 0x1_0000_0000) + Word32Bytes(Unsigned(v) % 0x1_0000_0000)
  }

  function ShortBytes(v: bytes): bytes
    requires |v| <= MAX_SHORT
  {
    [|v|] + v
  }

  function LargeBytes(v: bytes): bytes
    requires |v| <= MAX_LARGE
  {
    Word16Bytes(|v|) + v
  }

  function BoolBytes(v: bool): bytes {
    if v then [0x54] else [0x46]
  }

  function MaybeBytes(v: Option<bytes>): bytes
    requires v.Some? ==> |v.value| <= MAX_SHORT
  {
    match v
    case None => [0x30]
    case Some(s) => [0x31] + ShortBytes(s)
  }

  // ---------------------------------------------------------------- how it is read

  function Take(n: int, s: bytes): Parse<bytes> {
    if n < 0 || n > |s| then Stuck(Truncated, s) else Parsed(s[..n], s[n..])
  }

  function ParseChar(s: bytes): Parse<byte> {
    var p := Take(1, s);
    if p.Stuck? then Stuck(p.error, p.rest) else
    Parsed(p.value[0], p.rest)
  }

  function Word16Value(b: bytes): uint16
    requires |b| == 2
  {
    var b0: int := b[0];
    b0 * 0x100 + b[1]
  }

  function Word32Value(b: bytes): uint32
    requires |b| == 4
  {
    var hi: int := Word16Value(b[..2]);
    hi * 0x1_0000 + Word16Value(b[2..])
  }

  function Int64Value(hi: uint32, lo: uint32): int64 {
    var h: int := hi;
    Signed(h * 0x1_0000_0000 + lo)
  }

  function ParseWord16(s: bytes): Parse<uint16> {
    var p := Take(2, s);
    if p.Stuck? then Stuck(p.error, p.rest) else
    Parsed(Word16Value(p.value), p.rest)
  }

  function ParseWord32(s: bytes): Parse<uint32> {
    var p := Take(4, s);
    if p.Stuck? then Stuck(p.error, p.rest) else
    Parsed(Word32Value(p.value), p.rest)
  }

  function ParseInt64(s: bytes): Parse<int64> {
    var p := ParseWord32(s);
    if p.Stuck? then Stuck(p.error, p.rest) else
    var p2 := ParseWord32(p.rest);
    if p2.Stuck? then Stuck(p2.error, p2.rest) else
    Parsed(Int64Value(p.value, p2.value), p2.rest)
  }

  function ParseShort(s: bytes): Parse<bytes> {
    var p := Take(1, s);
    if p.Stuck? then Stuck(p.error, p.rest) else
    Take(p.value[0], p.rest)
  }

  function ParseLarge(s: bytes): Parse<bytes> {
    var p := ParseWord16(s);
    if p.Stuck? then Stuck(p.error, p.rest) else
    Take(p.value, p.rest)
  }

  function ParseBool(s: bytes): Parse<bool> {
    var p := Take(1, s);
    if p.Stuck? then Stuck(p.error, p.rest) else
    if p.value[0] == 0x54 then Parsed(true, p.rest)
    else if p.value[0] == 0x46 then Parsed(false, p.rest)
    else Stuck(BadEncoding, p.rest)
  }

  function ParseMaybe(s: bytes): Parse<Option<bytes>> {
    var p := ParseChar(s);
    if p.Stuck? then Stuck(p.error, p.rest) else
    if p.value == 0x30 then Parsed(None, p.rest)
    else if p.value == 0x31 then
      var p2 := ParseShort(p.rest);
      if p2.Stuck? then Stuck(p2.error, p2.rest) else
      Parsed(Some(p2.value), p2.rest)
    else Stuck(BadEncoding, p.rest)
  }

  // ---------------------------------------------------------------- exactness
  // A read succeeds with a value and a remainder exactly when the input is the written
  // form of that value followed by that remainder. Round trip, rejection of every other
  // input and prefix-freeness are all instances.

  lemma TakeExact(n: nat, s: bytes, v: bytes, rest: bytes)
    ensures Take(n, s) == Parsed(v, rest) <==> |v| == n && s == v + rest
  {
    if |v| == n && s == v + rest {
      assert s[..n] == v && s[n..] == rest;
    }
  }

  lemma CharExact(s: bytes, c: byte, rest: bytes)
    ensures ParseChar(s) == Parsed(c, rest) <==> s == [c] + rest
  {
    TakeExact(1, s, [c], rest);
    if ParseChar(s) == Parsed(c, rest) {
      assert s[..1] == [c];
    }
  }

  lemma Word16Exact(s: bytes, v: uint16, rest: bytes)
    ensures ParseWord16(s) == Parsed(v, rest) <==> s == Word16Bytes(v) + rest
  {
    TakeExact(2, s, Word16Bytes(v), rest);
    if ParseWord16(s) == Parsed(v, rest) {
      assert s[..2] == Word16Bytes(v);
    }
  }

  lemma Word16Digits(b: bytes, v: uint16)
    requires |b| == 2
    ensures Word16Value(b) == v <==> b == Word16Bytes(v)
  {
  }

  lemma Word32Digits(b: bytes, v: uint32)
    requires |b| == 4
    ensures Word32Value(b) == v <==> b == Word32Bytes(v)
  {
    Word16Digits(b[..2], v / 0x1_0000);
    Word16Digits(b[2..], v % 0x1_0000);
    SplitEqual(b[..2], b[2..], Word16Bytes(v / 0x1_0000), Word16Bytes(v % 0x1_0000));
    assert b == b[..2] + b[2..];
  }

  lemma Word32Exact(s: bytes, v: uint32, rest: bytes)
    ensures ParseWord32(s) == Parsed(v, rest) <==> s == Word32Bytes(v) + rest
  {
    TakeExact(4, s, Word32Bytes(v), rest);
    Word32Digits(Word32Bytes(v), v);
    if ParseWord32(s) == Parsed(v, rest) {
      Word32Digits(s[..4], v);
    }
  }

  lemma Int64Halves(hi: uint32, lo: uint32, v: int64)
    ensures Int64Value(hi, lo) == v
       <==> hi == Unsigned(v) / 0x1_0000_0000 && lo == Unsigned(v) % 0x1_0000_0000
  {
    var h: int := hi;
    var u := h * 0x1_0000_0000 + lo;
    assert u / 0x1_0000_0000 == hi && u % 0x1_0000_0000 == lo;
    assert Signed(u) == v <==> u == Unsigned(v);
  }

  lemma Int64Exact(s: bytes, v: int64, rest: bytes)
    ensures ParseInt64(s) == Parsed(v, rest) <==> s == Int64Bytes(v) + rest
  {
    var hi, lo := Unsigned(v) / 0x1_0000_0000, Unsigned(v) % 0x1_0000_0000;
    var mid := Word32Bytes(lo) + rest;
    assert Word32Bytes(hi) + mid == Int64Bytes(v) + rest;
    Word32Exact(s, hi, mid);
    Word32Exact(mid, lo, rest);
    Int64Halves(hi, lo, v);
    if ParseInt64(s) == Parsed(v, rest) {
      var p := ParseWord32(s);
      var q := ParseWord32(p.rest);
      Int64Halves(p.value, q.value, v);
      Word32Exact(p.rest, lo, rest);
      Word32Exact(s, hi, p.rest);
    }
  }

  lemma ShortExact(s: bytes, v: bytes, rest: bytes)
    ensures ParseShort(s) == Parsed(v, rest) <==> |v| <= MAX_SHORT && s == ShortBytes(v) + rest
  {
    if |v| <= MAX_SHORT {
      TakeExact(1, s, [|v|], v + rest);
      TakeExact(|v|, v + rest, v, rest);
      assert [|v|] + (v + rest) == ShortBytes(v) + rest;
    }
    if ParseShort(s) == Parsed(v, rest) {
      TakeExact(s[0], s[1..], v, rest);
      assert s == [s[0]] + s[1..];
    }
  }

  lemma LargeExact(s: bytes, v: bytes, rest: bytes)
    ensures ParseLarge(s) == Parsed(v, rest) <==> |v| <= MAX_LARGE && s == LargeBytes(v) + rest
  {
    if |v| <= MAX_LARGE {
      Word16Exact(s, |v|, v + rest);
      TakeExact(|v|, v + rest, v, rest);
      assert Word16Bytes(|v|) + (v + rest) == LargeBytes(v) + rest;
    }
    if ParseLarge(s) == Parsed(v, rest) {
      var p := ParseWord16(s);
      Word16Exact(s, p.value, p.rest);
      TakeExact(p.value, p.rest, v, rest);
    }
  }

  lemma LargeRead(s: bytes)
    requires ParseLarge(s).Parsed?
    ensures |ParseLarge(s).value| <= MAX_LARGE
    ensures s == LargeBytes(ParseLarge(s).value) + ParseLarge(s).rest
  {
    LargeExact(s, ParseLarge(s).value, ParseLarge(s).rest);
  }

  lemma LargeWritten(v: bytes, rest: bytes)
    requires |v| <= MAX_LARGE
    ensures ParseLarge(LargeBytes(v) + rest) == Parsed(v, rest)
  {
    LargeExact(LargeBytes(v) + rest, v, rest);
  }

  lemma BoolExact(s: bytes, v: bool, rest: bytes)
    ensures ParseBool(s) == Parsed(v, rest) <==> s == BoolBytes(v) + rest
  {
    CharExact(s, BoolBytes(v)[0], rest);
  }

  lemma MaybeExact(s: bytes, v: Option<bytes>, rest: bytes)
    ensures ParseMaybe(s) == Parsed(v, rest)
       <==> (v.Some? ==> |v.value| <= MAX_SHORT) && s == MaybeBytes(v) + rest
  {
    match v
    case None =>
      CharExact(s, 0x30, rest);
    case Some(x) =>
      if |x| <= MAX_SHORT {
        CharExact(s, 0x31, ShortBytes(x) + rest);
        ShortExact(ShortBytes(x) + rest, x, rest);
        assert [0x31] + (ShortBytes(x) + rest) == MaybeBytes(v) + rest;
      }
      if ParseMaybe(s) == Parsed(v, rest) {
        CharExact(s, 0x31, ParseChar(s).rest);
        ShortExact(ParseChar(s).rest, x, rest);
      }
  }

  // ---------------------------------------------------------------- lists of typed fields

  datatype Kind = KWord16 | KWord32 | KInt64 | KShort | KLarge | KBool | KChar | KMaybe

  datatype Field =
    | Word16(w16: uint16)
    | Word32(w32: uint32)
    | Int64(i64: int64)
    | Short(short: bytes)
    | Large(large: bytes)
    | Bool(flag: bool)
    | Char(octet: byte)
    | Maybe(maybe: Option<bytes>)

  function KindOf(f: Field): Kind {
    match f
    case Word16(_) => KWord16
    case Word32(_) => KWord32
    case Int64(_) => KInt64
    case Short(_) => KShort
    case Large(_) => KLarge
    case Bool(_) => KBool
    case Char(_) => KChar
    case Maybe(_) => KMaybe
  }

  function Kinds(fs: seq<Field>): seq<Kind> {
    seq(|fs|, i requires 0 <= i < |fs| => KindOf(fs[i]))
  }

  /** The length limits that the Encoder enforces. */
  predicate Encodable(f: Field) {
    match f
    case Short(v) => |v| <= MAX_SHORT
    case Large(v) => |v| <= MAX_LARGE
    case Maybe(Some(v)) => |v| <= MAX_SHORT
    case _ => true
  }

  function FieldBytes(f: Field): bytes
    requires Encodable(f)
  {
    match f
    case Word16(v) => Word16Bytes(v)
    case Word32(v) => Word32Bytes(v)
    case Int64(v) => Int64Bytes(v)
    case Short(v) => ShortBytes(v)
    case Large(v) => LargeBytes(v)
    case Bool(v) => BoolBytes(v)
    case Char(v) => [v]
    case Maybe(v) => MaybeBytes(v)
  }

  function FieldsBytes(fs: seq<Field>): bytes
    requires forall f <- fs :: Encodable(f)
  {
    if fs == [] then [] else FieldBytes(fs[0]) + FieldsBytes(fs[1..])
  }

  function ParseField(k: Kind, s: bytes): Parse<Field> {
    match k
    case KWord16 => (var p := ParseWord16(s); if p.Stuck? then Stuck(p.error, p.rest) else Parsed(Word16(p.value), p.rest))
    case KWord32 => (var p := ParseWord32(s); if p.Stuck? then Stuck(p.error, p.rest) else Parsed(Word32(p.value), p.rest))
    case KInt64 => (var p := ParseInt64(s); if p.Stuck? then Stuck(p.error, p.rest) else Parsed(Int64(p.value), p.rest))
    case KShort => (var p := ParseShort(s); if p.Stuck? then Stuck(p.error, p.rest) else Parsed(Short(p.value), p.rest))
    case KLarge => (var p := ParseLarge(s); if p.Stuck? then Stuck(p.error, p.rest) else Parsed(Large(p.value), p.rest))
    case KBool => (var p := ParseBool(s); if p.Stuck? then Stuck(p.error, p.rest) else Parsed(Bool(p.value), p.rest))
    case KChar => (var p := ParseChar(s); if p.Stuck? then Stuck(p.error, p.rest) else Parsed(Char(p.value), p.rest))
    case KMaybe => (var p := ParseMaybe(s); if p.Stuck? then Stuck(p.error, p.rest) else Parsed(Maybe(p.value), p.rest))
  }

  function ParseFields(ks: seq<Kind>, s: bytes): Parse<seq<Field>> {
    if ks == [] then Parsed([], s)
    else
      var p := ParseField(ks[0], s);
      if p.Stuck? then Stuck(p.error, p.rest) else
      var p2 := ParseFields(ks[1..], p.rest);
      if p2.Stuck? then Stuck(p2.error, p2.rest) else
      Parsed([p.value] + p2.value, p2.rest)
  }

  lemma FieldExact(k: Kind, f: Field, s: bytes, rest: bytes)
    ensures ParseField(k, s) == Parsed(f, rest)
       <==> KindOf(f) == k && Encodable(f) && s == FieldBytes(f) + rest
  {
    match f
    case Word16(v) => Word16Exact(s, v, rest);
    case Word32(v) => Word32Exact(s, v, rest);
    case Int64(v) => Int64Exact(s, v, rest);
    case Short(v) => ShortExact(s, v, rest);
    case Large(v) => LargeExact(s, v, rest);
    case Bool(v) => BoolExact(s, v, rest);
    case Char(v) => CharExact(s, v, rest);
    case Maybe(v) => MaybeExact(s, v, rest);
  }

  ghost predicate WrittenAs(ks: seq<Kind>, fs: seq<Field>, s: bytes, rest: bytes) {
    && Kinds(fs) == ks
    && (forall f <- fs :: Encodable(f))
    && s == FieldsBytes(fs) + rest
  }

  lemma FieldsBytesCons(f: Field, fs: seq<Field>, rest: bytes)
    requires Encodable(f) && forall g <- fs :: Encodable(g)
    ensures Kinds([f] + fs) == [KindOf(f)] + Kinds(fs)
    ensures FieldsBytes([f] + fs) + rest == FieldBytes(f) + (FieldsBytes(fs) + rest)
  {
    assert ([f] + fs)[1..] == fs;
  }

  lemma {:induction false} FieldsRead(ks: seq<Kind>, s: bytes)
    requires ParseFields(ks, s).Parsed?
    ensures WrittenAs(ks, ParseFields(ks, s).value, s, ParseFields(ks, s).rest)
  {
    if ks == [] {
    } else {
      var p := ParseField(ks[0], s);
      var q := ParseFields(ks[1..], p.rest);
      FieldExact(ks[0], p.value, s, p.rest);
      FieldsRead(ks[1..], p.rest);
      FieldsBytesCons(p.value, q.value, q.rest);
    }
  }

  lemma {:induction false} FieldsWritten(fs: seq<Field>, rest: bytes)
    requires forall f <- fs :: Encodable(f)
    ensures ParseFields(Kinds(fs), FieldsBytes(fs) + rest) == Parsed(fs, rest)
  {
    if fs == [] {
      assert FieldsBytes(fs) + rest == rest;
    } else {
      var mid := FieldsBytes(fs[1..]) + rest;
      assert fs == [fs[0]] + fs[1..];
      FieldsBytesCons(fs[0], fs[1..], rest);
      FieldExact(KindOf(fs[0]), fs[0], FieldBytes(fs[0]) + mid, mid);
      FieldsWritten(fs[1..], rest);
      assert Kinds(fs)[1..] == Kinds(fs[1..]);
    }
  }

  /** Reading any list of kinds succeeds with exactly the fields that were written, and
      leaves exactly what followed them. */
  lemma FieldsExact(ks: seq<Kind>, fs: seq<Field>, s: bytes, rest: bytes)
    ensures ParseFields(ks, s) == Parsed(fs, rest) <==> WrittenAs(ks, fs, s, rest)
  {
    if ParseFields(ks, s) == Parsed(fs, rest) {
      FieldsRead(ks, s);
    }
    if WrittenAs(ks, fs, s, rest) {
      FieldsWritten(fs, rest);
    }
  }

  /** Two field lists of the same kinds never have colliding encodings, whatever follows. */
  lemma FieldsPrefixFree(fs: seq<Field>, gs: seq<Field>, x: bytes, y: bytes)
    requires Kinds(fs) == Kinds(gs)
    requires (forall f <- fs :: Encodable(f)) && (forall g <- gs :: Encodable(g))
    requires FieldsBytes(fs) + x == FieldsBytes(gs) + y
    ensures fs == gs && x == y
  {
    FieldsWritten(fs, x);
    FieldsWritten(gs, y);
  }

  // ---------------------------------------------------------------- the two objects

  /** Builds a payload by appending primitives in order. */
  class Encoder {
    var buf: bytes

    constructor ()
      ensures buf == []
    {
      buf := [];
    }

    method Word16(v: uint16)
      modifies this
      ensures buf == old(buf) + Word16Bytes(v)
    {
      buf := buf + [v / 0x100, v % 0x100];
    }

    method Word32(v: uint32)
      modifies this
      ensures buf == old(buf) + Word32Bytes(v)
    {
      buf := buf + (Word16Bytes(v / 0x1_0000) + Word16Bytes(v % 0x1_0000));
    }

    method Int64(v: int64)
      modifies this
      ensures buf == old(buf) + Int64Bytes(v)
    {
      Word32(Unsigned(v) / 0x1_0000_0000);
      Word32(Unsigned(v) % 0x1_0000_0000);
    }

    method ShortString(v: bytes) returns (r: Result<()>)
      modifies this
      ensures r == if |v| <= MAX_SHORT then Ok(()) else Err(ShortStringTooLong)
      ensures r.Ok? ==> buf == old(buf) + ShortBytes(v)
      ensures r.Err? ==> buf == old(buf)
    {
      if |v| > MAX_SHORT {
        return Err(ShortStringTooLong);
      }
      buf := buf + [|v|];
      buf := buf + v;
      return Ok(());
    }

    method Large(v: bytes) returns (r: Result<()>)
      modifies this
      ensures r == if |v| <= MAX_LARGE then Ok(()) else Err(LargeStringTooLong)
      ensures r.Ok? ==> buf == old(buf) + LargeBytes(v)
      ensures r.Err? ==> buf == old(buf)
    {
      if |v| > MAX_LARGE {
        return Err(LargeStringTooLong);
      }
      Word16(|v|);
      buf := buf + v;
      return Ok(());
    }

    method Bool(v: bool)
      modifies this
      ensures buf == old(buf) + BoolBytes(v)
    {
      if v {
        buf := buf + [0x54];
      } else {
        buf := buf + [0x46];
      }
    }

    method Char(c: byte)
      modifies this
      ensures buf == old(buf) + [c]
    {
      buf := buf + [c];
    }

    method Raw(v: bytes)
      modifies this
      ensures buf == old(buf) + v
    {
      buf := buf + v;
    }

    /** A value that is too long leaves the presence tag behind. */
    method MaybeShortString(present: bool, v: bytes) returns (r: Result<()>)
      modifies this
      ensures r == if present && |v| > MAX_SHORT then Err(ShortStringTooLong) else Ok(())
      ensures !present ==> buf == old(buf) + MaybeBytes(None)
      ensures present && r.Ok? ==> buf == old(buf) + MaybeBytes(Some(v))
      ensures present && r.Err? ==> buf == old(buf) + [0x31]
    {
      if !present {
        buf := buf + [0x30];
        return Ok(());
      }
      buf := buf + [0x31];
      assert buf == old(buf) + [0x31];
      r := ShortString(v);
      assert r.Ok? ==> buf == old(buf) + ([0x31] + ShortBytes(v));
    }
  }

  /** Reads primitives from a buffer. Every read yields what the matching parse function
      says and moves the position to where that function stops, also when it fails. */
  class Decoder {
    const buf: bytes
    var pos: nat

    ghost predicate Valid()
      reads this
    {
      pos <= |buf|
    }

    function Rest(): bytes
      requires Valid()
      reads this
    {
      buf[pos..]
    }

    constructor (buf: bytes)
      ensures Valid() && this.buf == buf && Rest() == buf
    {
      this.buf := buf;
      pos := 0;
    }

    method Need(n: int) returns (r: Result<bytes>)
      requires Valid()
      modifies this
      ensures Valid() && pos >= old(pos)
      ensures r == Take(n, old(Rest())).ToResult() && Rest() == Take(n, old(Rest())).rest
    {
      if n < 0 || pos + n > |buf| {
        return Err(Truncated);
      }
      assert Rest()[..n] == buf[pos..pos + n] && Rest()[n..] == buf[pos + n..];
      r := Ok(buf[pos..pos + n]);
      pos := pos + n;
    }

    method Char() returns (r: Result<byte>)
      requires Valid()
      modifies this
      ensures Valid() && pos >= old(pos)
      ensures r == ParseChar(old(Rest())).ToResult() && Rest() == ParseChar(old(Rest())).rest
    {
      var b :- Need(1);
      return Ok(b[0]);
    }

    method Word16() returns (r: Result<uint16>)
      requires Valid()
      modifies this
      ensures Valid() && pos >= old(pos)
      ensures r == ParseWord16(old(Rest())).ToResult() && Rest() == ParseWord16(old(Rest())).rest
    {
      var b :- Need(2);
      return Ok(Word16Value(b));
    }

    method Word32() returns (r: Result<uint32>)
      requires Valid()
      modifies this
      ensures Valid() && pos >= old(pos)
      ensures r == ParseWord32(old(Rest())).ToResult() && Rest() == ParseWord32(old(Rest())).rest
    {
      var b :- Need(4);
      return Ok(Word32Value(b));
    }

    method Int64() returns (r: Result<int64>)
      requires Valid()
      modifies this
      ensures Valid() && pos >= old(pos)
      ensures r == ParseInt64(old(Rest())).ToResult() && Rest() == ParseInt64(old(Rest())).rest
    {
      var hi :- Word32();
      var lo :- Word32();
      return Ok(Int64Value(hi, lo));
    }

    method ShortString() returns (r: Result<bytes>)
      requires Valid()
      modifies this
      ensures Valid() && pos >= old(pos)
      ensures r == ParseShort(old(Rest())).ToResult() && Rest() == ParseShort(old(Rest())).rest
    {
      var lb :- Need(1);
      r := Need(lb[0]);
    }

    method Large() returns (r: Result<bytes>)
      requires Valid()
      modifies this
      ensures Valid() && pos >= old(pos)
      ensures r == ParseLarge(old(Rest())).ToResult() && Rest() == ParseLarge(old(Rest())).rest
    {
      var n :- Word16();
      r := Need(n);
    }

    method Bool() returns (r: Result<bool>)
      requires Valid()
      modifies this
      ensures Valid() && pos >= old(pos)
      ensures r == ParseBool(old(Rest())).ToResult() && Rest() == ParseBool(old(Rest())).rest
    {
      var b :- Need(1);
      match b[0] {
        case 0x54 => return Ok(true);
        case 0x46 => return Ok(false);
        case _ => return Err(BadEncoding);
      }
    }

    method Tail() returns (out: bytes)
      requires Valid()
      modifies this
      ensures Valid() && pos == |buf|
      ensures out == old(Rest())
    {
      out := buf[pos..];
      pos := |buf|;
    }

    method MaybeShortString() returns (r: Result<Option<bytes>>)
      requires Valid()
      modifies this
      ensures Valid() && pos >= old(pos)
      ensures r == ParseMaybe(old(Rest())).ToResult() && Rest() == ParseMaybe(old(Rest())).rest
    {
      var tag :- Char();
      match tag {
        case 0x30 => return Ok(None);
        case 0x31 =>
          var v :- ShortString();
          return Ok(Some(v));
        case _ => return Err(BadEncoding);
      }
    }
  }
}
