/** Octets, octet strings, Go's fixed-width integers, and the two ways an operation of
    the package can end. */
module Bytes {
  type byte = b: int | 0 <= b < 0x100
  type bytes = seq<byte>

  type uint16 = n: int | 0 <= n < 0x1_0000
  type uint32 = n: int | 0 <= n < 0x1_0000_0000
  type int64 = n: int | -0x8000_0000_0000_0000 <= n < 0x8000_0000_0000_0000

  datatype Option<+T> = None | Some(value: T)

  /** The sentinel errors of the package; the text wrapped around them is not modelled. */
  datatype Error =
    | ShortStringTooLong
    | LargeStringTooLong
    | Truncated
    | BadEncoding
    | TransmissionTooLarge
    | LargeBlock
    | ShortBlock
    | BadBlock
    | Unauthorized
    | NetworkFailure
    | NoRandomness

  datatype Result<+T> = Ok(value: T) | Err(error: Error) {
    predicate IsFailure() { Err? }

    function PropagateFailure<U>(): Result<U>
      requires Err?
    {
      Err(error)
    }

    function Extract(): T
      requires Ok?
    {
      value
    }
  }

  /** What reading a field from the front of an octet string yields. Both outcomes carry
      the octets left unread, because a failed read may already have consumed some. */
  datatype Parse<+T> = Parsed(value: T, rest: bytes) | Stuck(error: Error, rest: bytes) {
    function ToResult(): Result<T> {
      match this
      case Parsed(v, _) => Ok(v)
      case Stuck(e, _) => Err(e)
    }
  }

  function Repeat(b: byte, n: nat): (s: bytes)
    ensures |s| == n && forall i | 0 <= i < n :: s[i] == b
  {
    seq(n, i => b)
  }

  lemma Concat4(a: bytes, b: bytes, c: bytes, d: bytes)
    ensures a + b + c + d == a + (b + (c + d))
  {
  }

  /** Two concatenations with heads of equal length agree part by part. */
  lemma SplitEqual(a: bytes, x: bytes, b: bytes, y: bytes)
    requires |a| == |b|
    ensures a + x == b + y <==> a == b && x == y
  {
    if a + x == b + y {
      assert a == (a + x)[..|a|] == (b + y)[..|b|] == b;
      assert x == (a + x)[|a|..] == (b + y)[|b|..] == y;
    }
  }

  /** Position of the first occurrence of `x`, or -1: bytes.IndexByte and strings.Index. */
  function IndexOf<T(==)>(s: seq<T>, x: T): (i: int)
    ensures -1 <= i < |s|
    ensures i == -1 <==> x !in s
    ensures i >= 0 ==> s[i] == x && x !in s[..i]
  {
    if s == [] then -1
    else if s[0] == x then 0
    else
      var i := IndexOf(s[1..], x);
      assert s == [s[0]] + s[1..];
      assert i >= 0 ==> s[..i + 1] == [s[0]] + s[1..][..i];
      if i == -1 then -1 else i + 1
  }

  lemma {:induction false} FirstCut<T>(pre: seq<T>, x: T, post: seq<T>)
    requires x !in pre
    ensures IndexOf(pre + [x] + post, x) == |pre|
  {
    var s := pre + [x] + post;
    if pre == [] {
      assert s[0] == x;
    } else {
      assert s[1..] == pre[1..] + [x] + post;
      FirstCut(pre[1..], x, post);
    }
  }
}
