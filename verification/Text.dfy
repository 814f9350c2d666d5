/** The text codecs that smp/queue_uri.go takes from Go's library: first and last
    occurrence, decimal numbers, unpadded base64url and query strings. A Go string is a
    string of characters below 256, one for each octet. */
module Text {
  import opened Bytes

  // ---------------------------------------------------------------- searching

  /** strings.LastIndex for one character. */
  function LastIndexOf(s: string, c: char): (i: int)
    ensures -1 <= i < |s|
    ensures i == -1 <==> c !in s
    ensures i >= 0 ==> s[i] == c && c !in s[i + 1..]
  {
    if s == [] then -1
    else if s[|s| - 1] == c then |s| - 1
    else
      var front := s[..|s| - 1];
      var i := LastIndexOf(front, c);
      assert s == front + [s[|s| - 1]];
      assert i >= 0 ==> s[i + 1..] == front[i + 1..] + [s[|s| - 1]];
      i
  }

  lemma {:induction false} LastCut(pre: string, c: char, post: string)
    requires c !in post
    ensures LastIndexOf(pre + [c] + post, c) == |pre|
    decreases |post|
  {
    var s := pre + [c] + post;
    if post == [] {
      assert s[|s| - 1] == c;
    } else {
      var front := post[..|post| - 1];
      assert s[..|s| - 1] == pre + [c] + front;
      LastCut(pre, c, front);
    }
  }

  // ---------------------------------------------------------------- decimal numbers

  predicate IsDigit(c: char) {
    '0' <= c <= '9'
  }

  predicate AllDigits(s: string) {
    forall i | 0 <= i < |s| :: IsDigit(s[i])
  }

  function Decimal(n: nat): (s: string)
    ensures s != [] && AllDigits(s)
  {
    var last := ('0' as int + n % 10) as char;
    if n < 10 then [last] else Decimal(n / 10) + [last]
  }

  function Value(s: string): nat
    requires AllDigits(s)
  {
    if s == [] then 0 else Value(s[..|s| - 1]) * 10 + (s[|s| - 1] as int - '0' as int)
  }

  /** strconv.ParseUint in base 10 for 16 bits: digits only, at least one, leading zeros
      allowed, and no more than 65535. */
  function ParseUint16(s: string): Option<uint16> {
    if s != [] && AllDigits(s) && Value(s) < 0x1_0000 then Some(Value(s)) else None
  }

  lemma {:induction false} ValueOfDecimal(n: nat)
    ensures Value(Decimal(n)) == n
  {
    var s := Decimal(n);
    if n < 10 {
      assert s == [('0' as int + n) as char] && s[..0] == [];
    } else {
      assert s[..|s| - 1] == Decimal(n / 10);
      ValueOfDecimal(n / 10);
    }
  }

  lemma DecimalRoundTrip(n: uint16)
    ensures ParseUint16(Decimal(n)) == Some(n)
  {
    ValueOfDecimal(n);
  }

  // ---------------------------------------------------------------- base64url, RFC 4648 section 5

  type sextet = i: int | 0 <= i < 64

  function Letter(i: sextet): char {
    if i < 26 then ('A' as int + i) as char
    else if i < 52 then ('a' as int + (i - 26)) as char
    else if i < 62 then ('0' as int + (i - 52)) as char
    else if i == 62 then '-'
    else '_'
  }

  function LetterValue(c: char): Option<sextet> {
    if 'A' <= c <= 'Z' then Some(c as int - 'A' as int)
    else if 'a' <= c <= 'z' then Some(c as int - 'a' as int + 26)
    else if '0' <= c <= '9' then Some(c as int - '0' as int + 52)
    else if c == '-' then Some(62)
    else if c == '_' then Some(63)
    else None
  }

  lemma LetterRoundTrip(i: sextet)
    ensures LetterValue(Letter(i)) == Some(i)
  {
  }

  predicate IsLetter(c: char) {
    LetterValue(c).Some?
  }

  predicate AllLetters(s: string) {
    forall i | 0 <= i < |s| :: IsLetter(s[i])
  }

  function Sextet2(a: byte, b: byte): sextet {
    a % 4 * 16 + b / 16
  }

  function Sextet3(b: byte, c: byte): sextet {
    b % 16 * 4 + c / 64
  }

  function Octet1(p: sextet, q: sextet): byte {
    var x: int := p;
    x * 4 + q / 16
  }

  function Octet2(q: sextet, r: sextet): byte {
    var x: int := q % 16;
    x * 16 + r / 4
  }

  function Octet3(r: sextet, t: sextet): byte {
    var x: int := r % 4;
    x * 64 + t
  }

  lemma GroupRoundTrip(a: byte, b: byte, c: byte)
    ensures Octet1(a / 4, Sextet2(a, b)) == a
    ensures Octet2(Sextet2(a, b), Sextet3(b, c)) == b
    ensures Octet3(Sextet3(b, c), c % 64) == c
  {
  }

  function Sextets(b: bytes): seq<sextet> {
    if |b| == 0 then []
    else if |b| == 1 then [b[0] / 4, Sextet2(b[0], 0)]
    else if |b| == 2 then [b[0] / 4, Sextet2(b[0], b[1]), Sextet3(b[1], 0)]
    else [b[0] / 4, Sextet2(b[0], b[1]), Sextet3(b[1], b[2]), b[2] % 64] + Sextets(b[3..])
  }

  /** Left-over bits of an incomplete final group are dropped, whatever they are; a single
      left-over sextet is an error. */
  function FromSextets(s: seq<sextet>): Option<bytes> {
    if |s| == 0 then Some([])
    else if |s| == 1 then None
    else if |s| == 2 then Some([Octet1(s[0], s[1])])
    else if |s| == 3 then Some([Octet1(s[0], s[1]), Octet2(s[1], s[2])])
    else
      var more := FromSextets(s[4..]);
      if more.None? then None
      else Some([Octet1(s[0], s[1]), Octet2(s[1], s[2]), Octet3(s[2], s[3])] + more.value)
  }

  function Spell(s: seq<sextet>): (t: string)
    ensures |t| == |s| && forall i | 0 <= i < |s| :: t[i] == Letter(s[i])
  {
    seq(|s|, i requires 0 <= i < |s| => Letter(s[i]))
  }

  function Encode64(b: bytes): string {
    Spell(Sextets(b))
  }

  /** The library's decoder skips line breaks. */
  function SkipBreaks(s: string): string {
    if s == [] then []
    else if s[0] == '\n' || s[0] == '\r' then SkipBreaks(s[1..])
    else [s[0]] + SkipBreaks(s[1..])
  }

  function Decode64(s: string): Option<bytes> {
    var t := SkipBreaks(s);
    if AllLetters(t) then
      FromSextets(seq(|t|, i requires 0 <= i < |t| => LetterValue(t[i]).value))
    else None
  }

  lemma {:induction false} SextetsRoundTrip(b: bytes)
    ensures FromSextets(Sextets(b)) == Some(b)
  {
    hide Octet1, Octet2, Octet3, Sextet2, Sextet3;
    if |b| > 0 {
      GroupRoundTrip(b[0], if |b| > 1 then b[1] else 0, if |b| > 2 then b[2] else 0);
    }
    if |b| > 2 {
      SextetsRoundTrip(b[3..]);
      assert Sextets(b)[4..] == Sextets(b[3..]);
      assert b == [b[0], b[1], b[2]] + b[3..];
    } else if |b| == 2 {
      assert b == [b[0], b[1]];
    } else if |b| == 1 {
      assert b == [b[0]];
    }
  }

  lemma {:induction false} NothingToSkip(s: string)
    requires AllLetters(s)
    ensures SkipBreaks(s) == s
  {
    if s == [] {
    } else {
      assert IsLetter(s[0]);
      NothingToSkip(s[1..]);
    }
  }

  /** Decoding inverts encoding; the encoding holds letters only. */
  lemma Base64RoundTrip(b: bytes)
    ensures Decode64(Encode64(b)) == Some(b)
    ensures AllLetters(Encode64(b))
    ensures b != [] ==> Encode64(b) != []
  {
    var t := Encode64(b);
    forall i | 0 <= i < |t|
      ensures LetterValue(t[i]) == Some(Sextets(b)[i])
    {
      LetterRoundTrip(Sextets(b)[i]);
    }
    NothingToSkip(t);
    assert seq(|t|, i requires 0 <= i < |t| => LetterValue(t[i]).value) == Sextets(b);
    SextetsRoundTrip(b);
  }

  // ---------------------------------------------------------------- query strings

  /** Characters that stand for octets, as all characters of a Go string do. */
  predicate Octets(s: string) {
    forall i | 0 <= i < |s| :: s[i] as int < 0x100
  }

  predicate Unreserved(c: char) {
    'a' <= c <= 'z' || 'A' <= c <= 'Z' || '0' <= c <= '9' || c in "-_.~"
  }

  function HexDigit(n: int): char
    requires 0 <= n < 16
  {
    if n < 10 then ('0' as int + n) as char else ('A' as int + (n - 10)) as char
  }

  function HexValue(c: char): (n: int)
    ensures -1 <= n < 16
  {
    if '0' <= c <= '9' then c as int - '0' as int
    else if 'a' <= c <= 'f' then c as int - 'a' as int + 10
    else if 'A' <= c <= 'F' then c as int - 'A' as int + 10
    else -1
  }

  function EscapeChar(c: char): string
    requires c as int < 0x100
  {
    if Unreserved(c) then [c]
    else if c == ' ' then "+"
    else ['%', HexDigit(c as int / 16), HexDigit(c as int % 16)]
  }

  /** url.QueryEscape. */
  function Escape(s: string): string
    requires Octets(s)
  {
    if s == [] then [] else EscapeChar(s[0]) + Escape(s[1..])
  }

  /** url.QueryUnescape. */
  function Unescape(s: string): Option<string> {
    if s == [] then Some([])
    else if s[0] == '%' then
      if |s| < 3 || HexValue(s[1]) < 0 || HexValue(s[2]) < 0 then None
      else
        var more := Unescape(s[3..]);
        if more.None? then None else Some([(HexValue(s[1]) * 16 + HexValue(s[2])) as char] + more.value)
    else
      var more := Unescape(s[1..]);
      if more.None? then None else Some([if s[0] == '+' then ' ' else s[0]] + more.value)
  }

  lemma UnescapeChar(c: char, rest: string)
    requires c as int < 0x100
    ensures Unescape(EscapeChar(c) + rest)
         == if Unescape(rest).None? then None else Some([c] + Unescape(rest).value)
  {
    var s := EscapeChar(c) + rest;
    assert s[|EscapeChar(c)|..] == rest;
    if !Unreserved(c) && c != ' ' {
      assert s[0] == '%';
      assert HexValue(s[1]) * 16 + HexValue(s[2]) == c as int;
    }
  }

  lemma {:induction false} EscapeRoundTrip(s: string)
    requires Octets(s)
    ensures Unescape(Escape(s)) == Some(s)
  {
    if s == [] {
    } else {
      EscapeRoundTrip(s[1..]);
      UnescapeChar(s[0], Escape(s[1..]));
      assert s == [s[0]] + s[1..];
    }
  }

  predicate Plain(c: char) {
    Unreserved(c) || c == '+' || c == '%'
  }

  predicate AllPlain(s: string) {
    forall i | 0 <= i < |s| :: Plain(s[i])
  }

  /** Nothing that separates or marks parts of a query survives escaping. */
  lemma {:induction false} EscapeIsPlain(s: string)
    requires Octets(s)
    ensures AllPlain(Escape(s))
  {
    if s == [] {
    } else {
      EscapeIsPlain(s[1..]);
      var e := EscapeChar(s[0]);
      assert AllPlain(e);
    }
  }

  /** One `key=value` item of a query, both sides unescaped. */
  function ParseItem(item: string): Option<(string, string)> {
    var j := IndexOf(item, '=');
    var key := Unescape(if j < 0 then item else item[..j]);
    var value := Unescape(if j < 0 then "" else item[j + 1..]);
    if key.Some? && value.Some? then Some((key.value, value.value)) else None
  }

  /** url.ParseQuery, with None for a query that has any error: a semicolon or a bad
      escape. Empty items are skipped. */
  function ParseQuery(s: string): Option<seq<(string, string)>>
    decreases |s|
  {
    if s == [] then Some([])
    else
      var i := IndexOf(s, '&');
      var item := if i < 0 then s else s[..i];
      var more := ParseQuery(if i < 0 then "" else s[i + 1..]);
      if more.None? || ';' in item then None
      else if item == "" then more
      else
        var pair := ParseItem(item);
        if pair.None? then None else Some([pair.value] + more.value)
  }

  /** Values.Get: the first value of `key`, or nothing. */
  function Get(q: seq<(string, string)>, key: string): string {
    if q == [] then "" else if q[0].0 == key then q[0].1 else Get(q[1..], key)
  }

  function EncodeItem(key: string, value: string): string
    requires Octets(value)
  {
    key + "=" + Escape(value)
  }

  /** Values.Encode for a map with the keys "dh" and "v", which it writes in this order. */
  function EncodeQuery(dh: string, v: string): string
    requires Octets(dh) && Octets(v)
  {
    EncodeItem("dh", dh) + ['&'] + EncodeItem("v", v)
  }

  lemma {:induction false} NothingToUnescape(s: string)
    requires '%' !in s && '+' !in s
    ensures Unescape(s) == Some(s)
  {
    if s == [] {
    } else {
      NothingToUnescape(s[1..]);
      assert s == [s[0]] + s[1..];
    }
  }

  predicate IsItem(item: string) {
    item != "" && '&' !in item && ';' !in item
  }

  lemma ItemCut(key: string, text: string)
    requires key == "dh" || key == "v"
    requires AllPlain(text) && Unescape(key).Some? && Unescape(text).Some?
    ensures ParseItem(key + "=" + text) == Some((Unescape(key).value, Unescape(text).value))
    ensures IsItem(key + "=" + text)
  {
    hide Unescape, IndexOf;
    var item := key + ['='] + text;
    assert item == key + "=" + text;
    FirstCut(key, '=', text);
    assert item[..|key|] == key && item[|key| + 1..] == text;
  }

  lemma ItemRoundTrip(key: string, value: string)
    requires key == "dh" || key == "v"
    requires Octets(value)
    ensures ParseItem(EncodeItem(key, value)) == Some((key, value))
    ensures IsItem(EncodeItem(key, value))
  {
    EscapeRoundTrip(value);
    EscapeIsPlain(value);
    NothingToUnescape(key);
    hide Escape, Unescape;
    ItemCut(key, Escape(value));
  }

  lemma QueryLast(item: string)
    requires IsItem(item) && ParseItem(item).Some?
    ensures ParseQuery(item) == Some([ParseItem(item).value])
  {
    hide ParseItem, IndexOf;
    assert IndexOf(item, '&') == -1;
    assert ParseQuery("") == Some([]);
    assert [ParseItem(item).value] + [] == [ParseItem(item).value];
  }

  lemma QueryCons(item: string, rest: string)
    requires IsItem(item) && ParseItem(item).Some? && ParseQuery(rest).Some?
    ensures ParseQuery(item + ['&'] + rest) == Some([ParseItem(item).value] + ParseQuery(rest).value)
  {
    hide ParseItem, IndexOf;
    var s := item + ['&'] + rest;
    FirstCut(item, '&', rest);
    assert s[..|item|] == item && s[|item| + 1..] == rest;
  }

  lemma QueryRoundTrip(dh: string, v: string)
    requires Octets(dh) && Octets(v)
    ensures ParseQuery(EncodeQuery(dh, v)) == Some([("dh", dh), ("v", v)])
  {
    ItemRoundTrip("dh", dh);
    ItemRoundTrip("v", v);
    hide EncodeItem, ParseItem, ParseQuery, IsItem;
    QueryLast(EncodeItem("v", v));
    QueryCons(EncodeItem("dh", dh), EncodeItem("v", v));
    assert [("dh", dh)] + [("v", v)] == [("dh", dh), ("v", v)];
  }
}
