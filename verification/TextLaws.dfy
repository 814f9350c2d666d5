/** Which texts the codecs of Text accept, and what they make of them: numbers with leading
    zeros, base64url with line breaks and left-over bits, queries with any items. */
module TextLaws {
  import opened Bytes
  import opened Text

  // ---------------------------------------------------------------- decimal numbers

  function Zeros(k: nat): (s: string)
    ensures |s| == k && forall i | 0 <= i < k :: s[i] == '0'
  {
    if k == 0 then "" else "0" + Zeros(k - 1)
  }

  lemma {:induction false} ZerosAreZero(k: nat)
    ensures AllDigits(Zeros(k)) && Value(Zeros(k)) == 0
  {
    if k == 0 {
      assert Zeros(k) == "";
    } else {
      ZerosAreZero(k - 1);
      assert Zeros(k)[..k - 1] == Zeros(k - 1);
    }
  }

  lemma {:induction false} ValueOfZeros(k: nat, s: string)
    requires AllDigits(s)
    ensures AllDigits(Zeros(k) + s) && Value(Zeros(k) + s) == Value(s)
    decreases |s|
  {
    var t := Zeros(k) + s;
    if s == "" {
      assert t == Zeros(k);
      ZerosAreZero(k);
    } else {
      var front := s[..|s| - 1];
      assert t[..|t| - 1] == Zeros(k) + front;
      ValueOfZeros(k, front);
    }
  }

  /** Every string of digits is the decimal form of its value behind zeros. */
  lemma {:induction false} Canonical(s: string) returns (k: nat)
    requires s != "" && AllDigits(s)
    ensures s == Zeros(k) + Decimal(Value(s))
    decreases |s|
  {
    var front, last := s[..|s| - 1], s[|s| - 1];
    assert s == front + [last];
    if front == "" {
      k := 0;
      assert s[..0] == "" && Decimal(Value(s)) == [last];
    } else {
      k := Canonical(front);
      if Value(front) == 0 {
        assert Decimal(0) == "0" && Decimal(Value(s)) == [last];
        assert Zeros(k + 1) == Zeros(k) + "0";
        k := k + 1;
      } else {
        assert Decimal(Value(s)) == Decimal(Value(front)) + [last];
      }
    }
  }

  /** A 16-bit number is accepted exactly in its decimal form, with any number of zeros in
      front. */
  lemma NumberExact(s: string, n: uint16)
    ensures ParseUint16(s) == Some(n) <==> exists k :: s == Zeros(k) + Decimal(n)
  {
    if ParseUint16(s) == Some(n) {
      var k := Canonical(s);
    }
    if k :| s == Zeros(k) + Decimal(n) {
      ValueOfZeros(k, Decimal(n));
      ValueOfDecimal(n);
    }
  }

  lemma DefaultPortText()
    ensures Decimal(5223) == "5223"
  {
    assert Decimal(5) == "5" && Decimal(52) == "52" && Decimal(522) == "522";
  }

  // ---------------------------------------------------------------- base64url

  /** The alphabet of section 5 of RFC 4648. */
  lemma Alphabet()
    ensures Letter(0) == 'A' && Letter(25) == 'Z' && Letter(26) == 'a' && Letter(51) == 'z'
    ensures Letter(52) == '0' && Letter(61) == '9' && Letter(62) == '-' && Letter(63) == '_'
    ensures forall i: sextet | i < 61 && i != 25 && i != 51 :: Letter(i + 1) as int == Letter(i) as int + 1
  {
  }

  function Number3(a: int, b: int, c: int): int {
    a * 0x1_0000 + b * 0x100 + c
  }

  function Number4(p: int, q: int, r: int, t: int): int {
    p * 0x4_0000 + q * 0x1000 + r * 0x40 + t
  }

  lemma GroupValue(a: byte, b: byte, c: byte)
    ensures Number4(a / 4, Sextet2(a, b), Sextet3(b, c), c % 64) == Number3(a, b, c)
  {
  }

  function OctetAt(b: bytes, i: nat): byte {
    if i < |b| then b[i] else 0
  }

  function SextetAt(s: seq<sextet>, i: nat): sextet {
    if i < |s| then s[i] else 0
  }

  lemma {:induction false} SextetCount(b: bytes)
    ensures |Sextets(b)| == |b| / 3 * 4 + (if |b| % 3 == 0 then 0 else |b| % 3 + 1)
  {
    if |b| < 3 {
    } else {
      SextetCount(b[3..]);
    }
  }

  /** Three octets make four letters that spell the same 24 bits; a last group of one or two
      octets is filled up with zeros and makes two or three letters. */
  lemma {:induction false} GroupLayout(b: bytes, i: nat)
    requires 3 * i < |b|
    ensures |Sextets(b)| == |b| / 3 * 4 + (if |b| % 3 == 0 then 0 else |b| % 3 + 1)
    ensures Number4(SextetAt(Sextets(b), 4 * i), SextetAt(Sextets(b), 4 * i + 1),
                    SextetAt(Sextets(b), 4 * i + 2), SextetAt(Sextets(b), 4 * i + 3))
         == Number3(OctetAt(b, 3 * i), OctetAt(b, 3 * i + 1), OctetAt(b, 3 * i + 2))
  {
    SextetCount(b);
    if i == 0 {
      GroupValue(OctetAt(b, 0), OctetAt(b, 1), OctetAt(b, 2));
    } else {
      GroupLayout(b[3..], i - 1);
      SextetCount(b[3..]);
      assert Sextets(b)[4..] == Sextets(b[3..]);
      forall k | 4 <= k
        ensures SextetAt(Sextets(b), k) == SextetAt(Sextets(b[3..]), k - 4)
      {
      }
      forall k | 3 <= k
        ensures OctetAt(b, k) == OctetAt(b[3..], k - 3)
      {
      }
    }
  }

  /** Line breaks are dropped wherever they are, and nothing else is. */
  lemma {:induction false} SkipExact(s: string, c: char, t: string)
    ensures SkipBreaks(s + [c] + t) == SkipBreaks(s) + (if c == '\n' || c == '\r' then "" else [c]) + SkipBreaks(t)
    decreases |s|
  {
    var u := s + [c] + t;
    if s == "" {
      assert u == [c] + t && u[1..] == t;
    } else {
      assert u[1..] == s[1..] + [c] + t;
      SkipExact(s[1..], c, t);
    }
  }

  /** Sextets that stand for octets: those of the encoder, except that the left-over bits of
      the last one are free. */
  predicate StandsFor(s: seq<sextet>, b: bytes) {
    var e := Sextets(b);
    && |s| == |e|
    && (forall i | 0 <= i < |s| :: i < |s| - 1 || |s| % 4 == 0 ==> s[i] == e[i])
    && (|s| % 4 == 2 ==> s[|s| - 1] / 16 == e[|s| - 1] / 16)
    && (|s| % 4 == 3 ==> s[|s| - 1] / 4 == e[|s| - 1] / 4)
  }

  lemma OneOctet(p: sextet, q: sextet, a: byte)
    ensures Octet1(p, q) == a <==> p == a / 4 && q / 16 == Sextet2(a, 0) / 16
  {
  }

  lemma TwoOctets(p: sextet, q: sextet, r: sextet, a: byte, b: byte)
    ensures (Octet1(p, q) == a && Octet2(q, r) == b)
       <==> p == a / 4 && q == Sextet2(a, b) && r / 4 == Sextet3(b, 0) / 4
  {
  }

  lemma ShortGroupExact(s: seq<sextet>, b: bytes)
    requires |s| < 4 && |b| <= 2
    ensures FromSextets(s) == Some(b) <==> StandsFor(s, b)
  {
    hide Octet1, Octet2, Sextet2, Sextet3;
    SextetCount(b);
    if |s| == 2 && |b| == 1 {
      OneOctet(s[0], s[1], b[0]);
      assert b == [b[0]] && Sextets(b) == [b[0] / 4, Sextet2(b[0], 0)];
    } else if |s| == 3 && |b| == 2 {
      TwoOctets(s[0], s[1], s[2], b[0], b[1]);
      assert b == [b[0], b[1]] && Sextets(b) == [b[0] / 4, Sextet2(b[0], b[1]), Sextet3(b[1], 0)];
    }
  }

  lemma FullGroup(s0: sextet, s1: sextet, s2: sextet, s3: sextet, a: byte, b: byte, c: byte)
    ensures (Octet1(s0, s1) == a && Octet2(s1, s2) == b && Octet3(s2, s3) == c)
       <==> (s0 == a / 4 && s1 == Sextet2(a, b) && s2 == Sextet3(b, c) && s3 == c % 64)
  {
  }

  lemma GroupStands(s: seq<sextet>, b: bytes)
    requires |s| >= 4 && |b| >= 3
    ensures StandsFor(s, b) <==>
            && s[0] == b[0] / 4 && s[1] == Sextet2(b[0], b[1]) && s[2] == Sextet3(b[1], b[2]) && s[3] == b[2] % 64
            && StandsFor(s[4..], b[3..])
  {
    hide Sextet2, Sextet3;
    var e, f := Sextets(b), Sextets(b[3..]);
    assert e[4..] == f && |e| == 4 + |f|;
    if |s| == |e| {
      assert forall i | 4 <= i < |s| :: s[i] == s[4..][i - 4] && e[i] == f[i - 4];
    }
  }

  lemma GroupExact(s: seq<sextet>, b: bytes)
    requires |s| >= 4 && |b| >= 3
    requires FromSextets(s[4..]) == Some(b[3..]) <==> StandsFor(s[4..], b[3..])
    ensures FromSextets(s) == Some(b) <==> StandsFor(s, b)
  {
    hide Octet1, Octet2, Octet3, Sextet2, Sextet3, StandsFor;
    FullGroup(s[0], s[1], s[2], s[3], b[0], b[1], b[2]);
    GroupStands(s, b);
    assert b == [b[0], b[1], b[2]] + b[3..];
    var more := FromSextets(s[4..]);
    if more.Some? {
      var r := [Octet1(s[0], s[1]), Octet2(s[1], s[2]), Octet3(s[2], s[3])] + more.value;
      assert FromSextets(s) == Some(r);
      assert r[..3] == [r[0], r[1], r[2]] && r[3..] == more.value;
    }
  }

  lemma {:induction false} SextetsExact(s: seq<sextet>, b: bytes)
    ensures FromSextets(s) == Some(b) <==> StandsFor(s, b)
    decreases |s|
  {
    SextetCount(b);
    if |s| >= 4 && |b| >= 3 {
      SextetsExact(s[4..], b[3..]);
      GroupExact(s, b);
    } else if |s| >= 4 {
      assert !StandsFor(s, b);
    } else if |b| <= 2 {
      ShortGroupExact(s, b);
    }
  }

  function Values(s: string): seq<sextet>
    requires AllLetters(s)
  {
    seq(|s|, i requires 0 <= i < |s| => LetterValue(s[i]).value)
  }

  /** What the decoder accepts, besides what the encoder writes: line breaks anywhere, and
      any left-over bits. */
  lemma Base64Exact(s: string, b: bytes)
    ensures Decode64(s) == Some(b) <==> AllLetters(SkipBreaks(s)) && StandsFor(Values(SkipBreaks(s)), b)
  {
    var t := SkipBreaks(s);
    if AllLetters(t) {
      assert Values(t) == seq(|t|, i requires 0 <= i < |t| => LetterValue(t[i]).value);
      SextetsExact(Values(t), b);
    }
  }

  // ---------------------------------------------------------------- queries

  lemma {:induction false} NothingToEscape(s: string)
    requires forall i | 0 <= i < |s| :: Unreserved(s[i])
    ensures Octets(s) && Escape(s) == s
  {
    if s == "" {
    } else {
      assert Unreserved(s[0]);
      NothingToEscape(s[1..]);
      assert s == [s[0]] + s[1..];
    }
  }

  predicate IsHex(c: char) {
    '0' <= c <= '9' || 'A' <= c <= 'F'
  }

  /** Reserved octets become '%' and two upper-case hexadecimal digits, a space a '+'. */
  lemma EscapeForm(c: char)
    requires c as int < 0x100 && !Unreserved(c)
    ensures c == ' ' ==> EscapeChar(c) == "+"
    ensures c != ' ' ==>
              var e := EscapeChar(c);
              |e| == 3 && e[0] == '%' && IsHex(e[1]) && IsHex(e[2]) && HexValue(e[1]) * 16 + HexValue(e[2]) == c as int
  {
  }

  /** The three rules of unescaping, each at the front of any text. */
  lemma UnescapeRules(c: char, h: char, l: char, rest: string)
    requires Unescape(rest).Some?
    ensures c != '%' && c != '+' ==> Unescape([c] + rest) == Some([c] + Unescape(rest).value)
    ensures Unescape("+" + rest) == Some(" " + Unescape(rest).value)
    ensures HexValue(h) >= 0 && HexValue(l) >= 0 ==>
              Unescape(['%', h, l] + rest) == Some([(HexValue(h) * 16 + HexValue(l)) as char] + Unescape(rest).value)
  {
    assert ([c] + rest)[1..] == rest && ("+" + rest)[1..] == rest && (['%', h, l] + rest)[3..] == rest;
  }

  /** An item is cut at its first '='; without one it is a name with an empty value. */
  lemma ItemExact(name: string, value: string)
    requires '=' !in name
    ensures ParseItem(name + ['='] + value)
         == if Unescape(name).Some? && Unescape(value).Some? then Some((Unescape(name).value, Unescape(value).value)) else None
    ensures ParseItem(name) == if Unescape(name).Some? then Some((Unescape(name).value, "")) else None
  {
    hide IndexOf;
    var item := name + ['='] + value;
    FirstCut(name, '=', value);
    assert item[..|name|] == name && item[|name| + 1..] == value;
  }

  /** Empty items are skipped; a semicolon or a bad escape spoils the query. */
  lemma QueryItem(item: string)
    requires '&' !in item
    ensures ParseQuery(item)
         == if ';' in item then None
            else if item == "" then Some([])
            else if ParseItem(item).None? then None
            else Some([ParseItem(item).value])
  {
    hide ParseItem, IndexOf;
    assert ParseQuery("") == Some([]);
    if item != "" && ParseItem(item).Some? {
      assert [ParseItem(item).value] + [] == [ParseItem(item).value];
    }
  }

  function Both(p: Option<seq<(string, string)>>, q: Option<seq<(string, string)>>): Option<seq<(string, string)>> {
    if p.None? || q.None? then None else Some(p.value + q.value)
  }

  lemma QuerySplit(item: string, rest: string)
    requires '&' !in item
    ensures ParseQuery(item + ['&'] + rest) == Both(ParseQuery(item), ParseQuery(rest))
  {
    QueryItem(item);
    hide ParseItem, IndexOf;
    var s := item + ['&'] + rest;
    FirstCut(item, '&', rest);
    assert s[..|item|] == item && s[|item| + 1..] == rest;
    if item == "" && ParseQuery(rest).Some? {
      assert [] + ParseQuery(rest).value == ParseQuery(rest).value;
    }
  }

  lemma BothAssociates(p: Option<seq<(string, string)>>, q: Option<seq<(string, string)>>, r: Option<seq<(string, string)>>)
    ensures Both(Both(p, q), r) == Both(p, Both(q, r))
  {
    if p.Some? && q.Some? && r.Some? {
      assert (p.value + q.value) + r.value == p.value + (q.value + r.value);
    }
  }

  /** A query is read item by item from left to right: of two queries joined by '&', each
      must be well formed, and the items of both follow one another. */
  lemma {:induction false} QueryJoin(a: string, b: string)
    ensures ParseQuery(a + ['&'] + b) == Both(ParseQuery(a), ParseQuery(b))
    decreases |a|
  {
    hide ParseQuery, IndexOf, Both;
    var i := IndexOf(a, '&');
    if i < 0 {
      QuerySplit(a, b);
    } else {
      var item, rest := a[..i], a[i + 1..];
      assert a == item + ['&'] + rest;
      assert a + ['&'] + b == item + ['&'] + (rest + ['&'] + b);
      QuerySplit(item, rest);
      QuerySplit(item, rest + ['&'] + b);
      QueryJoin(rest, b);
      BothAssociates(ParseQuery(item), ParseQuery(rest), ParseQuery(b));
    }
  }

  /** `i` is the first item of that name. */
  predicate FirstNamed(q: seq<(string, string)>, name: string, i: nat) {
    i < |q| && q[i].0 == name && forall k | 0 <= k < i :: q[k].0 != name
  }

  predicate Unnamed(q: seq<(string, string)>, name: string) {
    forall k | 0 <= k < |q| :: q[k].0 != name
  }

  /** Values are looked up by name, at whatever position, and the first one wins. */
  lemma {:induction false} GetExact(q: seq<(string, string)>, name: string)
    ensures Unnamed(q, name) ==> Get(q, name) == ""
    ensures !Unnamed(q, name) ==> exists i: nat :: FirstNamed(q, name, i) && Get(q, name) == q[i].1
  {
    if q == [] {
    } else {
      GetExact(q[1..], name);
      if q[0].0 == name {
        assert FirstNamed(q, name, 0);
      } else if Unnamed(q[1..], name) {
        assert Unnamed(q, name);
      } else {
        var i: nat :| FirstNamed(q[1..], name, i) && Get(q[1..], name) == q[1..][i].1;
        assert FirstNamed(q, name, i + 1);
      }
    }
  }

  lemma FirstIsUnique(q: seq<(string, string)>, name: string, i: nat, j: nat)
    requires FirstNamed(q, name, i) && FirstNamed(q, name, j)
    ensures i == j
  {
  }

  lemma GetFirst(q: seq<(string, string)>, name: string, i: nat)
    requires FirstNamed(q, name, i)
    ensures Get(q, name) == q[i].1
  {
    GetExact(q, name);
    var j: nat :| FirstNamed(q, name, j) && Get(q, name) == q[j].1;
    FirstIsUnique(q, name, i, j);
  }
}
