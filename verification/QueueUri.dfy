/** SMP queue addresses: printing and parsing of smp/queue_uri.go. */
module QueueUri {
  import opened Bytes
  import opened Text

  const DEFAULT_PORT: uint16 := 5223
  const DH_KEY_SIZE := 32
  const SCHEME := "smp://"

  type KeyHash = h: bytes | |h| == 32 witness Repeat(0, 32)

  datatype SMPQueueURI = SMPQueueURI(
    fingerprint: KeyHash,
    host: string,
    port: uint16,
    senderID: bytes,
    minVersion: uint16,
    maxVersion: uint16,
    dhKey: bytes)

  // ---------------------------------------------------------------- printing

  function PrintedPort(u: SMPQueueURI): uint16 {
    if u.port == 0 then DEFAULT_PORT else u.port
  }

  function PrintedVersions(u: SMPQueueURI): string {
    Decimal(u.minVersion) + ['-'] + Decimal(u.maxVersion)
  }

  lemma TextIsOctets(dh: string, v: string, u: SMPQueueURI)
    requires dh == Encode64(u.dhKey) && v == PrintedVersions(u)
    ensures Octets(dh) && Octets(v)
  {
    Base64RoundTrip(u.dhKey);
    hide Encode64, Decode64;
    forall i | 0 <= i < |dh| ensures dh[i] as int < 0x100 {
      assert IsLetter(dh[i]);
    }
    forall i | 0 <= i < |v| ensures v[i] as int < 0x100 {
      assert IsDigit(v[i]) || v[i] == '-';
    }
  }

  function PrintedQuery(u: SMPQueueURI): string {
    TextIsOctets(Encode64(u.dhKey), PrintedVersions(u), u);
    EncodeQuery(Encode64(u.dhKey), PrintedVersions(u))
  }

  function PrintedServer(u: SMPQueueURI): string {
    u.host + [':'] + Decimal(PrintedPort(u))
  }

  function Print(u: SMPQueueURI): string {
    SCHEME
    + ((Encode64(u.fingerprint) + ['@'] + (PrintedServer(u) + ['/'] + Encode64(u.senderID)))
    + ['#'] + ("/?" + PrintedQuery(u)))
  }

  // ---------------------------------------------------------------- parsing

  function TrimPrefix(s: string, p: string): string {
    if p <= s then s[|p|..] else s
  }

  function TrimSuffix(s: string, c: char): string {
    if s != [] && s[|s| - 1] == c then s[..|s| - 1] else s
  }

  function ParsePortSuffix(s: string): Option<uint16> {
    if s == "" then Some(DEFAULT_PORT)
    else if s[0] != ':' then None
    else ParseUint16(s[1..])
  }

  function ParseHostPort(s: string): Option<(string, uint16)> {
    if s != "" && s[0] == '[' then
      var end := IndexOf(s, ']');
      if end == -1 then None
      else
        var port := ParsePortSuffix(s[end + 1..]);
        if port.None? then None else Some((s[1..end], port.value))
    else
      var colon := LastIndexOf(s, ':');
      if colon == -1 then Some((s, DEFAULT_PORT))
      else
        var port := ParseUint16(s[colon + 1..]);
        if port.None? then None else Some((s[..colon], port.value))
  }

  function ParseVersionRange(s: string): Option<(uint16, uint16)> {
    var dash := IndexOf(s, '-');
    if dash == -1 then
      var v := ParseUint16(s);
      if v.None? then None else Some((v.value, v.value))
    else
      var min := ParseUint16(s[..dash]);
      var max := ParseUint16(s[dash + 1..]);
      if min.None? || max.None? || min.value > max.value then None else Some((min.value, max.value))
  }

  function ParseKey(s: string, min: nat, max: nat): Option<bytes> {
    var b := Decode64(s);
    if b.Some? && min <= |b.value| <= max then b else None
  }

  /** The part behind '#': version range and key. */
  function ParseFragment(frag: string): Option<((uint16, uint16), bytes)> {
    var q := ParseQuery(TrimPrefix(TrimPrefix(frag, "/"), "?"));
    if q.None? then None
    else
      var v := Get(q.value, "v");
      var dh := Get(q.value, "dh");
      if v == "" || dh == "" then None
      else
        var range := ParseVersionRange(v);
        var key := ParseKey(dh, DH_KEY_SIZE, DH_KEY_SIZE);
        if range.None? || key.None? then None else Some((range.value, key.value))
  }

  /** The part before '#': fingerprint, server and sender. */
  function ParseAuthPath(s: string): Option<(KeyHash, (string, uint16), bytes)> {
    var at := IndexOf(s, '@');
    if at == -1 then None
    else
      var hostPath := s[at + 1..];
      var slash := IndexOf(hostPath, '/');
      if slash == -1 then None
      else
        var fp := ParseKey(s[..at], 32, 32);
        var server := ParseHostPort(hostPath[..slash]);
        var sid := ParseKey(TrimSuffix(hostPath[slash + 1..], '/'), 16, 24);
        if fp.None? || server.None? || sid.None? then None
        else
          // ParseKey has checked the length of the fingerprint.
          Some((fp.value, server.value, sid.value))
  }

  /** None stands for ErrBadQueueURI, whatever the reason. */
  function Parse(s: string): Option<SMPQueueURI> {
    if !(SCHEME <= s) then None
    else
      var rest := s[|SCHEME|..];
      var hash := IndexOf(rest, '#');
      if hash == -1 then None
      else
        var path := ParseAuthPath(rest[..hash]);
        var frag := ParseFragment(rest[hash + 1..]);
        if path.None? || frag.None? then None
        else
          var (fp, server, sid) := path.value;
          var (range, dh) := frag.value;
          Some(SMPQueueURI(fp, server.0, server.1, sid, range.0, range.1, dh))
  }

  // ---------------------------------------------------------------- what is accepted

  predicate OpensBracket(host: string) {
    host != "" && host[0] == '['
  }

  /** Every way to write a port behind a bracketed host. */
  ghost predicate SpellsPort(s: string, port: uint16) {
    (s == "" && port == DEFAULT_PORT) || (s != "" && s[0] == ':' && ParseUint16(s[1..]) == Some(port))
  }

  /** Every way to write a server: a bracketed host with an optional port, or a host that
      does not open a bracket, without ':' or followed by its last ':' and a port. */
  ghost predicate SpellsServer(s: string, host: string, port: uint16) {
    || (exists suffix :: s == ['['] + host + [']'] + suffix && ']' !in host && SpellsPort(suffix, port))
    || (!OpensBracket(s) && ':' !in s && s == host && port == DEFAULT_PORT)
    || (!OpensBracket(s) && exists digits :: s == host + [':'] + digits && ParseUint16(digits) == Some(port))
  }

  lemma ServerRead(s: string)
    requires ParseHostPort(s).Some?
    ensures SpellsServer(s, ParseHostPort(s).value.0, ParseHostPort(s).value.1)
  {
    hide IndexOf, LastIndexOf, ParseUint16;
    if OpensBracket(s) {
      var end := IndexOf(s, ']');
      assert end > 0 && s[1..end] == s[..end][1..];
      assert s == ['['] + s[1..end] + [']'] + s[end + 1..];
    } else if ':' in s {
      var colon := LastIndexOf(s, ':');
      assert s == s[..colon] + [':'] + s[colon + 1..];
    }
  }

  lemma BracketedServer(host: string, suffix: string)
    requires ']' !in host
    ensures ParseHostPort(['['] + host + [']'] + suffix)
         == var port := ParsePortSuffix(suffix); if port.None? then None else Some((host, port.value))
  {
    hide IndexOf, ParsePortSuffix;
    var s := ['['] + host + [']'] + suffix;
    FirstCut(['['] + host, ']', suffix);
    assert s[1..|host| + 1] == host && s[|host| + 2..] == suffix;
  }

  lemma PlainServer(host: string, digits: string)
    requires !OpensBracket(host + [':'] + digits) && ParseUint16(digits).Some?
    ensures ParseHostPort(host + [':'] + digits) == Some((host, ParseUint16(digits).value))
  {
    assert ':' !in digits;
    hide LastIndexOf, ParseUint16;
    LastCut(host, ':', digits);
    var s := host + [':'] + digits;
    assert s[..|host|] == host && s[|host| + 1..] == digits;
  }

  /** The host-and-port parser accepts exactly these spellings. */
  lemma ServerExact(s: string, host: string, port: uint16)
    ensures ParseHostPort(s) == Some((host, port)) <==> SpellsServer(s, host, port)
  {
    if ParseHostPort(s) == Some((host, port)) {
      ServerRead(s);
    }
    if SpellsServer(s, host, port) {
      if suffix :| s == ['['] + host + [']'] + suffix && ']' !in host && SpellsPort(suffix, port) {
        BracketedServer(host, suffix);
      } else if !OpensBracket(s) && ':' !in s && s == host && port == DEFAULT_PORT {
      } else {
        var digits :| s == host + [':'] + digits && ParseUint16(digits) == Some(port);
        PlainServer(host, digits);
      }
    }
  }

  ghost predicate SpellsRange(s: string, min: uint16, max: uint16) {
    exists lo, hi :: s == lo + ['-'] + hi && ParseUint16(lo) == Some(min) && ParseUint16(hi) == Some(max)
  }

  lemma NumberHasNoDash(s: string)
    requires ParseUint16(s).Some?
    ensures '-' !in s
  {
    hide Value;
  }

  lemma TwoVersions(lo: string, hi: string)
    requires ParseUint16(lo).Some? && ParseUint16(hi).Some?
    ensures var min, max := ParseUint16(lo).value, ParseUint16(hi).value;
            ParseVersionRange(lo + ['-'] + hi) == if min <= max then Some((min, max)) else None
  {
    NumberHasNoDash(lo);
    hide IndexOf, ParseUint16;
    FirstCut(lo, '-', hi);
    var s := lo + ['-'] + hi;
    assert s[..|lo|] == lo && s[|lo| + 1..] == hi;
  }

  /** A version range is one number, or two ordered numbers around the first '-'. */
  lemma VersionsExact(s: string, min: uint16, max: uint16)
    ensures ParseVersionRange(s) == Some((min, max))
       <==> (min == max && ParseUint16(s) == Some(min)) || (min <= max && SpellsRange(s, min, max))
  {
    hide IndexOf, ParseUint16;
    if ParseUint16(s).Some? {
      NumberHasNoDash(s);
    }
    if ParseVersionRange(s) == Some((min, max)) && '-' in s {
      var dash := IndexOf(s, '-');
      assert s == s[..dash] + ['-'] + s[dash + 1..];
    }
    if lo, hi :| s == lo + ['-'] + hi && ParseUint16(lo) == Some(min) && ParseUint16(hi) == Some(max) {
      TwoVersions(lo, hi);
    }
  }

  // ---------------------------------------------------------------- round trips

  /** The addresses whose printed form can be read back. */
  predicate Printable(u: SMPQueueURI) {
    && 16 <= |u.senderID| <= 24
    && |u.dhKey| == DH_KEY_SIZE
    && u.minVersion <= u.maxVersion
    && '#' !in u.host && '/' !in u.host
    && !OpensBracket(u.host)
  }

  function WithPort(u: SMPQueueURI): SMPQueueURI {
    u.(port := PrintedPort(u))
  }

  lemma KeyRoundTrip(b: bytes, min: nat, max: nat)
    ensures ParseKey(Encode64(b), min, max) == if min <= |b| <= max then Some(b) else None
    ensures '@' !in Encode64(b) && '#' !in Encode64(b) && '/' !in Encode64(b)
    ensures TrimSuffix(Encode64(b), '/') == Encode64(b)
  {
    Base64RoundTrip(b);
    hide Encode64, Decode64;
    assert !IsLetter('@') && !IsLetter('#') && !IsLetter('/');
  }

  lemma DigitsAvoid(n: uint16, c: char)
    requires !IsDigit(c)
    ensures c !in Decimal(n)
  {
    hide Decimal;
  }

  lemma ServerRoundTrip(u: SMPQueueURI)
    requires !OpensBracket(u.host)
    ensures ParseHostPort(PrintedServer(u)) == Some((u.host, PrintedPort(u)))
  {
    var digits := Decimal(PrintedPort(u));
    DecimalRoundTrip(PrintedPort(u));
    DigitsAvoid(PrintedPort(u), ':');
    hide Decimal, ParseUint16, LastIndexOf;
    var s := PrintedServer(u);
    LastCut(u.host, ':', digits);
    assert s[..|u.host|] == u.host && s[|u.host| + 1..] == digits;
    assert s[0] == if u.host == "" then ':' else u.host[0];
  }

  lemma VersionsRoundTrip(u: SMPQueueURI)
    ensures ParseVersionRange(PrintedVersions(u))
         == if u.minVersion <= u.maxVersion then Some((u.minVersion, u.maxVersion)) else None
  {
    DecimalRoundTrip(u.minVersion);
    DecimalRoundTrip(u.maxVersion);
    hide Decimal, ParseUint16, ParseVersionRange;
    TwoVersions(Decimal(u.minVersion), Decimal(u.maxVersion));
  }

  lemma GetBoth(dh: string, v: string)
    ensures Get([("dh", dh), ("v", v)], "dh") == dh
    ensures Get([("dh", dh), ("v", v)], "v") == v
  {
    var q := [("dh", dh), ("v", v)];
    assert q[1..] == [("v", v)];
    assert "dh"[0] != "v"[0];
  }

  lemma FragmentCut(q: string, dh: string, v: string)
    requires ParseQuery(q) == Some([("dh", dh), ("v", v)]) && dh != "" && v != ""
    ensures var range := ParseVersionRange(v);
            var key := ParseKey(dh, DH_KEY_SIZE, DH_KEY_SIZE);
            ParseFragment("/?" + q)
            == if range.None? || key.None? then None else Some((range.value, key.value))
  {
    hide ParseVersionRange, ParseKey, ParseQuery, Get;
    var frag := "/?" + q;
    assert frag[1..] == "?" + q && ("?" + q)[1..] == q;
    assert "/" <= frag && "?" <= frag[1..];
    GetBoth(dh, v);
  }

  lemma EmptyRange()
    ensures ParseVersionRange("").None?
  {
  }

  lemma FragmentRoundTrip(u: SMPQueueURI)
    requires |u.dhKey| == DH_KEY_SIZE && u.minVersion <= u.maxVersion
    ensures ParseFragment("/?" + PrintedQuery(u)) == Some(((u.minVersion, u.maxVersion), u.dhKey))
  {
    var dh, v := Encode64(u.dhKey), PrintedVersions(u);
    TextIsOctets(dh, v, u);
    QueryRoundTrip(dh, v);
    VersionsRoundTrip(u);
    KeyRoundTrip(u.dhKey, DH_KEY_SIZE, DH_KEY_SIZE);
    Base64RoundTrip(u.dhKey);
    hide Encode64, Decode64, PrintedVersions, ParseVersionRange, ParseKey, ParseQuery, EncodeQuery, ParseFragment;
    EmptyRange();
    FragmentCut(PrintedQuery(u), dh, v);
  }

  lemma AuthPathCut(fp: string, server: string, sid: string)
    requires '@' !in fp && '/' !in server
    ensures var key, host, sender := ParseKey(fp, 32, 32), ParseHostPort(server), ParseKey(TrimSuffix(sid, '/'), 16, 24);
            ParseAuthPath(fp + ['@'] + (server + ['/'] + sid))
            == if key.None? || host.None? || sender.None? then None
               else Some((key.value, host.value, sender.value))
  {
    hide ParseKey, ParseHostPort, IndexOf, TrimSuffix;
    var hostPath := server + ['/'] + sid;
    FirstCut(fp, '@', hostPath);
    FirstCut(server, '/', sid);
    var s := fp + ['@'] + hostPath;
    assert s[..|fp|] == fp && s[|fp| + 1..] == hostPath;
    assert hostPath[..|server|] == server && hostPath[|server| + 1..] == sid;
  }

  /** What the parser makes of the printed part before '#', for any host without '/'. */
  lemma PathRoundTrip(u: SMPQueueURI)
    requires '/' !in u.host
    ensures var server := ParseHostPort(PrintedServer(u));
            ParseAuthPath(Encode64(u.fingerprint) + ['@'] + (PrintedServer(u) + ['/'] + Encode64(u.senderID)))
            == if server.None? || !(16 <= |u.senderID| <= 24) then None
               else Some((u.fingerprint, server.value, u.senderID))
  {
    var fp, server, sid := Encode64(u.fingerprint), PrintedServer(u), Encode64(u.senderID);
    KeyRoundTrip(u.fingerprint, 32, 32);
    KeyRoundTrip(u.senderID, 16, 24);
    DigitsAvoid(PrintedPort(u), '/');
    hide Encode64, ParseKey, Decimal, ParseHostPort, TrimSuffix, ParseAuthPath;
    AuthPathCut(fp, server, sid);
  }

  lemma HashCut(path: string, frag: string)
    requires '#' !in path
    ensures SCHEME <= SCHEME + (path + ['#'] + frag)
    ensures var rest := (SCHEME + (path + ['#'] + frag))[|SCHEME|..];
            IndexOf(rest, '#') == |path| && rest[..|path|] == path && rest[|path| + 1..] == frag
  {
    hide IndexOf;
    FirstCut(path, '#', frag);
    assert (SCHEME + (path + ['#'] + frag))[|SCHEME|..] == path + ['#'] + frag;
  }

  /** Where the parser cuts a printed address whose host holds neither '#' nor '/'. */
  lemma PrintedParts(u: SMPQueueURI)
    requires '#' !in u.host && '/' !in u.host
    ensures SCHEME <= Print(u)
    ensures var rest := Print(u)[|SCHEME|..];
            var path := Encode64(u.fingerprint) + ['@'] + (PrintedServer(u) + ['/'] + Encode64(u.senderID));
            IndexOf(rest, '#') == |path| && rest[..|path|] == path
            && rest[|path| + 1..] == "/?" + PrintedQuery(u)
  {
    KeyRoundTrip(u.fingerprint, 32, 32);
    KeyRoundTrip(u.senderID, 16, 24);
    DigitsAvoid(PrintedPort(u), '#');
    hide Encode64, ParseKey, Decimal, IndexOf, TrimSuffix, PrintedQuery;
    var path := Encode64(u.fingerprint) + ['@'] + (PrintedServer(u) + ['/'] + Encode64(u.senderID));
    assert '#' !in PrintedServer(u);
    HashCut(path, "/?" + PrintedQuery(u));
  }

  lemma PrintThenParse(u: SMPQueueURI)
    requires Printable(u)
    ensures Parse(Print(u)) == Some(WithPort(u))
  {
    PrintedParts(u);
    PathRoundTrip(u);
    ServerRoundTrip(u);
    FragmentRoundTrip(u);
    hide Print, Encode64, IndexOf, PrintedServer, PrintedQuery, ParseAuthPath, ParseFragment, ParseHostPort;
  }

  lemma ServerIsPlain(s: string)
    requires ParseHostPort(s).Some?
    ensures forall c <- ParseHostPort(s).value.0 :: c in s
  {
    hide IndexOf, LastIndexOf, ParseUint16;
  }

  lemma PathIsRegular(s: string)
    requires ParseAuthPath(s).Some?
    ensures 16 <= |ParseAuthPath(s).value.2| <= 24
    ensures '/' !in ParseAuthPath(s).value.1.0
    ensures forall c <- ParseAuthPath(s).value.1.0 :: c in s
  {
    hide Decode64, TrimSuffix, ParseHostPort, IndexOf;
    var hostPath := s[IndexOf(s, '@') + 1..];
    var server := hostPath[..IndexOf(hostPath, '/')];
    ServerIsPlain(server);
    assert '/' !in server;
  }

  lemma FragmentIsRegular(s: string)
    requires ParseFragment(s).Some?
    ensures |ParseFragment(s).value.1| == DH_KEY_SIZE
    ensures ParseFragment(s).value.0.0 <= ParseFragment(s).value.0.1
  {
    hide Decode64, TrimPrefix, ParseQuery, Get, IndexOf, ParseUint16;
  }

  /** Every address that parses has a sender of 16 to 24 octets, a 32-octet key, an ordered
      version range and a host without '#' or '/'. */
  lemma ParsedIsRegular(s: string)
    requires Parse(s).Some?
    ensures var u := Parse(s).value;
            && 16 <= |u.senderID| <= 24 && |u.dhKey| == DH_KEY_SIZE
            && u.minVersion <= u.maxVersion
            && '#' !in u.host && '/' !in u.host
  {
    hide ParseAuthPath, ParseFragment, IndexOf;
    var rest := s[|SCHEME|..];
    var hash := IndexOf(rest, '#');
    PathIsRegular(rest[..hash]);
    FragmentIsRegular(rest[hash + 1..]);
  }

  /** A host that starts with '[' is taken for a bracketed one when read back. */
  lemma BracketIsLost(u: SMPQueueURI)
    requires OpensBracket(u.host)
    ensures ParseHostPort(PrintedServer(u)).Some? ==> ParseHostPort(PrintedServer(u)).value.0 != u.host
  {
    var s := PrintedServer(u);
    var end := IndexOf(s, ']');
    assert s[0] == '[' && end != 0;
    assert s[|u.host| + 1] == Decimal(PrintedPort(u))[0];
    assert IsDigit(s[|u.host| + 1]);
    assert end >= 0 ==> |s[1..end]| == end - 1 && end != |u.host| + 1;
  }

  /** Printing and parsing give the address back, with port 0 read as 5223, exactly for
      the printable addresses; a host may hold ':' and '@'. */
  lemma RoundTripExactly(u: SMPQueueURI)
    ensures Parse(Print(u)) == Some(WithPort(u)) <==> Printable(u)
  {
    if Printable(u) {
      PrintThenParse(u);
    }
    if Parse(Print(u)) == Some(WithPort(u)) {
      ParsedIsRegular(Print(u));
      if OpensBracket(u.host) {
        PrintedParts(u);
        PathRoundTrip(u);
        BracketIsLost(u);
        hide Print, Encode64, IndexOf, PrintedServer, PrintedQuery, ParseAuthPath, ParseFragment, ParseHostPort;
        assert false;
      }
    }
  }

  /** An accepted address, however it was spelled, prints to one that parses to the same
      value, unless its host starts with '['. */
  lemma AcceptedReparses(s: string)
    requires Parse(s).Some?
    ensures Parse(Print(Parse(s).value)) == Some(WithPort(Parse(s).value)) <==> !OpensBracket(Parse(s).value.host)
  {
    ParsedIsRegular(s);
    RoundTripExactly(Parse(s).value);
    hide Parse, Print;
  }

  /** The address with its host in brackets and no port. */
  function Bracketed(u: SMPQueueURI): string {
    SCHEME
    + ((Encode64(u.fingerprint) + ['@'] + (['['] + u.host + [']'] + ['/'] + Encode64(u.senderID)))
    + ['#'] + ("/?" + PrintedQuery(u)))
  }

  lemma BracketedParts(u: SMPQueueURI)
    requires '#' !in u.host && '/' !in u.host
    ensures SCHEME <= Bracketed(u)
    ensures var rest := Bracketed(u)[|SCHEME|..];
            var path := Encode64(u.fingerprint) + ['@'] + (['['] + u.host + [']'] + ['/'] + Encode64(u.senderID));
            IndexOf(rest, '#') == |path| && rest[..|path|] == path
            && rest[|path| + 1..] == "/?" + PrintedQuery(u)
  {
    hide Encode64, ParseKey, IndexOf, TrimSuffix, PrintedQuery;
    KeyRoundTrip(u.fingerprint, 32, 32);
    KeyRoundTrip(u.senderID, 16, 24);
    HashCut(Encode64(u.fingerprint) + ['@'] + (['['] + u.host + [']'] + ['/'] + Encode64(u.senderID)), "/?" + PrintedQuery(u));
  }

  lemma BracketedPath(u: SMPQueueURI)
    requires 16 <= |u.senderID| <= 24 && '/' !in u.host && ']' !in u.host
    ensures ParseAuthPath(Encode64(u.fingerprint) + ['@'] + (['['] + u.host + [']'] + ['/'] + Encode64(u.senderID)))
         == Some((u.fingerprint, (u.host, DEFAULT_PORT), u.senderID))
  {
    hide Encode64, ParseKey, ParseHostPort, TrimSuffix, ParseAuthPath;
    var server := ['['] + u.host + [']'];
    KeyRoundTrip(u.fingerprint, 32, 32);
    KeyRoundTrip(u.senderID, 16, 24);
    BracketedServer(u.host, "");
    assert server + "" == server;
    AuthPathCut(Encode64(u.fingerprint), server, Encode64(u.senderID));
  }

  /** Brackets let any host in that has none of three characters, one that opens another
      bracket too. Such an address is accepted, and does not survive reprinting. */
  lemma BracketsAdmit(u: SMPQueueURI)
    requires 16 <= |u.senderID| <= 24 && |u.dhKey| == DH_KEY_SIZE && u.minVersion <= u.maxVersion
    requires '#' !in u.host && '/' !in u.host && ']' !in u.host && u.port == DEFAULT_PORT
    ensures Parse(Bracketed(u)) == Some(u)
    ensures OpensBracket(u.host) ==> Parse(Print(u)) != Some(u)
  {
    BracketedParts(u);
    BracketedPath(u);
    FragmentRoundTrip(u);
    RoundTripExactly(u);
    hide Print, Bracketed, Encode64, IndexOf, PrintedQuery, ParseAuthPath, ParseFragment;
  }
}
