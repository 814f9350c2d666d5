/** Every text that is accepted as a queue address, and the address it stands for. */
module UriGrammar {
  import opened Bytes
  import opened Text
  import opened TextLaws
  import opened QueueUri

  // ---------------------------------------------------------------- behind '#'

  predicate StartsWith(s: string, c: char) {
    s != "" && s[0] == c
  }

  /** The query `q` behind '#', with or without the slash and the question mark. */
  predicate Introduces(frag: string, q: string) {
    || frag == ['/', '?'] + q
    || frag == ['?'] + q
    || (frag == ['/'] + q && !StartsWith(q, '?'))
    || (frag == q && !StartsWith(q, '/') && !StartsWith(q, '?'))
  }

  lemma StripExact(frag: string, q: string)
    ensures TrimPrefix(TrimPrefix(frag, "/"), "?") == q <==> Introduces(frag, q)
  {
    var t := TrimPrefix(frag, "/");
    assert StartsWith(frag, '/') ==> frag == ['/'] + frag[1..] && t == frag[1..];
    assert !StartsWith(frag, '/') ==> t == frag;
    assert StartsWith(t, '?') ==> t == ['?'] + t[1..];
    assert ['/', '?'] + q == ['/'] + (['?'] + q);
    assert (['/'] + (['?'] + q))[1..] == ['?'] + q && (['?'] + q)[1..] == q && (['/'] + q)[1..] == q;
  }

  /** One number, or two ordered numbers around a dash. */
  ghost predicate SpellsVersions(s: string, min: uint16, max: uint16) {
    (min == max && ParseUint16(s) == Some(min)) || (min <= max && SpellsRange(s, min, max))
  }

  lemma VersionText(s: string, min: uint16, max: uint16)
    ensures ParseVersionRange(s) == Some((min, max)) <==> SpellsVersions(s, min, max)
  {
    VersionsExact(s, min, max);
  }

  /** Among whatever other items and in whatever order, the first item named "v" spells the
      versions and the first item named "dh" spells the key. */
  ghost predicate SpellsItems(q: seq<(string, string)>, min: uint16, max: uint16, key: bytes) {
    && |key| == 32
    && (exists i: nat :: FirstNamed(q, "v", i) && SpellsVersions(q[i].1, min, max))
    && (exists j: nat :: FirstNamed(q, "dh", j) && Decode64(q[j].1) == Some(key))
  }

  ghost predicate SpellsFragment(frag: string, min: uint16, max: uint16, key: bytes) {
    exists q :: Introduces(frag, q) && ParseQuery(q).Some? && SpellsItems(ParseQuery(q).value, min, max, key)
  }

  lemma NothingSpells(min: uint16, max: uint16, key: bytes)
    ensures !SpellsVersions("", min, max) && (|key| == 32 ==> Decode64("") != Some(key))
  {
    VersionText("", min, max);
    EmptyRange();
  }

  lemma ItemsExact(q: seq<(string, string)>, min: uint16, max: uint16, key: bytes)
    ensures SpellsItems(q, min, max, key)
       <==> |key| == 32 && SpellsVersions(Get(q, "v"), min, max) && Decode64(Get(q, "dh")) == Some(key)
  {
    hide Get, Decode64, SpellsVersions;
    NothingSpells(min, max, key);
    GetExact(q, "v");
    GetExact(q, "dh");
    forall i: nat | FirstNamed(q, "v", i)
      ensures Get(q, "v") == q[i].1
    {
      GetFirst(q, "v", i);
    }
    forall j: nat | FirstNamed(q, "dh", j)
      ensures Get(q, "dh") == q[j].1
    {
      GetFirst(q, "dh", j);
    }
  }

  lemma QueryExact(frag: string, q: string, min: uint16, max: uint16, key: bytes)
    requires q == TrimPrefix(TrimPrefix(frag, "/"), "?")
    ensures ParseFragment(frag) == Some(((min, max), key))
       <==> ParseQuery(q).Some? && SpellsItems(ParseQuery(q).value, min, max, key)
  {
    NothingSpells(min, max, key);
    hide Decode64, Get, ParseQuery, TrimPrefix, SpellsItems, SpellsVersions, ParseVersionRange;
    if ParseQuery(q).Some? {
      var v, dh := Get(ParseQuery(q).value, "v"), Get(ParseQuery(q).value, "dh");
      ItemsExact(ParseQuery(q).value, min, max, key);
      VersionText(v, min, max);
    }
  }

  /** The part behind '#' is accepted exactly if it is a query that names both. */
  lemma FragmentExact(frag: string, min: uint16, max: uint16, key: bytes)
    ensures ParseFragment(frag) == Some(((min, max), key)) <==> SpellsFragment(frag, min, max, key)
  {
    var q := TrimPrefix(TrimPrefix(frag, "/"), "?");
    hide ParseFragment, ParseQuery, TrimPrefix, Introduces, SpellsItems;
    StripExact(frag, q);
    QueryExact(frag, q, min, max, key);
    forall p | Introduces(frag, p)
      ensures p == q
    {
      StripExact(frag, p);
    }
    assert ParseQuery(q).Some? && SpellsItems(ParseQuery(q).value, min, max, key) ==> SpellsFragment(frag, min, max, key);
  }

  // ---------------------------------------------------------------- before '#'

  lemma {:induction false} SkippedKeeps(s: string, c: char)
    requires c in s && c != '\n' && c != '\r'
    ensures c in SkipBreaks(s)
  {
    if s[0] == c {
    } else {
      assert c in s[1..];
      SkippedKeeps(s[1..], c);
    }
  }

  lemma NoSlash(s: string)
    requires Decode64(s).Some?
    ensures '/' !in s
  {
    assert !IsLetter('/');
    if '/' in s {
      SkippedKeeps(s, '/');
      assert false;
    }
  }

  /** The sender's letters, with or without one slash behind them. */
  ghost predicate SpellsSender(text: string, sid: bytes) {
    16 <= |sid| <= 24 && exists x :: Decode64(x) == Some(sid) && (text == x || text == x + ['/'])
  }

  lemma SenderExact(text: string, sid: bytes)
    ensures ParseKey(TrimSuffix(text, '/'), 16, 24) == Some(sid) <==> SpellsSender(text, sid)
  {
    hide Decode64;
    var x := TrimSuffix(text, '/');
    assert text == x || text == x + ['/'];
    if SpellsSender(text, sid) {
      var y :| Decode64(y) == Some(sid) && (text == y || text == y + ['/']);
      NoSlash(y);
      assert y == x;
    }
  }

  /** Fingerprint, '@', server, '/', sender; the fingerprint has no '@' and the server no
      '/'. */
  ghost predicate SpellsPath(path: string, fp: bytes, host: string, port: uint16, sid: bytes) {
    exists a, server, b ::
      && path == a + ['@'] + (server + ['/'] + b) && '@' !in a && '/' !in server
      && Decode64(a) == Some(fp) && SpellsServer(server, host, port) && SpellsSender(b, sid)
  }

  lemma PathParts(path: string) returns (a: string, server: string, b: string)
    requires ParseAuthPath(path).Some?
    ensures path == a + ['@'] + (server + ['/'] + b) && '@' !in a && '/' !in server
    ensures var fp, host, sid := ParseKey(a, 32, 32), ParseHostPort(server), ParseKey(TrimSuffix(b, '/'), 16, 24);
            fp.Some? && host.Some? && sid.Some? && ParseAuthPath(path) == Some((fp.value, host.value, sid.value))
  {
    hide ParseKey, IndexOf, TrimSuffix, ParseHostPort;
    var at := IndexOf(path, '@');
    var hostPath := path[at + 1..];
    var slash := IndexOf(hostPath, '/');
    a, server, b := path[..at], hostPath[..slash], hostPath[slash + 1..];
    assert hostPath == server + ['/'] + b;
    assert path == a + ['@'] + hostPath;
  }

  lemma PathRead(path: string)
    requires ParseAuthPath(path).Some?
    ensures var (fp, server, sid) := ParseAuthPath(path).value; SpellsPath(path, fp, server.0, server.1, sid)
  {
    hide ParseAuthPath, Decode64, TrimSuffix, ParseHostPort, SpellsServer, SpellsSender;
    var a, server, b := PathParts(path);
    var (fp, host, sid) := ParseAuthPath(path).value;
    ServerExact(server, host.0, host.1);
    SenderExact(b, sid);
  }

  /** The part before '#' is accepted exactly if it has this form. */
  lemma PathExact(path: string, fp: KeyHash, host: string, port: uint16, sid: bytes)
    ensures ParseAuthPath(path) == Some((fp, (host, port), sid)) <==> SpellsPath(path, fp, host, port, sid)
  {
    hide Decode64, TrimSuffix, ParseHostPort, ParseAuthPath, SpellsServer, SpellsSender;
    if ParseAuthPath(path) == Some((fp, (host, port), sid)) {
      PathRead(path);
    }
    if SpellsPath(path, fp, host, port, sid) {
      var a, server, b :| path == a + ['@'] + (server + ['/'] + b) && '@' !in a && '/' !in server
        && Decode64(a) == Some(fp) && SpellsServer(server, host, port) && SpellsSender(b, sid);
      ServerExact(server, host, port);
      SenderExact(b, sid);
      AuthPathCut(a, server, b);
    }
  }

  // ---------------------------------------------------------------- the whole

  /** The scheme, a path without '#', '#', and a fragment. */
  ghost predicate SpellsAddress(s: string, u: SMPQueueURI) {
    exists path, frag ::
      && s == "smp://" + (path + ['#'] + frag) && '#' !in path
      && SpellsPath(path, u.fingerprint, u.host, u.port, u.senderID)
      && SpellsFragment(frag, u.minVersion, u.maxVersion, u.dhKey)
  }

  lemma AddressCut(path: string, frag: string)
    requires '#' !in path
    ensures QueueUri.Parse(SCHEME + (path + ['#'] + frag)) ==
            var p, f := ParseAuthPath(path), ParseFragment(frag);
            if p.None? || f.None? then None
            else
              var (fp, server, sid) := p.value;
              Some(SMPQueueURI(fp, server.0, server.1, sid, f.value.0.0, f.value.0.1, f.value.1))
  {
    hide ParseAuthPath, ParseFragment, IndexOf;
    HashCut(path, frag);
  }

  lemma AddressRead(s: string)
    requires QueueUri.Parse(s).Some?
    ensures SpellsAddress(s, QueueUri.Parse(s).value)
  {
    hide ParseAuthPath, ParseFragment, IndexOf, SpellsPath, SpellsFragment;
    var rest := s[|SCHEME|..];
    var hash := IndexOf(rest, '#');
    var path, frag := rest[..hash], rest[hash + 1..];
    assert rest == path + ['#'] + frag && s == SCHEME + rest;
    var u := QueueUri.Parse(s).value;
    PathExact(path, u.fingerprint, u.host, u.port, u.senderID);
    FragmentExact(frag, u.minVersion, u.maxVersion, u.dhKey);
    assert ParseAuthPath(path) == Some((u.fingerprint, (u.host, u.port), u.senderID)) by {
      var (fp, server, sid) := ParseAuthPath(path).value;
      assert server == (server.0, server.1);
    }
    assert ParseFragment(frag) == Some(((u.minVersion, u.maxVersion), u.dhKey)) by {
      var (range, dh) := ParseFragment(frag).value;
      assert range == (range.0, range.1);
    }
    assert s == "smp://" + (path + ['#'] + frag) && '#' !in path;
  }

  /** ParseSMPQueueURI accepts exactly the texts of this form, and returns the address that
      they spell. */
  lemma ParseExact(s: string, u: SMPQueueURI)
    ensures QueueUri.Parse(s) == Some(u) <==> SpellsAddress(s, u)
  {
    hide QueueUri.Parse, ParseAuthPath, ParseFragment, SpellsPath, SpellsFragment;
    if QueueUri.Parse(s) == Some(u) {
      AddressRead(s);
    }
    if SpellsAddress(s, u) {
      var path, frag :| s == "smp://" + (path + ['#'] + frag) && '#' !in path
        && SpellsPath(path, u.fingerprint, u.host, u.port, u.senderID)
        && SpellsFragment(frag, u.minVersion, u.maxVersion, u.dhKey);
      PathExact(path, u.fingerprint, u.host, u.port, u.senderID);
      FragmentExact(frag, u.minVersion, u.maxVersion, u.dhKey);
      AddressCut(path, frag);
    }
  }

  // ---------------------------------------------------------------- other queries

  /** An address printed with another query. */
  function WithQuery(u: SMPQueueURI, q: string): string {
    SCHEME
    + ((Encode64(u.fingerprint) + ['@'] + (PrintedServer(u) + ['/'] + Encode64(u.senderID)))
    + ['#'] + ("/?" + q))
  }

  lemma PrintedPathHasNoHash(u: SMPQueueURI)
    requires '#' !in u.host
    ensures '#' !in Encode64(u.fingerprint) + ['@'] + (PrintedServer(u) + ['/'] + Encode64(u.senderID))
  {
    KeyRoundTrip(u.fingerprint, 32, 32);
    KeyRoundTrip(u.senderID, 16, 24);
    DigitsAvoid(PrintedPort(u), '#');
    hide Encode64, ParseKey, Decimal, TrimSuffix;
  }

  lemma QueryParses(u: SMPQueueURI, q: string, i: nat, j: nat)
    requires Printable(u) && ParseQuery(q).Some?
    requires var items := ParseQuery(q).value;
             && FirstNamed(items, "v", i) && items[i].1 == PrintedVersions(u)
             && FirstNamed(items, "dh", j) && items[j].1 == Encode64(u.dhKey)
    ensures ParseFragment("/?" + q) == Some(((u.minVersion, u.maxVersion), u.dhKey))
  {
    hide ParseQuery, Encode64, Decode64, PrintedVersions, ParseFragment, ParseVersionRange, SpellsVersions;
    VersionsRoundTrip(u);
    VersionText(PrintedVersions(u), u.minVersion, u.maxVersion);
    Base64RoundTrip(u.dhKey);
    FragmentExact("/?" + q, u.minVersion, u.maxVersion, u.dhKey);
    assert "/?" + q == ['/', '?'] + q;
    var items := ParseQuery(q).value;
    assert SpellsVersions(items[i].1, u.minVersion, u.maxVersion) && Decode64(items[j].1) == Some(u.dhKey);
    assert SpellsItems(items, u.minVersion, u.maxVersion, u.dhKey);
    assert Introduces("/?" + q, q);
  }

  /** Any query will do that names the versions and the key, first of their names. */
  lemma AnyQueryParses(u: SMPQueueURI, q: string, i: nat, j: nat)
    requires Printable(u) && ParseQuery(q).Some?
    requires var items := ParseQuery(q).value;
             && FirstNamed(items, "v", i) && items[i].1 == PrintedVersions(u)
             && FirstNamed(items, "dh", j) && items[j].1 == Encode64(u.dhKey)
    ensures QueueUri.Parse(WithQuery(u, q)) == Some(WithPort(u))
  {
    QueryParses(u, q, i, j);
    PrintedPathHasNoHash(u);
    PathRoundTrip(u);
    ServerRoundTrip(u);
    hide QueueUri.Parse, Encode64, PrintedServer, ParseAuthPath, ParseFragment, ParseHostPort, ParseQuery;
    AddressCut(Encode64(u.fingerprint) + ['@'] + (PrintedServer(u) + ['/'] + Encode64(u.senderID)), "/?" + q);
  }

  lemma NamedItem(name: string, value: string)
    requires (name == "dh" || name == "v") && Octets(value)
    ensures ParseQuery(EncodeItem(name, value)) == Some([(name, value)])
  {
    ItemRoundTrip(name, value);
    hide EncodeItem, ParseItem, ParseQuery;
    QueryLast(EncodeItem(name, value));
  }

  /** The two items in the documented order, "v" before "dh". */
  function SwappedQuery(u: SMPQueueURI): string {
    TextIsOctets(Encode64(u.dhKey), PrintedVersions(u), u);
    EncodeItem("v", PrintedVersions(u)) + ['&'] + EncodeItem("dh", Encode64(u.dhKey))
  }

  lemma SwappedItems(v: string, dh: string)
    requires Octets(v) && Octets(dh)
    ensures ParseQuery(EncodeItem("v", v) + ['&'] + EncodeItem("dh", dh)) == Some([("v", v), ("dh", dh)])
    ensures FirstNamed([("v", v), ("dh", dh)], "v", 0) && FirstNamed([("v", v), ("dh", dh)], "dh", 1)
  {
    hide EncodeItem, ParseQuery;
    NamedItem("v", v);
    NamedItem("dh", dh);
    QueryJoin(EncodeItem("v", v), EncodeItem("dh", dh));
    assert |"dh"| != |"v"|;
    assert [("v", v)] + [("dh", dh)] == [("v", v), ("dh", dh)];
  }

  /** It is read like the order that is printed. */
  lemma SwappedParses(u: SMPQueueURI)
    requires Printable(u)
    ensures QueueUri.Parse(WithQuery(u, SwappedQuery(u))) == Some(WithPort(u))
  {
    hide QueueUri.Parse, WithQuery, EncodeItem, ParseQuery, Encode64, PrintedVersions, Octets, Printable, FirstNamed;
    TextIsOctets(Encode64(u.dhKey), PrintedVersions(u), u);
    SwappedItems(PrintedVersions(u), Encode64(u.dhKey));
    AnyQueryParses(u, SwappedQuery(u), 0, 1);
  }
 lemma PrintedAmong(before: seq<(string, string)>, dh: string, v: string, after: seq<(string, string)>)
    requires Unnamed(before, "v") && Unnamed(before, "dh")
    ensures var items, n := before + ([("dh", dh), ("v", v)] + after), |before|;
            && FirstNamed(items, "dh", n) && items[n].1 == dh
            && FirstNamed(items, "v", n + 1) && items[n + 1].1 == v
  {
    var items, n := before + ([("dh", dh), ("v", v)] + after), |before|;
    assert |"dh"| != |"v"|;
    assert items[n] == ("dh", dh) && items[n + 1] == ("v", v);
    assert forall k | 0 <= k < n :: items[k] == before[k];
  }

  /** Further items do not matter: in front, if they have other names; behind, whatever they
      are. */
  lemma ExtraItemsParse(u: SMPQueueURI, before: string, after: string)
    requires Printable(u) && ParseQuery(before).Some? && ParseQuery(after).Some?
    requires Unnamed(ParseQuery(before).value, "v") && Unnamed(ParseQuery(before).value, "dh")
    ensures QueueUri.Parse(WithQuery(u, before + ['&'] + (PrintedQuery(u) + ['&'] + after))) == Some(WithPort(u))
  {
    hide QueueUri.Parse, WithQuery, EncodeQuery, ParseQuery, Encode64, PrintedVersions, Printable, FirstNamed, Unnamed;
    TextIsOctets(Encode64(u.dhKey), PrintedVersions(u), u);
    var v, dh, n := PrintedVersions(u), Encode64(u.dhKey), |ParseQuery(before).value|;
    var q := before + ['&'] + (PrintedQuery(u) + ['&'] + after);
    QueryRoundTrip(dh, v);
    QueryJoin(before, PrintedQuery(u) + ['&'] + after);
    QueryJoin(PrintedQuery(u), after);
    PrintedAmong(ParseQuery(before).value, dh, v, ParseQuery(after).value);
    AnyQueryParses(u, q, n + 1, n);
  }

  // ---------------------------------------------------------------- what is printed

  lemma LettersStay(s: string)
    requires AllLetters(s)
    ensures Octets(s) && Escape(s) == s
  {
    forall i | 0 <= i < |s|
      ensures Unreserved(s[i])
    {
      assert IsLetter(s[i]);
    }
    NothingToEscape(s);
  }

  lemma VersionsStay(u: SMPQueueURI)
    ensures Octets(PrintedVersions(u)) && Escape(PrintedVersions(u)) == PrintedVersions(u)
  {
    var v := PrintedVersions(u);
    forall i | 0 <= i < |v|
      ensures Unreserved(v[i])
    {
      assert IsDigit(v[i]) || v[i] == '-';
    }
    NothingToEscape(v);
  }

  lemma VersionsText(u: SMPQueueURI)
    ensures PrintedVersions(u) == Decimal(u.minVersion) + "-" + Decimal(u.maxVersion)
  {
  }

  lemma PlainItem(name: string, value: string)
    requires Octets(value) && Escape(value) == value
    ensures EncodeItem(name, value) == name + "=" + value
  {
  }

  lemma Glue(dh: string, v: string)
    ensures ("dh" + "=" + dh) + ['&'] + ("v" + "=" + v) == "dh=" + dh + "&v=" + v
  {
  }
  /** The printed address, letter by letter. */
  lemma PrintedText(u: SMPQueueURI)
    ensures Print(u) == "smp://" + Encode64(u.fingerprint) + "@" + u.host + ":" + Decimal(if u.port == 0 then 5223 else u.port)
                      + "/" + Encode64(u.senderID) + "#/?dh=" + Encode64(u.dhKey)
                      + "&v=" + Decimal(u.minVersion) + "-" + Decimal(u.maxVersion)
  {
    QueryText(u);
    hide Encode64, Decimal, PrintedQuery, PrintedVersions;
    assert PrintedVersions(u) == Decimal(u.minVersion) + ['-'] + Decimal(u.maxVersion) by {
      VersionsText(u);
    }
  }

  lemma QueryText(u: SMPQueueURI)
    ensures PrintedQuery(u) == "dh=" + Encode64(u.dhKey) + "&v=" + PrintedVersions(u)
  {
    hide Encode64, Decode64, PrintedVersions, Escape, EncodeItem, AllLetters, Octets;
    var dh, v := Encode64(u.dhKey), PrintedVersions(u);
    Base64RoundTrip(u.dhKey);
    LettersStay(dh);
    VersionsStay(u);
    PlainItem("dh", dh);
    PlainItem("v", v);
    Glue(dh, v);
  }
}
