/**
 * The ClientHello grammar of section 4.1.2 of RFC 8446 and the server name list of section 3 of
 * RFC 6066, as far as the parser reads them, and the proof that the parser returns a host name
 * exactly when the bytes are a hello that carries it.
 */
module SniGrammar {
  import opened Types
  import opened Sni
  import Utf8

  // ---- Printing ----

  function Vec8(x: Bytes): (s: Bytes)
    requires |x| < 0x100
    ensures |s| == 1 + |x|
  {
    [|x|] + x
  }

  function Vec16(x: Bytes): (s: Bytes)
    requires |x| < 0x1_0000
    ensures |s| == 2 + |x|
  {
    U16(|x|) + x
  }

  datatype Extension = Extension(kind: nat, body: Bytes)
  datatype NameEntry = NameEntry(kind: Byte, name: Bytes)

  /** An extension other than server_name. */
  predicate Other(e: Extension) {
    0 < e.kind < 0x1_0000 && |e.body| < 0x1_0000
  }

  /** A list entry other than a host name. */
  predicate OtherName(n: NameEntry) {
    n.kind != 0 && |n.name| < 0x1_0000
  }

  predicate Others(es: seq<Extension>) {
    forall i | 0 <= i < |es| :: Other(es[i])
  }

  predicate OtherNames(ns: seq<NameEntry>) {
    forall i | 0 <= i < |ns| :: OtherName(ns[i])
  }

  function PrintExtension(kind: nat, body: Bytes): (s: Bytes)
    requires kind < 0x1_0000 && |body| < 0x1_0000
    ensures |s| == 4 + |body|
  {
    U16(kind) + (U16(|body|) + body)
  }

  function PrintName(kind: Byte, name: Bytes): (s: Bytes)
    requires |name| < 0x1_0000
    ensures |s| == 3 + |name|
  {
    [kind] + (U16(|name|) + name)
  }

  function PrintExtensions(es: seq<Extension>): Bytes
    requires Others(es)
  {
    if es == [] then [] else PrintExtension(es[0].kind, es[0].body) + PrintExtensions(es[1..])
  }

  function PrintNames(ns: seq<NameEntry>): Bytes
    requires OtherNames(ns)
  {
    if ns == [] then [] else PrintName(ns[0].kind, ns[0].name) + PrintNames(ns[1..])
  }

  // ---- One item at a time ----

  lemma Assoc(a: Bytes, b: Bytes, c: Bytes)
    ensures (a + b) + c == a + (b + c)
  {
  }

  lemma ExtensionFields(kind: nat, body: Bytes, rest: Bytes)
    requires kind < 0x1_0000 && |body| < 0x1_0000
    ensures var s := PrintExtension(kind, body) + rest;
      && At16(s, 0) == kind && At16(s, 2) == |body|
      && s[4..4 + |body|] == body && s[4 + |body|..] == rest
  {
    var s := PrintExtension(kind, body) + rest;
    assert s[0] == U16(kind)[0] && s[1] == U16(kind)[1] && s[2] == U16(|body|)[0] && s[3] == U16(|body|)[1];
  }

  lemma NameFields(kind: Byte, name: Bytes, rest: Bytes)
    requires |name| < 0x1_0000
    ensures var s := PrintName(kind, name) + rest;
      && s[0] == kind && At16(s, 1) == |name|
      && s[3..3 + |name|] == name && s[3 + |name|..] == rest
  {
    var s := PrintName(kind, name) + rest;
    assert s[1] == U16(|name|)[0] && s[2] == U16(|name|)[1];
  }

  /** Every four-byte header with a body that fits is a printed extension. */
  lemma ExtensionAhead(s: Bytes)
    requires |s| >= 4 && 4 + At16(s, 2) <= |s|
    ensures var len := At16(s, 2); s == PrintExtension(At16(s, 0), s[4..4 + len]) + s[4 + len..]
  {
    var len := At16(s, 2);
    ReadsBack16(At16(s, 0), s, 0);
    ReadsBack16(len, s, 2);
    assert s == s[0..2] + (s[2..4] + s[4..4 + len]) + s[4 + len..];
  }

  lemma NameAhead(s: Bytes)
    requires |s| >= 3 && 3 + At16(s, 1) <= |s|
    ensures var len := At16(s, 1); s == PrintName(s[0], s[3..3 + len]) + s[3 + len..]
  {
    var len := At16(s, 1);
    ReadsBack16(len, s, 1);
    assert s == [s[0]] + (s[1..3] + s[3..3 + len]) + s[3 + len..];
  }

  // ---- The two walks ----

  lemma {:induction false} SkipNames(ns: seq<NameEntry>, rest: Bytes)
    requires OtherNames(ns)
    ensures WalkNames(PrintNames(ns) + rest) == WalkNames(rest)
  {
    hide At16, PrintName;
    if ns == [] {
      assert PrintNames(ns) + rest == rest;
    } else {
      var tail := PrintNames(ns[1..]) + rest;
      Assoc(PrintName(ns[0].kind, ns[0].name), PrintNames(ns[1..]), rest);
      NameFields(ns[0].kind, ns[0].name, tail);
      SkipNames(ns[1..], rest);
    }
  }

  /** A host name is found exactly if it comes after entries of other types. */
  lemma {:induction false} NamesFound(s: Bytes, host: Bytes) returns (ns: seq<NameEntry>, tail: Bytes)
    requires WalkNames(s) == Found(host)
    ensures OtherNames(ns)
    ensures |host| < 0x1_0000 && Utf8.Valid(host) && s == PrintNames(ns) + (PrintName(0, host) + tail)
    decreases |s|
  {
    hide At16, PrintName;
    var len := At16(s, 1);
    NameAhead(s);
    if s[0] == 0 {
      ns, tail := [], s[3 + len..];
      assert s == PrintNames(ns) + (PrintName(0, host) + tail);
    } else {
      var inner;
      inner, tail := NamesFound(s[3 + len..], host);
      ns := [NameEntry(s[0], s[3..3 + len])] + inner;
      assert ns[1..] == inner;
      Assoc(PrintName(s[0], s[3..3 + len]), PrintNames(inner), PrintName(0, host) + tail);
    }
  }

  lemma {:induction false} SkipExtensions(es: seq<Extension>, rest: Bytes, left: int)
    requires Others(es) && left >= |PrintExtensions(es)|
    ensures WalkExtensions(PrintExtensions(es) + rest, left) == WalkExtensions(rest, left - |PrintExtensions(es)|)
  {
    hide At16, PrintExtension;
    if es == [] {
      assert PrintExtensions(es) + rest == rest;
    } else {
      var tail := PrintExtensions(es[1..]) + rest;
      Assoc(PrintExtension(es[0].kind, es[0].body), PrintExtensions(es[1..]), rest);
      ExtensionFields(es[0].kind, es[0].body, tail);
      SkipExtensions(es[1..], rest, left - 4 - |es[0].body|);
    }
  }

  /** Where the walk cannot go on. */
  predicate Stuck(s: Bytes, left: int) {
    left < 4 || |s| < 4 || At16(s, 0) == 0 || 4 + At16(s, 2) > |s|
  }

  /** The walk passes whole extensions of other types until it is stuck. */
  lemma {:induction false} WalkStops(s: Bytes, left: int) returns (es: seq<Extension>, rest: Bytes)
    ensures Others(es)
    ensures s == PrintExtensions(es) + rest && Stuck(rest, left - |PrintExtensions(es)|)
    ensures WalkExtensions(s, left) == WalkExtensions(rest, left - |PrintExtensions(es)|)
    decreases |s|
  {
    hide At16, PrintExtension;
    if Stuck(s, left) {
      es, rest := [], s;
      assert s == PrintExtensions(es) + rest;
    } else {
      var kind, len := At16(s, 0), At16(s, 2);
      ExtensionAhead(s);
      var inner;
      inner, rest := WalkStops(s[4 + len..], left - 4 - len);
      es := [Extension(kind, s[4..4 + len])] + inner;
      assert es[1..] == inner;
      Assoc(PrintExtension(kind, s[4..4 + len]), PrintExtensions(inner), rest);
    }
  }

  // ---- The fields before the extensions ----

  lemma Skips8(x: Bytes, rest: Bytes)
    requires |x| < 0x100
    ensures Skip(Vec8(x) + rest, 1) == Some(rest)
  {
    assert (Vec8(x) + rest)[1 + |x|..] == rest;
  }

  lemma Skips16(x: Bytes, rest: Bytes)
    requires |x| < 0x1_0000
    ensures Skip(Vec16(x) + rest, 2) == Some(rest)
  {
    var s := Vec16(x) + rest;
    assert s[0] == U16(|x|)[0] && s[1] == U16(|x|)[1];
    assert s[2 + |x|..] == rest;
  }

  lemma Skipped8(s: Bytes) returns (x: Bytes)
    requires Skip(s, 1).Some?
    ensures |x| < 0x100 && s == Vec8(x) + Skip(s, 1).value
  {
    x := s[1..1 + s[0]];
    assert s == [s[0]] + x + s[1 + s[0]..];
  }

  lemma Skipped16(s: Bytes) returns (x: Bytes)
    requires Skip(s, 2).Some?
    ensures |x| < 0x1_0000 && s == Vec16(x) + Skip(s, 2).value
  {
    var len := At16(s, 0);
    x := s[2..2 + len];
    ReadsBack16(len, s, 0);
    assert s == s[0..2] + x + s[2 + len..];
  }

  /** What comes before the extensions. */
  datatype Head = Head(fixed: Bytes, sessionId: Bytes, ciphers: Bytes, compression: Bytes)

  predicate HeadFits(hd: Head) {
    |hd.fixed| == 34 && |hd.sessionId| < 0x100 && |hd.ciphers| < 0x1_0000 && |hd.compression| < 0x100
  }

  function PrintHead(hd: Head, block: Bytes): (s: Bytes)
    requires HeadFits(hd)
    ensures |s| == 38 + |hd.sessionId| + |hd.ciphers| + |hd.compression| + |block|
  {
    hd.fixed + (Vec8(hd.sessionId) + (Vec16(hd.ciphers) + (Vec8(hd.compression) + block)))
  }

  lemma BlockOf(hd: Head, block: Bytes)
    requires HeadFits(hd) && |block| >= 2
    ensures Block(PrintHead(hd, block)) == Some(block)
  {
    hide Skip, Vec8, Vec16;
    var c := Vec8(hd.compression) + block;
    var b := Vec16(hd.ciphers) + c;
    assert PrintHead(hd, block)[34..] == Vec8(hd.sessionId) + b;
    Skips8(hd.sessionId, b);
    Skips16(hd.ciphers, c);
    Skips8(hd.compression, block);
  }

  lemma BlockFound(hello: Bytes) returns (hd: Head)
    requires Block(hello).Some?
    ensures HeadFits(hd) && |Block(hello).value| >= 2 && hello == PrintHead(hd, Block(hello).value)
  {
    hide Skip, Vec8, Vec16;
    var a := hello[34..];
    var x := Skipped8(a);
    var b := Skip(a, 1).value;
    var y := Skipped16(b);
    var z := Skipped8(Skip(b, 2).value);
    hd := Head(hello[..34], x, y, z);
    assert hello == hello[..34] + a;
  }

  /** The record and handshake headers around a hello. */
  datatype Envelope = Envelope(version: Bytes, afterHello: Bytes, afterRecord: Bytes)

  predicate EnvelopeFits(env: Envelope, hello: Bytes) {
    |env.version| == 2 && 4 + |hello| + |env.afterHello| < 0x1_0000
  }

  function Handshake(env: Envelope, hello: Bytes): (s: Bytes)
    requires EnvelopeFits(env, hello)
    ensures |s| == 4 + |hello| + |env.afterHello|
  {
    [1] + (U24(|hello|) + (hello + env.afterHello))
  }

  function PrintRecord(env: Envelope, hello: Bytes): Bytes
    requires EnvelopeFits(env, hello)
  {
    [22] + (env.version + (Vec16(Handshake(env, hello)) + env.afterRecord))
  }

  lemma HandshakeFields(env: Envelope, hello: Bytes)
    requires EnvelopeFits(env, hello)
    ensures var hs := Handshake(env, hello); hs[0] == 1 && At24(hs, 1) == |hello| && hs[4..4 + |hello|] == hello
  {
    var hs := Handshake(env, hello);
    assert hs[1..4] == U24(|hello|);
    ReadsBack24(|hello|, hs, 1);
  }

  lemma RecordFields(env: Envelope, hello: Bytes)
    requires EnvelopeFits(env, hello)
    ensures var data, hs := PrintRecord(env, hello), Handshake(env, hello);
      data[0] == 22 && 5 + |hs| <= |data| && At16(data, 3) == |hs| && data[5..5 + |hs|] == hs
  {
    hide Handshake, At16;
    var data, hs := PrintRecord(env, hello), Handshake(env, hello);
    assert data[3..5] == U16(|hs|);
    ReadsBack16(|hs|, data, 3);
  }

  lemma HelloOf(env: Envelope, hello: Bytes)
    requires EnvelopeFits(env, hello)
    ensures ClientHello(PrintRecord(env, hello)) == Some(hello)
  {
    hide PrintRecord, Handshake, At16, At24;
    RecordFields(env, hello);
    HandshakeFields(env, hello);
  }

  lemma HandshakeFound(hs: Bytes, hello: Bytes) returns (rest: Bytes)
    requires |hs| >= 4 && hs[0] == 1 && 4 + At24(hs, 1) <= |hs| && hello == hs[4..4 + At24(hs, 1)]
    ensures hs == [1] + (U24(|hello|) + (hello + rest))
  {
    ReadsBack24(|hello|, hs, 1);
    rest := hs[4 + |hello|..];
    assert hs == [hs[0]] + (hs[1..4] + (hs[4..4 + |hello|] + rest));
  }

  lemma HelloFound(data: Bytes) returns (env: Envelope)
    requires ClientHello(data).Some?
    ensures EnvelopeFits(env, ClientHello(data).value) && data == PrintRecord(env, ClientHello(data).value)
  {
    hide At16, At24;
    var hello, len := ClientHello(data).value, At16(data, 3);
    var hs := data[5..5 + len];
    var rest := HandshakeFound(hs, hello);
    env := Envelope(data[1..3], rest, data[5 + len..]);
    ReadsBack16(len, data, 3);
    assert data == [data[0]] + (data[1..3] + ((data[3..5] + hs) + data[5 + len..]));
  }

  // ---- A hello that carries a host name ----

  datatype Shape = Shape(
    env: Envelope,
    head: Head,
    blockLength: nat,            // declared length of the extensions block
    before: seq<Extension>,
    listLength: Bytes,           // not looked at by the parser
    others: seq<NameEntry>,
    afterName: Bytes,            // the rest of the server_name extension
    afterExtension: Bytes)       // the rest of the hello

  predicate NamesFit(sh: Shape, host: Bytes) {
    |sh.listLength| == 2 && OtherNames(sh.others) && |host| < 0x1_0000 && Utf8.Valid(host)
  }

  function NameList(sh: Shape, host: Bytes): Bytes
    requires NamesFit(sh, host)
  {
    sh.listLength + (PrintNames(sh.others) + (PrintName(0, host) + sh.afterName))
  }

  predicate ExtensionsFit(sh: Shape, host: Bytes) {
    && NamesFit(sh, host) && |NameList(sh, host)| < 0x1_0000
    && Others(sh.before) && |PrintExtensions(sh.before)| + 4 <= sh.blockLength < 0x1_0000
  }

  function Extensions(sh: Shape, host: Bytes): Bytes
    requires ExtensionsFit(sh, host)
  {
    PrintExtensions(sh.before) + (PrintExtension(0, NameList(sh, host)) + sh.afterExtension)
  }

  predicate Fits(sh: Shape, host: Bytes) {
    && ExtensionsFit(sh, host) && HeadFits(sh.head)
    && EnvelopeFits(sh.env, PrintHead(sh.head, U16(sh.blockLength) + Extensions(sh, host)))
  }

  function Print(sh: Shape, host: Bytes): Bytes
    requires Fits(sh, host)
  {
    PrintRecord(sh.env, PrintHead(sh.head, U16(sh.blockLength) + Extensions(sh, host)))
  }

  lemma NameListParses(sh: Shape, host: Bytes)
    requires NamesFit(sh, host)
    ensures ServerName(NameList(sh, host)) == Found(host)
  {
    hide PrintName, At16;
    var tail := PrintName(0, host) + sh.afterName;
    assert NameList(sh, host)[2..] == PrintNames(sh.others) + tail;
    SkipNames(sh.others, tail);
    NameFields(0, host, sh.afterName);
  }

  lemma ExtensionsParse(sh: Shape, host: Bytes)
    requires ExtensionsFit(sh, host)
    ensures WalkExtensions(Extensions(sh, host), sh.blockLength) == Found(host)
  {
    hide PrintExtension, At16, NameList, ServerName;
    SkipExtensions(sh.before, PrintExtension(0, NameList(sh, host)) + sh.afterExtension, sh.blockLength);
    ExtensionFields(0, NameList(sh, host), sh.afterExtension);
    NameListParses(sh, host);
  }

  /** Whatever surrounds it, an encoded host name is extracted. */
  lemma RoundTrip(sh: Shape, host: Bytes)
    requires Fits(sh, host)
    ensures Extract(Print(sh, host)) == Found(host)
  {
    hide PrintRecord, PrintHead, Block, ClientHello, Extensions, At16, WalkExtensions;
    var block := U16(sh.blockLength) + Extensions(sh, host);
    HelloOf(sh.env, PrintHead(sh.head, block));
    BlockOf(sh.head, block);
    assert block[..2] == U16(sh.blockLength) && block[2..] == Extensions(sh, host);
    ReadsBack16(sh.blockLength, block, 0);
    ExtensionsParse(sh, host);
  }

  lemma ExtensionsFound(s: Bytes, left: nat, host: Bytes) returns (sh: Shape)
    requires WalkExtensions(s, left) == Found(host) && left < 0x1_0000
    ensures ExtensionsFit(sh, host) && sh.blockLength == left && s == Extensions(sh, host)
  {
    hide PrintExtension, PrintName, At16;
    var es, rest := WalkStops(s, left);
    var len := At16(rest, 2);
    ExtensionAhead(rest);
    var body := rest[4..4 + len];
    var ns, tail := NamesFound(body[2..], host);
    assert body == body[..2] + body[2..];
    sh := Shape(Envelope([], [], []), Head([], [], [], []), left, es, body[..2], ns, tail, rest[4 + len..]);
    assert NameList(sh, host) == body;
  }

  /** Nothing else is ever extracted: the bytes were a hello carrying that host name. */
  lemma Sound(data: Bytes, host: Bytes) returns (sh: Shape)
    requires Extract(data) == Found(host)
    ensures Fits(sh, host) && data == Print(sh, host)
  {
    hide PrintRecord, PrintHead, Block, ClientHello, At16, WalkExtensions, NameList;
    var env := HelloFound(data);
    var hello := ClientHello(data).value;
    var head := BlockFound(hello);
    var block := Block(hello).value;
    ReadsBack16(At16(block, 0), block, 0);
    assert block == block[0..2] + block[2..];
    sh := ExtensionsFound(block[2..], At16(block, 0), host);
    assert Extensions(sh.(env := env, head := head), host) == Extensions(sh, host) by {
      SameExtensions(sh, env, head, host);
    }
    sh := sh.(env := env, head := head);
  }

  lemma SameExtensions(sh: Shape, env: Envelope, head: Head, host: Bytes)
    requires ExtensionsFit(sh, host)
    ensures ExtensionsFit(sh.(env := env, head := head), host)
    ensures Extensions(sh.(env := env, head := head), host) == Extensions(sh, host)
  {
  }

  /** The parser returns a host name exactly when the bytes are a hello that carries it. */
  lemma ExtractIff(data: Bytes, host: Bytes)
    ensures Extract(data) == Found(host) <==> exists sh :: Fits(sh, host) && data == Print(sh, host)
  {
    hide Extract, Fits, Print;
    if Extract(data) == Found(host) {
      var sh := Sound(data, host);
    }
    if sh :| Fits(sh, host) && data == Print(sh, host) {
      RoundTrip(sh, host);
    }
  }

  // ---- The smallest encoder ----

  /** A hello with one cipher suite and a server_name extension only. */
  function Minimal(host: Bytes): Shape
    requires |host| < 0xFFC8
  {
    Shape(Envelope([3, 1], [], []), Head([3, 3] + seq(32, _ => 0), [], [0, 0x2F], [0]),
          9 + |host|, [], U16(3 + |host|), [], [], [])
  }

  lemma MinimalFits(host: Bytes)
    requires |host| < 0xFFC8 && Utf8.Valid(host)
    ensures Fits(Minimal(host), host)
  {
    hide U16, Utf8.Valid, PrintHead, PrintExtension, PrintName;
    var sh := Minimal(host);
    assert |NameList(sh, host)| == 5 + |host|;
    assert ExtensionsFit(sh, host);
    assert |Extensions(sh, host)| == 9 + |host|;
  }

  /** Lengths that do not fit their fields are cut to their low bytes. */
  function Cast16(n: nat): (s: Bytes)
    ensures |s| == 2 && (n < 0x1_0000 ==> s == U16(n))
  {
    U16(n % 0x1_0000)
  }

  function Cast24(n: nat): (s: Bytes)
    ensures |s| == 3 && (n < 0x100_0000 ==> s == U24(n))
  {
    U24(n % 0x100_0000)
  }

  /**
   * The encoder, from the inside out.  Its host name is extracted again exactly if it is text and
   * the record's lengths hold it; a longer name is encoded with wrapped lengths and lost.
   */
  method BuildClientHello(host: Bytes) returns (record: Bytes)
    ensures |host| < 0xFFC8 && Utf8.Valid(host) ==> Fits(Minimal(host), host) && record == Print(Minimal(host), host)
    ensures Extract(record) == Found(host) <==> |host| < 0xFFC8 && Utf8.Valid(host)
  {
    hide Cast16, Cast24, Extract, Utf8.Valid;
    var sniExt := Cast16(3 + |host|);
    sniExt := sniExt + [0];
    sniExt := sniExt + Cast16(|host|);
    sniExt := sniExt + host;
    var extensions := U16(0);
    extensions := extensions + Cast16(|sniExt|);
    extensions := extensions + sniExt;
    var hello := [3, 3];
    hello := hello + seq(32, _ => 0);
    hello := hello + [0];
    hello := hello + U16(2) + [0, 0x2F];
    hello := hello + [1] + [0];
    hello := hello + Cast16(|extensions|);
    hello := hello + extensions;
    var handshake := [1] + Cast24(|hello|);
    handshake := handshake + hello;
    record := [22] + [3, 1];
    record := record + Cast16(|handshake|);
    record := record + handshake;
    if |host| < 0xFFC8 && Utf8.Valid(host) {
      Assembled(host, sniExt, extensions, hello, handshake, record);
      RoundTrip(Minimal(host), host);
    } else if 0xFFC8 <= |host| < 0xFFCB {
      CastWraps(|handshake|);
      WrappedIsAbsent(record, handshake);
    } else if Extract(record) == Found(host) {
      FoundIsShort(record, host);
    }
  }

  lemma CastWraps(n: nat)
    ensures Cast16(n) == U16(n % 0x1_0000)
  {
  }

  lemma ExtensionBytes(host: Bytes, sniExt: Bytes, extensions: Bytes)
    requires |host| < 0xFFC8 && Utf8.Valid(host)
    requires sniExt == U16(3 + |host|) + [0] + U16(|host|) + host
    requires extensions == U16(0) + U16(|sniExt|) + sniExt
    ensures ExtensionsFit(Minimal(host), host) && extensions == Extensions(Minimal(host), host)
  {
    hide U16, Utf8.Valid;
    MinimalFits(host);
    assert sniExt == NameList(Minimal(host), host);
  }

  lemma HelloBytes(host: Bytes, extensions: Bytes, hello: Bytes)
    requires |host| < 0xFFC8 && |extensions| == 9 + |host|
    requires hello
          == [3, 3] + seq(32, _ => 0) + [0] + (U16(2) + [0, 0x2F]) + ([1] + [0]) + U16(|extensions|) + extensions
    ensures hello == PrintHead(Minimal(host).head, U16(Minimal(host).blockLength) + extensions)
  {
    hide U16;
  }

  lemma RecordBytes(env: Envelope, hello: Bytes, handshake: Bytes, record: Bytes)
    requires env == Envelope([3, 1], [], []) && EnvelopeFits(env, hello)
    requires handshake == [1] + U24(|hello|) + hello
    requires record == [22] + [3, 1] + U16(|handshake|) + handshake
    ensures record == PrintRecord(env, hello)
  {
    hide U16, U24;
    assert handshake == Handshake(env, hello);
  }

  lemma Assembled(host: Bytes, sniExt: Bytes, extensions: Bytes, hello: Bytes, handshake: Bytes, record: Bytes)
    requires |host| < 0xFFC8 && Utf8.Valid(host)
    requires sniExt == U16(3 + |host|) + [0] + U16(|host|) + host
    requires extensions == U16(0) + U16(|sniExt|) + sniExt
    requires hello
          == [3, 3] + seq(32, _ => 0) + [0] + (U16(2) + [0, 0x2F]) + ([1] + [0]) + U16(|extensions|) + extensions
    requires handshake == [1] + U24(|hello|) + hello
    requires record == [22] + [3, 1] + U16(|handshake|) + handshake
    ensures Fits(Minimal(host), host) && record == Print(Minimal(host), host)
  {
    MinimalFits(host);
    hide U16, U24, Utf8.Valid, PrintHead, PrintRecord, ExtensionsFit, Extensions, HeadFits;
    ExtensionBytes(host, sniExt, extensions);
    HelloBytes(host, extensions, hello);
    RecordBytes(Minimal(host).env, hello, handshake, record);
  }

  /** A name that is found is text and fits the record around it. */
  lemma FoundIsShort(data: Bytes, host: Bytes)
    requires Extract(data) == Found(host)
    ensures |host| < 0xFFCB && Utf8.Valid(host)
  {
    hide Extract, Utf8.Valid, PrintExtension, PrintName, PrintHead;
    var sh := Sound(data, host);
    assert |NameList(sh, host)| >= 5 + |host|;
    assert |Extensions(sh, host)| >= 9 + |host|;
  }

  /** A record length that has just wrapped leaves no room for a handshake header. */
  lemma WrappedIsAbsent(record: Bytes, handshake: Bytes)
    requires 0x1_0000 <= |handshake| < 0x1_0004 && record == [22] + [3, 1] + U16(|handshake| % 0x1_0000) + handshake
    ensures Extract(record) == Absent
  {
    assert record[3..5] == U16(|handshake| % 0x1_0000);
    ReadsBack16(|handshake| % 0x1_0000, record, 3);
  }

  // ---- Bounds ----

  /** When the declared block fits what is left of the hello, the walk stays in bounds. */
  lemma {:induction false} WalkInBounds(s: Bytes, left: int)
    requires left <= |s|
    ensures WalkExtensions(s, left) != OutOfBounds
    decreases |s|
  {
    if left >= 4 && At16(s, 0) != 0 && 4 + At16(s, 2) <= |s| {
      WalkInBounds(s[4 + At16(s, 2)..], left - 4 - At16(s, 2));
    } else if left >= 4 && At16(s, 0) == 0 && 4 + At16(s, 2) <= |s| {
      NamesInBounds(s[4..4 + At16(s, 2)]);
    }
  }

  lemma NamesInBounds(data: Bytes)
    ensures ServerName(data) != OutOfBounds
  {
    if |data| >= 2 {
      NamesWalkInBounds(data[2..]);
    }
  }

  lemma {:induction false} NamesWalkInBounds(s: Bytes)
    ensures WalkNames(s) != OutOfBounds
    decreases |s|
  {
    if |s| >= 3 && s[0] != 0 && 3 + At16(s, 1) <= |s| {
      NamesWalkInBounds(s[3 + At16(s, 1)..]);
    }
  }

  /** The declared length of the extensions block does not pass the end of the hello. */
  predicate BlockFits(data: Bytes) {
    match ClientHello(data)
    case None => true
    case Some(hello) =>
      match Block(hello)
      case None => true
      case Some(s) => 2 + At16(s, 0) <= |s|
  }

  lemma InBounds(data: Bytes)
    requires BlockFits(data)
    ensures Extract(data) != OutOfBounds
  {
    hide At16, WalkExtensions;
    if ClientHello(data).Some? && Block(ClientHello(data).value).Some? {
      var s := Block(ClientHello(data).value).value;
      WalkInBounds(s[2..], At16(s, 0));
    }
  }

  /** Where the walk is stuck when it runs past the end. */
  predicate PastEnd(rest: Bytes, left: int) {
    left >= 4 && (|rest| < 4 || (At16(rest, 0) != 0 && |rest| < 4 + At16(rest, 2) <= left - 4))
  }

  /** The walk runs past the end exactly when whole extensions of other types lead to such a place. */
  lemma WalkOutOfBoundsIff(s: Bytes, left: int)
    ensures WalkExtensions(s, left) == OutOfBounds <==>
      exists es, rest :: Others(es) && s == PrintExtensions(es) + rest && PastEnd(rest, left - |PrintExtensions(es)|)
  {
    hide At16;
    var es, rest := WalkStops(s, left);
    if WalkExtensions(s, left) == OutOfBounds {
      if |rest| >= 4 && 4 + At16(rest, 2) <= |rest| {
        NamesInBounds(rest[4..4 + At16(rest, 2)]);
      }
    }
    if es, rest :| Others(es) && s == PrintExtensions(es) + rest && PastEnd(rest, left - |PrintExtensions(es)|) {
      SkipExtensions(es, rest, left);
    }
  }

  /** The bytes of a hello whose extension walk runs past its end. */
  ghost predicate RunsOut(data: Bytes, env: Envelope, head: Head, blockLength: nat, es: seq<Extension>, rest: Bytes) {
    && HeadFits(head) && blockLength < 0x1_0000 && Others(es)
    && var hello := PrintHead(head, U16(blockLength) + (PrintExtensions(es) + rest));
       EnvelopeFits(env, hello) && data == PrintRecord(env, hello) && PastEnd(rest, blockLength - |PrintExtensions(es)|)
  }

  lemma RunsOutParses(data: Bytes, env: Envelope, head: Head, blockLength: nat, es: seq<Extension>, rest: Bytes)
    requires RunsOut(data, env, head, blockLength, es, rest)
    ensures Extract(data) == OutOfBounds
  {
    hide PrintRecord, PrintHead, Block, ClientHello, At16, WalkExtensions, PastEnd, U16;
    var tail := PrintExtensions(es) + rest;
    var block := U16(blockLength) + tail;
    HelloOf(env, PrintHead(head, block));
    BlockOf(head, block);
    assert block[..2] == U16(blockLength) && block[2..] == tail;
    ReadsBack16(blockLength, block, 0);
    assert Others(es) && tail == PrintExtensions(es) + rest && PastEnd(rest, blockLength - |PrintExtensions(es)|);
    WalkOutOfBoundsIff(tail, blockLength);
  }

  lemma RunsOutFound(data: Bytes)
    requires Extract(data) == OutOfBounds
    ensures exists env, head, blockLength, es, rest :: RunsOut(data, env, head, blockLength, es, rest)
  {
    hide PrintRecord, PrintHead, Block, ClientHello, At16, WalkExtensions, PastEnd, U16;
    var env := HelloFound(data);
    var hello := ClientHello(data).value;
    var head := BlockFound(hello);
    var block := Block(hello).value;
    var n := At16(block, 0);
    ReadsBack16(n, block, 0);
    assert block == block[0..2] + block[2..];
    WalkOutOfBoundsIff(block[2..], n);
    var es, rest :| Others(es) && block[2..] == PrintExtensions(es) + rest && PastEnd(rest, n - |PrintExtensions(es)|);
    assert RunsOut(data, env, head, n, es, rest);
  }

  /**
   * Which records make the parser index past the hello: exactly those whose declared block reaches
   * further than the hello while its whole extensions lead to a place past the end.
   */
  lemma OutOfBoundsIff(data: Bytes)
    ensures Extract(data) == OutOfBounds <==>
      exists env, head, blockLength, es, rest :: RunsOut(data, env, head, blockLength, es, rest)
  {
    hide Extract, RunsOut;
    if Extract(data) == OutOfBounds {
      RunsOutFound(data);
    }
    if env, head, blockLength, es, rest :| RunsOut(data, env, head, blockLength, es, rest) {
      RunsOutParses(data, env, head, blockLength, es, rest);
    }
  }

  /** For one, a hello with empty fields that declares four bytes of extensions and has none. */
  lemma OutOfBoundsExample() returns (data: Bytes)
    ensures Extract(data) == OutOfBounds && !BlockFits(data)
  {
    var head := Head(seq(34, _ => 0), [], [], []);
    var hello := PrintHead(head, U16(4) + (PrintExtensions([]) + []));
    data := PrintRecord(Envelope([3, 1], [], []), hello);
    assert RunsOut(data, Envelope([3, 1], [], []), head, 4, [], []);
    hide Extract, RunsOut, BlockFits;
    RunsOutParses(data, Envelope([3, 1], [], []), head, 4, [], []);
    if BlockFits(data) {
      InBounds(data);
    }
  }
}
