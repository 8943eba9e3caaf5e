/** The server name carried by a TLS ClientHello, and the parser that extracts it. */
module Sni {
  import opened Types
  import Utf8

  /** `OutOfBounds` is an index past the end of the hello, at which the program stops. */
  datatype Outcome = Found(host: Bytes) | Absent | OutOfBounds

  // ---- Big-endian numbers ----

  function U16(n: nat): (s: Bytes)
    requires n < 0x1_0000
    ensures |s| == 2
  {
    [n / 256, n % 256]
  }

  function U24(n: nat): (s: Bytes)
    requires n < 0x100_0000
    ensures |s| == 3
  {
    [n / 0x1_0000] + U16(n % 0x1_0000)
  }

  /** Numbers are printed with the highest byte first. */
  lemma BigEndian(n: nat)
    requires n < 0x100_0000
    ensures n < 0x1_0000 ==> 256 * U16(n)[0] as nat + U16(n)[1] as nat == n
    ensures 65_536 * U24(n)[0] as nat + 256 * U24(n)[1] as nat + U24(n)[2] as nat == n
  {
  }

  function At16(s: Bytes, i: nat): (n: nat)
    requires i + 2 <= |s|
    ensures n < 0x1_0000
  {
    s[i] as nat * 256 + s[i + 1] as nat
  }

  function At24(s: Bytes, i: nat): (n: nat)
    requires i + 3 <= |s|
    ensures n < 0x100_0000
  {
    s[i] as nat * 0x1_0000 + At16(s, i + 1)
  }

  lemma ReadsBack16(n: nat, s: Bytes, i: nat)
    requires n < 0x1_0000 && i + 2 <= |s|
    ensures s[i..i + 2] == U16(n) <==> At16(s, i) == n
  {
    assert s[i..i + 2] == [s[i], s[i + 1]];
  }

  lemma Parts(hi: nat, lo: nat)
    requires lo < 0x1_0000
    ensures (hi * 0x1_0000 + lo) / 0x1_0000 == hi && (hi * 0x1_0000 + lo) % 0x1_0000 == lo
  {
  }

  lemma ReadsBack24(n: nat, s: Bytes, i: nat)
    requires n < 0x100_0000 && i + 3 <= |s|
    ensures s[i..i + 3] == U24(n) <==> At24(s, i) == n
  {
    ReadsBack16(n % 0x1_0000, s, i + 1);
    Parts(s[i], At16(s, i + 1));
    hide U16, At16;
    assert s[i..i + 3] == [s[i]] + s[i + 1..i + 3];
    assert U24(n)[0] == n / 0x1_0000 && U24(n)[1..] == U16(n % 0x1_0000);
    assert s[i..i + 3][1..] == s[i + 1..i + 3];
  }

  // ---- The parser as functions of the bytes still ahead of the cursor ----

  function HostName(name: Bytes): Outcome {
    if Utf8.Valid(name) then Found(name) else Absent
  }

  /** Walk over the entries of a server name list. */
  function WalkNames(s: Bytes): Outcome {
    if |s| < 3 then Absent
    else
      var len := At16(s, 1);
      if 3 + len > |s| then Absent
      else if s[0] == 0 then HostName(s[3..3 + len])
      else WalkNames(s[3 + len..])
  }

  function ServerName(data: Bytes): Outcome {
    if |data| < 2 then Absent else WalkNames(data[2..])
  }

  /** Walk over the extensions; `left` is what the declared length still allows. */
  function WalkExtensions(s: Bytes, left: int): Outcome {
    if left < 4 then Absent
    else if |s| < 4 then OutOfBounds
    else
      var len := At16(s, 2);
      if At16(s, 0) == 0 then (if 4 + len > |s| then Absent else ServerName(s[4..4 + len]))
      else if 4 + len > |s| then (if left - 4 - len < 4 then Absent else OutOfBounds)
      else WalkExtensions(s[4 + len..], left - 4 - len)
  }

  /** Skips one field with a length prefix of `width` bytes. */
  function Skip(s: Bytes, width: nat): Option<Bytes>
    requires width == 1 || width == 2
  {
    if |s| < width then None
    else
      var len := if width == 1 then s[0] else At16(s, 0);
      if width + len > |s| then None else Some(s[width + len..])
  }

  /** The extensions block of a hello with its length field. */
  function Block(hello: Bytes): Option<Bytes> {
    if |hello| < 34 then None
    else match Skip(hello[34..], 1)
      case None => None
      case Some(s) =>
        match Skip(s, 2)
        case None => None
        case Some(s) =>
          match Skip(s, 1)
          case None => None
          case Some(s) => if |s| < 2 then None else Some(s)
  }

  /** The ClientHello of a handshake record. */
  function ClientHello(data: Bytes): Option<Bytes> {
    if |data| < 5 || data[0] != 22 || 5 + At16(data, 3) > |data| then None
    else
      var handshake := data[5..5 + At16(data, 3)];
      if |handshake| < 4 || handshake[0] != 1 || 4 + At24(handshake, 1) > |handshake| then None
      else Some(handshake[4..4 + At24(handshake, 1)])
  }

  function InHello(hello: Bytes): Outcome {
    match Block(hello)
    case None => Absent
    case Some(s) => WalkExtensions(s[2..], At16(s, 0))
  }

  function Extract(data: Bytes): Outcome {
    match ClientHello(data)
    case None => Absent
    case Some(hello) => InHello(hello)
  }

  // ---- The parser as cursor loops ----

  method ParseServerName(data: Bytes) returns (r: Outcome)
    ensures r == ServerName(data)
  {
    if |data| < 2 {
      return Absent;
    }
    var pos := 2;
    while pos + 3 <= |data|
      invariant 2 <= pos
      invariant ServerName(data) == if pos <= |data| then WalkNames(data[pos..]) else Absent
      decreases |data| - pos
    {
      var nameType := data[pos];
      var nameLen := At16(data, pos + 1);
      assert At16(data[pos..], 1) == nameLen;
      pos := pos + 3;
      if nameType == 0 {
        if pos + nameLen > |data| {
          return Absent;
        }
        assert data[pos - 3..][3..3 + nameLen] == data[pos..pos + nameLen];
        if Utf8.Valid(data[pos..pos + nameLen]) {
          return Found(data[pos..pos + nameLen]);
        }
        return Absent;
      }
      if pos + nameLen <= |data| {
        assert data[pos - 3..][3 + nameLen..] == data[pos + nameLen..];
      }
      pos := pos + nameLen;
    }
    return Absent;
  }

  lemma ShiftedFields(s: Bytes, pos: nat)
    requires pos + 4 <= |s|
    ensures At16(s[pos..], 0) == At16(s, pos) && At16(s[pos..], 2) == At16(s, pos + 2)
    ensures var len := At16(s, pos + 2); pos + 4 + len <= |s| ==>
      s[pos..][4..4 + len] == s[pos + 4..pos + 4 + len] && s[pos..][4 + len..] == s[pos + 4 + len..]
  {
  }

  method WalkLoop(hello: Bytes, start: nat, extEnd: nat) returns (r: Outcome)
    requires start <= |hello|
    ensures r == WalkExtensions(hello[start..], extEnd - start)
  {
    hide ServerName, At16;
    var pos := start;
    while pos + 4 <= extEnd
      invariant WalkExtensions(hello[start..], extEnd - start) ==
        if pos <= |hello| then WalkExtensions(hello[pos..], extEnd - pos)
        else if pos + 4 <= extEnd then OutOfBounds else Absent
      decreases extEnd - pos
    {
      if pos + 4 > |hello| {
        return OutOfBounds;
      }
      var extType, extDataLen := At16(hello, pos), At16(hello, pos + 2);
      ShiftedFields(hello, pos);
      pos := pos + 4;
      if extType == 0 {
        if pos + extDataLen > |hello| {
          return Absent;
        }
        r := ParseServerName(hello[pos..pos + extDataLen]);
        return;
      }
      pos := pos + extDataLen;
    }
    return Absent;
  }

  lemma SkipAt(hello: Bytes, pos: nat, width: nat)
    requires pos <= |hello| && (width == 1 || width == 2)
    ensures Skip(hello[pos..], width) ==
      if pos + width > |hello| then None
      else
        var next := pos + width + (if width == 1 then hello[pos] else At16(hello, pos));
        if next > |hello| then None else Some(hello[next..])
  {
    if pos + width <= |hello| {
      var next := pos + width + (if width == 1 then hello[pos] else At16(hello, pos));
      assert next <= |hello| ==> hello[pos..][next - pos..] == hello[next..];
    }
  }

  /** The fixed part of the hello, field by field, up to its extensions. */
  method HelloLoop(hello: Bytes) returns (r: Outcome)
    ensures r == InHello(hello)
  {
    hide Skip, At16, WalkExtensions;
    if |hello| < 34 {
      return Absent;
    }
    var pos := 34;
    SkipAt(hello, pos, 1);
    if pos >= |hello| {
      return Absent;
    }
    pos := pos + 1 + hello[pos];
    if pos + 1 >= |hello| {
      if pos <= |hello| {
        SkipAt(hello, pos, 2);
      }
      return Absent;
    }
    SkipAt(hello, pos, 2);
    pos := pos + 2 + At16(hello, pos);
    if pos >= |hello| {
      if pos == |hello| {
        SkipAt(hello, pos, 1);
      }
      return Absent;
    }
    SkipAt(hello, pos, 1);
    pos := pos + 1 + hello[pos];
    if pos + 2 > |hello| {
      return Absent;
    }
    var extLen := At16(hello, pos);
    AtShift(hello, pos);
    pos := pos + 2;
    r := WalkLoop(hello, pos, pos + extLen);
  }

  lemma AtShift(s: Bytes, pos: nat)
    requires pos + 2 <= |s|
    ensures At16(s[pos..], 0) == At16(s, pos) && s[pos..][2..] == s[pos + 2..]
  {
  }

  method ExtractSni(data: Bytes) returns (r: Outcome)
    ensures r == Extract(data)
  {
    if |data| < 5 || data[0] != 22 {
      return Absent;
    }
    var recordLen := At16(data, 3);
    if 5 + recordLen > |data| {
      return Absent;
    }
    var handshake := data[5..5 + recordLen];
    if |handshake| < 4 || handshake[0] != 1 || 4 + At24(handshake, 1) > |handshake| {
      return Absent;
    }
    r := HelloLoop(handshake[4..4 + At24(handshake, 1)]);
  }
}
