/** Length-prefixed frames on a byte stream. */
module Frames {
  import opened Types

  const MAX_FRAME_SIZE: nat := 1_048_576

  datatype FrameError = EofInLength | EofInPayload | TooLarge(len: nat)

  datatype FrameResult = Frame(payload: Bytes) | Failed(error: FrameError)

  // ---- Lengths ----

  function U32(n: nat): (s: Bytes)
    requires n < 0x1_0000_0000
    ensures |s| == 4
  {
    var hi, lo := n / 0x1_0000, n % 0x1_0000;
    [hi / 256, hi % 256, lo / 256, lo % 256]
  }

  function At32(s: Bytes): (n: nat)
    requires |s| == 4
    ensures n < 0x1_0000_0000
  {
    (s[0] as nat * 256 + s[1] as nat) * 0x1_0000 + (s[2] as nat * 256 + s[3] as nat)
  }

  lemma Halves(hi: nat, lo: nat)
    requires hi < 0x1_0000 && lo < 0x1_0000
    ensures (hi * 0x1_0000 + lo) / 0x1_0000 == hi && (hi * 0x1_0000 + lo) % 0x1_0000 == lo
  {
  }

  lemma ReadsBack32(n: nat, s: Bytes)
    requires n < 0x1_0000_0000 && |s| == 4
    ensures At32(s) == n <==> s == U32(n)
  {
    var hi, lo := s[0] as nat * 256 + s[1] as nat, s[2] as nat * 256 + s[3] as nat;
    assert hi / 256 == s[0] && hi % 256 == s[1] && lo / 256 == s[2] && lo % 256 == s[3];
    Halves(hi, lo);
    assert s == [s[0], s[1], s[2], s[3]];
  }

  // ---- One frame ----

  function Encode(payload: Bytes): (s: Bytes)
    requires |payload| <= MAX_FRAME_SIZE
    ensures |s| == 4 + |payload|
  {
    U32(|payload|) + payload
  }

  /** What one read makes of the bytes ahead, and the bytes it leaves. */
  function Decode(s: Bytes): (FrameResult, Bytes) {
    if |s| < 4 then (Failed(EofInLength), [])
    else
      var len := At32(s[..4]);
      if len > MAX_FRAME_SIZE then (Failed(TooLarge(len)), s[4..])
      else if |s| < 4 + len then (Failed(EofInPayload), [])
      else (Frame(s[4..4 + len]), s[4 + len..])
  }

  /**
   * What the first four bytes, as a number with the highest byte first, and the length of the stream
   * decide: the payload, or which error, and what is left to read.
   */
  lemma DecodeMeaning(s: Bytes)
    ensures var (r, rest) := Decode(s);
      && (|s| < 4 ==> r == Failed(EofInLength) && rest == [])
      && (|s| >= 4 ==>
            var n := 16_777_216 * s[0] as nat + 65_536 * s[1] as nat + 256 * s[2] as nat + s[3] as nat;
            && (n > 1_048_576 ==> r == Failed(TooLarge(n)) && rest == s[4..])
            && (n <= 1_048_576 && |s| - 4 < n ==> r == Failed(EofInPayload) && rest == [])
            && (n <= 1_048_576 && |s| - 4 >= n ==> r == Frame(s[4..4 + n]) && rest == s[4 + n..]))
  {
  }

  /** The read end of a stream: what has arrived or will arrive before it closes. */
  class Reader {
    var ahead: Bytes

    constructor (ahead: Bytes)
      ensures this.ahead == ahead
    {
      this.ahead := ahead;
    }

    /** Fills a buffer of `n` bytes, or takes what there is and reports the end. */
    method ReadExact(n: nat) returns (r: Option<Bytes>)
      modifies this
      ensures n <= |old(ahead)| ==> r == Some(old(ahead)[..n]) && ahead == old(ahead)[n..]
      ensures n > |old(ahead)| ==> r.None? && ahead == []
    {
      if n <= |ahead| {
        r, ahead := Some(ahead[..n]), ahead[n..];
      } else {
        r, ahead := None, [];
      }
    }

    method ReadFrame() returns (r: FrameResult)
      modifies this
      ensures (r, ahead) == Decode(old(ahead))
    {
      hide At32;
      var lenBuf := ReadExact(4);
      if lenBuf.None? {
        return Failed(EofInLength);
      }
      var len := At32(lenBuf.value);
      if len > MAX_FRAME_SIZE {
        return Failed(TooLarge(len));
      }
      ghost var rest := ahead;
      var buf := ReadExact(len);
      if buf.None? {
        return Failed(EofInPayload);
      }
      assert old(ahead)[4..][..len] == old(ahead)[4..4 + len] && rest[len..] == old(ahead)[4 + len..];
      return Frame(buf.value);
    }
  }

  class Writer {
    var written: Bytes

    constructor ()
      ensures written == []
    {
      written := [];
    }

    method WriteFrame(data: Bytes) returns (r: Option<FrameError>)
      modifies this
      ensures r.None? <==> |data| <= MAX_FRAME_SIZE
      ensures r.None? ==> written == old(written) + Encode(data)
      ensures r.Some? ==> r.value == TooLarge(|data|) && written == old(written)
    {
      if |data| > MAX_FRAME_SIZE {
        return Some(TooLarge(|data|));
      }
      var lenBuf := U32(|data|);
      written := written + lenBuf;
      written := written + data;
      return None;
    }
  }

  // ---- Whole streams ----

  ghost predicate Sendable(ps: seq<Bytes>) {
    forall i | 0 <= i < |ps| :: |ps[i]| <= MAX_FRAME_SIZE
  }

  ghost function EncodeAll(ps: seq<Bytes>): Bytes
    requires Sendable(ps)
  {
    if ps == [] then [] else Encode(ps[0]) + EncodeAll(ps[1..])
  }

  /** Reading frames until one fails. */
  function DecodeAll(s: Bytes): (seq<Bytes>, FrameError)
    decreases |s|
  {
    match Decode(s)
    case (Failed(e), _) => ([], e)
    case (Frame(p), rest) =>
      assert |rest| < |s|;
      var (ps, e) := DecodeAll(rest);
      ([p] + ps, e)
  }

  lemma DecodeEncode(p: Bytes, rest: Bytes)
    requires |p| <= MAX_FRAME_SIZE
    ensures Decode(Encode(p) + rest) == (Frame(p), rest)
  {
    var s := Encode(p) + rest;
    assert s[..4] == U32(|p|) && s[4..4 + |p|] == p && s[4 + |p|..] == rest;
    ReadsBack32(|p|, s[..4]);
  }

  /** Frames in front of anything are read off one by one. */
  lemma {:induction false} DecodePrefix(ps: seq<Bytes>, rest: Bytes)
    requires Sendable(ps)
    ensures DecodeAll(EncodeAll(ps) + rest) == (ps + DecodeAll(rest).0, DecodeAll(rest).1)
    decreases |ps|
  {
    hide Decode, Encode;
    if ps == [] {
      assert EncodeAll(ps) + rest == rest && ps + DecodeAll(rest).0 == DecodeAll(rest).0;
    } else {
      var tail := EncodeAll(ps[1..]) + rest;
      assert EncodeAll(ps) + rest == Encode(ps[0]) + tail;
      DecodeEncode(ps[0], tail);
      DecodePrefix(ps[1..], rest);
      assert [ps[0]] + (ps[1..] + DecodeAll(rest).0) == ps + DecodeAll(rest).0;
    }
  }

  /** A stream of frames is read back as exactly the payloads written, then end of stream. */
  lemma RoundTrip(ps: seq<Bytes>)
    requires Sendable(ps)
    ensures DecodeAll(EncodeAll(ps)) == (ps, EofInLength)
  {
    DecodePrefix(ps, []);
    assert EncodeAll(ps) + [] == EncodeAll(ps) && ps + [] == ps;
  }

  /** What stopped the reading comes right after the frames that were read. */
  ghost predicate ReadUpTo(s: Bytes, ps: seq<Bytes>, e: FrameError) {
    Sendable(ps) && EncodeAll(ps) <= s && Decode(s[|EncodeAll(ps)|..]).0 == Failed(e)
  }

  lemma ReadOneMore(s: Bytes, p: Bytes, rest: Bytes, ps: seq<Bytes>, e: FrameError)
    requires |p| <= MAX_FRAME_SIZE && s == Encode(p) + rest && ReadUpTo(rest, ps, e)
    ensures ReadUpTo(s, [p] + ps, e)
  {
    hide Decode, Encode;
    assert ([p] + ps)[1..] == ps;
    var n := |EncodeAll(ps)|;
    assert EncodeAll([p] + ps) == Encode(p) + EncodeAll(ps);
    assert s[|Encode(p)| + n..] == rest[n..];
  }

  /** Conversely, the payloads read were the frames at the front of the stream. */
  lemma {:induction false} ReadsOnlyFrames(s: Bytes)
    ensures ReadUpTo(s, DecodeAll(s).0, DecodeAll(s).1)
    decreases |s|
  {
    match Decode(s)
    case (Failed(_), _) =>
      assert s[0..] == s;
    case (Frame(p), rest) =>
      FrameAhead(s);
      hide Decode, Encode, ReadUpTo;
      ReadsOnlyFrames(rest);
      ReadOneMore(s, p, rest, DecodeAll(rest).0, DecodeAll(rest).1);
  }

  lemma FrameAhead(s: Bytes)
    requires Decode(s).0.Frame?
    ensures var (r, rest) := Decode(s); |r.payload| <= MAX_FRAME_SIZE && s == Encode(r.payload) + rest && |rest| < |s|
  {
    var len := At32(s[..4]);
    ReadsBack32(len, s[..4]);
    assert s == s[..4] + s[4..4 + len] + s[4 + len..];
  }

  lemma CutFrame(p: Bytes, k: nat)
    requires |p| <= MAX_FRAME_SIZE && k < 4 + |p|
    ensures Decode(Encode(p)[..k]).0 == Failed(if k < 4 then EofInLength else EofInPayload)
  {
    var s := Encode(p)[..k];
    if k >= 4 {
      assert s[..4] == U32(|p|);
      ReadsBack32(|p|, s[..4]);
    }
  }

  lemma {:induction false} EncodeAllAppend(ps: seq<Bytes>, qs: seq<Bytes>)
    requires Sendable(ps) && Sendable(qs)
    ensures Sendable(ps + qs) && EncodeAll(ps + qs) == EncodeAll(ps) + EncodeAll(qs)
    decreases |ps|
  {
    hide Encode;
    if ps == [] {
      assert ps + qs == qs;
    } else {
      EncodeAllAppend(ps[1..], qs);
      assert (ps + qs)[1..] == ps[1..] + qs;
    }
  }

  /** The number of frames that lie wholly before position `k`. */
  lemma {:induction false} WholeFrames(ps: seq<Bytes>, k: nat) returns (m: nat)
    requires Sendable(ps) && k < |EncodeAll(ps)|
    ensures m < |ps| && |EncodeAll(ps[..m])| <= k < |EncodeAll(ps[..m])| + 4 + |ps[m]|
    decreases |ps|
  {
    if k < |Encode(ps[0])| {
      m := 0;
    } else {
      var n := WholeFrames(ps[1..], k - |Encode(ps[0])|);
      m := n + 1;
      assert ps[..m][1..] == ps[1..][..n];
    }
  }

  /**
   * A stream cut anywhere before its end yields exactly the frames that lie wholly before the
   * cut, then the end of stream in the length or the payload of the frame that was cut.
   */
  lemma Truncation(ps: seq<Bytes>, k: nat, m: nat)
    requires Sendable(ps) && k < |EncodeAll(ps)|
    requires m < |ps| && |EncodeAll(ps[..m])| <= k < |EncodeAll(ps[..m])| + 4 + |ps[m]|
    ensures var start := |EncodeAll(ps[..m])|;
      DecodeAll(EncodeAll(ps)[..k]) == (ps[..m], if k - start < 4 then EofInLength else EofInPayload)
  {
    var pre, post := ps[..m], ps[m + 1..];
    var start := |EncodeAll(pre)|;
    EncodeAllAppend(pre, ps[m..]);
    assert ps == pre + ps[m..] && ps[m..][1..] == post;
    var cut := Encode(ps[m])[..k - start];
    assert EncodeAll(ps) == EncodeAll(pre) + (Encode(ps[m]) + EncodeAll(post));
    assert EncodeAll(ps)[..k] == EncodeAll(pre) + cut;
    CutFrame(ps[m], k - start);
    DecodePrefix(pre, cut);
    assert pre + [] == pre;
  }
}
