// Messages on the wire: an 8-byte little-endian header, then the body.
module Framing {
  import opened Bytes

  const HDRLEN := 8

  // The C code holds datalen and 8 + datalen in a 32-bit int.
  const MAX_BODY := 0x8000_0000 - 9

  // wid and qidx are int16, datalen is uint32.
  datatype Header = Header(wid: int, qidx: int, datalen: nat)

  predicate IsInt16(v: int) { -0x8000 <= v < 0x8000 }

  predicate ValidHeader(h: Header) {
    IsInt16(h.wid) && IsInt16(h.qidx) && h.datalen < 0x1_0000_0000
  }

  function Signed16(u: nat): int { if u < 0x8000 then u else u - 0x1_0000 }

  function Unsigned16(v: int): nat
    requires IsInt16(v)
  {
    if v < 0 then v + 0x1_0000 else v
  }

  function EncodeHeader(h: Header): (b: seq<Byte>)
    requires ValidHeader(h)
    ensures |b| == HDRLEN
  {
    ToLE(Unsigned16(h.wid), 2) + ToLE(Unsigned16(h.qidx), 2) + ToLE(h.datalen, 4)
  }

  function DecodeHeader(b: seq<Byte>): Header
    requires |b| == HDRLEN
  {
    Header(Signed16(FromLE(b[..2])), Signed16(FromLE(b[2..4])), FromLE(b[4..]))
  }

  lemma WordSizes()
    ensures Pow256(2) == 0x1_0000 && Pow256(4) == 0x1_0000_0000
  {
    assert Pow256(1) == 256 * Pow256(0);
    assert Pow256(3) == 256 * Pow256(2);
  }

  function Short(low: int, high: int): int { low + 0x100 * high }

  /** Byte by byte: worker id and queue index as two's complement, all three words little-endian. */
  lemma HeaderBytes(h: Header)
    requires ValidHeader(h)
    ensures var b := EncodeHeader(h);
            && Short(b[0], b[1]) == (if h.wid < 0 then 0x1_0000 + h.wid else h.wid)
            && Short(b[2], b[3]) == (if h.qidx < 0 then 0x1_0000 + h.qidx else h.qidx)
            && Short(b[4], b[5]) + 0x1_0000 * Short(b[6], b[7]) == h.datalen
  {
    hide ToLE;
    var w, q, d := Unsigned16(h.wid), Unsigned16(h.qidx), h.datalen;
    var b := EncodeHeader(h);
    TwoBytes(w);
    TwoBytes(q);
    FourBytes(d);
    assert b[0] == ToLE(w, 2)[0] && b[1] == ToLE(w, 2)[1] && b[2] == ToLE(q, 2)[0] && b[3] == ToLE(q, 2)[1];
    assert forall i :: 0 <= i < 4 ==> b[4 + i] == ToLE(d, 4)[i];
  }

  lemma TwoBytes(v: nat)
    requires v < 0x1_0000
    ensures Short(ToLE(v, 2)[0], ToLE(v, 2)[1]) == v
  {
    assert ToLE(v, 2) == [v % 256] + ToLE(v / 256, 1);
    assert ToLE(v / 256, 1)[0] == v / 256 % 256;
  }

  lemma FourBytes(v: nat)
    requires v < 0x1_0000_0000
    ensures var b := ToLE(v, 4); Short(b[0], b[1]) + 0x1_0000 * Short(b[2], b[3]) == v
  {
    var lo, hi := v % 256, v / 256;
    assert ToLE(v, 4) == [lo] + ToLE(hi, 3);
    assert ToLE(hi, 3) == [hi % 256] + ToLE(hi / 256, 2);
    TwoBytes(hi / 256);
  }

  lemma DecodeEncode(h: Header)
    requires ValidHeader(h)
    ensures DecodeHeader(EncodeHeader(h)) == h
  {
    hide ToLE, FromLE, Pow256;
    WordSizes();
    FromToLE(Unsigned16(h.wid), 2);
    FromToLE(Unsigned16(h.qidx), 2);
    FromToLE(h.datalen, 4);
    var b := EncodeHeader(h);
    assert b[..2] == ToLE(Unsigned16(h.wid), 2);
    assert b[2..4] == ToLE(Unsigned16(h.qidx), 2) && b[4..] == ToLE(h.datalen, 4);
  }

  lemma EncodeDecode(b: seq<Byte>)
    requires |b| == HDRLEN
    ensures ValidHeader(DecodeHeader(b)) && EncodeHeader(DecodeHeader(b)) == b
  {
    hide ToLE, FromLE, Pow256;
    WordSizes();
    ToFromLE(b[..2]);
    ToFromLE(b[2..4]);
    ToFromLE(b[4..]);
    assert b == b[..2] + b[2..4] + b[4..];
  }

  // ---------------------------------------------------------------------------------------
  // The one-shot parser.

  datatype Frame = Frame(hdr: Header, body: seq<Byte>)

  predicate ValidFrame(f: Frame) {
    ValidHeader(f.hdr) && f.hdr.datalen == |f.body| <= MAX_BODY
  }

  predicate HasHeader(p: seq<Byte>) { |p| >= HDRLEN }

  function HeaderOf(p: seq<Byte>): Header
    requires HasHeader(p)
  {
    DecodeHeader(p[..HDRLEN])
  }

  // The stream goes on with a header whose length the input code cannot hold.
  predicate TooLong(p: seq<Byte>) { HasHeader(p) && HeaderOf(p).datalen > MAX_BODY }

  predicate HasFrame(p: seq<Byte>) {
    HasHeader(p) && !TooLong(p) && |p| >= HDRLEN + HeaderOf(p).datalen
  }

  function FirstLen(p: seq<Byte>): (m: nat)
    requires HasFrame(p)
    ensures HDRLEN <= m <= |p|
  {
    HDRLEN + HeaderOf(p).datalen
  }

  function FirstFrame(p: seq<Byte>): Frame
    requires HasFrame(p)
  {
    Frame(HeaderOf(p), p[HDRLEN..FirstLen(p)])
  }

  /** The complete frames of a stream. */
  function Frames(p: seq<Byte>): seq<Frame>
    decreases |p|
  {
    if HasFrame(p) then [FirstFrame(p)] + Frames(p[FirstLen(p)..]) else []
  }

  /** What follows the complete frames. */
  function Rest(p: seq<Byte>): (r: seq<Byte>)
    ensures |r| <= |p|
    decreases |p|
  {
    if HasFrame(p) then Rest(p[FirstLen(p)..]) else p
  }

  // The first frame of a stream does not depend on what follows it.
  lemma HeadStable(p: seq<Byte>, q: seq<Byte>)
    ensures HasHeader(p) ==> HasHeader(p + q) && HeaderOf(p + q) == HeaderOf(p)
    ensures HasFrame(p) ==> HasFrame(p + q) && FirstFrame(p + q) == FirstFrame(p) && FirstLen(p + q) == FirstLen(p)
    ensures HasFrame(p) ==> (p + q)[FirstLen(p)..] == p[FirstLen(p)..] + q
  {
    if HasHeader(p) {
      assert (p + q)[..HDRLEN] == p[..HDRLEN];
      if HasFrame(p) {
        assert (p + q)[HDRLEN..FirstLen(p)] == p[HDRLEN..FirstLen(p)];
      }
    }
  }

  /** Parsing may stop anywhere and resume with what was left over. */
  lemma {:induction false} ParseAppend(p: seq<Byte>, q: seq<Byte>)
    ensures Frames(p + q) == Frames(p) + Frames(Rest(p) + q)
    ensures Rest(p + q) == Rest(Rest(p) + q)
    decreases |p|
  {
    if HasFrame(p) {
      HeadStable(p, q);
      ParseAppend(p[FirstLen(p)..], q);
    }
  }

  /** What is left over holds no complete frame. */
  lemma {:induction false} RestIncomplete(p: seq<Byte>)
    ensures !HasFrame(Rest(p))
    decreases |p|
  {
    if HasFrame(p) {
      RestIncomplete(p[FirstLen(p)..]);
    }
  }

  function EncodeFrame(f: Frame): seq<Byte>
    requires ValidFrame(f)
  {
    EncodeHeader(f.hdr) + f.body
  }

  predicate AllValid(fs: seq<Frame>) { forall i :: 0 <= i < |fs| ==> ValidFrame(fs[i]) }

  function Wire(fs: seq<Frame>): seq<Byte>
    requires AllValid(fs)
  {
    if fs == [] then [] else EncodeFrame(fs[0]) + Wire(fs[1..])
  }

  lemma FirstFrameTiles(p: seq<Byte>)
    requires HasFrame(p)
    ensures ValidFrame(FirstFrame(p)) && EncodeFrame(FirstFrame(p)) == p[..FirstLen(p)]
  {
    EncodeDecode(p[..HDRLEN]);
    assert p[..FirstLen(p)] == p[..HDRLEN] + p[HDRLEN..FirstLen(p)];
  }

  lemma {:induction false} FramesValid(p: seq<Byte>)
    ensures AllValid(Frames(p))
    decreases |p|
  {
    if HasFrame(p) {
      FirstFrameTiles(p);
      FramesValid(p[FirstLen(p)..]);
    }
  }

  lemma WireCons(f: Frame, fs: seq<Frame>)
    requires ValidFrame(f) && AllValid(fs)
    ensures AllValid([f] + fs) && Wire([f] + fs) == EncodeFrame(f) + Wire(fs)
  {
    assert ([f] + fs)[1..] == fs;
  }

  /** In sync: the frames, each of exactly 8 + datalen bytes, and the rest are the stream. */
  lemma {:induction false} FramesTile(p: seq<Byte>)
    ensures AllValid(Frames(p)) && Wire(Frames(p)) + Rest(p) == p
    decreases |p|
  {
    hide EncodeHeader, DecodeHeader;
    FramesValid(p);
    if HasFrame(p) {
      var q := p[FirstLen(p)..];
      FramesTile(q);
      FirstFrameTiles(p);
      WireCons(FirstFrame(p), Frames(q));
      Regroup(p, FirstLen(p), EncodeFrame(FirstFrame(p)), Wire(Frames(q)), Rest(q));
    }
  }

  lemma Regroup(p: seq<Byte>, m: nat, a: seq<Byte>, b: seq<Byte>, c: seq<Byte>)
    requires m <= |p| && a == p[..m] && b + c == p[m..]
    ensures (a + b) + c == p
  {
    assert (a + b) + c == a + (b + c);
    assert p == p[..m] + p[m..];
  }

  /** Round trip: the concatenation of any frames parses to exactly those frames. */
  lemma {:induction false} WireParses(fs: seq<Frame>)
    requires AllValid(fs)
    ensures Frames(Wire(fs)) == fs && Rest(Wire(fs)) == []
  {
    if fs != [] {
      WireParses(fs[1..]);
      FrameParses(fs[0], Wire(fs[1..]));
    }
  }

  lemma FrameParses(f: Frame, q: seq<Byte>)
    requires ValidFrame(f)
    ensures HasFrame(EncodeFrame(f) + q) && FirstFrame(EncodeFrame(f) + q) == f
    ensures (EncodeFrame(f) + q)[FirstLen(EncodeFrame(f) + q)..] == q
  {
    var p := EncodeFrame(f) + q;
    assert p[..HDRLEN] == EncodeHeader(f.hdr);
    DecodeEncode(f.hdr);
    assert p[HDRLEN..HDRLEN + |f.body|] == f.body;
  }
}
