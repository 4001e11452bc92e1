// The way out: a worker frames the result of its function in an output entry (worker.c), the output
// thread sends the entry as it is (output.c), and whoever receives the stream can parse it back.
module Output {
  import opened Common
  import opened Bytes
  import opened Framing
  import opened Net
  import opened Overlay
  import opened Input
  import opened InputRuns

  // ---------------------------------------------------------------------------------------
  // A worker's frames.

  // What a function leaves in the output data, given its input and the space offered.
  type Func = (seq<Byte>, nat) -> seq<Byte>

  // A worker without a function produces nothing.
  function Result(func: Option<Func>, x: seq<Byte>, space: nat): seq<Byte> {
    if func.Some? then func.value(x, space) else []
  }

  // The function keeps to the space it was offered.
  predicate KeepsTo(func: Option<Func>, x: seq<Byte>, space: nat) {
    |Result(func, x, space)| <= space
  }

  // datalen is a uint32.
  const UINT_SIZE := 0x1_0000_0000

  function FrameOf(owid: int, oqid: int, r: seq<Byte>): Frame {
    Frame(Header(owid, oqid, |r| % UINT_SIZE), r)
  }

  /** The header with the length cut to 32 bits, then the whole result. */
  function FrameBytes(owid: int, oqid: int, r: seq<Byte>): (b: seq<Byte>)
    requires IsInt16(owid) && IsInt16(oqid)
    ensures |b| == HDRLEN + |r|
  {
    EncodeHeader(Header(owid, oqid, |r| % UINT_SIZE)) + r
  }

  // The three stores of the worker's loop: the header with length 0, the function's result, the length word.
  function HeaderStored(d: seq<Byte>, owid: int, oqid: int): (r: seq<Byte>)
    requires IsInt16(owid) && IsInt16(oqid) && HDRLEN <= |d|
    ensures |r| == |d|
  {
    Splice(d, 0, EncodeHeader(Header(owid, oqid, 0)))
  }

  function BodyStored(d: seq<Byte>, r: seq<Byte>): (d': seq<Byte>)
    requires HDRLEN + |r| <= |d|
    ensures |d'| == |d|
  {
    Splice(d, HDRLEN, r)
  }

  function LengthStored(d: seq<Byte>, flen: nat): (d': seq<Byte>)
    requires HDRLEN <= |d|
    ensures |d'| == |d|
  {
    Splice(d, 4, ToLE(flen % UINT_SIZE, 4))
  }

  // The ids of a header, then its length word.
  lemma HeaderParts(owid: int, oqid: int, n: nat)
    requires IsInt16(owid) && IsInt16(oqid) && n < UINT_SIZE
    ensures var h := EncodeHeader(Header(owid, oqid, n));
            h[..4] == ToLE(Unsigned16(owid), 2) + ToLE(Unsigned16(oqid), 2) && h[4..] == ToLE(n, 4)
  {
    hide ToLE, Unsigned16;
  }

  // The ids of a header, the result after it, and the length word stored last.
  lemma FrameAssembles(d: seq<Byte>, owid: int, oqid: int, r: seq<Byte>)
    requires IsInt16(owid) && IsInt16(oqid) && HDRLEN + |r| <= |d|
    requires d[..4] == EncodeHeader(Header(owid, oqid, 0))[..4] && d[HDRLEN..HDRLEN + |r|] == r
    ensures LengthStored(d, |r|)[..HDRLEN + |r|] == FrameBytes(owid, oqid, r)
  {
    hide ToLE, Unsigned16, EncodeHeader;
    var d3 := LengthStored(d, |r|);
    var n := |r| % UINT_SIZE;
    var h0, h := EncodeHeader(Header(owid, oqid, 0)), EncodeHeader(Header(owid, oqid, n));
    HeaderParts(owid, oqid, 0);
    HeaderParts(owid, oqid, n);
    forall i | 0 <= i < HDRLEN
      ensures d3[i] == h[i]
    {
      if i < 4 {
        assert h[i] == h[..4][i] && h0[i] == h0[..4][i] && d[i] == d[..4][i];
      } else {
        assert h[i] == h[4..][i - 4];
      }
    }
    forall i | HDRLEN <= i < HDRLEN + |r|
      ensures d3[i] == r[i - HDRLEN]
    {
      assert d[i] == d[HDRLEN..HDRLEN + |r|][i - HDRLEN];
    }
  }

  // The frame's header and its body, in data that starts with it.
  lemma FrameParts(d: seq<Byte>, owid: int, oqid: int, r: seq<Byte>)
    requires IsInt16(owid) && IsInt16(oqid) && HDRLEN + |r| <= |d| && d[..HDRLEN + |r|] == FrameBytes(owid, oqid, r)
    ensures DecodeHeader(d[..HDRLEN]) == Header(owid, oqid, |r| % 0x1_0000_0000) && d[HDRLEN..HDRLEN + |r|] == r
  {
    hide EncodeHeader, DecodeHeader;
    var n := HDRLEN + |r|;
    DecodeEncode(Header(owid, oqid, |r| % UINT_SIZE));
    assert d[..HDRLEN] == d[..n][..HDRLEN] && d[HDRLEN..n] == d[..n][HDRLEN..];
  }

  /** A result that a receiver's 32-bit length can hold makes a valid frame. */
  lemma FrameFits(owid: int, oqid: int, r: seq<Byte>)
    requires IsInt16(owid) && IsInt16(oqid) && |r| <= MAX_BODY
    ensures ValidFrame(FrameOf(owid, oqid, r)) && EncodeFrame(FrameOf(owid, oqid, r)) == FrameBytes(owid, oqid, r)
  {
    hide EncodeHeader;
  }

  class Worker {
    const owid: int
    const oqid: int
    const func: Option<Func>

    constructor (owid: int, oqid: int, func: Option<Func>)
      ensures this.owid == owid && this.oqid == oqid && this.func == func
    {
      this.owid, this.oqid, this.func := owid, oqid, func;
    }

    // Bytes stored one after the other.
    method Store(out: array<Byte>, off: nat, w: seq<Byte>)
      requires off + |w| <= out.Length
      modifies out
      ensures out[..] == Splice(old(out[..]), off, w)
    {
      for i := 0 to |w|
        invariant forall j :: 0 <= j < out.Length ==> out[j] == (if off <= j < off + i then w[j - off] else old(out[j]))
      {
        out[off + i] := w[i];
      }
    }

    /** One trip through worker_thread_loop with an output, from the entry it popped to the entry it puts
        back: the output entry holds exactly the frame of the function's result. */
    method Run(inp: array<Byte>, len: nat, out: array<Byte>) returns (olen: nat)
      requires IsInt16(owid) && IsInt16(oqid) && len <= inp.Length && HDRLEN < out.Length && inp != out
      requires KeepsTo(func, inp[..len], out.Length - HDRLEN)
      modifies out
      ensures var r := Result(func, old(inp[..len]), out.Length - HDRLEN);
              && olen == HDRLEN + |r| <= out.Length
              && out[..] == LengthStored(BodyStored(HeaderStored(old(out[..]), owid, oqid), r), |r|)
              && out[..olen] == FrameBytes(owid, oqid, r)
              && (|r| <= MAX_BODY ==>
                   ValidFrame(FrameOf(owid, oqid, r)) && out[..olen] == EncodeFrame(FrameOf(owid, oqid, r)))
      ensures HDRLEN <= olen <= out.Length
      ensures func.Some? ==> out[HDRLEN..olen] == func.value(old(inp[..len]), out.Length - HDRLEN)
      ensures func.None? ==> olen == HDRLEN
      ensures DecodeHeader(out[..HDRLEN]) == Header(owid, oqid, (olen - HDRLEN) % 0x1_0000_0000)
    {
      hide EncodeHeader, DecodeHeader, Splice, ToLE, FrameBytes;
      Store(out, 0, EncodeHeader(Header(owid, oqid, 0)));
      ghost var d1 := out[..];
      olen := HDRLEN;
      var flen := 0;
      var r := [];
      if func.Some? {
        r := func.value(inp[..len], out.Length - HDRLEN);
        flen := |r|;
      }
      Store(out, HDRLEN, r);
      ghost var d2 := out[..];
      Store(out, 4, ToLE(flen % UINT_SIZE, 4));
      olen := olen + flen;
      Assembled(old(out[..]), d1, d2, owid, oqid, r);
      FrameParts(out[..], owid, oqid, r);
      if |r| <= MAX_BODY {
        FrameFits(owid, oqid, r);
      }
    }
  }

  // The first two stores leave the header with length 0 and the result after it.
  lemma Assembled(d: seq<Byte>, d1: seq<Byte>, d2: seq<Byte>, owid: int, oqid: int, r: seq<Byte>)
    requires IsInt16(owid) && IsInt16(oqid) && HDRLEN + |r| <= |d|
    requires d1 == HeaderStored(d, owid, oqid) && d2 == BodyStored(d1, r)
    ensures d1[..HDRLEN] == EncodeHeader(Header(owid, oqid, 0))
    ensures d2[..HDRLEN] == EncodeHeader(Header(owid, oqid, 0)) && d2[HDRLEN..HDRLEN + |r|] == r
    ensures LengthStored(d2, |r|)[..HDRLEN + |r|] == FrameBytes(owid, oqid, r)
  {
    hide EncodeHeader;
    assert d2[..4] == d2[..HDRLEN][..4];
    FrameAssembles(d2, owid, oqid, r);
  }

  // ---------------------------------------------------------------------------------------
  // The output thread.

  /** What goes on the wire when these entries are sent in turn; a send that fails is not repeated. */
  function Sent(script: seq<Send>, ms: seq<seq<Byte>>): seq<Byte>
    decreases |ms|
  {
    if ms == [] then []
    else
      var w := Writes(script, |ms[0]|);
      ms[0][..w.count] + Sent(w.later, ms[1..])
  }

  function Later(script: seq<Send>, ms: seq<seq<Byte>>): seq<Send>
    decreases |ms|
  {
    if ms == [] then script else Later(Writes(script, |ms[0]|).later, ms[1..])
  }

  /** Every net_writen succeeds. */
  predicate AllSent(script: seq<Send>, ms: seq<seq<Byte>>)
    decreases |ms|
  {
    ms == [] || (Writes(script, |ms[0]|).ok && AllSent(Writes(script, |ms[0]|).later, ms[1..]))
  }

  // A send that goes on: interrupted, or it wrote something.
  ghost predicate NoFailure(script: seq<Send>) {
    forall i :: 0 <= i < |script| ==> script[i].SendInterrupted? || (script[i].Wrote? && script[i].k > 0)
  }

  lemma {:induction false} GoodWrites(script: seq<Send>, n: nat)
    requires NoFailure(script)
    ensures Writes(script, n).ok && NoFailure(Writes(script, n).later)
    decreases |script|
  {
    if n > 0 && script != [] {
      GoodWrites(script[1..], if script[0].Wrote? then n - Min(script[0].k, n) else n);
    }
  }

  /** When no send fails or writes nothing, however short they are and however often interrupted, everything is sent. */
  lemma {:induction false} GoodSendsSendAll(script: seq<Send>, ms: seq<seq<Byte>>)
    requires NoFailure(script)
    ensures AllSent(script, ms)
    decreases |ms|
  {
    if ms != [] {
      GoodWrites(script, |ms[0]|);
      GoodSendsSendAll(Writes(script, |ms[0]|).later, ms[1..]);
    }
  }

  lemma {:induction false} SentSnoc(script: seq<Send>, ms: seq<seq<Byte>>, m: seq<Byte>)
    ensures var w := Writes(Later(script, ms), |m|);
            Sent(script, ms + [m]) == Sent(script, ms) + m[..w.count] && Later(script, ms + [m]) == w.later
    decreases |ms|
  {
    if ms == [] {
      assert (ms + [m])[1..] == [];
      assert Sent(Writes(script, |m|).later, []) == [];
    } else {
      assert (ms + [m])[1..] == ms[1..] + [m];
      SentSnoc(Writes(script, |ms[0]|).later, ms[1..], m);
    }
  }

  datatype Entry = Entry(e: int, data: array<Byte>, len: nat)

  class Sender {
    const sink: Sink
    var full: seq<Entry>
    var empty: seq<int>

    constructor (sink: Sink, full: seq<Entry>, empty: seq<int>)
      ensures this.sink == sink && this.full == full && this.empty == empty
    {
      this.sink, this.full, this.empty := sink, full, empty;
    }

    static function Contents(es: seq<Entry>): (ms: seq<seq<Byte>>)
      requires forall i :: 0 <= i < |es| ==> es[i].len <= es[i].data.Length
      reads set i | 0 <= i < |es| :: es[i].data
      ensures |ms| == |es|
      ensures forall i :: 0 <= i < |es| ==> ms[i] == es[i].data[..es[i].len]
    {
      if es == [] then [] else [es[0].data[..es[0].len]] + Contents(es[1..])
    }

    // The first k entries of es are on the free list, the last of them in front.
    static ghost predicate Returned(es: seq<Entry>, k: int, before: seq<int>, now: seq<int>) {
      && 0 <= k <= |es| && |now| == k + |before|
      && (forall i :: 0 <= i < k ==> now[i] == es[k - 1 - i].e)
      && forall i :: 0 <= i < |before| ==> now[k + i] == before[i]
    }

    static lemma ReturnNext(es: seq<Entry>, k: nat, before: seq<int>, now: seq<int>)
      requires k < |es| && Returned(es, k, before, now)
      ensures Returned(es, k + 1, before, [es[k].e] + now)
    {
    }

    static lemma AllReturned(es: seq<Entry>, before: seq<int>, now: seq<int>)
      requires Returned(es, |es|, before, now)
      ensures |now| == |es| + |before|
      ensures forall i :: 0 <= i < |es| ==> now[i] == es[|es| - 1 - i].e
      ensures forall i :: 0 <= i < |before| ==> now[|es| + i] == before[i]
    {
    }

    static lemma NothingSent(script: seq<Send>, es: seq<Entry>, before: seq<int>)
      ensures Sent(script, []) == [] && Later(script, []) == script && Returned(es, 0, before, before)
    {
    }

    /** output_thread_loop, for as many messages as are on its full list. */
    method Drain()
      requires forall i :: 0 <= i < |full| ==> full[i].len <= full[i].data.Length
      modifies this, sink
      ensures full == [] && |empty| == |old(full)| + |old(empty)|
      ensures forall i :: 0 <= i < |old(full)| ==> empty[i] == old(full)[|old(full)| - 1 - i].e
      ensures forall i :: 0 <= i < |old(empty)| ==> empty[|old(full)| + i] == old(empty)[i]
      ensures sink.wire == old(sink.wire) + Sent(old(sink.script), old(Contents(full)))
      ensures sink.script == Later(old(sink.script), old(Contents(full)))
    {
      hide Contents, Sent, Later, Writes, Returned;
      ghost var ms := Contents(full);
      ghost var k := 0;
      NothingSent(sink.script, full, empty);
      ghost var was := full;
      while full != []
        invariant 0 <= k <= |was| && full == was[k..]
        invariant sink.wire == old(sink.wire) + Sent(old(sink.script), ms[..k])
        invariant sink.script == Later(old(sink.script), ms[..k])
        invariant Returned(was, k, old(empty), empty)
        decreases |full|
      {
        var qe := full[0];
        full := full[1..];
        SentSnoc(old(sink.script), ms[..k], ms[k]);
        assert ms[..k] + [ms[k]] == ms[..k + 1];
        var rc := sink.Writen(qe.data, qe.len);
        ReturnNext(was, k, old(empty), empty);
        empty := [qe.e] + empty;
        k := k + 1;
      }
      assert ms[..k] == ms;
      AllReturned(was, old(empty), empty);
    }
  }

  // ---------------------------------------------------------------------------------------
  // The stream that leaves.

  function Encoded(fs: seq<Frame>): (ms: seq<seq<Byte>>)
    requires AllValid(fs)
    ensures |ms| == |fs|
    ensures forall i :: 0 <= i < |fs| ==> ms[i] == EncodeFrame(fs[i])
  {
    seq(|fs|, i requires 0 <= i < |fs| => EncodeFrame(fs[i]))
  }

  // A failed send leaves the stream short.
  lemma {:induction false} SentOrShort(script: seq<Send>, fs: seq<Frame>)
    requires AllValid(fs)
    ensures AllSent(script, Encoded(fs)) ==> Sent(script, Encoded(fs)) == Wire(fs)
    ensures !AllSent(script, Encoded(fs)) ==> |Sent(script, Encoded(fs))| < |Wire(fs)|
    ensures |Sent(script, Encoded(fs))| <= |Wire(fs)|
    decreases |fs|
  {
    hide EncodeHeader;
    if fs != [] {
      var ms, w := Encoded(fs), Writes(script, |EncodeFrame(fs[0])|);
      assert ms[1..] == Encoded(fs[1..]);
      SentOrShort(w.later, fs[1..]);
    }
  }

  /** The receiver parses back exactly the frames that were sent if and only if every send succeeded. */
  lemma WireReadsBackIff(script: seq<Send>, fs: seq<Frame>)
    requires AllValid(fs)
    ensures Frames(Sent(script, Encoded(fs))) == fs <==> AllSent(script, Encoded(fs))
    ensures AllSent(script, Encoded(fs)) ==> Rest(Sent(script, Encoded(fs))) == []
  {
    hide EncodeHeader, DecodeHeader;
    var p := Sent(script, Encoded(fs));
    SentOrShort(script, fs);
    if AllSent(script, Encoded(fs)) {
      WireParses(fs);
    } else {
      FramesTile(p);
    }
  }

  /** Round trip: a connection that took the whole stream has looked up each frame's worker id and queue
      index, in order, and received each frame's body, intact wherever one read brought it. */
  lemma StreamRoundTrip(script: seq<Send>, fs: seq<Frame>, env: Env, calls: seq<Call>)
    requires AllValid(fs) && AllSent(script, Encoded(fs))
    requires CallsOk(env, calls) && RunCalls(NEWSESSION, env, calls).Some?
    requires RunCalls(NEWSESSION, env, calls).value.seen == Sent(script, Encoded(fs))
    ensures var se := RunCalls(NEWSESSION, env, calls).value;
            && se.b.n == 0 && se.b.msgcnt == |se.done| == |se.lookups| == |fs|
            && forall i :: 0 <= i < |fs| ==>
                 && se.lookups[i].0 == fs[i].hdr && Joined(se.done[i].chunks) == fs[i].body
                 && (se.done[i].slot.Some? && Busy(Overlay.Sizes(se.done[i].chunks)) <= 1 ==>
                       |fs[i].body| <= |se.done[i].data| && se.done[i].data[..|fs[i].body|] == fs[i].body)
  {
    hide EncodeHeader, DecodeHeader, RunCalls, Wire;
    WireReadsBackIff(script, fs);
    FollowsOneShot(env, calls);
    var se := RunCalls(NEWSESSION, env, calls).value;
    forall i | 0 <= i < |fs| && se.done[i].slot.Some? && Busy(Overlay.Sizes(se.done[i].chunks)) <= 1
      ensures |fs[i].body| <= |se.done[i].data| && se.done[i].data[..|fs[i].body|] == fs[i].body
    {
      OneReadDelivers(env, calls, i);
    }
  }
}
