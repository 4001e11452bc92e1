// Bodies that arrive in pieces, through whole runs of input_serveConnection: for any way of cutting a body into
// reads there are calls that read it so, and it is released intact exactly when at most one read brought data.
module SplitBodies {
  import opened Common
  import opened Bytes
  import opened Framing
  import opened Net
  import opened Overlay
  import opened Input
  import opened InputRuns

  // One worker with one queue, whose single entry is free and holds n zeros.
  const QUEUE := QueueId(0, 0)
  const SLOT := Slot(QUEUE, 0)

  function OneQueue(n: nat): Env { Env(map[0 := [n]], Null, 0) }

  function OneEntry(): Lists { Lists(map[QUEUE := [0]], map[QUEUE := []], map[SLOT := 0], map[0 := 0]) }

  function Blank(n: nat): map<Slot, seq<Byte>> { map[SLOT := seq(n, _ => 0)] }

  function HeaderFor(n: nat): Header { Header(0, 0, n) }

  // A call in which the header, or none, and then one piece of the body arrive, and no more for now.
  function FirstCall(n: nat, piece: seq<Byte>): Call
    requires n <= MAX_BODY
  {
    Call([Data(HDRLEN), Data(n), Again], EncodeHeader(HeaderFor(n)) + piece, OneEntry(), Blank(n))
  }

  function NextCall(n: nat, piece: seq<Byte>): Call {
    Call([Data(n), Again], piece, OneEntry(), Blank(n))
  }

  function NextCalls(n: nat, ps: seq<seq<Byte>>): seq<Call> {
    if ps == [] then [] else [NextCall(n, ps[0])] + NextCalls(n, ps[1..])
  }

  function Left(ps: seq<seq<Byte>>): nat {
    if ps == [] then 0 else |ps[0]| + Left(ps[1..])
  }

  lemma {:induction false} NextCallsOk(n: nat, ps: seq<seq<Byte>>)
    ensures CallsOk(OneQueue(n), NextCalls(n, ps))
  {
    if ps != [] {
      NextCallsOk(n, ps[1..]);
    }
  }

  // What the recvs of such a call give.
  lemma PieceRead(n: nat, piece: seq<Byte>, want: nat)
    requires |piece| <= want <= n
    ensures Reads([Data(n), Again], |piece|, want).count == |piece| && Reads([Data(n), Again], |piece|, want).ok
  {
    assert [Data(n), Again][1..] == [Again];
  }

  // The message is under way: its header and the pieces so far are there.
  ghost predicate Midway(se: Session, n: nat, x: seq<Byte>, chunks: seq<seq<Byte>>) {
    && SessionOk(se) && Framing.Rest(se.seen) == x && HasHeader(x) && HeaderOf(x) == HeaderFor(n)
    && se.done == [] && se.b.slot == Some(SLOT) && se.current.slot == Some(SLOT) && se.current.chunks == chunks
  }

  // One more piece.
  lemma PieceArrives(se: Session, n: nat, x: seq<Byte>, chunks: seq<seq<Byte>>, piece: seq<Byte>)
    requires n <= MAX_BODY && Midway(se, n, x, chunks) && |x| + |piece| <= HDRLEN + n
    ensures CallOk(OneQueue(n), NextCall(n, piece)) && Sized(se.b) && Next(se, OneQueue(n), NextCall(n, piece)).Some?
    ensures var se' := Next(se, OneQueue(n), NextCall(n, piece)).value;
            if |x| + |piece| == HDRLEN + n then
              && |se'.done| == 1 && se'.done[0].slot == Some(SLOT)
              && se'.done[0].chunks == chunks + [piece] && SessionOk(se')
            else
              Midway(se', n, x + piece, chunks + [piece])
  {
    hide DecodeHeader, Next, Find;
    var c := NextCall(n, piece);
    SessionInSync(se);
    InSyncSized(se.b, se.seen);
    PieceRead(n, piece, HDRLEN + n - |x|);
    var r := ReadingOf(OneQueue(n), c.ls, se.b, c.script, c.incoming);
    assert r.head == [] && r.body == piece;
    SurvivingCallKeeps(se, OneQueue(n), c);
    NextIs(se, OneQueue(n), c);
    assert r.head + r.body == piece;
    TailParses(se.seen, piece);
    HeadStable(x, piece);
  }

  // All remaining pieces, the last of which is not empty.
  lemma {:induction false} PiecesArrive(se: Session, n: nat, x: seq<Byte>, chunks: seq<seq<Byte>>, ps: seq<seq<Byte>>)
    requires n <= MAX_BODY && Midway(se, n, x, chunks) && ps != [] && ps[|ps| - 1] != [] && |x| + Left(ps) == HDRLEN + n
    ensures CallsOk(OneQueue(n), NextCalls(n, ps))
    ensures RunCalls(se, OneQueue(n), NextCalls(n, ps)).Some?
    ensures Delivered(RunCalls(se, OneQueue(n), NextCalls(n, ps)).value, chunks + ps)
    decreases |ps|
  {
    hide Next, Midway, SessionOk;
    NextCallsOk(n, ps);
    PieceArrives(se, n, x, chunks, ps[0]);
    var se' := Next(se, OneQueue(n), NextCall(n, ps[0])).value;
    MidwayShort(se, n, x, chunks);
    if |ps| == 1 {
      assert ps[1..] == [] && chunks + ps == chunks + [ps[0]];
    } else {
      LeftPositive(ps[1..]);
      assert (chunks + [ps[0]]) + ps[1..] == chunks + ps;
      PiecesArrive(se', n, x + ps[0], chunks + [ps[0]], ps[1..]);
    }
    assert NextCalls(n, ps)[1..] == NextCalls(n, ps[1..]);
  }

  lemma MidwayShort(se: Session, n: nat, x: seq<Byte>, chunks: seq<seq<Byte>>)
    requires Midway(se, n, x, chunks)
    ensures HasHeader(x)
  {
  }

  lemma {:induction false} LeftPositive(ps: seq<seq<Byte>>)
    requires ps != [] && ps[|ps| - 1] != []
    ensures Left(ps) > 0
  {
    if |ps| > 1 {
      LeftPositive(ps[1..]);
    }
  }

  // One message has been released, made of these chunks.
  ghost predicate Delivered(se: Session, chunks: seq<seq<Byte>>) {
    SessionOk(se) && |se.done| == 1 && se.done[0].slot == Some(SLOT) && se.done[0].chunks == chunks
  }

  lemma FirstCallOk(n: nat, piece: seq<Byte>)
    requires n <= MAX_BODY
    ensures CallOk(OneQueue(n), FirstCall(n, piece))
    ensures Find(OneQueue(n), OneEntry(), HeaderFor(n)) == Found(SLOT)
  {
  }

  lemma FirstRead(n: nat, piece: seq<Byte>)
    requires |piece| <= n <= MAX_BODY
    ensures var c := FirstCall(n, piece);
            && ServePlan(OneQueue(n), OneEntry(), NEWBUFFER, c.script, c.incoming) == Plan(HDRLEN, true, |piece|, true)
            && ReadingOf(OneQueue(n), OneEntry(), NEWBUFFER, c.script, c.incoming) ==
                 Reading(EncodeHeader(HeaderFor(n)), piece)
  {
    hide EncodeHeader, DecodeHeader;
    var c := FirstCall(n, piece);
    assert c.script[1..] == [Data(n), Again];
    var r := Reads(c.script, |c.incoming|, HDRLEN);
    assert Reads(c.script[1..], |c.incoming| - HDRLEN, 0) == Outcome(0, c.script[1..], true);
    assert r == Outcome(HDRLEN, [Data(n), Again], true);
    assert c.incoming[..HDRLEN] == EncodeHeader(HeaderFor(n));
    DecodeEncode(HeaderFor(n));
    assert WithHeader(NEWBUFFER, c.incoming[..HDRLEN]).hdr == EncodeHeader(HeaderFor(n));
    PieceRead(n, piece, n);
    assert c.incoming[HDRLEN..HDRLEN + |piece|] == piece;
  }

  // The header and the first piece arrive on a new connection.
  lemma FirstArrives(n: nat, piece: seq<Byte>)
    requires |piece| <= n <= MAX_BODY
    ensures CallOk(OneQueue(n), FirstCall(n, piece)) && Next(NEWSESSION, OneQueue(n), FirstCall(n, piece)).Some?
    ensures var se' := Next(NEWSESSION, OneQueue(n), FirstCall(n, piece)).value;
            if |piece| == n then Delivered(se', [piece])
            else Midway(se', n, EncodeHeader(HeaderFor(n)) + piece, [piece])
  {
    hide EncodeHeader, DecodeHeader, Next, Find, ServePlan, Reads;
    var c := FirstCall(n, piece);
    NewSessionOk();
    FirstCallOk(n, piece);
    FirstRead(n, piece);
    SurvivingCallKeeps(NEWSESSION, OneQueue(n), c);
    NextIs(NEWSESSION, OneQueue(n), c);
    assert !HasFrame([]);
    assert Framing.Rest([]) == [];
    var x := EncodeHeader(HeaderFor(n)) + piece;
    assert [] + x == x;
    TailParses([], x);
    assert x[..HDRLEN] == EncodeHeader(HeaderFor(n));
    DecodeEncode(HeaderFor(n));
  }

  /** Any cut of a body whose last piece is not empty is how some calls read it. */
  lemma CutIsRead(n: nat, ps: seq<seq<Byte>>) returns (calls: seq<Call>)
    requires ps != [] && Left(ps) == n <= MAX_BODY && (|ps| == 1 || ps[|ps| - 1] != [])
    ensures CallsOk(OneQueue(n), calls) && RunCalls(NEWSESSION, OneQueue(n), calls).Some?
    ensures Delivered(RunCalls(NEWSESSION, OneQueue(n), calls).value, ps)
  {
    hide Next, Midway, Delivered, EncodeHeader;
    calls := [FirstCall(n, ps[0])] + NextCalls(n, ps[1..]);
    FirstArrives(n, ps[0]);
    assert calls[1..] == NextCalls(n, ps[1..]);
    assert Sized(NEWSESSION.b);
    var se := Next(NEWSESSION, OneQueue(n), FirstCall(n, ps[0])).value;
    NextCallsOk(n, ps[1..]);
    if |ps| == 1 {
      assert ps == [ps[0]] && ps[1..] == [];
      assert RunCalls(se, OneQueue(n), calls[1..]) == Some(se);
    } else {
      LeftPositive(ps[1..]);
      PiecesArrive(se, n, EncodeHeader(HeaderFor(n)) + ps[0], [ps[0]], ps[1..]);
      assert [ps[0]] + ps[1..] == ps;
    }
  }

  lemma {:induction false} LeftJoined(ps: seq<seq<Byte>>)
    ensures Left(ps) == |Joined(ps)|
    decreases |ps|
  {
    if ps != [] {
      var k := |ps| - 1;
      LeftJoined(ps[..k]);
      LeftSnoc(ps[..k], ps[k]);
      assert ps[..k] + [ps[k]] == ps;
    }
  }

  lemma {:induction false} LeftSnoc(ps: seq<seq<Byte>>, p: seq<Byte>)
    ensures Left(ps + [p]) == Left(ps) + |p|
  {
    if ps != [] {
      assert (ps + [p])[1..] == ps[1..] + [p];
      LeftSnoc(ps[1..], p);
    } else {
      assert (ps + [p])[1..] == [];
    }
  }

  // ---------------------------------------------------------------------------------------
  // Whole runs.

  // Message i of a connection came in reads of these env.
  ghost predicate CameIn(se: Session, i: nat, sz: seq<nat>) {
    i < |se.done| && se.done[i].slot.Some? && Overlay.Sizes(se.done[i].chunks) == sz
  }

  ghost predicate ReleasedIntact(se: Session, i: nat) {
    && i < |se.done| && i < |Frames(se.seen)| && |Frames(se.seen)[i].body| <= |se.done[i].data|
    && se.done[i].data[..|Frames(se.seen)[i].body|] == Frames(se.seen)[i].body
  }

  ghost predicate IntactIn(env: Env, calls: seq<Call>, i: nat, sz: seq<nat>) {
    CallsOk(env, calls) && RunCalls(NEWSESSION, env, calls).Some?
      && CameIn(RunCalls(NEWSESSION, env, calls).value, i, sz)
    ==> ReleasedIntact(RunCalls(NEWSESSION, env, calls).value, i)
  }

  /** Every admitted message, on every connection, that comes in reads of these env is released with its body. */
  ghost predicate AlwaysIntact(sz: seq<nat>) {
    forall env, calls, i :: IntactIn(env, calls, i, sz)
  }

  lemma DeliveredIs(se: Session, ps: seq<seq<Byte>>)
    requires Delivered(se, ps)
    ensures |Frames(se.seen)| == 1 && Frames(se.seen)[0].body == Joined(ps)
    ensures var m := se.done[0];
            |Joined(ps)| <= |m.before| && Fits(m.before, ps) && m.data == Stored(m.before, ps)
  {
    hide DecodeHeader;
    assert MessageOk(se.done[0], se.lookups[0].1, |Frames(se.seen)[0].body|, Frames(se.seen)[0].body);
  }

  // A message whose first byte is 1 and whose others are 0 loses the 1.
  lemma MarkOverwritten(se: Session, sz: seq<nat>)
    requires Busy(sz) >= 2 && Delivered(se, Cut(Marked(Total(sz)), sz))
    ensures !ReleasedIntact(se, 0) && CameIn(se, 0, sz)
  {
    hide SessionOk, Stored, Cut, Joined, Busy, Total;
    var n := Total(sz);
    var ps := Cut(Marked(n), sz);
    CutSizes(Marked(n), sz);
    DeliveredIs(se, ps);
    MarkStored(se.done[0].before, n, sz);
    assert Overlay.Sizes(ps) == sz;
  }

  lemma MarkLost(sz: seq<nat>)
    requires sz != [] && (|sz| == 1 || sz[|sz| - 1] > 0) && Total(sz) <= MAX_BODY && Busy(sz) >= 2
    ensures !AlwaysIntact(sz)
  {
    var n := Total(sz);
    MarkedEnds(sz);
    hide RunCalls, SessionOk, Delivered, CameIn, ReleasedIntact, Cut, Left, Joined, Total, Busy, Marked;
    MarkedSize(n);
    var ps := Cut(Marked(n), sz);
    CutSizes(Marked(n), sz);
    LeftJoined(ps);
    var calls := CutIsRead(n, ps);
    MarkOverwritten(RunCalls(NEWSESSION, OneQueue(n), calls).value, sz);
    assert !IntactIn(OneQueue(n), calls, 0, sz);
  }

  // The last piece is not empty if the last read was not.
  lemma MarkedEnds(sz: seq<nat>)
    requires sz != [] && (|sz| == 1 || sz[|sz| - 1] > 0)
    ensures var ps := Cut(Marked(Total(sz)), sz); |ps| == 1 || ps[|ps| - 1] != []
  {
    CutSizes(Marked(Total(sz)), sz);
  }

  lemma MarkedSize(n: nat)
    ensures |Marked(n)| == n
  {
  }

  /** In every run of every connection, messages that come in reads of the given env are released intact if and only
      if at most one of the reads brought data.  The env are those of any message: the last read completes it. */
  lemma AlwaysIntactIff(sz: seq<nat>)
    requires sz != [] && (|sz| == 1 || sz[|sz| - 1] > 0) && Total(sz) <= MAX_BODY
    ensures AlwaysIntact(sz) <==> Busy(sz) <= 1
  {
    hide RunCalls, Frames;
    if Busy(sz) <= 1 {
      forall env, calls, i
        ensures IntactIn(env, calls, i, sz)
      {
        if CallsOk(env, calls) && RunCalls(NEWSESSION, env, calls).Some?
           && CameIn(RunCalls(NEWSESSION, env, calls).value, i, sz) {
          OneReadDelivers(env, calls, i);
        }
      }
    } else {
      MarkLost(sz);
    }
  }
}
