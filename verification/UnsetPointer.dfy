// What input_serveConnection does when the lookup answers Q_BADQIDX (input.c, worker.c): the entry pointer stays
// unset, and unless it happens to be null the code reads the body through it and, when the body is complete, dies in
// the assertion of worker_putBackQueueEntry.
module UnsetPointer {
  import opened Common
  import opened Bytes
  import opened Framing
  import opened Net
  import opened Input
  import opened InputRuns
  import D = Delivery

  // A connection whose message under way may be one with an unset entry pointer.
  datatype Conn = Conn(b: Buffer, stray: bool)

  const NEWCONN := Conn(NEWBUFFER, false)

  // After a call: the process aborted as it should, or the connection goes on, or the call did harm: it stored body
  // bytes through the unset pointer or died releasing the message.
  datatype After = Gone | On(conn: Conn) | Harm

  // The body of a message with an unset entry pointer.
  function StrayBody(b: Buffer, script: seq<Recv>, incoming: seq<Byte>): After
    requires Sized(b) && b.n >= HDRLEN
  {
    var want := DecodeHeader(b.hdr).datalen - (b.n - HDRLEN);
    var r := Reads(script, |incoming|, want);
    if want == 0 || r.count > 0 then Harm
    else if r.ok then On(Conn(b, true))
    else Gone
  }

  // The header that these bytes complete, if they do.
  function Completed(b: Buffer, got: seq<Byte>): Option<Header>
    requires |b.hdr| == HDRLEN && (b.n < HDRLEN ==> b.n + |got| <= HDRLEN)
  {
    var b1 := WithHeader(b, got);
    if b.n < HDRLEN && b1.n == HDRLEN then Some(DecodeHeader(b1.hdr)) else None
  }

  /** One call as written. */
  function CallWritten(env: Env, ls: Lists, conn: Conn, script: seq<Recv>, incoming: seq<Byte>): After
    requires Sized(conn.b) && Complete(env, ls) && (conn.stray ==> conn.b.n >= HDRLEN)
  {
    if conn.stray then StrayBody(conn.b, script, incoming)
    else
      var pl := ServePlan(env, ls, conn.b, script, incoming);
      var h := Completed(conn.b, incoming[..pl.head]);
      if pl.ok then On(Conn(ServeStep(Snap(conn.b, ls), env, incoming, pl).b, false))
      else if h.Some? && Strays(env, Find(env, ls, h.value)) && h.value.datalen <= MAX_BODY then
        StrayBody(WithHeader(conn.b, incoming[..pl.head]),
                  Reads(script, |incoming|, HDRLEN - conn.b.n).later, incoming[pl.head..])
      else Gone
  }

  /** Some call of the run does harm. */
  ghost predicate RunHarms(env: Env, conn: Conn, calls: seq<Call>)
    requires CallsOk(env, calls)
    decreases |calls|
  {
    calls != [] && Sized(conn.b) && (conn.stray ==> conn.b.n >= HDRLEN) &&
    match CallWritten(env, calls[0].ls, conn, calls[0].script, calls[0].incoming)
    case Gone => false
    case Harm => true
    case On(conn') => RunHarms(env, conn', calls[1..])
  }

  /** The index a header names is none of its worker's, and the worker exists. */
  predicate BadIndex(env: Env, h: Header) {
    h.wid in env.max && !(0 <= h.qidx < |env.max[h.wid]|)
  }

  lemma BadIndexIs(env: Env, ls: Lists, h: Header)
    requires Complete(env, ls)
    ensures Find(env, ls, h).BadQidx? <==> BadIndex(env, h)
  {
  }

  // ---------------------------------------------------------------------------------------
  // The exact condition.

  // Lists for every queue there is.
  ghost function AllQueues(env: Env): set<QueueId> {
    set wid, q | wid in env.max && 0 <= q < |env.max[wid]| :: QueueId(wid, q)
  }

  ghost function NoEntries(env: Env): Lists {
    Lists(map id | id in AllQueues(env) :: [], map id | id in AllQueues(env) :: [], map[],
          map wid | wid in env.max :: 0)
  }

  lemma NoEntriesComplete(env: Env)
    ensures Complete(env, NoEntries(env))
  {
    forall id | Known(env, id)
      ensures id in AllQueues(env)
    {
    }
  }

  // One call in which the header and the whole body arrive.
  ghost function WholeCall(env: Env, h: Header, body: seq<Byte>): Call
    requires ValidHeader(h)
  {
    Call([Data(HDRLEN), Data(|body|)], EncodeHeader(h) + body, NoEntries(env), map[])
  }

  // What the call reads of its header.
  lemma WholeRead(env: Env, h: Header, body: seq<Byte>)
    requires ValidHeader(h) && h.datalen == |body| <= MAX_BODY
    ensures CallsOk(env, [WholeCall(env, h, body)])
    ensures var c := WholeCall(env, h, body);
            && Reads(c.script, |c.incoming|, HDRLEN) == Outcome(HDRLEN, [Data(|body|)], true)
            && WithHeader(NEWBUFFER, c.incoming[..HDRLEN]) == Buffer(HDRLEN, EncodeHeader(h), None, 0)
            && DecodeHeader(EncodeHeader(h)) == h && c.incoming[HDRLEN..] == body
            && Reads([Data(|body|)], |body|, |body|).count == |body|
  {
    hide EncodeHeader, DecodeHeader, Find;
    NoEntriesComplete(env);
    var c := WholeCall(env, h, body);
    assert c.script[1..] == [Data(|body|)];
    assert Reads(c.script[1..], |c.incoming| - HDRLEN, 0) == Outcome(0, c.script[1..], true);
    assert c.incoming[..HDRLEN] == EncodeHeader(h);
    DecodeEncode(h);
    assert WithHeader(NEWBUFFER, c.incoming[..HDRLEN]).hdr == EncodeHeader(h);
    assert [Data(|body|)][1..] == [];
  }

  /** Any client can do it: a message does harm exactly when its header names a known worker and an index that is none
      of its queues, and the unset pointer is not null. */
  lemma BadHeaderHarmsIff(env: Env, h: Header, body: seq<Byte>)
    requires ValidHeader(h) && h.datalen == |body| <= MAX_BODY
    ensures CallsOk(env, [WholeCall(env, h, body)])
    ensures RunHarms(env, NEWCONN, [WholeCall(env, h, body)]) <==>
              h.wid in env.max && !(0 <= h.qidx < |env.max[h.wid]|) && env.unset != Null
  {
    hide EncodeHeader, DecodeHeader, Find, WithHeader, Reads, ServeStep;
    NoEntriesComplete(env);
    WholeRead(env, h, body);
    var c := WholeCall(env, h, body);
    BadIndexIs(env, c.ls, h);
    assert [c][0] == c && [c][1..] == [];
  }

  // Without an unset pointer or a worker nothing strays.
  lemma {:induction false} NoStrayNoHarm(env: Env, conn: Conn, calls: seq<Call>)
    requires CallsOk(env, calls) && !conn.stray && (env.unset == Null || env.max == map[])
    ensures !RunHarms(env, conn, calls)
    decreases |calls|
  {
    hide DecodeHeader, ServePlan, ServeStep;
    if calls != [] && Sized(conn.b) {
      var after := CallWritten(env, calls[0].ls, conn, calls[0].script, calls[0].incoming);
      if after.On? {
        NoStrayNoHarm(env, after.conn, calls[1..]);
      }
    }
  }

  /** No call of any connection ever does harm. */
  ghost predicate AlwaysHarmless(env: Env) {
    forall calls :: CallsOk(env, calls) ==> !RunHarms(env, NEWCONN, calls)
  }

  lemma SomeWorker(m: map<int, seq<nat>>) returns (wid: int)
    requires m != map[]
    ensures wid in m
  {
    EmptyIffNoKey(m);
    wid :| wid in m;
  }

  lemma EmptyIffNoKey(m: map<int, seq<nat>>)
    ensures m == map[] <==> forall wid :: wid !in m
  {
    if forall wid :: wid !in m {
      assert m == map[];
    }
  }

  /** That is so exactly when the unset pointer happens to be null or there is no worker at all. */
  lemma HarmlessIff(env: Env)
    requires forall wid :: wid in env.max ==> IsInt16(wid)
    ensures AlwaysHarmless(env) <==> env.unset == Null || env.max == map[]
  {
    if env.unset == Null || env.max == map[] {
      forall calls | CallsOk(env, calls)
        ensures !RunHarms(env, NEWCONN, calls)
      {
        NoStrayNoHarm(env, NEWCONN, calls);
      }
    } else {
      var wid := SomeWorker(env.max);
      BadHeaderHarmsIff(env, Header(wid, -1, 0), []);
      assert RunHarms(env, NEWCONN, [WholeCall(env, Header(wid, -1, 0), [])]);
    }
  }

  // ---------------------------------------------------------------------------------------
  // The run up to there.

  // The connection of a session, as written.
  function ConnOf(se: Session): Conn { Conn(se.b, false) }

  /** As long as no header with a bad index is complete, or the unset pointer is null, the code as written is the
      session the run theorems are about, call by call. */
  lemma WrittenIsSession(env: Env, se: Session, c: Call)
    requires CallOk(env, c) && Sized(se.b) && Next(se, env, c).Some?
    ensures CallWritten(env, c.ls, ConnOf(se), c.script, c.incoming) == On(ConnOf(Next(se, env, c).value))
  {
    hide DecodeHeader, Reads, Find;
  }

  // The bytes of the header a call completes, after those the connection has.
  function HeaderBytesTaken(env: Env, se: Session, c: Call): seq<Byte>
    requires Sized(se.b) && Complete(env, c.ls)
  {
    c.incoming[..ServePlan(env, c.ls, se.b, c.script, c.incoming).head]
  }

  /** And the first call that strays does so at a frame boundary of the stream, where the next header names a bad
      index. */
  lemma StraysInSync(env: Env, se: Session, c: Call)
    requires SessionOk(se) && CallOk(env, c) && Sized(se.b) && Next(se, env, c) == None
    requires CallWritten(env, c.ls, ConnOf(se), c.script, c.incoming) != Gone
    ensures var x := Framing.Rest(se.seen) + HeaderBytesTaken(env, se, c);
            && AllValid(Frames(se.seen)) && Wire(Frames(se.seen)) + x == se.seen + HeaderBytesTaken(env, se, c)
            && |x| == HDRLEN && BadIndex(env, DecodeHeader(x)) && env.unset != Null
  {
    hide Reads, Find, Splice, DecodeHeader;
    var head := HeaderBytesTaken(env, se, c);
    SessionInSync(se);
    FramesTile(se.seen);
    var whole, rest := Wire(Frames(se.seen)), Framing.Rest(se.seen);
    assert whole + (rest + head) == (whole + rest) + head;
    HeaderGrows(se.b, se.seen, head, []);
    assert head + [] == head;
    var x := Framing.Rest(se.seen) + head;
    assert x[..HDRLEN] == x;
    BadIndexIs(env, c.ls, DecodeHeader(x));
  }

  // Call c is the first to stray: its header bytes complete a header with a bad index.
  ghost predicate StraysAt(env: Env, se: Session, c: Call)
    requires CallOk(env, c) && Sized(se.b)
  {
    var x := Framing.Rest(se.seen) + HeaderBytesTaken(env, se, c);
    |x| == HDRLEN && BadIndex(env, DecodeHeader(x)) && env.unset != Null
  }

  /** Every run that does harm is a run of the session the theorems are about up to a call that completes a header with
      a bad index. */
  lemma {:induction false} HarmNeedsBadHeader(env: Env, se: Session, calls: seq<Call>) returns (k: nat)
    requires SessionOk(se) && CallsOk(env, calls) && RunHarms(env, ConnOf(se), calls)
    ensures k < |calls| && CallsOk(env, calls[..k]) && RunCalls(se, env, calls[..k]).Some?
    ensures var se' := RunCalls(se, env, calls[..k]).value;
            CallOk(env, calls[k]) && Sized(se'.b) && StraysAt(env, se', calls[k])
    decreases |calls|
  {
    hide Next, SessionOk, CallWritten, BadIndex, HeaderBytesTaken, DecodeHeader;
    NextKeeps(se, env, calls[0]);
    if Next(se, env, calls[0]) == None {
      k := 0;
      assert calls[..0] == [];
      StraysInSync(env, se, calls[0]);
    } else {
      WrittenIsSession(env, se, calls[0]);
      var j := HarmNeedsBadHeader(env, Next(se, env, calls[0]).value, calls[1..]);
      k := j + 1;
      assert calls[..k][1..] == calls[1..][..j] && calls[..k][0] == calls[0];
    }
  }

  // ---------------------------------------------------------------------------------------
  // What the stored bytes hit.

  /** Body bytes go to the start of whatever entry the pointer happens to point to, if they fit there. */
  function StrayStore(env: Env, data: map<Slot, seq<Byte>>, got: seq<Byte>): map<Slot, seq<Byte>> {
    if env.unset.Points? && env.unset.slot in data then
      data[env.unset.slot := Overwrite(data[env.unset.slot], got)]
    else data
  }

  /** A message on its way to a worker in that entry keeps its bytes exactly when the stray ones are the same. */
  lemma StrayCorruptsIff(env: Env, ls: Lists, data: map<Slot, seq<Byte>>, m: Message, got: seq<Byte>)
    requires env.unset.Points? && D.Carries(ls, data, env.unset.slot, m) && |got| <= |m.data|
    ensures D.Carries(ls, StrayStore(env, data, got), env.unset.slot, m) <==> m.data[..|got|] == got
  {
    assert Overwrite(m.data, got)[..|got|] == got;
  }
}
