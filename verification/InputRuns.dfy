// What a connection does over any sequence of calls of input_serveConnection: the framing is that of
// the one-shot parser, whatever the chunks and whatever the admissions.
module InputRuns {
  import opened Common
  import opened Bytes
  import opened Framing
  import opened Net
  import opened Overlay
  import opened Input

  // Header bytes not yet received are zero.
  function HeaderImage(cur: seq<Byte>): (b: seq<Byte>)
    ensures |b| == HDRLEN
  {
    if |cur| >= HDRLEN then cur[..HDRLEN] else cur + seq(HDRLEN - |cur|, _ => 0)
  }

  /** The buffer holds what the one-shot parser leaves over of the bytes seen, and has counted its frames. */
  ghost predicate InSync(b: Buffer, seen: seq<Byte>) {
    && b.n == |Rest(seen)| && b.msgcnt == |Frames(seen)|
    && b.hdr == HeaderImage(Rest(seen)) && !TooLong(Rest(seen))
    && (b.n < HDRLEN ==> b.slot == None)
  }

  lemma InSyncSized(b: Buffer, seen: seq<Byte>)
    requires InSync(b, seen)
    ensures Sized(b)
    ensures b.n >= HDRLEN ==> HasHeader(Rest(seen)) && HeaderOf(Rest(seen)) == DecodeHeader(b.hdr)
  {
    RestIncomplete(seen);
  }

  // One call: the recvs to come, the bytes on their way, and the lists and entries as they are then.
  datatype Call = Call(script: seq<Recv>, incoming: seq<Byte>, ls: Lists, data: map<Slot, seq<Byte>>)

  // Every entry on a free list exists and has the size of its queue.
  ghost predicate CallOk(env: Env, c: Call) {
    && Complete(env, c.ls)
    && forall id, i :: Known(env, id) && 0 <= i < |c.ls.empty[id]| ==>
         Slot(id, c.ls.empty[id][i]) in c.data && |c.data[Slot(id, c.ls.empty[id][i])]| == env.max[id.wid][id.q]
  }

  // A completed message: the entry it went to, what the entry held when it was reserved, the reads
  // that brought the body, and what the entry holds at the release.
  datatype Message = Message(slot: Option<Slot>, before: seq<Byte>, chunks: seq<seq<Byte>>, data: seq<Byte>)

  datatype Session = Session(
    b: Buffer,
    seen: seq<Byte>,                     // all bytes taken from the socket
    lookups: seq<(Header, FindRC<Slot>)>,      // every header looked up, with the answer
    current: Message,                    // the message under way, once its header is complete
    done: seq<Message>)

  const NOMESSAGE := Message(None, [], [], [])

  const NEWSESSION := Session(NEWBUFFER, [], [], NOMESSAGE, [])

  // The message after the call's header bytes: a fresh one if the header was completed.
  ghost function Opened(m: Message, rc: Option<FindRC<Slot>>, data: map<Slot, seq<Byte>>): Message {
    if rc == None then m
    else
      var d := if rc.value.Found? && rc.value.slot in data then data[rc.value.slot] else [];
      Message(SlotOf(rc.value), d, [], d)
  }

  function Extended(m: Message, got: seq<Byte>): Message {
    m.(chunks := m.chunks + [got], data := Overwrite(m.data, got))
  }

  /** The session after one more call; None when the process aborts in it. */
  ghost function Next(se: Session, env: Env, c: Call): Option<Session>
    requires Sized(se.b) && CallOk(env, c)
  {
    var pl := ServePlan(env, c.ls, se.b, c.script, c.incoming);
    if !pl.ok then None else
    var head, body := c.incoming[..pl.head], c.incoming[pl.head..pl.head + pl.body];
    var s' := ServeStep(Snap(se.b, c.ls), env, c.incoming, pl);
    var rc := Lookup(se.b, head, env, c.ls);
    var m0 := Opened(se.current, rc, c.data);
    var m := if pl.reached then Extended(m0, body) else m0;
    var lookups := if rc == None then se.lookups
                   else se.lookups + [(DecodeHeader(WithHeader(se.b, head).hdr), rc.value)];
    if s'.b.msgcnt == se.b.msgcnt then Some(Session(s'.b, se.seen + (head + body), lookups, m, se.done))
    else Some(Session(s'.b, se.seen + (head + body), lookups, NOMESSAGE, se.done + [m]))
  }

  // A message whose body is `body` so far.
  ghost predicate MessageOk(m: Message, rc: FindRC<Slot>, len: nat, body: seq<Byte>) {
    && m.slot == SlotOf(rc) && Joined(m.chunks) == body
    && (rc.Found? ==>
         len <= |m.before| && |body| <= len && Fits(m.before, m.chunks) && m.data == Stored(m.before, m.chunks))
  }

  // Finished messages, frame by frame.
  ghost predicate DoneOk(fs: seq<Frame>, lookups: seq<(Header, FindRC<Slot>)>, done: seq<Message>) {
    && |done| == |fs| <= |lookups|
    && forall i :: 0 <= i < |fs| ==>
         lookups[i].0 == fs[i].hdr && MessageOk(done[i], lookups[i].1, |fs[i].body|, fs[i].body)
  }

  // The message under way, whose bytes so far are rest.
  ghost predicate UnderWay(rest: seq<Byte>, last: (Header, FindRC<Slot>), slot: Option<Slot>, m: Message)
    requires HasHeader(rest)
  {
    last.0 == HeaderOf(rest) && slot == SlotOf(last.1) && MessageOk(m, last.1, HeaderOf(rest).datalen, rest[HDRLEN..])
  }

  /** Buffer, lookups and messages are those of the one-shot parse of all bytes seen. */
  ghost predicate SessionOk(se: Session) {
    var fs, rest := Frames(se.seen), Rest(se.seen);
    && InSync(se.b, se.seen)
    && |se.lookups| == |fs| + (if HasHeader(rest) then 1 else 0)
    && DoneOk(fs, se.lookups, se.done)
    && (if HasHeader(rest) then UnderWay(rest, se.lookups[|fs|], se.b.slot, se.current) else se.current == NOMESSAGE)
  }

  // ---------------------------------------------------------------------------------------
  // One call.

  // The header bytes in the buffer after the call's header phase are those of the longer stream.
  lemma HeaderGrows(b: Buffer, seen: seq<Byte>, head: seq<Byte>, body: seq<Byte>)
    requires InSync(b, seen)
    requires b.n < HDRLEN ==> b.n + |head| <= HDRLEN && (body != [] ==> b.n + |head| == HDRLEN)
    requires b.n >= HDRLEN ==> head == []
    ensures WithHeader(b, head).hdr == HeaderImage(Rest(seen) + (head + body))
    ensures b.n + |head| >= HDRLEN ==>
              HasHeader(Rest(seen) + (head + body)) && HeaderOf(Rest(seen) + (head + body)) ==
                DecodeHeader(WithHeader(b, head).hdr)
  {
    var rest := Rest(seen);
    var x := rest + (head + body);
    assert x[..|rest|] == rest;
    if b.n < HDRLEN {
      assert WithHeader(b, head).hdr == Splice(HeaderImage(rest), |rest|, head);
    }
  }

  // What the one-shot parser makes of the stream after the call, given the unfinished tail x.
  lemma TailParses(seen: seq<Byte>, got: seq<Byte>)
    ensures var x := Rest(seen) + got;
            && (!HasFrame(x) ==> Frames(seen + got) == Frames(seen) && Rest(seen + got) == x)
            && (HasFrame(x) && FirstLen(x) == |x| ==>
                 Frames(seen + got) == Frames(seen) + [FirstFrame(x)] && Rest(seen + got) == [])
  {
    var x := Rest(seen) + got;
    ParseAppend(seen, got);
    if HasFrame(x) && FirstLen(x) == |x| {
      assert x[FirstLen(x)..] == [];
      assert !HasFrame([]);
      assert Frames(x) == [FirstFrame(x)] + Frames([]);
    }
  }

  // A header completed in a call opens a message with no body yet.
  lemma MessageOpens(env: Env, c: Call, m: Message, h: Header)
    requires CallOk(env, c)
    ensures MessageOk(Opened(m, Some(Find(env, c.ls, h)), c.data), Find(env, c.ls, h), h.datalen, [])
  {
    var rc := Find(env, c.ls, h);
    if rc.Found? {
      var id := QueueId(h.wid, h.qidx);
      assert Known(env, id) && Slot(id, c.ls.empty[id][0]) in c.data;
    }
  }

  lemma MessageGrows(m: Message, rc: FindRC<Slot>, len: nat, sofar: seq<Byte>, got: seq<Byte>)
    requires MessageOk(m, rc, len, sofar) && |sofar| + |got| <= len
    ensures MessageOk(Extended(m, got), rc, len, sofar + got)
  {
    JoinedSnoc(m.chunks, got);
    if rc.Found? {
      StoredSnoc(m.before, m.chunks, got);
    }
  }

  // What a surviving call reads, in the parser's terms.
  datatype Reading = Reading(head: seq<Byte>, body: seq<Byte>)

  function ReadingOf(env: Env, ls: Lists, b: Buffer, script: seq<Recv>, incoming: seq<Byte>): Reading
    requires Sized(b) && Complete(env, ls)
  {
    var pl := ServePlan(env, ls, b, script, incoming);
    Reading(incoming[..pl.head], incoming[pl.head..pl.head + pl.body])
  }

  lemma ReadingFits(env: Env, ls: Lists, b: Buffer, seen: seq<Byte>, script: seq<Recv>, incoming: seq<Byte>)
    requires InSync(b, seen) && Sized(b) && Complete(env, ls)
    requires ServePlan(env, ls, b, script, incoming).ok
    ensures var r := ReadingOf(env, ls, b, script, incoming);
            var x := Rest(seen) + (r.head + r.body);
            && (b.n >= HDRLEN ==> r.head == [])
            && (b.n < HDRLEN ==> b.n + |r.head| <= HDRLEN && (r.body != [] ==> b.n + |r.head| == HDRLEN))
            && (ServePlan(env, ls, b, script, incoming).reached <==> HasHeader(x))
            && WithHeader(b, r.head).hdr == HeaderImage(x)
            && (HasHeader(x) ==>
                  && HeaderOf(x) == DecodeHeader(WithHeader(b, r.head).hdr)
                  && |x| <= HDRLEN + HeaderOf(x).datalen && HeaderOf(x).datalen <= MAX_BODY
                  && x[HDRLEN..] == (if b.n >= HDRLEN then Rest(seen)[HDRLEN..] else []) + r.body)
  {
    hide DecodeHeader, Find;
    var r := ReadingOf(env, ls, b, script, incoming);
    HeaderGrows(b, seen, r.head, r.body);
    var x := Rest(seen) + (r.head + r.body);
    assert |x| == WithHeader(b, r.head).n + |r.body|;
  }

  // The session after a surviving call.
  lemma NextIs(se: Session, env: Env, c: Call)
    requires InSync(se.b, se.seen) && Sized(se.b) && CallOk(env, c)
    requires ServePlan(env, c.ls, se.b, c.script, c.incoming).ok
    ensures var r := ReadingOf(env, c.ls, se.b, c.script, c.incoming);
            var x := Rest(se.seen) + (r.head + r.body);
            var newHeader := |Rest(se.seen)| < HDRLEN <= |x|;
            && Next(se, env, c).Some?
            && var se' := Next(se, env, c).value;
            && se'.seen == se.seen + (r.head + r.body)
            && se'.lookups == (if newHeader then se.lookups + [(HeaderOf(x), Find(env, c.ls, HeaderOf(x)))]
               else se.lookups)
            && var m0 := if newHeader then Opened(se.current, Some(Find(env, c.ls, HeaderOf(x))), c.data)
                         else se.current;
               var m := if HasHeader(x) then Extended(m0, r.body) else m0;
               if HasFrame(x) then
                 && se'.b == Buffer(0, Zeros(), None, se.b.msgcnt + 1)
                 && se'.current == NOMESSAGE && se'.done == se.done + [m]
               else
                 && se'.b == Buffer(|x|, HeaderImage(x),
                                    if newHeader then SlotOf(Find(env, c.ls, HeaderOf(x))) else se.b.slot,
                                    se.b.msgcnt)
                 && se'.current == m && se'.done == se.done
  {
    hide DecodeHeader, Find, Splice, Reads, ServePlan, Frames, Rest, HeaderImage;
    ReadingFits(env, c.ls, se.b, se.seen, c.script, c.incoming);
  }

  // The message under way after a call that has its header, with x the bytes of it received by then.
  lemma UnderWayGrows(se: Session, env: Env, c: Call, r: Reading) returns (last: (Header, FindRC<Slot>), m: Message)
    requires SessionOk(se) && Sized(se.b) && CallOk(env, c) && ServePlan(env, c.ls, se.b, c.script, c.incoming).ok
    requires r == ReadingOf(env, c.ls, se.b, c.script, c.incoming) && HasHeader(Rest(se.seen) + (r.head + r.body))
    ensures var x := Rest(se.seen) + (r.head + r.body);
            var newHeader := |Rest(se.seen)| < HDRLEN;
            && last == (if newHeader then (HeaderOf(x), Find(env, c.ls, HeaderOf(x))) else se.lookups[|se.done|])
            && m == Extended(if newHeader then Opened(se.current, Some(last.1), c.data) else se.current, r.body)
            && UnderWay(x, last, if newHeader then SlotOf(last.1) else se.b.slot, m)
  {
    hide DecodeHeader;
    ReadingFits(env, c.ls, se.b, se.seen, c.script, c.incoming);
    var x := Rest(se.seen) + (r.head + r.body);
    var h := HeaderOf(x);
    if |Rest(se.seen)| < HDRLEN {
      last := (h, Find(env, c.ls, h));
      MessageOpens(env, c, se.current, h);
      m := Extended(Opened(se.current, Some(last.1), c.data), r.body);
      MessageGrows(Opened(se.current, Some(last.1), c.data), last.1, h.datalen, [], r.body);
    } else {
      last := se.lookups[|se.done|];
      m := Extended(se.current, r.body);
      HeadStable(Rest(se.seen), r.head + r.body);
      MessageGrows(se.current, last.1, h.datalen, Rest(se.seen)[HDRLEN..], r.body);
    }
  }

  lemma DoneGrows(fs: seq<Frame>, lookups: seq<(Header, FindRC<Slot>)>, done: seq<Message>, x: seq<Byte>,
                  last: (Header, FindRC<Slot>), slot: Option<Slot>, m: Message)
    requires |lookups| == |fs| + 1 && lookups[|fs|] == last && DoneOk(fs, lookups[..|fs|], done)
    requires HasFrame(x) && FirstLen(x) == |x| && UnderWay(x, last, slot, m)
    ensures DoneOk(fs + [FirstFrame(x)], lookups, done + [m])
  {
  }

  lemma DonePrefix(fs: seq<Frame>, lookups: seq<(Header, FindRC<Slot>)>, done: seq<Message>,
                   more: seq<(Header, FindRC<Slot>)>)
    requires DoneOk(fs, lookups, done)
    ensures DoneOk(fs, lookups[..|fs|], done) && DoneOk(fs, lookups + more, done)
  {
  }

  lemma SurvivingCallKeeps(se: Session, env: Env, c: Call)
    requires SessionOk(se) && Sized(se.b) && CallOk(env, c) && ServePlan(env, c.ls, se.b, c.script, c.incoming).ok
    ensures Next(se, env, c).Some? && SessionOk(Next(se, env, c).value)
  {
    hide DecodeHeader, Next, ServePlan, MessageOk, Find, Opened, Extended;
    NextIs(se, env, c);
    ReadingFits(env, c.ls, se.b, se.seen, c.script, c.incoming);
    var r := ReadingOf(env, c.ls, se.b, c.script, c.incoming);
    var x := Rest(se.seen) + (r.head + r.body);
    TailParses(se.seen, r.head + r.body);
    var se' := Next(se, env, c).value;
    var fs := Frames(se.seen);
    DonePrefix(fs, se.lookups, se.done, []);
    if HasHeader(x) {
      var last, m := UnderWayGrows(se, env, c, r);
      DonePrefix(fs, se.lookups, se.done, [last]);
      assert se'.lookups[..|fs|] == se.lookups[..|fs|];
      if HasFrame(x) {
        DoneGrows(fs, se'.lookups, se.done, x, last, if |Rest(se.seen)| < HDRLEN then SlotOf(last.1) else se.b.slot, m);
      }
    }
  }

  /** A call keeps the session in step with the one-shot parser. */
  lemma NextKeeps(se: Session, env: Env, c: Call)
    requires SessionOk(se) && CallOk(env, c)
    ensures Sized(se.b)
    ensures Next(se, env, c).Some? ==> SessionOk(Next(se, env, c).value)
  {
    InSyncSized(se.b, se.seen);
    if Next(se, env, c).Some? {
      SurvivingCallKeeps(se, env, c);
    }
  }

  // ---------------------------------------------------------------------------------------
  // Any sequence of calls.

  ghost predicate CallsOk(env: Env, calls: seq<Call>) {
    forall i :: 0 <= i < |calls| ==> CallOk(env, calls[i])
  }

  /** The session after all calls; None when the process aborts in one of them. */
  ghost function RunCalls(se: Session, env: Env, calls: seq<Call>): Option<Session>
    requires CallsOk(env, calls)
    decreases |calls|
  {
    if calls == [] then Some(se)
    else if !Sized(se.b) || Next(se, env, calls[0]) == None then None
    else RunCalls(Next(se, env, calls[0]).value, env, calls[1..])
  }

  lemma {:induction false} CallsKeep(se: Session, env: Env, calls: seq<Call>)
    requires SessionOk(se) && CallsOk(env, calls) && RunCalls(se, env, calls).Some?
    ensures SessionOk(RunCalls(se, env, calls).value)
    decreases |calls|
  {
    hide Next, SessionOk;
    if calls != [] {
      NextKeeps(se, env, calls[0]);
      CallsKeep(Next(se, env, calls[0]).value, env, calls[1..]);
    }
  }

  lemma NewSessionOk()
    ensures SessionOk(NEWSESSION)
  {
    assert !HasFrame([]);
    assert HeaderImage([]) == Zeros();
  }

  // The call ends the run of the connection whose buffer is b.
  ghost predicate EndsAt(env: Env, b: Buffer, c: Call) {
    |b.hdr| == HDRLEN && Dies(env, c.ls.empty, b, c.script, c.incoming)
  }

  lemma NextEndsIff(se: Session, env: Env, c: Call)
    requires SessionOk(se) && CallOk(env, c)
    ensures Sized(se.b) && (Next(se, env, c) == None <==> EndsAt(env, se.b, c))
  {
    hide Dies;
    InSyncSized(se.b, se.seen);
    PlanOkIff(env, c.ls, se.b, c.script, c.incoming);
  }

  lemma {:induction false} RunEndsFrom(se: Session, env: Env, calls: seq<Call>)
    requires SessionOk(se) && CallsOk(env, calls)
    ensures RunCalls(se, env, calls) == None <==>
              exists k: nat :: k < |calls| && CallsOk(env, calls[..k]) && RunCalls(se, env, calls[..k]).Some?
                && EndsAt(env, RunCalls(se, env, calls[..k]).value.b, calls[k])
    decreases |calls|
  {
    hide Next, SessionOk, EndsAt;
    if calls != [] {
      NextEndsIff(se, env, calls[0]);
      NextKeeps(se, env, calls[0]);
      if Next(se, env, calls[0]) == None {
        assert calls[..0] == [];
        assert CallsOk(env, calls[..0]) && RunCalls(se, env, calls[..0]).Some?;
      } else {
        var se1 := Next(se, env, calls[0]).value;
        RunEndsFrom(se1, env, calls[1..]);
        forall k: nat | k < |calls[1..]|
          ensures CallsOk(env, calls[..k + 1]) && CallsOk(env, calls[1..][..k])
          ensures RunCalls(se, env, calls[..k + 1]) == RunCalls(se1, env, calls[1..][..k])
        {
          assert calls[..k + 1][1..] == calls[1..][..k];
        }
        if k: nat :| k < |calls[1..]| && RunCalls(se1, env, calls[1..][..k]).Some?
                     && EndsAt(env, RunCalls(se1, env, calls[1..][..k]).value.b, calls[1..][k]) {
          assert calls[k + 1] == calls[1..][k];
        }
        if k: nat :| k < |calls| && CallsOk(env, calls[..k]) && RunCalls(se, env, calls[..k]).Some?
                     && EndsAt(env, RunCalls(se, env, calls[..k]).value.b, calls[k]) {
          if k == 0 {
            assert calls[..0] == [];
          } else {
            assert calls[k] == calls[1..][k - 1] && calls[..k] == calls[..(k - 1) + 1];
          }
        }
      }
    }
  }

  /** The calls of a connection end the process, or stray, exactly when one of them meets a failed recv, a header whose
      length no int holds or whose bad queue index meets a pointer, or a refused body too long for the stack. */
  lemma RunEndsIff(env: Env, calls: seq<Call>)
    requires CallsOk(env, calls)
    ensures RunCalls(NEWSESSION, env, calls) == None <==>
              exists k: nat :: k < |calls| && CallsOk(env, calls[..k]) && RunCalls(NEWSESSION, env, calls[..k]).Some?
                && EndsAt(env, RunCalls(NEWSESSION, env, calls[..k]).value.b, calls[k])
  {
    hide *;
    NewSessionOk();
    RunEndsFrom(NEWSESSION, env, calls);
  }

  /** However the stream is cut into calls, and whatever each lookup answers: n, the header bytes and
      msgcnt are the one-shot parser's, every header was looked up exactly once and in order, and every
      completed message was read to its last byte. */
  lemma FollowsOneShot(env: Env, calls: seq<Call>)
    requires CallsOk(env, calls) && RunCalls(NEWSESSION, env, calls).Some?
    ensures var se := RunCalls(NEWSESSION, env, calls).value;
            var fs, rest := Frames(se.seen), Rest(se.seen);
            && se.b.n == |rest| && se.b.hdr == HeaderImage(rest) && se.b.msgcnt == |fs| == |se.done|
            && |se.lookups| == |fs| + (if HasHeader(rest) then 1 else 0)
            && (forall i :: 0 <= i < |fs| ==>
                  && se.lookups[i].0 == fs[i].hdr && se.done[i].slot == SlotOf(se.lookups[i].1)
                  && Joined(se.done[i].chunks) == fs[i].body)
            && (HasHeader(rest) ==> se.lookups[|fs|].0 == HeaderOf(rest))
  {
    hide DecodeHeader;
    NewSessionOk();
    CallsKeep(NEWSESSION, env, calls);
    var se := RunCalls(NEWSESSION, env, calls).value;
    var fs := Frames(se.seen);
    forall i | 0 <= i < |fs|
      ensures Joined(se.done[i].chunks) == fs[i].body && se.done[i].slot == SlotOf(se.lookups[i].1)
    {
      assert MessageOk(se.done[i], se.lookups[i].1, |fs[i].body|, fs[i].body);
    }
  }

  /** Two connections that have taken the same bytes stand at the same point and have looked up the same headers. */
  lemma ChunksDoNotMatter(env: Env, calls: seq<Call>, env': Env, calls': seq<Call>)
    requires CallsOk(env, calls) && RunCalls(NEWSESSION, env, calls).Some?
    requires CallsOk(env', calls') && RunCalls(NEWSESSION, env', calls').Some?
    requires RunCalls(NEWSESSION, env, calls).value.seen == RunCalls(NEWSESSION, env', calls').value.seen
    ensures var se, se' := RunCalls(NEWSESSION, env, calls).value, RunCalls(NEWSESSION, env', calls').value;
            && se.b.n == se'.b.n && se.b.hdr == se'.b.hdr && se.b.msgcnt == se'.b.msgcnt
            && |se.lookups| == |se'.lookups|
            && forall i :: 0 <= i < |se.lookups| ==> se.lookups[i].0 == se'.lookups[i].0
  {
    hide DecodeHeader, RunCalls;
    FollowsOneShot(env, calls);
    FollowsOneShot(env', calls');
  }

  /** A message whose body came in one read is released with exactly that body in its entry. */
  lemma OneReadDelivers(env: Env, calls: seq<Call>, i: nat)
    requires CallsOk(env, calls) && RunCalls(NEWSESSION, env, calls).Some?
    requires var se := RunCalls(NEWSESSION, env, calls).value;
             i < |se.done| && se.done[i].slot.Some? && Busy(Overlay.Sizes(se.done[i].chunks)) <= 1
    ensures var se := RunCalls(NEWSESSION, env, calls).value;
            && i < |Frames(se.seen)| && |Frames(se.seen)[i].body| <= |se.done[i].data|
            && se.done[i].data[..|Frames(se.seen)[i].body|] == Frames(se.seen)[i].body
  {
    hide DecodeHeader;
    NewSessionOk();
    CallsKeep(NEWSESSION, env, calls);
    var se := RunCalls(NEWSESSION, env, calls).value;
    assert MessageOk(se.done[i], se.lookups[i].1, |Frames(se.seen)[i].body|, Frames(se.seen)[i].body);
    OneReadStored(se.done[i].before, se.done[i].chunks);
  }

  // ---------------------------------------------------------------------------------------
  // Connections as they run: the descriptor blocks, so a call takes a whole message.

  // A whole message is on its way, recv goes on until it is read, its queue index is not one that leaves the entry
  // pointer unset, and if it is refused its body fits the stack.
  ghost predicate Live(env: Env, c: Call)
    requires Complete(env, c.ls)
  {
    && HasFrame(c.incoming) && Blocking(c.script)
    && Answered(env, Find(env, c.ls, HeaderOf(c.incoming)), HeaderOf(c.incoming).datalen)
    && HDRLEN <= Offered(c.script)
    && FirstLen(c.incoming) - HDRLEN <= Offered(Reads(c.script, |c.incoming|, HDRLEN).later)
  }

  // The code can go on with the answer of a lookup for a body of len bytes.
  predicate Answered(env: Env, rc: FindRC<Slot>, len: nat) {
    !Strays(env, rc) && CanRead(env, SlotOf(rc), len, len)
  }

  lemma {:induction false} LaterBlocking(script: seq<Recv>, avail: nat, n: nat)
    requires Blocking(script)
    ensures Blocking(Reads(script, avail, n).later)
    decreases |script|
  {
    if n > 0 && script != [] {
      var t := Take(script[0], avail, n);
      if t.Bytes? {
        LaterBlocking(script[1..], avail - t.d, n - t.d);
      } else if t.Retry? {
        LaterBlocking(script[1..], avail, n);
      }
    }
  }

  lemma LivePlan(env: Env, b: Buffer, c: Call)
    requires Complete(env, c.ls) && Sized(b) && b.n == 0 && Live(env, c)
    ensures ServePlan(env, c.ls, b, c.script, c.incoming) == Plan(HDRLEN, true, FirstLen(c.incoming) - HDRLEN, true)
  {
    hide DecodeHeader, Reads, Offered, Find;
    var r := Reads(c.script, |c.incoming|, HDRLEN);
    BlockingReadIsWhole(c.script, |c.incoming|, HDRLEN);
    LaterBlocking(c.script, |c.incoming|, HDRLEN);
    assert WithHeader(b, c.incoming[..HDRLEN]).hdr == c.incoming[..HDRLEN];
    BlockingReadIsWhole(r.later, |c.incoming| - HDRLEN, FirstLen(c.incoming) - HDRLEN);
  }

  // Between messages, with every message so far read in one piece.
  ghost predicate Whole(se: Session) {
    SessionOk(se) && se.b.n == 0 && forall i :: 0 <= i < |se.done| ==> |se.done[i].chunks| == 1
  }

  lemma LiveNext(se: Session, env: Env, c: Call)
    requires Whole(se) && CallOk(env, c) && Live(env, c)
    ensures Sized(se.b) && Next(se, env, c).Some? && Whole(Next(se, env, c).value)
    ensures Next(se, env, c).value.seen == se.seen + c.incoming[..FirstLen(c.incoming)]
  {
    hide DecodeHeader, SessionOk, Next, ServePlan, Find, Live;
    assert InSync(se.b, se.seen) by {
      SessionInSync(se);
    }
    InSyncSized(se.b, se.seen);
    LivePlan(env, se.b, c);
    LiveFrame(env, c);
    SurvivingCallKeeps(se, env, c);
    NextIs(se, env, c);
    var r := ReadingOf(env, c.ls, se.b, c.script, c.incoming);
    assert r.head + r.body == c.incoming[..FirstLen(c.incoming)];
    assert Rest(se.seen) == [];
    HeadStable(c.incoming[..FirstLen(c.incoming)], c.incoming[FirstLen(c.incoming)..]);
    OnlyFrame(c.incoming);
  }

  lemma LiveFrame(env: Env, c: Call)
    requires Complete(env, c.ls) && Live(env, c)
    ensures HasFrame(c.incoming)
  {
  }

  lemma SessionInSync(se: Session)
    requires SessionOk(se)
    ensures InSync(se.b, se.seen)
  {
  }

  // A stream's first frame, cut off, is a frame.
  lemma OnlyFrame(p: seq<Byte>)
    requires HasFrame(p)
    ensures HasFrame(p[..FirstLen(p)]) && [] + p[..FirstLen(p)] == p[..FirstLen(p)]
  {
    assert p[..FirstLen(p)][..HDRLEN] == p[..HDRLEN];
  }

  lemma {:induction false} LiveCalls(se: Session, env: Env, calls: seq<Call>)
    requires Whole(se) && CallsOk(env, calls) && forall i :: 0 <= i < |calls| ==> Live(env, calls[i])
    ensures RunCalls(se, env, calls).Some? && Whole(RunCalls(se, env, calls).value)
    decreases |calls|
  {
    hide Next, Whole, Live;
    if calls != [] {
      LiveNext(se, env, calls[0]);
      LiveCalls(Next(se, env, calls[0]).value, env, calls[1..]);
    }
  }

  /** On a blocking descriptor nothing aborts and every admitted message is released with exactly its body. */
  lemma LiveConnectionDelivers(env: Env, calls: seq<Call>, i: nat)
    requires CallsOk(env, calls) && forall k :: 0 <= k < |calls| ==> Live(env, calls[k])
    ensures RunCalls(NEWSESSION, env, calls).Some?
    ensures var se := RunCalls(NEWSESSION, env, calls).value;
            && se.b.n == 0 && Rest(se.seen) == [] && |Frames(se.seen)| == |se.done|
            && (i < |se.done| && se.done[i].slot.Some? ==>
                  && |Frames(se.seen)[i].body| <= |se.done[i].data|
                  && se.done[i].data[..|Frames(se.seen)[i].body|] == Frames(se.seen)[i].body)
  {
    hide DecodeHeader, RunCalls, Live;
    NewSessionOk();
    LiveCalls(NEWSESSION, env, calls);
    var se := RunCalls(NEWSESSION, env, calls).value;
    FollowsOneShot(env, calls);
    if i < |se.done| && se.done[i].slot.Some? {
      OneChunk(se.done[i].chunks);
      OneReadDelivers(env, calls, i);
    }
  }

  lemma OneChunk(chunks: seq<seq<Byte>>)
    requires |chunks| == 1
    ensures Busy(Overlay.Sizes(chunks)) <= 1
  {
    assert Overlay.Sizes(chunks)[..0] == [];
  }
}
