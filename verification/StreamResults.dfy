// What workers get, what connections are answered and what the output sends, in terms of what connections sent.
module StreamResults {
  import opened Common
  import opened Bytes
  import opened Framing
  import opened Input
  import opened OutputBytes
  import opened Streams
  import C = CasChannel
  import CP = CasProgress
  import F = CasPipeline
  import P = Pipeline
  import W = OutputRuns
  import X = CasWire
  import N = Progress
  import O = Output
  import E = EndToEnd

  // ---------------------------------------------------------------------------------------
  // What a reader of the logs can rely on.

  // An admitted message is for a worker that exists.
  lemma FoundIsIndexed(d: Directory, su: F.Setup, n: nat, t: Taken)
    requires DirectoryOk(d, su, n) && AnswerOk(d, t) && t.answer.Found?
    ensures t.f.hdr.wid in d.index && 0 <= d.index[t.f.hdr.wid] < |su.ins|
    ensures WorkerOf(d, t.f.hdr) == d.index[t.f.hdr.wid]
  {
  }

  lemma StartsDirectory(d: Directory, ws: seq<Setup>, space: nat, su: F.Setup, n: nat, s: World)
    requires Starts(d, ws, space, su, n, s)
    ensures DirectoryOk(d, su, n) && X.Starts(ws, space, su, s.x)
  {
  }

  // The messages of one worker and content are counted by the copies it accepted.
  lemma {:induction false} CountCopies(ms: seq<Message>, v: int, w: int, m: Message)
    ensures P.Images((u, x) => u == w && x == m, v, ms, true) == if v == w then multiset(ms)[m] else 0
  {
    if ms != [] {
      var k := |ms| - 1;
      CountCopies(ms[..k], v, w, m);
      assert ms == ms[..k] + [ms[k]];
      assert multiset(ms) == multiset(ms[..k]) + multiset{ms[k]};
    }
  }

  lemma {:induction false} CountWorker(ins: seq<C.Chan<Message>>, w: int, m: Message, k: nat)
    requires k <= |ins|
    ensures F.Expected((u, x) => u == w && x == m, ins, true, k) ==
              if 0 <= w < k then multiset(ins[w].accepted)[m] else 0
  {
    if k > 0 {
      CountWorker(ins, w, m, k - 1);
      CountCopies(ins[k - 1].accepted, k - 1, w, m);
    }
  }

  // The admitted messages of worker w with content m, without WorkerOf.
  lemma LoggedIs(d: Directory, su: F.Setup, n: nat, pick: Kind, s: World, w: int, m: Message)
    requires DirectoryOk(d, su, n) && LogsOk(d, s) && (forall u, x :: pick(u, x) <==> u == w && x == m)
    ensures (set c, i | 0 <= c < |s.logs| && 0 <= i < |s.logs[c]| && s.logs[c][i].answer.Found?
                        && s.logs[c][i].f.hdr.wid in d.index && d.index[s.logs[c][i].f.hdr.wid] == w
                        && s.logs[c][i].f.body == m :: (c, i)) == Delivered(d, pick, s)
  {
    hide AnswerOk, DirectoryOk;
    forall c, i | 0 <= c < |s.logs| && 0 <= i < |s.logs[c]| && s.logs[c][i].answer.Found?
      ensures s.logs[c][i].f.hdr.wid in d.index && WorkerOf(d, s.logs[c][i].f.hdr) == d.index[s.logs[c][i].f.hdr.wid]
    {
      FoundIsIndexed(d, su, n, s.logs[c][i]);
    }
  }

  // The connections that owe worker w a signal for content m.
  lemma OwedIs(d: Directory, pick: Kind, s: World, w: int, m: Message)
    requires 0 <= w < |s.x.f.ins| && (forall u, x :: pick(u, x) <==> u == w && x == m)
    ensures (set c | 0 <= c < |s.conns| && s.conns[c].Handed?
                     && s.conns[c].f.hdr.wid in d.index && d.index[s.conns[c].f.hdr.wid] == w
                     && s.conns[c].f.body == m
                     && c < |s.x.f.ins[w].producers| && s.x.f.ins[w].producers[c].Pushed?) == Owed(d, pick, s)
  {
  }

  /** At every point of every run, worker w has accepted each message as often as it was admitted with w's id in its
      header, or is on w's list with the signal still to come. */
  lemma MessagesReachTheirWorkers(d: Directory, ws: seq<Setup>, space: nat, su: F.Setup, n: nat, s0: World,
                                  acts: seq<Act>, w: int, m: Message)
    requires Starts(d, ws, space, su, n, s0) && E.Premise(su) && Run(d, ws, space, su, s0, acts).Some?
    requires 0 <= w < |Run(d, ws, space, su, s0, acts).value.x.f.ins|
    ensures var s := Run(d, ws, space, su, s0, acts).value;
            multiset(s.x.f.ins[w].accepted)[m] ==
              |set c, i | 0 <= c < |s.logs| && 0 <= i < |s.logs[c]| && s.logs[c][i].answer.Found?
                          && s.logs[c][i].f.hdr.wid in d.index && d.index[s.logs[c][i].f.hdr.wid] == w
                          && s.logs[c][i].f.body == m :: (c, i)|
              + |set c | 0 <= c < |s.conns| && s.conns[c].Handed?
                         && s.conns[c].f.hdr.wid in d.index && d.index[s.conns[c].f.hdr.wid] == w
                         && s.conns[c].f.body == m
                         && c < |s.x.f.ins[w].producers| && s.x.f.ins[w].producers[c].Pushed?|
  {
    hide Run, InnerRun, X.Run, Starts, ClaimsOk, SentOk, LogsOk, DirectoryOk, Delivered, Owed;
    var pick: Kind := (u, x) => u == w && x == m;
    RunGood(d, ws, space, su, pick, n, s0, acts);
    StartsDirectory(d, ws, space, su, n, s0);
    var s := Run(d, ws, space, su, s0, acts).value;
    CountWorker(s.x.f.ins, w, m, |s.x.f.ins|);
    LoggedIs(d, su, n, pick, s, w, m);
    OwedIs(d, pick, s, w, m);
  }

  /** At every point of every run: an entry that a connection has from worker w is of the queue its message's header
      names, at the worker it names; a connection whose search succeeded has one; and one between messages has none. */
  lemma EntriesAsAddressed(d: Directory, ws: seq<Setup>, space: nat, su: F.Setup, n: nat, s0: World, acts: seq<Act>,
                           w: int, c: int)
    requires Starts(d, ws, space, su, n, s0) && E.Premise(su) && Run(d, ws, space, su, s0, acts).Some?
    requires var s := Run(d, ws, space, su, s0, acts).value;
             0 <= w < |s.x.f.ins| && 0 <= c < |s.conns| && c < |s.x.f.ins[w].producers|
    ensures var s := Run(d, ws, space, su, s0, acts).value;
            var p := s.x.f.ins[w].producers[c];
            && (p.Reserved? ==>
                  && (s.conns[c].Asked? || s.conns[c].Got? || s.conns[c].Handed?)
                  && var h := if s.conns[c].Handed? then s.conns[c].f.hdr else s.conns[c].h;
                     h.wid in d.index && d.index[h.wid] == w && p.q == h.qidx)
            && (p.Pushed? ==>
                  s.conns[c].Handed? && s.conns[c].f.hdr.wid in d.index && d.index[s.conns[c].f.hdr.wid] == w)
            && (s.conns[c].Got? && s.conns[c].h.wid in d.index && d.index[s.conns[c].h.wid] == w ==> p.Reserved?)
            && (s.conns[c].Resting? || s.conns[c].Called? || s.conns[c].Gone? ==> p.Ready?)
  {
    hide Run, InnerRun, X.Run, Starts, SentOk, LogsOk, Balanced, JobFits;
    RunGood(d, ws, space, su, (u, x) => true, n, s0, acts);
    assert ClaimOk(d, Run(d, ws, space, su, s0, acts).value, w, c);
  }

  /** In every run each finished message was answered as its header and the workers' queues demand, and one that was
      addressed well is refused only for want of an entry. */
  lemma AnswersAreRight(d: Directory, ws: seq<Setup>, space: nat, su: F.Setup, n: nat, s0: World, acts: seq<Act>,
                        c: int, i: int)
    requires Starts(d, ws, space, su, n, s0) && E.Premise(su) && Run(d, ws, space, su, s0, acts).Some?
    requires var s := Run(d, ws, space, su, s0, acts).value; 0 <= c < |s.logs| && 0 <= i < |s.logs[c]|
    ensures var t := Run(d, ws, space, su, s0, acts).value.logs[c][i];
            var h, max := t.f.hdr, d.env.max;
            && (t.answer.NoWorker? <==> h.wid !in max)
            && (t.answer.BadQidx? <==> h.wid in max && !(0 <= h.qidx < |max[h.wid]|))
            && (t.answer.MsgTooBig? <==> h.wid in max && 0 <= h.qidx < |max[h.wid]| && |t.f.body| > max[h.wid][h.qidx])
            && (t.answer.Found? ==> h.wid in d.index && t.answer.slot == d.index[h.wid])
            && (t.answer.BadQidx? ==> d.env.unset == Null)
            && (!t.answer.Found? ==> |t.f.body| <= d.env.stack)
  {
    hide Run, InnerRun, X.Run, Starts, ClaimsOk, Balanced;
    RunGood(d, ws, space, su, (u, x) => true, n, s0, acts);
    StartsDirectory(d, ws, space, su, n, s0);
    var s := Run(d, ws, space, su, s0, acts).value;
    assert SentOk(s, c) && AnswerOk(d, s.logs[c][i]);
    assert FramesOf(s.logs[c])[i] == s.logs[c][i].f && ValidFrame(FramesOf(s.logs[c])[i]);
  }

  // An unfinished message is not a frame, unless it has no body.
  lemma {:induction false} ParsesOn(fs: seq<Frame>, more: seq<Byte>)
    requires AllValid(fs)
    ensures Frames(Wire(fs) + more) == fs + Frames(more) && Framing.Rest(Wire(fs) + more) == Framing.Rest(more)
  {
    ParseAppend(Wire(fs), more);
    WireParses(fs);
    assert [] + more == more;
  }

  /** In every run the messages a connection has finished are the first frames of the bytes it has sent, and all of
      them when it is between messages. */
  lemma SentParses(d: Directory, ws: seq<Setup>, space: nat, su: F.Setup, n: nat, s0: World, acts: seq<Act>, c: int)
    requires Starts(d, ws, space, su, n, s0) && E.Premise(su) && Run(d, ws, space, su, s0, acts).Some?
    requires 0 <= c < |Run(d, ws, space, su, s0, acts).value.conns|
    ensures var s := Run(d, ws, space, su, s0, acts).value;
            && |s.conns| == |s.logs| == |s.sent| && |s.logs[c]| <= |Frames(s.sent[c])|
            && (forall i :: 0 <= i < |s.logs[c]| ==> Frames(s.sent[c])[i] == s.logs[c][i].f)
            && (s.conns[c].Resting? ==> |Frames(s.sent[c])| == |s.logs[c]| && Framing.Rest(s.sent[c]) == [])
  {
    hide Run, InnerRun, X.Run, Starts, ClaimsOk, Balanced, LogsOk, Wire, Frames, EncodeHeader, EncodeFrame;
    RunGood(d, ws, space, su, (u, x) => true, n, s0, acts);
    var s := Run(d, ws, space, su, s0, acts).value;
    assert SentOk(s, c);
    ParsesOn(FramesOf(s.logs[c]), Partial(s.conns[c]));
    if s.conns[c].Resting? {
      ParsesNothing();
    }
  }

  lemma ParsesNothing()
    ensures Frames([]) == [] && Framing.Rest([]) == []
  {
    assert !HasFrame([]);
  }

  // ---------------------------------------------------------------------------------------
  // What a connection can do next.

  // What connection c does, or its thread on a list for it or for another connection.
  predicate OfConnection(su: F.Setup, act: Act, c: int) {
    match act
    case Ask(i) => i == c
    case Refuse(i, _) => i == c
    case Admit(i) => i == c
    case Drain(i, _) => i == c
    case Push(i, _) => i == c
    case Tell(i) => i == c
    case Other(a) =>
      && a.List? && a.mv.Input? && 0 <= a.mv.w < |su.ins| && 0 <= c < |su.ins[a.mv.w].home|
      && a.mv.act == C.Access(su.ins[a.mv.w].home[c])
    case _ => false
  }

  // A reachable state, as the proofs see it.
  ghost predicate Reached(d: Directory, ws: seq<Setup>, space: nat, su: F.Setup, n: nat, s: World, k: F.Stacks,
                          y: W.Wired) {
    && F.SetupOk(su) && DirectoryOk(d, su, n) && |s.conns| == n && Shaped(s) && LogsOk(d, s) && ClaimsOk(d, s)
    && X.Rel(ws, space, su, s.x, k, y) && N.Owners(su, s.x.f)
  }

  // What holds of connection c at worker w's channel.
  lemma ConnectionFacts(d: Directory, ws: seq<Setup>, space: nat, su: F.Setup, n: nat, s: World, k: F.Stacks,
                        y: W.Wired, c: int, w: int)
    requires Reached(d, ws, space, su, n, s, k, y) && 0 <= c < n && 0 <= w < |su.ins|
    ensures |s.x.f.ins| == |k.ins| == |y.p.ins| == |su.ins| && C.SetupOk(su.ins[w])
    ensures C.Rel(su.ins[w], s.x.f.ins[w], k.ins[w], y.p.ins[w]) && CP.ProducersOwn(su.ins[w], s.x.f.ins[w])
    ensures c < |su.ins[w].home| && c < |s.x.f.ins[w].producers| && 0 <= su.ins[w].home[c] < su.ins[w].threads
    ensures |s.x.f.ins[w].jobs| == su.ins[w].threads && ClaimOk(d, s, w, c)
  {
    hide CP.ProducersOwn, CP.ConsumerOwns, ClaimOk, JobFits, X.Marks, C.QueuesOk, C.JobsOk;
    assert C.Rel(su.ins[w], s.x.f.ins[w], k.ins[w], y.p.ins[w]);
  }

  // Its thread is busy on worker w's channel.
  lemma BusyConnectionCan(d: Directory, ws: seq<Setup>, space: nat, su: F.Setup, n: nat, s: World, k: F.Stacks,
                          y: W.Wired, c: int, w: int)
      returns (act: Act)
    requires Reached(d, ws, space, su, n, s, k, y) && 0 <= c < n && 0 <= w < |su.ins|
    requires !Settled(su, s.x, w, c)
    ensures OfConnection(su, act, c) && Step(d, ws, space, su, s, act).Some?
  {
    hide Reached, C.Rel, C.Step, CP.ProducersOwn, ClaimOk;
    ConnectionFacts(d, ws, space, su, n, s, k, y, c, w);
    CP.AccessCan(su.ins[w], s.x.f.ins[w], k.ins[w], y.p.ins[w], su.ins[w].home[c]);
    act := Other(X.List(F.Input(w, C.Access(su.ins[w].home[c]))));
  }

  lemma PlaceIsRight(d: Directory, su: F.Setup, n: nat, h: Header)
    requires DirectoryOk(d, su, n) && Streams.Answer(d, h).Found?
    ensures h.wid in d.index && WorkerOf(d, h) == d.index[h.wid] && 0 <= WorkerOf(d, h) < |su.ins|
    ensures 0 <= h.qidx < |su.ins[WorkerOf(d, h)].qlens| && !Strays(d.env, Place(d.env, h))
  {
  }

  lemma ReachedDirectory(d: Directory, ws: seq<Setup>, space: nat, su: F.Setup, n: nat, s: World, k: F.Stacks,
                         y: W.Wired, c: int)
    requires Reached(d, ws, space, su, n, s, k, y) && 0 <= c < n
    ensures DirectoryOk(d, su, n) && InPhase(s, c) && Streams.Addressed(d, s.conns[c])
  {
  }

  // A settled connection that looks for an entry, has one, or has pushed it.
  lemma SettledConnectionCan(d: Directory, ws: seq<Setup>, space: nat, su: F.Setup, n: nat, s: World, k: F.Stacks,
                             y: W.Wired, c: int, body: seq<Byte>, w: int, h: Header)
      returns (act: Act)
    requires Reached(d, ws, space, su, n, s, k, y) && 0 <= c < n && 0 <= w < |su.ins| && Settled(su, s.x, w, c)
    requires s.conns[c].Called? || s.conns[c].Asked? || s.conns[c].Got? || s.conns[c].Handed?
    requires h == (if s.conns[c].Handed? then s.conns[c].f.hdr else s.conns[c].h) && w == WorkerOf(d, h)
    requires Streams.Answer(d, h).Found? && |body| == h.datalen && CanRead(d.env, None, h.datalen, h.datalen)
    ensures OfConnection(su, act, c) && Step(d, ws, space, su, s, act).Some?
  {
    hide Reached, C.Rel, C.Step, CP.ProducersOwn, Streams.Answer, DirectoryOk;
    ConnectionFacts(d, ws, space, su, n, s, k, y, c, w);
    ReachedDirectory(d, ws, space, su, n, s, k, y, c);
    PlaceIsRight(d, su, n, h);
    CP.ProducerCan(su.ins[w], s.x.f.ins[w], k.ins[w], y.p.ins[w], c, h.qidx, body);
    match s.conns[c]
    case Called(_) => act := Ask(c);
    case Asked(_) => act := if s.x.f.ins[w].producers[c].Reserved? then Admit(c) else Drain(c, body);
    case Got(_) => act := Push(c, body);
    case Handed(_) =>
      act := Tell(c);
      NoPushWhenSettled(ws, space, su, s, k, y, w, c);
    case _ =>
  }

  lemma NoPushWhenSettled(ws: seq<Setup>, space: nat, su: F.Setup, s: World, k: F.Stacks, y: W.Wired, w: int, c: int)
    requires 0 <= w < |s.x.f.ins| && w < |su.ins| == |k.ins| == |y.p.ins| && Settled(su, s.x, w, c)
    requires C.Rel(su.ins[w], s.x.f.ins[w], k.ins[w], y.p.ins[w])
    ensures !PushUnderWay(s, w, c)
  {
    hide C.QueuesOk, C.ConsumerOk;
    forall t | 0 <= t < |s.x.f.ins[w].jobs|
      ensures !(s.x.f.ins[w].jobs[t].Putting? && s.x.f.ins[w].jobs[t].p == c)
    {
      assert C.JobOk(su.ins[w], s.x.f.ins[w], t);
    }
  }

  /** At every point of every interleaving a connection in the middle of a message, whose bytes come, can go on, or its
      thread can with a list operation; a message to be thrown away must fit the stack and meet no unset pointer. */
  lemma ConnectionsNeverStuck(d: Directory, ws: seq<Setup>, space: nat, su: F.Setup, n: nat, s0: World, acts: seq<Act>,
                              c: int, body: seq<Byte>)
      returns (next: Act)
    requires Starts(d, ws, space, su, n, s0) && E.Premise(su) && Run(d, ws, space, su, s0, acts).Some?
    requires 0 <= c < |Run(d, ws, space, su, s0, acts).value.conns|
    requires var ph := Run(d, ws, space, su, s0, acts).value.conns[c];
             && !ph.Resting? && !ph.Gone?
             && var h := if ph.Handed? then ph.f.hdr else ph.h;
                && |body| == h.datalen <= d.env.stack
                && (h.wid in d.env.max && !(0 <= h.qidx < |d.env.max[h.wid]|) ==> d.env.unset == Null)
    ensures OfConnection(su, next, c) && Step(d, ws, space, su, Run(d, ws, space, su, s0, acts).value, next).Some?
  {
    hide Run, InnerRun, X.Run, X.Starts, F.SetupOk, F.OneTakerAll, DirectoryOk, N.Owners, X.Rel, ClaimsOk, LogsOk,
         Balanced, X.Step;
    E.AllOneTakerOf(ws, space, su, s0.x);
    SetupIs(ws, space, su, s0.x);
    RunGood(d, ws, space, su, (u, x) => true, n, s0, acts);
    var k0, y0 := X.StartRel(ws, space, su, s0.x);
    StartOwned(ws, space, su, s0.x);
    var k, y, did := N.RunOwners(ws, space, su, s0.x, k0, y0, InnerRun(d, ws, space, su, s0, acts));
    var s := Run(d, ws, space, su, s0, acts).value;
    PhaseFits(s, c);
    next := ConnectionCan(d, ws, space, su, n, s, k, y, c, body);
  }

  lemma StartOwned(ws: seq<Setup>, space: nat, su: F.Setup, x: X.Wire)
    requires X.Starts(ws, space, su, x)
    ensures N.Owners(su, x.f)
  {
    hide N.Owners;
    N.StartOwners(su);
  }

  lemma PhaseFits(s: World, c: int)
    requires InPhase(s, c) && SentOk(s, c) && !s.conns[c].Resting? && !s.conns[c].Gone?
    ensures (if s.conns[c].Handed? then s.conns[c].f.hdr else s.conns[c].h).datalen <= MAX_BODY
  {
  }

  lemma ConnectionCan(d: Directory, ws: seq<Setup>, space: nat, su: F.Setup, n: nat, s: World, k: F.Stacks, y: W.Wired,
                      c: int, body: seq<Byte>)
      returns (act: Act)
    requires Reached(d, ws, space, su, n, s, k, y) && 0 <= c < n == |s.conns|
    requires !s.conns[c].Resting? && !s.conns[c].Gone?
    requires var h := if s.conns[c].Handed? then s.conns[c].f.hdr else s.conns[c].h;
             && |body| == h.datalen && CanRead(d.env, None, h.datalen, h.datalen)
             && (h.wid in d.env.max && !(0 <= h.qidx < |d.env.max[h.wid]|) ==> d.env.unset == Null)
    ensures OfConnection(su, act, c) && Step(d, ws, space, su, s, act).Some?
  {
    hide Reached, DirectoryOk, X.Step;
    var h := if s.conns[c].Handed? then s.conns[c].f.hdr else s.conns[c].h;
    ReachedDirectory(d, ws, space, su, n, s, k, y, c);
    if Streams.Answer(d, h).Found? {
      PlaceIsRight(d, su, n, h);
      if Settled(su, s.x, WorkerOf(d, h), c) {
        act := SettledConnectionCan(d, ws, space, su, n, s, k, y, c, body, WorkerOf(d, h), h);
      } else {
        act := BusyConnectionCan(d, ws, space, su, n, s, k, y, c, WorkerOf(d, h));
      }
    } else {
      act := Refuse(c, body);
    }
  }

  // ---------------------------------------------------------------------------------------
  // From stream to stream.

  lemma {:induction false} CountResults(work: (int, Message) -> Frame, w: int, ms: seq<Message>, g: Frame)
    ensures P.Images((u, x) => work(u, x) == g, w, ms, true) == P.Images(work, w, ms, g)
  {
    if ms != [] {
      CountResults(work, w, ms[..|ms| - 1], g);
    }
  }

  lemma {:induction false} CountAllResults(work: (int, Message) -> Frame, ins: seq<C.Chan<Message>>, g: Frame, k: nat)
    requires k <= |ins|
    ensures F.Expected((u, x) => work(u, x) == g, ins, true, k) == F.Expected(work, ins, g, k)
  {
    if k > 0 {
      CountAllResults(work, ins, g, k - 1);
      CountResults(work, k - 1, ins[k - 1].accepted, g);
    }
  }

  lemma IdleOwesNothing(d: Directory, pick: Kind, s: World)
    requires F.AllIdle(s.x.f)
    ensures Owed(d, pick, s) == {}
  {
  }

  // The frame of worker w's result, spelled out.
  lemma WorkIs(ws: seq<Setup>, space: nat, w: int, x: Message, g: Frame)
    requires SetupOk(ws, space) && 0 <= w < |ws|
    ensures var r := if ws[w].func.Some? then ws[w].func.value(x, space) else [];
            Work(ws, space)(w, x) == g <==> g == Frame(Header(ws[w].owid, ws[w].oqid, |r|), r)
  {
    assert O.KeepsTo(ws[w].func, x, space);
  }

  /** In every calm interleaving under the premise, once every thread is idle and every send has succeeded, the output's
      stream parses to exactly the results of the messages that were admitted, each as often as it was sent: a frame
      with the ids of the worker its header named and what that worker's function gives for its body. */
  lemma ResultsOfTheStreams(d: Directory, ws: seq<Setup>, space: nat, su: F.Setup, n: nat, s0: World, acts: seq<Act>,
                            g: Frame)
    requires SetupOk(ws, space) && Starts(d, ws, space, su, n, s0) && E.Premise(su)
    requires Run(d, ws, space, su, s0, acts).Some?
    requires E.Calm(ws, space, su, Run(d, ws, space, su, s0, acts).value.x)
    ensures var s := Run(d, ws, space, su, s0, acts).value;
            && AllValid(s.x.f.out.served)
            && (F.AllIdle(s.x.f) && O.AllSent(s0.x.m.script, O.Encoded(s.x.f.out.served)) ==>
                  multiset(Frames(s.x.m.wire))[g] ==
                    |set c, i | 0 <= c < |s.logs| && 0 <= i < |s.logs[c]| && s.logs[c][i].answer.Found?
                                && s.logs[c][i].f.hdr.wid in d.index && 0 <= d.index[s.logs[c][i].f.hdr.wid] < |ws|
                                && var w, x := d.index[s.logs[c][i].f.hdr.wid], s.logs[c][i].f.body;
                                   var r := if ws[w].func.Some? then ws[w].func.value(x, space) else [];
                                   g == Frame(Header(ws[w].owid, ws[w].oqid, |r|), r) :: (c, i)|)
  {
    hide Run, X.Run, InnerRun, Starts, Work, SetupOk, E.Calm, E.FramesInPlace, O.Encoded, O.AllSent, F.Expected,
         F.AllIdle, ClaimsOk, SentOk, AnswerOk, AllValid, Frames;
    var work, s := Work(ws, space), Run(d, ws, space, su, s0, acts).value;
    var pick: Kind := (u, x) => work(u, x) == g;
    RunGood(d, ws, space, su, pick, n, s0, acts);
    StartsDirectory(d, ws, space, su, n, s0);
    SetupIs(ws, space, su, s0.x);
    var chain := E.StreamOfTheCode(ws, space, su, s0.x, InnerRun(d, ws, space, su, s0, acts), g);
    CountAllResults(work, s.x.f.ins, g, |s.x.f.ins|);
    if F.AllIdle(s.x.f) {
      IdleOwesNothing(d, pick, s);
    }
    var logged := set c, i | 0 <= c < |s.logs| && 0 <= i < |s.logs[c]| && s.logs[c][i].answer.Found?
                             && s.logs[c][i].f.hdr.wid in d.index && 0 <= d.index[s.logs[c][i].f.hdr.wid] < |ws|
                             && var w, x := d.index[s.logs[c][i].f.hdr.wid], s.logs[c][i].f.body;
                                var r := if ws[w].func.Some? then ws[w].func.value(x, space) else [];
                                g == Frame(Header(ws[w].owid, ws[w].oqid, |r|), r) :: (c, i);
    forall c, i
      ensures (c, i) in logged <==> (c, i) in Delivered(d, pick, s)
    {
      if 0 <= c < |s.logs| && 0 <= i < |s.logs[c]| && s.logs[c][i].answer.Found? {
        FoundIsIndexed(d, su, n, s.logs[c][i]);
        WorkIs(ws, space, d.index[s.logs[c][i].f.hdr.wid], s.logs[c][i].f.body, g);
      }
    }
    assert logged == Delivered(d, pick, s);
  }
}
