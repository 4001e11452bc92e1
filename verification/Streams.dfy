// From the streams that connections send to the stream the output sends: connections take messages and hand them to
// the workers, with every list operation of every thread taken apart (input.c, worker.c, output.c).
module Streams {
  import opened Common
  import opened Bytes
  import opened Framing
  import opened Input
  import opened OutputBytes
  import Channel
  import C = CasChannel
  import F = CasPipeline
  import P = Pipeline
  import W = OutputRuns
  import X = CasWire
  import O = Output
  import E = EndToEnd

  // The workers as connections know them, and the place of each in the program, by worker id.
  datatype Directory = Directory(env: Env, index: map<int, int>)

  // Connection c is producer c of every worker.
  ghost predicate DirectoryOk(d: Directory, su: F.Setup, n: nat) {
    && (forall wid :: wid in d.env.max ==> wid in d.index)
    && (forall wid :: wid in d.env.max ==>
          && 0 <= d.index[wid] < |su.ins| && |d.env.max[wid]| == |su.ins[d.index[wid]].qlens|)
    && forall w :: 0 <= w < |su.ins| ==> |su.ins[w].home| == n
  }

  function WorkerOf(d: Directory, h: Header): int {
    if h.wid in d.index then d.index[h.wid] else -1
  }

  // What a connection does with the message it takes.
  datatype Phase =
    | Resting                       // between messages
    | Called(h: Header)             // has its header
    | Asked(h: Header)              // looks for an entry
    | Got(h: Header)                // has one
    | Handed(f: Frame)              // has the body in it and puts it on the worker's list
    | Gone(h: Header)               // closed in the middle of the message

  // A message taken to its last byte, and what the lookup had answered: the worker's place, if it was admitted.
  datatype Taken = Taken(f: Frame, answer: FindRC<int>)

  datatype World = World(x: X.Wire, conns: seq<Phase>, sent: seq<seq<Byte>>, logs: seq<seq<Taken>>)

  datatype Act =
    | Begin(c: int, head: seq<Byte>)     // a call reads a header
    | Ask(c: int)
    | Refuse(c: int, body: seq<Byte>)    // no worker, no queue, or too big: the body is thrown away
    | Admit(c: int)                      // the search found an entry
    | Drain(c: int, body: seq<Byte>)     // it found none
    | Push(c: int, body: seq<Byte>)      // the body is read into the entry
    | Tell(c: int)                       // the signal
    | Close(c: int)
    | Other(a: X.Act)

  // ---------------------------------------------------------------------------------------
  // Steps.

  predicate InPhase(s: World, c: int) { 0 <= c < |s.conns| == |s.logs| && |s.sent| == |s.conns| }

  function Turn(s: World, c: int, ph: Phase, got: seq<Byte>): World
    requires InPhase(s, c)
  {
    s.(conns := s.conns[c := ph], sent := s.sent[c := s.sent[c] + got])
  }

  function Done(s: World, c: int, f: Frame, answer: FindRC<int>, got: seq<Byte>): World
    requires InPhase(s, c)
  {
    Turn(s, c, Resting, got).(logs := s.logs[c := s.logs[c] + [Taken(f, answer)]])
  }

  // A step of a producer or its thread on worker w's channel.
  function On(ws: seq<Setup>, space: nat, su: F.Setup, x: X.Wire, w: int, act: C.Act<Message>): Option<X.Wire> {
    X.Step(ws, space, su, x, X.List(F.Input(w, act)))
  }

  // Connection c's thread has no list operation of worker w under way.
  predicate Settled(su: F.Setup, x: X.Wire, w: int, c: int) {
    0 <= w < |su.ins| && w < |x.f.ins| && C.AtHome(su.ins[w], x.f.ins[w], c)
  }

  // What connections do is not among the other steps.
  predicate NotOurs(a: X.Act) {
    a.List? && a.mv.Input? ==> a.mv.act.Access? || a.mv.act.Wait? || a.mv.act.BeginProbe?
  }

  // The code survives throwing the body away.
  predicate CanDrop(d: Directory, h: Header) {
    !Strays(d.env, Place(d.env, h)) && CanRead(d.env, None, h.datalen, h.datalen)
  }

  function Answer(d: Directory, h: Header): FindRC<int> {
    match Place(d.env, h)
    case NoWorker => NoWorker
    case BadQidx => BadQidx
    case MsgTooBig => MsgTooBig
    case QueueFull => QueueFull
    case Found(_) => Found(WorkerOf(d, h))
  }

  function Step(d: Directory, ws: seq<Setup>, space: nat, su: F.Setup, s: World, act: Act): Option<World> {
    match act
    case Begin(c, head) =>
      if InPhase(s, c) && s.conns[c].Resting? && |head| == HDRLEN && DecodeHeader(head).datalen <= MAX_BODY then
        Some(Turn(s, c, Called(DecodeHeader(head)), head))
      else None
    case Ask(c) =>
      if InPhase(s, c) && s.conns[c].Called? && Answer(d, s.conns[c].h).Found? then
        var h := s.conns[c].h;
        match On(ws, space, su, s.x, WorkerOf(d, h), C.BeginReserve(c, h.qidx))
        case None => None
        case Some(x) => Some(Turn(s, c, Asked(h), []).(x := x))
      else None
    case Refuse(c, body) =>
      if InPhase(s, c) && s.conns[c].Called? && !Answer(d, s.conns[c].h).Found? && CanDrop(d, s.conns[c].h)
         && |body| == s.conns[c].h.datalen then
        Some(Done(s, c, Frame(s.conns[c].h, body), Answer(d, s.conns[c].h), body))
      else None
    case Admit(c) =>
      if InPhase(s, c) && s.conns[c].Asked? && Settled(su, s.x, WorkerOf(d, s.conns[c].h), c)
         && s.x.f.ins[WorkerOf(d, s.conns[c].h)].producers[c].Reserved? then
        Some(Turn(s, c, Got(s.conns[c].h), []))
      else None
    case Drain(c, body) =>
      if InPhase(s, c) && s.conns[c].Asked? && Settled(su, s.x, WorkerOf(d, s.conns[c].h), c)
         && !s.x.f.ins[WorkerOf(d, s.conns[c].h)].producers[c].Reserved? && CanDrop(d, s.conns[c].h)
         && |body| == s.conns[c].h.datalen then
        Some(Done(s, c, Frame(s.conns[c].h, body), QueueFull, body))
      else None
    case Push(c, body) =>
      if InPhase(s, c) && s.conns[c].Got? && |body| == s.conns[c].h.datalen then
        var h := s.conns[c].h;
        match On(ws, space, su, s.x, WorkerOf(d, h), C.BeginPublish(c, body))
        case None => None
        case Some(x) => Some(Turn(s, c, Handed(Frame(h, body)), body).(x := x))
      else None
    case Tell(c) =>
      if InPhase(s, c) && s.conns[c].Handed? then
        var f := s.conns[c].f;
        match On(ws, space, su, s.x, WorkerOf(d, f.hdr), C.Signal(c))
        case None => None
        case Some(x) => Some(Done(s, c, f, Found(WorkerOf(d, f.hdr)), []).(x := x))
      else None
    case Close(c) =>
      if InPhase(s, c) && s.conns[c].Got? then
        match On(ws, space, su, s.x, WorkerOf(d, s.conns[c].h), C.Close(c))
        case None => None
        case Some(x) => Some(Turn(s, c, Gone(s.conns[c].h), []).(x := x))
      else None
    case Other(a) =>
      if NotOurs(a) then
        match X.Step(ws, space, su, s.x, a)
        case None => None
        case Some(x) => Some(s.(x := x))
      else None
  }

  function Run(d: Directory, ws: seq<Setup>, space: nat, su: F.Setup, s: World, acts: seq<Act>): Option<World>
    decreases |acts|
  {
    if acts == [] then Some(s)
    else
      match Step(d, ws, space, su, s, acts[0])
      case None => None
      case Some(s1) => Run(d, ws, space, su, s1, acts[1..])
  }

  /** n connections at rest, and the workers and the output as they start. */
  ghost predicate Starts(d: Directory, ws: seq<Setup>, space: nat, su: F.Setup, n: nat, s: World) {
    && X.Starts(ws, space, su, s.x) && DirectoryOk(d, su, n)
    && s.conns == seq(n, c => Resting) && s.sent == seq(n, c => []) && s.logs == seq(n, c => [])
  }

  // ---------------------------------------------------------------------------------------
  // A step of one worker's channel, as its producers and its list of accepted messages see it.

  // Thread t's put is over with this step.
  predicate Ends<M>(c: C.Chan<M>, act: C.Act<M>, c': C.Chan<M>) {
    && act.Access? && 0 <= act.t < |c.jobs| == |c'.jobs| && c.jobs[act.t].Putting? && c'.jobs[act.t].NoJob?
  }

  // Thread t's get pops an entry with this step.
  predicate Takes<M>(c: C.Chan<M>, act: C.Act<M>, c': C.Chan<M>) {
    && act.Access? && 0 <= act.t < |c.jobs| == |c'.jobs| && c.jobs[act.t].Taking? && c'.jobs[act.t].Unlinking?
  }

  ghost predicate ProducerMoves<M>(c: C.Chan<M>, act: C.Act<M>, c': C.Chan<M>, p: int)
    requires 0 <= p < |c.producers| == |c'.producers|
  {
    var a, b := c.producers[p], c'.producers[p];
    if Ends(c, act, c') && p == c.jobs[act.t].p then a.Reserved? && b.Pushed?
    else if Takes(c, act, c') && p == c.jobs[act.t].p then a.Ready? && b.Reserved? && b.q == c.jobs[act.t].q
    else if act == C.Signal(p) then a.Pushed? && b.Ready?
    else if act == C.Close(p) then a.Reserved? && b.Ready?
    else b == a
  }

  ghost predicate ChanFrame<M>(su: C.Setup, c: C.Chan<M>, act: C.Act<M>, c': C.Chan<M>) {
    && |c'.producers| == |c.producers| && |c'.jobs| == |c.jobs|
    && c'.accepted == (if Ends(c, act, c') then c.accepted + [c.jobs[act.t].m] else c.accepted)
    && (Ends(c, act, c') ==> 0 <= c.jobs[act.t].p < |c.producers|)
    && (forall p :: 0 <= p < |c.producers| ==> ProducerMoves(c, act, c', p))
    && (forall t :: 0 <= t < |c.jobs| && c'.jobs[t].Putting? ==>
          || c'.jobs[t] == c.jobs[t]
          || (act.BeginPublish? && c'.jobs[t].p == act.p && c'.jobs[t].m == act.m))
    && (forall t :: 0 <= t < |c.jobs| && c'.jobs[t].Taking? ==>
          c'.jobs[t] == c.jobs[t] || (act.BeginReserve? && c'.jobs[t] == C.Taking(act.p, act.q)))
    && (forall t :: 0 <= t < |c.jobs| && c.jobs[t].Putting? ==>
          c'.jobs[t] == c.jobs[t] || (Ends(c, act, c') && t == act.t))
    && (act.BeginPublish? ==> exists t :: 0 <= t < |c'.jobs| && c'.jobs[t].Putting? && c'.jobs[t].p == act.p)
    && (act.Signal? || act.BeginPublish? || act.BeginReserve? || act.Close? ==> 0 <= act.p < |c.producers|)
    && (act.BeginPublish? ==> c.producers[act.p].Reserved?)
  }

  lemma StepFrame<M>(su: C.Setup, c: C.Chan<M>, abs: seq<C.CasQueue.Abs>, s: Channel.State<M>, act: C.Act<M>)
    requires C.Rel(su, c, abs, s) && C.Step(su, c, act).Some?
    ensures ChanFrame(su, c, act, C.Step(su, c, act).value)
  {
    hide C.CasQueue.Step, C.ConfigOf, C.QueuesOk, C.ConsumerOk, C.AccessStep, C.JobOk;
    if act.Access? && act.t != su.threads {
      AccessFrame(su, c, act.t);
    }
  }

  lemma AccessFrame<M>(su: C.Setup, c: C.Chan<M>, t: int)
    requires 0 <= t < |c.jobs| && (forall q :: 0 <= q < |c.queues| ==> t < |c.queues[q].threads|)
    requires C.JobOk(su, c, t) && t != su.threads && C.Step(su, c, C.Access(t)).Some?
    ensures ChanFrame(su, c, C.Access(t), C.Step(su, c, C.Access(t)).value)
  {
    hide C.CasQueue.Step, C.ConfigOf;
  }

  // The channel that a move steps, and how.
  function InAct(mv: F.Move<Message, Frame>): Option<(int, C.Act<Message>)> {
    match mv
    case Input(w, act) => Some((w, act))
    case Call(w) => Some((w, C.Serve))
    case GiveBack(w) => Some((w, C.BeginRecycle))
    case _ => None
  }

  // x' is x after act on worker w's channel, as far as the workers' own channels go.
  ghost predicate Stepped(su: F.Setup, x: X.Wire, w: int, act: C.Act<Message>, x': X.Wire) {
    && 0 <= w < |x.f.ins| == |x'.f.ins| == |su.ins| && x'.f.ins == x.f.ins[w := x'.f.ins[w]]
    && ChanFrame(su.ins[w], x.f.ins[w], act, x'.f.ins[w])
  }

  lemma MoveSteps(ws: seq<Setup>, space: nat, su: F.Setup, x: X.Wire, k: F.Stacks, y: W.Wired,
                  mv: F.Move<Message, Frame>)
    requires X.Rel(ws, space, su, x, k, y) && X.Step(ws, space, su, x, X.List(mv)).Some?
    ensures var x' := X.Step(ws, space, su, x, X.List(mv)).value;
            match InAct(mv)
            case None => x'.f.ins == x.f.ins
            case Some((w, act)) => Stepped(su, x, w, act, x')
  {
    hide C.Step, C.Rel, ChanFrame, X.Marks, Do;
    match InAct(mv)
    case None =>
    case Some((w, act)) => StepFrame(su.ins[w], x.f.ins[w], k.ins[w], y.p.ins[w], act);
  }

  // ---------------------------------------------------------------------------------------
  // What connections have sent.

  function FramesOf(log: seq<Taken>): seq<Frame> {
    seq(|log|, i requires 0 <= i < |log| => log[i].f)
  }

  ghost predicate PhaseValid(ph: Phase) {
    match ph
    case Resting => true
    case Handed(f) => ValidFrame(f)
    case _ => ValidHeader(ph.h) && ph.h.datalen <= MAX_BODY
  }

  // The bytes of the message under way.
  function Partial(ph: Phase): seq<Byte>
    requires PhaseValid(ph)
  {
    match ph
    case Resting => []
    case Handed(f) => EncodeFrame(f)
    case _ => EncodeHeader(ph.h)
  }

  /** What connection c has sent: the messages it has finished, and the bytes of the one under way. */
  ghost predicate SentOk(s: World, c: int)
    requires InPhase(s, c)
  {
    && AllValid(FramesOf(s.logs[c])) && PhaseValid(s.conns[c])
    && s.sent[c] == Wire(FramesOf(s.logs[c])) + Partial(s.conns[c])
  }

  lemma {:induction false} WireSnoc(fs: seq<Frame>, f: Frame)
    requires AllValid(fs) && ValidFrame(f)
    ensures AllValid(fs + [f]) && Wire(fs + [f]) == Wire(fs) + EncodeFrame(f)
  {
    hide EncodeFrame, ValidFrame;
    if fs == [] {
      assert [f][1..] == [];
      assert fs + [f] == [f];
    } else {
      WireSnoc(fs[1..], f);
      assert (fs + [f])[1..] == fs[1..] + [f];
    }
  }

  // The bytes taken with a turn are those that the new phase has more than the old one.
  lemma TurnSends(s: World, c: int, ph: Phase, got: seq<Byte>)
    requires InPhase(s, c) && SentOk(s, c) && PhaseValid(ph) && Partial(ph) == Partial(s.conns[c]) + got
    ensures SentOk(Turn(s, c, ph, got), c)
  {
    hide Wire, Partial, AllValid, ValidFrame;
    var done := Wire(FramesOf(s.logs[c]));
    assert (done + Partial(s.conns[c])) + got == done + (Partial(s.conns[c]) + got);
  }

  // A message is finished with the rest of its bytes.
  lemma DoneSends(s: World, c: int, f: Frame, answer: FindRC<int>, got: seq<Byte>)
    requires InPhase(s, c) && SentOk(s, c) && ValidFrame(f) && EncodeFrame(f) == Partial(s.conns[c]) + got
    ensures SentOk(Done(s, c, f, answer, got), c)
  {
    hide Wire, AllValid, ValidFrame, EncodeFrame, EncodeHeader;
    var fs := FramesOf(s.logs[c]);
    WireSnoc(fs, f);
    assert FramesOf(s.logs[c] + [Taken(f, answer)]) == fs + [f];
    assert (Wire(fs) + Partial(s.conns[c])) + got == Wire(fs) + (Partial(s.conns[c]) + got);
    assert Wire(fs + [f]) + [] == Wire(fs + [f]);
  }

  // The answer on record is the one that header and directory give.
  ghost predicate AnswerOk(d: Directory, t: Taken) {
    && (t.answer == Answer(d, t.f.hdr) || (t.answer == QueueFull && Answer(d, t.f.hdr).Found?))
    && (!t.answer.Found? ==> CanDrop(d, t.f.hdr))
  }

  // A connection that asks or holds an entry has a header that names a queue with room.
  ghost predicate Addressed(d: Directory, ph: Phase) {
    && (ph.Asked? || ph.Got? ==> Answer(d, ph.h).Found?)
    && (ph.Handed? ==> Answer(d, ph.f.hdr).Found?)
  }

  ghost predicate LogsOk(d: Directory, s: World) {
    && (forall c, i :: 0 <= c < |s.logs| && 0 <= i < |s.logs[c]| ==> AnswerOk(d, s.logs[c][i]))
    && forall c :: 0 <= c < |s.conns| ==> Addressed(d, s.conns[c])
  }

  // ---------------------------------------------------------------------------------------
  // Where connections stand with the workers.

  /** Connection c holds an entry of the queue its header names, of the worker its header names, from the answer to the
      push, and nothing of any other worker. */
  ghost predicate ClaimOk(d: Directory, s: World, v: int, c: int)
    requires 0 <= v < |s.x.f.ins| && 0 <= c < |s.conns| && c < |s.x.f.ins[v].producers|
  {
    var p := s.x.f.ins[v].producers[c];
    match s.conns[c]
    case Asked(h) => p.Ready? || (v == WorkerOf(d, h) && p.Reserved? && p.q == h.qidx)
    case Got(h) => if v == WorkerOf(d, h) then p.Reserved? && p.q == h.qidx else p.Ready?
    case Handed(f) =>
      if v == WorkerOf(d, f.hdr) then (p.Reserved? && p.q == f.hdr.qidx && PushUnderWay(s, v, c)) || p.Pushed?
      else p.Ready?
    case _ => p.Ready?
  }

  // A thread of worker v's channel pushes for connection c.
  ghost predicate PushUnderWay(s: World, v: int, c: int)
    requires 0 <= v < |s.x.f.ins|
  {
    exists t :: 0 <= t < |s.x.f.ins[v].jobs| && s.x.f.ins[v].jobs[t].Putting? && s.x.f.ins[v].jobs[t].p == c
  }

  // A get or a push under way is its connection's: for the worker and queue of its header, with its body.
  ghost predicate JobFits(d: Directory, s: World, v: int, t: int)
    requires 0 <= v < |s.x.f.ins| && 0 <= t < |s.x.f.ins[v].jobs|
  {
    match s.x.f.ins[v].jobs[t]
    case Taking(p, q) =>
      0 <= p < |s.conns| && s.conns[p].Asked? && WorkerOf(d, s.conns[p].h) == v && q == s.conns[p].h.qidx
    case Putting(p, _, m) =>
      0 <= p < |s.conns| && s.conns[p].Handed? && WorkerOf(d, s.conns[p].f.hdr) == v && m == s.conns[p].f.body
    case _ => true
  }

  ghost predicate ClaimsOk(d: Directory, s: World) {
    && (forall v, c :: 0 <= v < |s.x.f.ins| && 0 <= c < |s.conns| && c < |s.x.f.ins[v].producers| ==>
          ClaimOk(d, s, v, c))
    && forall v, t :: 0 <= v < |s.x.f.ins| && 0 <= t < |s.x.f.ins[v].jobs| ==> JobFits(d, s, v, t)
  }

  // ---------------------------------------------------------------------------------------
  // What of it the workers have accepted.

  // Messages of a kind: those for which pick holds at their worker's place.
  type Kind = (int, Message) -> bool

  // Connection c's message is on the worker's list, and the signal is still to come.
  predicate OnList(d: Directory, s: World, c: int) {
    && 0 <= c < |s.conns| && s.conns[c].Handed?
    && 0 <= WorkerOf(d, s.conns[c].f.hdr) < |s.x.f.ins|
    && c < |s.x.f.ins[WorkerOf(d, s.conns[c].f.hdr)].producers|
    && s.x.f.ins[WorkerOf(d, s.conns[c].f.hdr)].producers[c].Pushed?
  }

  // The admitted messages of that kind, by connection and number.
  ghost function Delivered(d: Directory, pick: Kind, s: World): set<(int, int)> {
    set c, i | 0 <= c < |s.logs| && 0 <= i < |s.logs[c]| && Counts(d, pick, s.logs[c][i]) :: (c, i)
  }

  predicate Counts(d: Directory, pick: Kind, t: Taken) { t.answer.Found? && pick(WorkerOf(d, t.f.hdr), t.f.body) }

  // The connections whose message of that kind is on a list and not signalled.
  ghost function Owed(d: Directory, pick: Kind, s: World): set<int> {
    set c | 0 <= c < |s.conns| && Owes(d, pick, s, c)
  }

  predicate Owes(d: Directory, pick: Kind, s: World, c: int) {
    OnList(d, s, c) && pick(WorkerOf(d, s.conns[c].f.hdr), s.conns[c].f.body)
  }

  function AcceptedOf(pick: Kind, s: World): nat { F.Expected(pick, s.x.f.ins, true, |s.x.f.ins|) }

  /** The workers have accepted what connections had admitted, and what is on a list without its signal. */
  ghost predicate Balanced(d: Directory, pick: Kind, s: World) {
    AcceptedOf(pick, s) == |Delivered(d, pick, s)| + |Owed(d, pick, s)|
  }

  ghost predicate Shaped(s: World) { |s.conns| == |s.logs| == |s.sent| }

  ghost predicate Good(d: Directory, pick: Kind, s: World) {
    && Shaped(s) && (forall c :: 0 <= c < |s.conns| ==> SentOk(s, c)) && LogsOk(d, s) && ClaimsOk(d, s)
    && Balanced(d, pick, s)
  }

  // ---------------------------------------------------------------------------------------
  // Every step keeps what connections hold.

  // How a connection's phase goes with its step on worker w's channel; other steps leave all phases alone.
  ghost predicate PhaseMoves(d: Directory, s: World, s': World, w: int, act: C.Act<Message>, c: int) {
    && |s'.conns| == |s.conns|
    && match act
       case BeginReserve(p, q) =>
         && p == c && 0 <= c < |s.conns| && s.conns[c].Called? && s'.conns == s.conns[c := Asked(s.conns[c].h)]
         && WorkerOf(d, s.conns[c].h) == w && q == s.conns[c].h.qidx
       case BeginPublish(p, m) =>
         && p == c && 0 <= c < |s.conns| && s.conns[c].Got?
         && s'.conns == s.conns[c := Handed(Frame(s.conns[c].h, m))] && WorkerOf(d, s.conns[c].h) == w
       case Signal(p) =>
         && p == c && 0 <= c < |s.conns| && s.conns[c].Handed? && s'.conns == s.conns[c := Resting]
         && WorkerOf(d, s.conns[c].f.hdr) == w && NoJobOf(s.x, w, c)
       case Close(p) =>
         && p == c && 0 <= c < |s.conns| && s.conns[c].Got? && s'.conns == s.conns[c := Gone(s.conns[c].h)]
         && WorkerOf(d, s.conns[c].h) == w
       case _ => s'.conns == s.conns
  }

  // No thread of worker w's channel has a get or a push of connection c under way.
  ghost predicate NoJobOf(x: X.Wire, w: int, c: int) {
    0 <= w < |x.f.ins| ==>
      forall t :: 0 <= t < |x.f.ins[w].jobs| ==>
        && !(x.f.ins[w].jobs[t].Putting? && x.f.ins[w].jobs[t].p == c)
        && !(x.f.ins[w].jobs[t].Taking? && x.f.ins[w].jobs[t].p == c)
  }

  lemma PushedHasNoJob(ws: seq<Setup>, space: nat, su: F.Setup, x: X.Wire, k: F.Stacks, y: W.Wired, w: int, c: int)
    requires X.Rel(ws, space, su, x, k, y) && 0 <= w < |x.f.ins| && 0 <= c < |x.f.ins[w].producers|
    requires x.f.ins[w].producers[c].Pushed? || Settled(su, x, w, c)
    ensures NoJobOf(x, w, c)
  {
    hide C.QueuesOk, C.ConsumerOk, X.Marks;
    assert C.Rel(su.ins[w], x.f.ins[w], k.ins[w], y.p.ins[w]);
    forall t | 0 <= t < |x.f.ins[w].jobs|
      ensures !(x.f.ins[w].jobs[t].Putting? && x.f.ins[w].jobs[t].p == c)
      ensures !(x.f.ins[w].jobs[t].Taking? && x.f.ins[w].jobs[t].p == c)
    {
      assert C.JobOk(su.ins[w], x.f.ins[w], t);
    }
  }

  lemma ClaimStep(d: Directory, su: F.Setup, s: World, s': World, w: int, act: C.Act<Message>, c: int, v: int, i: int)
    requires ClaimsOk(d, s) && Stepped(su, s.x, w, act, s'.x) && PhaseMoves(d, s, s', w, act, c)
    requires 0 <= v < |s'.x.f.ins| && 0 <= i < |s'.conns| && i < |s'.x.f.ins[v].producers|
    ensures ClaimOk(d, s', v, i)
  {
    hide NoJobOf, PushUnderWay;
    assert ClaimOk(d, s, v, i);
    if PushUnderWay(s, v, i) && !(v == w && Ends(s.x.f.ins[w], act, s'.x.f.ins[w]) && s.x.f.ins[w].jobs[act.t].p == i) {
      PushGoesOn(su, s, s', w, act, v, i);
    }
    if v == w {
      assert ProducerMoves(s.x.f.ins[w], act, s'.x.f.ins[w], i);
      if act.Access? && 0 <= act.t < |s.x.f.ins[w].jobs| {
        assert JobFits(d, s, w, act.t);
      }
      if act.BeginPublish? {
        PushStarts(su, s, s', w, act);
      }
    }
  }

  lemma PushStarts(su: F.Setup, s: World, s': World, w: int, act: C.Act<Message>)
    requires Stepped(su, s.x, w, act, s'.x) && act.BeginPublish?
    ensures PushUnderWay(s', w, act.p)
  {
    hide ProducerMoves;
  }

  // A push goes on until it ends.
  lemma PushGoesOn(su: F.Setup, s: World, s': World, w: int, act: C.Act<Message>, v: int, i: int)
    requires Stepped(su, s.x, w, act, s'.x) && 0 <= v < |s.x.f.ins| && PushUnderWay(s, v, i)
    requires !(v == w && Ends(s.x.f.ins[w], act, s'.x.f.ins[w]) && s.x.f.ins[w].jobs[act.t].p == i)
    ensures PushUnderWay(s', v, i)
  {
    hide ProducerMoves;
    var t :| 0 <= t < |s.x.f.ins[v].jobs| && s.x.f.ins[v].jobs[t].Putting? && s.x.f.ins[v].jobs[t].p == i;
    assert s'.x.f.ins[v].jobs[t] == s.x.f.ins[v].jobs[t];
  }

  lemma JobStep(d: Directory, su: F.Setup, s: World, s': World, w: int, act: C.Act<Message>, c: int, v: int, t: int)
    requires ClaimsOk(d, s) && Stepped(su, s.x, w, act, s'.x) && PhaseMoves(d, s, s', w, act, c)
    requires 0 <= v < |s'.x.f.ins| && 0 <= t < |s'.x.f.ins[v].jobs|
    ensures JobFits(d, s', v, t)
  {
    hide ClaimOk, ProducerMoves;
    assert JobFits(d, s, v, t);
  }

  lemma ClaimsStep(d: Directory, su: F.Setup, s: World, s': World, w: int, act: C.Act<Message>, c: int)
    requires ClaimsOk(d, s) && Stepped(su, s.x, w, act, s'.x) && PhaseMoves(d, s, s', w, act, c)
    ensures ClaimsOk(d, s')
  {
    hide ClaimOk, JobFits, PhaseMoves, ChanFrame;
    SameConns(d, s, s', w, act, c);
    forall v, i | 0 <= v < |s'.x.f.ins| && 0 <= i < |s'.conns| && i < |s'.x.f.ins[v].producers|
      ensures ClaimOk(d, s', v, i)
    {
      ClaimStep(d, su, s, s', w, act, c, v, i);
    }
    forall v, t | 0 <= v < |s'.x.f.ins| && 0 <= t < |s'.x.f.ins[v].jobs|
      ensures JobFits(d, s', v, t)
    {
      JobStep(d, su, s, s', w, act, c, v, t);
    }
  }

  lemma SameConns(d: Directory, s: World, s': World, w: int, act: C.Act<Message>, c: int)
    requires PhaseMoves(d, s, s', w, act, c)
    ensures |s'.conns| == |s.conns|
  {
  }

  // Turns of a connection that touch no list.
  ghost predicate QuietTurn(d: Directory, s: World, c: int, ph: Phase)
    requires 0 <= c < |s.conns|
  {
    match s.conns[c]
    case Resting => ph.Called?
    case Called(_) => ph.Resting?
    case Asked(h) =>
      && 0 <= WorkerOf(d, h) < |s.x.f.ins| && c < |s.x.f.ins[WorkerOf(d, h)].producers|
      && NoJobOf(s.x, WorkerOf(d, h), c)
      && if s.x.f.ins[WorkerOf(d, h)].producers[c].Reserved? then ph == Got(h) else ph.Resting?
    case _ => false
  }

  lemma ClaimsTurn(d: Directory, s: World, s': World, c: int)
    requires ClaimsOk(d, s) && 0 <= c < |s.conns| && s'.x == s.x && |s'.conns| == |s.conns|
    requires s'.conns == s.conns[c := s'.conns[c]] && QuietTurn(d, s, c, s'.conns[c])
    ensures ClaimsOk(d, s')
  {
    forall v, i | 0 <= v < |s'.x.f.ins| && 0 <= i < |s'.conns| && i < |s'.x.f.ins[v].producers|
      ensures ClaimOk(d, s', v, i)
    {
      assert ClaimOk(d, s, v, i);
      assert PushUnderWay(s, v, i) ==> PushUnderWay(s', v, i);
    }
    forall v, t | 0 <= v < |s'.x.f.ins| && 0 <= t < |s'.x.f.ins[v].jobs|
      ensures JobFits(d, s', v, t)
    {
      assert JobFits(d, s, v, t);
    }
  }

  // ---------------------------------------------------------------------------------------
  // Every step keeps the balance.

  lemma {:induction false} ExpectedUpdate(pick: Kind, ins: seq<C.Chan<Message>>, ins': seq<C.Chan<Message>>, w: int,
                                          k: nat)
    requires k <= |ins| == |ins'| && 0 <= w < |ins| && ins' == ins[w := ins'[w]]
    ensures F.Expected(pick, ins', true, k) - F.Expected(pick, ins, true, k) ==
              if w < k then P.Images(pick, w, ins'[w].accepted, true) - P.Images(pick, w, ins[w].accepted, true) else 0
  {
    if k > 0 {
      ExpectedUpdate(pick, ins, ins', w, k - 1);
    }
  }

  lemma AcceptedStep(su: F.Setup, pick: Kind, s: World, s': World, w: int, act: C.Act<Message>)
    requires Stepped(su, s.x, w, act, s'.x)
    ensures AcceptedOf(pick, s') - AcceptedOf(pick, s) ==
              if Ends(s.x.f.ins[w], act, s'.x.f.ins[w]) then Channel.At(pick(w, s.x.f.ins[w].jobs[act.t].m)) else 0
  {
    hide ProducerMoves;
    ExpectedUpdate(pick, s.x.f.ins, s'.x.f.ins, w, |s.x.f.ins|);
    if Ends(s.x.f.ins[w], act, s'.x.f.ins[w]) {
      P.ImagesSnoc(pick, w, s.x.f.ins[w].accepted, s.x.f.ins[w].jobs[act.t].m, true);
    }
  }

  lemma SameOwed(d: Directory, pick: Kind, s: World, s': World)
    requires |s'.conns| == |s.conns|
    requires forall c :: 0 <= c < |s.conns| ==>
               (OnList(d, s', c) <==> OnList(d, s, c)) && (OnList(d, s, c) ==> s'.conns[c] == s.conns[c])
    ensures Owed(d, pick, s') == Owed(d, pick, s)
  {
    hide OnList;
  }

  // Who is on a list after a step that is no signal.
  lemma OnListStep(d: Directory, su: F.Setup, s: World, s': World, w: int, act: C.Act<Message>, c: int, i: int)
    requires ClaimsOk(d, s) && Stepped(su, s.x, w, act, s'.x) && PhaseMoves(d, s, s', w, act, c) && !act.Signal?
    requires 0 <= i < |s.conns|
    ensures OnList(d, s, i) ==> s'.conns[i] == s.conns[i]
    ensures OnList(d, s', i) <==>
              OnList(d, s, i) || (Ends(s.x.f.ins[w], act, s'.x.f.ins[w]) && i == s.x.f.ins[w].jobs[act.t].p)
    ensures Ends(s.x.f.ins[w], act, s'.x.f.ins[w]) && i == s.x.f.ins[w].jobs[act.t].p ==>
              && !OnList(d, s, i) && s'.conns == s.conns && WorkerOf(d, s.conns[i].f.hdr) == w
              && s.conns[i].f.body == s.x.f.ins[w].jobs[act.t].m
  {
    hide NoJobOf, ClaimOk;
    var c0, c1 := s.x.f.ins[w], s'.x.f.ins[w];
    if i < |c0.producers| {
      assert ProducerMoves(c0, act, c1, i);
    }
    if Ends(c0, act, c1) {
      assert JobFits(d, s, w, act.t);
    }
  }

  lemma StepBalanced(d: Directory, su: F.Setup, pick: Kind, s: World, s': World, w: int, act: C.Act<Message>, c: int)
    requires ClaimsOk(d, s) && Stepped(su, s.x, w, act, s'.x) && PhaseMoves(d, s, s', w, act, c) && !act.Signal?
    requires Balanced(d, pick, s) && s'.logs == s.logs
    ensures Balanced(d, pick, s')
  {
    hide OnList, ClaimsOk, PhaseMoves, ChanFrame, AcceptedOf;
    AcceptedStep(su, pick, s, s', w, act);
    SameConns(d, s, s', w, act, c);
    forall i | 0 <= i < |s.conns|
      ensures OnList(d, s, i) ==> s'.conns[i] == s.conns[i]
      ensures OnList(d, s', i) <==>
                OnList(d, s, i) || (Ends(s.x.f.ins[w], act, s'.x.f.ins[w]) && i == s.x.f.ins[w].jobs[act.t].p)
    {
      OnListStep(d, su, s, s', w, act, c, i);
    }
    if Ends(s.x.f.ins[w], act, s'.x.f.ins[w]) {
      EndsIsOurs(d, s, w, act.t);
      var p := s.x.f.ins[w].jobs[act.t].p;
      OnListStep(d, su, s, s', w, act, c, p);
      assert Owed(d, pick, s') == Owed(d, pick, s) + (if Owes(d, pick, s', p) then {p} else {});
    } else {
      SameOwed(d, pick, s, s');
    }
  }

  lemma EndsIsOurs(d: Directory, s: World, w: int, t: int)
    requires ClaimsOk(d, s) && 0 <= w < |s.x.f.ins| && 0 <= t < |s.x.f.ins[w].jobs| && s.x.f.ins[w].jobs[t].Putting?
    ensures 0 <= s.x.f.ins[w].jobs[t].p < |s.conns|
  {
    assert JobFits(d, s, w, t);
  }

  lemma DeliveredSnoc(d: Directory, pick: Kind, s: World, s': World, c: int, t: Taken)
    requires 0 <= c < |s.logs| && s'.logs == s.logs[c := s.logs[c] + [t]]
    ensures |Delivered(d, pick, s')| == |Delivered(d, pick, s)| + Channel.At(Counts(d, pick, t))
  {
    hide Counts;
    var before, after := Delivered(d, pick, s), Delivered(d, pick, s');
    var n := |s.logs[c]|;
    assert (c, n) !in before;
    forall e, i
      ensures (e, i) in after <==> (e, i) in before || (Counts(d, pick, t) && (e, i) == (c, n))
    {
      if e == c && 0 <= e < |s.logs| && 0 <= i < n {
        assert s'.logs[c][i] == s.logs[c][i];
      }
    }
    assert after == before + (if Counts(d, pick, t) then {(c, n)} else {});
  }

  // The signal: the message counts as admitted and is no longer owed.
  lemma TellBalanced(d: Directory, su: F.Setup, pick: Kind, s: World, s': World, w: int, c: int)
    requires ClaimsOk(d, s) && Stepped(su, s.x, w, C.Signal(c), s'.x) && PhaseMoves(d, s, s', w, C.Signal(c), c)
    requires Balanced(d, pick, s) && InPhase(s, c)
    requires s'.logs == s.logs[c := s.logs[c] + [Taken(s.conns[c].f, Found(w))]]
    ensures Balanced(d, pick, s')
  {
    hide ClaimsOk, NoJobOf, AcceptedOf, OnList, ChanFrame, Delivered;
    AcceptedStep(su, pick, s, s', w, C.Signal(c));
    DeliveredSnoc(d, pick, s, s', c, Taken(s.conns[c].f, Found(w)));
    forall i | 0 <= i < |s.conns|
      ensures OnList(d, s', i) <==> OnList(d, s, i) && i != c
    {
      OffListStep(d, su, s, s', w, c, i);
    }
    OffListStep(d, su, s, s', w, c, c);
    assert Owed(d, pick, s') == Owed(d, pick, s) - {c};
  }

  // Who is on a list after a signal.
  lemma OffListStep(d: Directory, su: F.Setup, s: World, s': World, w: int, c: int, i: int)
    requires Stepped(su, s.x, w, C.Signal(c), s'.x) && PhaseMoves(d, s, s', w, C.Signal(c), c) && 0 <= i < |s.conns|
    ensures OnList(d, s', i) <==> OnList(d, s, i) && i != c
    ensures OnList(d, s, c)
  {
    hide NoJobOf;
    assert ProducerMoves(s.x.f.ins[w], C.Signal(c), s'.x.f.ins[w], c);
    if i < |s.x.f.ins[w].producers| {
      assert ProducerMoves(s.x.f.ins[w], C.Signal(c), s'.x.f.ins[w], i);
    }
  }

  // A turn that touches no list, and perhaps a message thrown away.
  lemma QuietBalanced(d: Directory, pick: Kind, s: World, s': World, c: int)
    requires Balanced(d, pick, s) && InPhase(s, c) && s'.x == s.x && |s'.conns| == |s.conns|
    requires s'.conns == s.conns[c := s'.conns[c]] && !s.conns[c].Handed? && !s'.conns[c].Handed?
    requires s'.logs == s.logs || exists t :: s'.logs == s.logs[c := s.logs[c] + [t]] && !t.answer.Found?
    ensures Balanced(d, pick, s')
  {
    SameOwed(d, pick, s, s');
    if s'.logs != s.logs {
      var t :| s'.logs == s.logs[c := s.logs[c] + [t]] && !t.answer.Found?;
      DeliveredSnoc(d, pick, s, s', c, t);
    }
  }

  // Only connection c's phase, bytes and log differ.
  ghost predicate OnlyConn(s: World, s': World, c: int) {
    && Shaped(s) && 0 <= c < |s.conns| == |s'.conns| && Shaped(s')
    && s'.conns == s.conns[c := s'.conns[c]] && s'.sent == s.sent[c := s'.sent[c]] && s'.logs == s.logs[c := s'.logs[c]]
  }

  lemma RecordsKept(d: Directory, s: World, s': World, c: int)
    requires OnlyConn(s, s', c) && (forall e :: 0 <= e < |s.conns| ==> SentOk(s, e)) && LogsOk(d, s)
    requires Addressed(d, s'.conns[c])
    requires SentOk(s', c) && (s'.logs[c] == s.logs[c] || exists t :: s'.logs[c] == s.logs[c] + [t] && AnswerOk(d, t))
    ensures (forall e :: 0 <= e < |s'.conns| ==> SentOk(s', e)) && LogsOk(d, s')
  {
    hide AnswerOk, Addressed, Wire, Partial, AllValid, FramesOf;
    forall e | 0 <= e < |s'.conns|
      ensures SentOk(s', e)
    {
      if e != c {
        assert SentOk(s, e);
      }
    }
  }

  // ---------------------------------------------------------------------------------------
  // Each act.

  lemma HeadIs(head: seq<Byte>)
    requires |head| == HDRLEN
    ensures ValidHeader(DecodeHeader(head)) && EncodeHeader(DecodeHeader(head)) == head
  {
    EncodeDecode(head);
  }

  // A connection turns without touching a list, with got the bytes it reads.
  lemma TurnKeeps(d: Directory, pick: Kind, s: World, c: int, ph: Phase, got: seq<Byte>)
    requires Good(d, pick, s) && InPhase(s, c) && QuietTurn(d, s, c, ph) && !ph.Resting?
    requires PhaseValid(ph) && Partial(ph) == Partial(s.conns[c]) + got && Addressed(d, ph)
    ensures Good(d, pick, Turn(s, c, ph, got))
  {
    hide SentOk, LogsOk, ClaimsOk, Balanced, NoJobOf, PhaseValid;
    var s' := Turn(s, c, ph, got);
    assert SentOk(s, c);
    TurnSends(s, c, ph, got);
    RecordsKept(d, s, s', c);
    ClaimsTurn(d, s, s', c);
    QuietBalanced(d, pick, s, s', c);
  }

  // A message is thrown away to its last byte.
  lemma DropKeeps(d: Directory, pick: Kind, s: World, c: int, f: Frame, answer: FindRC<int>)
    requires Good(d, pick, s) && InPhase(s, c) && QuietTurn(d, s, c, Resting) && !answer.Found?
    requires (s.conns[c].Called? || s.conns[c].Asked?) && f.hdr == s.conns[c].h && |f.body| == f.hdr.datalen
    requires AnswerOk(d, Taken(f, answer))
    ensures Good(d, pick, Done(s, c, f, answer, f.body))
  {
    hide LogsOk, ClaimsOk, Balanced, NoJobOf, AnswerOk, EncodeHeader, Answer;
    var s' := Done(s, c, f, answer, f.body);
    assert SentOk(s, c);
    DoneSends(s, c, f, answer, f.body);
    assert s'.logs[c] == s.logs[c] + [Taken(f, answer)];
    RecordsKept(d, s, s', c);
    ClaimsTurn(d, s, s', c);
    assert s'.logs == s.logs[c := s.logs[c] + [Taken(f, answer)]];
    QuietBalanced(d, pick, s, s', c);
  }

  // A connection starts an operation on a list, or closes.
  lemma OnKeeps(d: Directory, ws: seq<Setup>, space: nat, su: F.Setup, pick: Kind, s: World, k: F.Stacks, y: W.Wired,
                c: int, ph: Phase, got: seq<Byte>, w: int, act: C.Act<Message>)
    requires X.Rel(ws, space, su, s.x, k, y) && Good(d, pick, s) && InPhase(s, c)
    requires PhaseValid(s.conns[c]) && PhaseValid(ph) && Partial(ph) == Partial(s.conns[c]) + got && Addressed(d, ph)
    requires act.BeginReserve? || act.BeginPublish? || act.Close?
    requires PhaseMoves(d, s, Turn(s, c, ph, got), w, act, c)
    requires On(ws, space, su, s.x, w, act).Some?
    ensures Good(d, pick, Turn(s, c, ph, got).(x := On(ws, space, su, s.x, w, act).value))
  {
    hide X.Step, X.Rel, SentOk, LogsOk, ClaimsOk, Balanced, NoJobOf, PhaseValid, ChanFrame;
    MoveSteps(ws, space, su, s.x, k, y, F.Input(w, act));
    var s1 := Turn(s, c, ph, got);
    var s' := s1.(x := On(ws, space, su, s.x, w, act).value);
    assert SentOk(s, c);
    TurnSends(s, c, ph, got);
    SameRecords(d, s1, s', c);
    RecordsKept(d, s, s', c);
    ClaimsStep(d, su, s, s', w, act, c);
    StepBalanced(d, su, pick, s, s', w, act, c);
  }

  lemma SameRecords(d: Directory, s: World, s': World, c: int)
    requires s' == s.(x := s'.x) && InPhase(s, c)
    ensures SentOk(s', c) <==> SentOk(s, c)
  {
  }

  lemma TellKeeps(d: Directory, ws: seq<Setup>, space: nat, su: F.Setup, pick: Kind, s: World, k: F.Stacks, y: W.Wired,
                  c: int)
    requires X.Rel(ws, space, su, s.x, k, y) && Good(d, pick, s) && InPhase(s, c) && s.conns[c].Handed?
    requires Answer(d, s.conns[c].f.hdr).Found?
    requires On(ws, space, su, s.x, WorkerOf(d, s.conns[c].f.hdr), C.Signal(c)).Some?
    ensures var f := s.conns[c].f;
            var w := WorkerOf(d, f.hdr);
            Good(d, pick, Done(s, c, f, Found(w), []).(x := On(ws, space, su, s.x, w, C.Signal(c)).value))
  {
    hide X.Step, X.Rel, LogsOk, ClaimsOk, Balanced, NoJobOf, ChanFrame, ValidFrame, EncodeFrame;
    var f := s.conns[c].f;
    var w := WorkerOf(d, f.hdr);
    MoveSteps(ws, space, su, s.x, k, y, F.Input(w, C.Signal(c)));
    var s1 := Done(s, c, f, Found(w), []);
    var s' := s1.(x := On(ws, space, su, s.x, w, C.Signal(c)).value);
    assert SentOk(s, c);
    DoneSends(s, c, f, Found(w), []);
    SameRecords(d, s1, s', c);
    assert s'.logs[c] == s.logs[c] + [Taken(f, Found(w))];
    RecordsKept(d, s, s', c);
    SignalIsPushed(su, s.x, w, c, s'.x);
    PushedHasNoJob(ws, space, su, s.x, k, y, w, c);
    ClaimsStep(d, su, s, s', w, C.Signal(c), c);
    TellBalanced(d, su, pick, s, s', w, c);
  }

  lemma SignalIsPushed(su: F.Setup, x: X.Wire, w: int, c: int, x': X.Wire)
    requires Stepped(su, x, w, C.Signal(c), x')
    ensures 0 <= w < |x.f.ins| && 0 <= c < |x.f.ins[w].producers| && x.f.ins[w].producers[c].Pushed?
  {
    assert ProducerMoves(x.f.ins[w], C.Signal(c), x'.f.ins[w], c);
  }

  lemma OtherKeeps(d: Directory, ws: seq<Setup>, space: nat, su: F.Setup, pick: Kind, s: World, k: F.Stacks, y: W.Wired,
                   a: X.Act)
    requires X.Rel(ws, space, su, s.x, k, y) && Good(d, pick, s) && NotOurs(a) && X.Step(ws, space, su, s.x, a).Some?
    ensures Good(d, pick, s.(x := X.Step(ws, space, su, s.x, a).value))
  {
    hide X.Rel, Work, F.Expected, ClaimsOk, LogsOk, Balanced, SentOk, Stepped, F.Step, Do, ChanFrame;
    var s' := s.(x := X.Step(ws, space, su, s.x, a).value);
    SameRecordsAll(d, s, s');
    if a.List? && InAct(a.mv).Some? {
      MoveSteps(ws, space, su, s.x, k, y, a.mv);
      var (w, act) := InAct(a.mv).value;
      ClaimsStep(d, su, s, s', w, act, -1);
      StepBalanced(d, su, pick, s, s', w, act, -1);
    } else {
      if a.List? {
        MoveSteps(ws, space, su, s.x, k, y, a.mv);
      }
      SameWorkers(d, pick, s, s');
    }
  }

  lemma SameRecordsAll(d: Directory, s: World, s': World)
    requires s' == s.(x := s'.x) && Shaped(s) && (forall c :: 0 <= c < |s.conns| ==> SentOk(s, c)) && LogsOk(d, s)
    ensures (forall c :: 0 <= c < |s'.conns| ==> SentOk(s', c)) && LogsOk(d, s')
  {
    forall c | 0 <= c < |s'.conns|
      ensures SentOk(s', c)
    {
      SameRecords(d, s, s', c);
    }
  }

  lemma SameWorkers(d: Directory, pick: Kind, s: World, s': World)
    requires ClaimsOk(d, s) && Balanced(d, pick, s) && s' == s.(x := s'.x) && s'.x.f.ins == s.x.f.ins
    ensures ClaimsOk(d, s') && Balanced(d, pick, s')
  {
    SameOwed(d, pick, s, s');
    forall v, c | 0 <= v < |s'.x.f.ins| && 0 <= c < |s'.conns| && c < |s'.x.f.ins[v].producers|
      ensures ClaimOk(d, s', v, c)
    {
      assert ClaimOk(d, s, v, c);
      assert PushUnderWay(s, v, c) ==> PushUnderWay(s', v, c);
    }
    forall v, t | 0 <= v < |s'.x.f.ins| && 0 <= t < |s'.x.f.ins[v].jobs|
      ensures JobFits(d, s', v, t)
    {
      assert JobFits(d, s, v, t);
    }
  }

  lemma PhaseIsValid(d: Directory, pick: Kind, s: World, c: int)
    requires Good(d, pick, s) && InPhase(s, c)
    ensures PhaseValid(s.conns[c]) && Addressed(d, s.conns[c])
  {
    assert SentOk(s, c);
  }

  // ---------------------------------------------------------------------------------------
  // Whole runs.

  /** Every step of any thread keeps: what each connection has sent is its finished messages and the one under way; the
      answers on record are those of the directory; each connection holds an entry of the queue and worker its header
      names, or none; and workers have accepted what was admitted, and what is owed a signal. */
  lemma StepKeeps(d: Directory, ws: seq<Setup>, space: nat, su: F.Setup, pick: Kind, s: World, k: F.Stacks, y: W.Wired,
                  act: Act)
    requires X.Rel(ws, space, su, s.x, k, y) && Good(d, pick, s) && Step(d, ws, space, su, s, act).Some?
    ensures Good(d, pick, Step(d, ws, space, su, s, act).value)
  {
    hide X.Step, X.Rel, Good, Answer, CanDrop, Settled, EncodeHeader, DecodeHeader, ValidHeader, NoJobOf;
    match act
    case Begin(c, head) =>
      HeadIs(head);
      assert [] + head == head;
      TurnKeeps(d, pick, s, c, Called(DecodeHeader(head)), head);
    case Ask(c) =>
      var h := s.conns[c].h;
      PhaseIsValid(d, pick, s, c);
      assert EncodeHeader(h) + [] == EncodeHeader(h);
      OnKeeps(d, ws, space, su, pick, s, k, y, c, Asked(h), [], WorkerOf(d, h), C.BeginReserve(c, h.qidx));
    case Refuse(c, body) =>
      DropKeeps(d, pick, s, c, Frame(s.conns[c].h, body), Answer(d, s.conns[c].h));
    case Admit(c) => AdmitKeeps(d, ws, space, su, pick, s, k, y, c);
    case Drain(c, body) => DrainKeeps(d, ws, space, su, pick, s, k, y, c, body);
    case Push(c, body) =>
      var h := s.conns[c].h;
      PhaseIsValid(d, pick, s, c);
      OnKeeps(d, ws, space, su, pick, s, k, y, c, Handed(Frame(h, body)), body, WorkerOf(d, h),
              C.BeginPublish(c, body));
    case Tell(c) =>
      PhaseIsValid(d, pick, s, c);
      TellKeeps(d, ws, space, su, pick, s, k, y, c);
    case Close(c) =>
      var h := s.conns[c].h;
      PhaseIsValid(d, pick, s, c);
      assert EncodeHeader(h) + [] == EncodeHeader(h);
      OnKeeps(d, ws, space, su, pick, s, k, y, c, Gone(h), [], WorkerOf(d, h), C.Close(c));
    case Other(a) => OtherKeeps(d, ws, space, su, pick, s, k, y, a);
  }

  lemma AdmitKeeps(d: Directory, ws: seq<Setup>, space: nat, su: F.Setup, pick: Kind, s: World, k: F.Stacks, y: W.Wired,
                   c: int)
    requires X.Rel(ws, space, su, s.x, k, y) && Good(d, pick, s) && Step(d, ws, space, su, s, Admit(c)).Some?
    ensures Good(d, pick, Turn(s, c, Got(s.conns[c].h), []))
  {
    hide X.Rel, Good, Answer, EncodeHeader, ValidHeader, NoJobOf;
    var h := s.conns[c].h;
    PhaseIsValid(d, pick, s, c);
    assert EncodeHeader(h) + [] == EncodeHeader(h);
    SettledHasNoJob(ws, space, su, s.x, k, y, WorkerOf(d, h), c);
    TurnKeeps(d, pick, s, c, Got(h), []);
  }

  lemma DrainKeeps(d: Directory, ws: seq<Setup>, space: nat, su: F.Setup, pick: Kind, s: World, k: F.Stacks, y: W.Wired,
                   c: int, body: seq<Byte>)
    requires X.Rel(ws, space, su, s.x, k, y) && Good(d, pick, s) && Step(d, ws, space, su, s, Drain(c, body)).Some?
    ensures Good(d, pick, Done(s, c, Frame(s.conns[c].h, body), QueueFull, body))
  {
    hide X.Rel, Good, Answer, NoJobOf, CanDrop;
    var h := s.conns[c].h;
    PhaseIsValid(d, pick, s, c);
    SettledHasNoJob(ws, space, su, s.x, k, y, WorkerOf(d, h), c);
    DropKeeps(d, pick, s, c, Frame(h, body), QueueFull);
  }

  lemma SettledHasNoJob(ws: seq<Setup>, space: nat, su: F.Setup, x: X.Wire, k: F.Stacks, y: W.Wired, w: int, c: int)
    requires X.Rel(ws, space, su, x, k, y) && Settled(su, x, w, c)
    ensures 0 <= w < |x.f.ins| && 0 <= c < |x.f.ins[w].producers| && NoJobOf(x, w, c)
  {
    hide X.Rel, NoJobOf;
    PushedHasNoJob(ws, space, su, x, k, y, w, c);
  }

  // The step's own part on the workers and the output.
  function Inner(d: Directory, s: World, act: Act): Option<X.Act> {
    match act
    case Ask(c) =>
      if InPhase(s, c) && s.conns[c].Called? then
        Some(X.List(F.Input(WorkerOf(d, s.conns[c].h), C.BeginReserve(c, s.conns[c].h.qidx))))
      else None
    case Push(c, body) =>
      if InPhase(s, c) && s.conns[c].Got? then
        Some(X.List(F.Input(WorkerOf(d, s.conns[c].h), C.BeginPublish(c, body))))
      else None
    case Tell(c) =>
      if InPhase(s, c) && s.conns[c].Handed? then
        Some(X.List(F.Input(WorkerOf(d, s.conns[c].f.hdr), C.Signal(c))))
      else None
    case Close(c) =>
      if InPhase(s, c) && s.conns[c].Got? then
        Some(X.List(F.Input(WorkerOf(d, s.conns[c].h), C.Close(c))))
      else None
    case Other(a) => Some(a)
    case _ => None
  }

  lemma InnerIs(d: Directory, ws: seq<Setup>, space: nat, su: F.Setup, s: World, act: Act)
    requires Step(d, ws, space, su, s, act).Some?
    ensures match Inner(d, s, act)
            case None => Step(d, ws, space, su, s, act).value.x == s.x
            case Some(a) => X.Step(ws, space, su, s.x, a) == Some(Step(d, ws, space, su, s, act).value.x)
  {
    hide X.Step, Answer, CanDrop, Settled, DecodeHeader;
  }

  lemma SameConnections(d: Directory, ws: seq<Setup>, space: nat, su: F.Setup, s: World, act: Act)
    requires Step(d, ws, space, su, s, act).Some?
    ensures |Step(d, ws, space, su, s, act).value.conns| == |s.conns|
  {
    hide X.Step, Answer, CanDrop, Settled, DecodeHeader;
  }

  // What the workers and the output do in a run.
  function InnerRun(d: Directory, ws: seq<Setup>, space: nat, su: F.Setup, s: World, acts: seq<Act>): seq<X.Act>
    requires Run(d, ws, space, su, s, acts).Some?
    decreases |acts|
  {
    if acts == [] then []
    else
      (match Inner(d, s, acts[0]) case None => [] case Some(a) => [a])
      + InnerRun(d, ws, space, su, Step(d, ws, space, su, s, acts[0]).value, acts[1..])
  }

  lemma {:induction false} RunKeeps(d: Directory, ws: seq<Setup>, space: nat, su: F.Setup, pick: Kind, s: World,
                                    k: F.Stacks, y: W.Wired, acts: seq<Act>)
    requires F.SetupOk(su) && F.OneTakerAll(su) && X.Rel(ws, space, su, s.x, k, y)
    requires Good(d, pick, s) && Run(d, ws, space, su, s, acts).Some?
    ensures Good(d, pick, Run(d, ws, space, su, s, acts).value)
    ensures |Run(d, ws, space, su, s, acts).value.conns| == |s.conns|
    ensures X.Run(ws, space, su, s.x, InnerRun(d, ws, space, su, s, acts)) ==
              Some(Run(d, ws, space, su, s, acts).value.x)
    decreases |acts|
  {
    hide F.SetupOk, F.OneTakerAll, X.Rel, Good, Step, X.Step, Inner;
    if acts != [] {
      var s1 := Step(d, ws, space, su, s, acts[0]).value;
      InnerIs(d, ws, space, su, s, acts[0]);
      SameConnections(d, ws, space, su, s, acts[0]);
      StepKeeps(d, ws, space, su, pick, s, k, y, acts[0]);
      var rest := InnerRun(d, ws, space, su, s1, acts[1..]);
      match Inner(d, s, acts[0])
      case None =>
        RunKeeps(d, ws, space, su, pick, s1, k, y, acts[1..]);
        assert InnerRun(d, ws, space, su, s, acts) == rest;
      case Some(a) =>
        var k1, y1, one := X.StepMatches(ws, space, su, s.x, k, y, a);
        RunKeeps(d, ws, space, su, pick, s1, k1, y1, acts[1..]);
        assert InnerRun(d, ws, space, su, s, acts) == [a] + rest;
        assert ([a] + rest)[1..] == rest;
    }
  }

  lemma {:induction false} NoneAccepted(pick: Kind, ins: seq<C.Chan<Message>>, k: nat)
    requires k <= |ins| && forall w :: 0 <= w < |ins| ==> ins[w].accepted == []
    ensures F.Expected(pick, ins, true, k) == 0
  {
    if k > 0 {
      NoneAccepted(pick, ins, k - 1);
    }
  }

  lemma StartGood(d: Directory, ws: seq<Setup>, space: nat, su: F.Setup, pick: Kind, n: nat, s: World)
    requires Starts(d, ws, space, su, n, s)
    ensures Good(d, pick, s)
  {
    hide F.SetupOk, Started, DirectoryOk, Answer;
    NoneAccepted(pick, s.x.f.ins, |s.x.f.ins|);
    assert Delivered(d, pick, s) == {} && Owed(d, pick, s) == {};
    forall c | 0 <= c < n
      ensures SentOk(s, c)
    {
      assert FramesOf(s.logs[c]) == [];
    }
  }

  lemma SetupIs(ws: seq<Setup>, space: nat, su: F.Setup, x: X.Wire)
    requires X.Starts(ws, space, su, x)
    ensures F.SetupOk(su) && |ws| == |su.ins|
  {
  }

  lemma RunGood(d: Directory, ws: seq<Setup>, space: nat, su: F.Setup, pick: Kind, n: nat, s0: World, acts: seq<Act>)
    requires Starts(d, ws, space, su, n, s0) && E.Premise(su) && Run(d, ws, space, su, s0, acts).Some?
    ensures Good(d, pick, Run(d, ws, space, su, s0, acts).value)
    ensures |Run(d, ws, space, su, s0, acts).value.conns| == n
    ensures X.Run(ws, space, su, s0.x, InnerRun(d, ws, space, su, s0, acts)) ==
              Some(Run(d, ws, space, su, s0, acts).value.x)
  {
    hide Run, X.Run, X.Rel, F.SetupOk, F.OneTakerAll, Good, InnerRun, X.Starts;
    E.AllOneTakerOf(ws, space, su, s0.x);
    SetupIs(ws, space, su, s0.x);
    var k, y := X.StartRel(ws, space, su, s0.x);
    StartGood(d, ws, space, su, pick, n, s0);
    RunKeeps(d, ws, space, su, pick, s0, k, y, acts);
  }
}
