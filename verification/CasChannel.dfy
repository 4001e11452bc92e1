// One consumer and its producers with every list operation taken apart: threads run the accesses of queue.h
// one at a time, on any queue, while the semaphore is signalled and waited for, messages are stored in entries,
// and connections come and go.  Every interleaving is shown to be a run of Channel.
module CasChannel {
  import opened Common
  import opened CasQueue
  import opened CasRefinement
  import CasRuns
  import C = Channel

  // Producer p is served by thread home[p]: an input thread with its connections, or a worker that feeds an
  // output.  The consumer is one more thread.
  datatype Setup = Setup(qlens: seq<nat>, threads: nat, home: seq<int>)

  function Queues(su: Setup): nat { |su.qlens| }

  function ConfigOf(su: Setup, q: int): Config
    requires 0 <= q < Queues(su)
  {
    Config(su.qlens[q], su.threads + 1, set p | 0 <= p < |su.home| :: su.home[p], su.threads)
  }

  ghost predicate SetupOk(su: Setup) {
    && su.qlens != [] && (forall q :: 0 <= q < |su.qlens| ==> su.qlens[q] >= 1)
    && forall p :: 0 <= p < |su.home| ==> 0 <= su.home[p] < su.threads
  }

  // One taker per list: a single entry, or one thread that serves all producers.
  ghost predicate OneTakerEach(su: Setup) {
    forall q :: 0 <= q < Queues(su) ==> OneTaker(ConfigOf(su, q))
  }

  // The operation a producer's thread has under way.
  datatype Job<M> =
    | NoJob
    | Taking(p: int, q: int)
    | Unlinking(q: int)               // popped, about to clear the entry's next
    | Putting(p: int, q: int, m: M)

  datatype ConsumerJob = Free | Probing | Leaving(q: int) | Recycling(q: int)

  // data is what entries hold, by entry number.
  datatype Chan<M> = Chan(
    queues: seq<State>,
    data: seq<map<int, M>>,
    jobs: seq<Job<M>>,
    cjob: ConsumerJob,
    sem: nat,
    cursor: int,
    producers: seq<C.Producer>,
    consumer: C.Consumer<M>,
    lost: seq<seq<int>>,
    accepted: seq<M>,
    served: seq<M>)

  datatype Act<M> =
    | BeginReserve(p: int, q: int) | BeginPublish(p: int, m: M) | Signal(p: int) | Close(p: int)
    | Wait | BeginProbe | Serve | BeginRecycle
    | Access(t: int)                  // the next access of thread t's operation

  // ---------------------------------------------------------------------------------------
  // Steps.

  // Producer p exists and its thread is between operations.
  predicate AtHome<M>(su: Setup, c: Chan<M>, p: int) {
    0 <= p < |su.home| && p < |c.producers| && 0 <= su.home[p] < |c.jobs| && c.jobs[su.home[p]].NoJob?
  }

  // A step of thread t on queue q.
  function OnQueue<M>(su: Setup, c: Chan<M>, q: int, t: int, act: Action): Option<(Chan<M>, Event)> {
    if !(0 <= q < |c.queues| && q < Queues(su)) then None else
    match CasQueue.Step(ConfigOf(su, q), c.queues[q], t, act)
    case None => None
    case Some((s, ev)) => Some((c.(queues := c.queues[q := s]), ev))
  }

  function AccessStep<M>(su: Setup, c: Chan<M>, t: int): Option<Chan<M>>
    requires 0 <= t < |c.jobs|
  {
    match c.jobs[t]
    case NoJob => None
    case Taking(p, q) =>
      (match OnQueue(su, c, q, t, Advance)
       case None => None
       case Some((c1, ev)) =>
         if ev.Nothing? then Some(c1.(jobs := c.jobs[t := NoJob]))
         else if ev.Took? && 0 <= p < |c.producers| then
           Some(c1.(jobs := c.jobs[t := Unlinking(q)], producers := c.producers[p := C.Reserved(q, ev.e)]))
         else Some(c1))
    case Unlinking(q) =>
      (match OnQueue(su, c, q, t, Advance)
       case None => None
       case Some((c1, _)) => Some(c1.(jobs := c.jobs[t := NoJob])))
    case Putting(p, q, m) =>
      (match OnQueue(su, c, q, t, Advance)
       case None => None
       case Some((c1, ev)) =>
         if ev.Put? && 0 <= p < |c.producers| then
           Some(c1.(jobs := c.jobs[t := NoJob], producers := c.producers[p := C.Pushed], accepted := c.accepted + [m]))
         else Some(c1))
  }

  function ConsumerAccess<M>(su: Setup, c: Chan<M>): Option<Chan<M>> {
    var t, n := su.threads, |c.queues|;
    match c.cjob
    case Free => None
    case Probing =>
      (match OnQueue(su, c, c.cursor, t, Advance)
       case None => None
       case Some((c1, ev)) =>
         if ev.Nothing? then Some(c1.(cjob := Free, cursor := C.NextCursor(n, c.cursor)))
         else if ev.Took? && c.cursor < |c.data| && ev.e in c.data[c.cursor] then
           Some(c1.(cjob := Leaving(c.cursor), cursor := C.NextCursor(n, c.cursor),
                    consumer := C.Holding(c.cursor, ev.e, c.data[c.cursor][ev.e])))
         else Some(c1))
    case Leaving(q) =>
      (match OnQueue(su, c, q, t, Advance)
       case None => None
       case Some((c1, _)) => Some(c1.(cjob := Free)))
    case Recycling(q) =>
      (match OnQueue(su, c, q, t, Advance)
       case None => None
       case Some((c1, ev)) => if ev.Put? then Some(c1.(cjob := Free, consumer := C.Waiting)) else Some(c1))
  }

  function Step<M>(su: Setup, c: Chan<M>, act: Act<M>): Option<Chan<M>> {
    match act
    case BeginReserve(p, q) =>
      if AtHome(su, c, p) && c.producers[p].Ready? then
        match OnQueue(su, c, q, su.home[p], BeginTake(EmptyList))
        case None => None
        case Some((c1, _)) => Some(c1.(jobs := c.jobs[su.home[p] := Taking(p, q)]))
      else None
    case BeginPublish(p, m) =>
      if AtHome(su, c, p) && c.producers[p].Reserved? && 0 <= c.producers[p].q < |c.data| then
        var q, e := c.producers[p].q, c.producers[p].e;
        match OnQueue(su, c, q, su.home[p], BeginPut(FullList, e))
        case None => None
        case Some((c1, _)) =>
          Some(c1.(data := c.data[q := c.data[q][e := m]], jobs := c.jobs[su.home[p] := Putting(p, q, m)]))
      else None
    case Signal(p) =>
      if AtHome(su, c, p) && c.producers[p].Pushed? then
        Some(c.(sem := c.sem + 1, producers := c.producers[p := C.Ready]))
      else None
    case Close(p) =>
      if AtHome(su, c, p) && c.producers[p].Reserved? && 0 <= c.producers[p].q < |c.lost| then
        var q := c.producers[p].q;
        Some(c.(lost := c.lost[q := c.lost[q] + [c.producers[p].e]], producers := c.producers[p := C.Ready]))
      else None
    case Wait =>
      if c.consumer.Waiting? && c.cjob.Free? && c.sem > 0 then Some(c.(sem := c.sem - 1, consumer := C.Scanning))
      else None
    case BeginProbe =>
      if c.consumer.Scanning? && c.cjob.Free? then
        match OnQueue(su, c, c.cursor, su.threads, BeginTake(FullList))
        case None => None
        case Some((c1, _)) => Some(c1.(cjob := Probing))
      else None
    case Serve =>
      if c.consumer.Holding? && c.cjob.Free? then
        Some(c.(consumer := C.Ran(c.consumer.q, c.consumer.e), served := c.served + [c.consumer.msg]))
      else None
    case BeginRecycle =>
      if c.consumer.Ran? && c.cjob.Free? then
        match OnQueue(su, c, c.consumer.q, su.threads, BeginPut(EmptyList, c.consumer.e))
        case None => None
        case Some((c1, _)) => Some(c1.(cjob := Recycling(c.consumer.q)))
      else None
    case Access(t) =>
      if t == su.threads then ConsumerAccess(su, c)
      else if 0 <= t < |c.jobs| then AccessStep(su, c, t)
      else None
  }

  function Run<M>(su: Setup, c: Chan<M>, acts: seq<Act<M>>): Option<Chan<M>>
    decreases |acts|
  {
    if acts == [] then Some(c)
    else
      match Step(su, c, acts[0])
      case None => None
      case Some(c1) => Run(su, c1, acts[1..])
  }

  function Start<M>(su: Setup): Chan<M> {
    Chan(seq(Queues(su), q requires 0 <= q < Queues(su) => CasQueue.Init(ConfigOf(su, q))), seq(Queues(su), q => map[]),
         seq(su.threads, t => NoJob), Free, 0, 0, seq(|su.home|, p => C.Ready), C.Waiting,
         seq(Queues(su), q => []), [], [])
  }

  // ---------------------------------------------------------------------------------------
  // The simulation relation.

  predicate InTake(pc: Pc, l: ListId) { (pc.TakeTry? || pc.TakeLoaded? || pc.TakeReady?) && pc.l == l }

  predicate InPut(pc: Pc, l: ListId, e: int) { (pc.PutTry? || pc.PutLoaded? || pc.PutReady?) && pc.l == l && pc.e == e }

  function PcAt<M>(c: Chan<M>, q: int, t: int): Pc
    requires 0 <= q < |c.queues| && 0 <= t < |c.queues[q].threads|
  {
    c.queues[q].threads[t].pc
  }

  // A queue of the channel is the two stacks, with each published entry's message.
  ghost predicate QueueRel<M>(sq: C.Queue<M>, a: Abs, d: map<int, M>) {
    && sq.empty == a.empties && |sq.full| == |a.fulls|
    && forall i :: 0 <= i < |a.fulls| ==> a.fulls[i] in d && sq.full[i] == C.Item(a.fulls[i], d[a.fulls[i]])
  }

  ghost predicate Sized<M>(su: Setup, c: Chan<M>, abs: seq<Abs>) {
    && |c.queues| == |abs| == |c.data| == |c.lost| == Queues(su) && |c.jobs| == su.threads && |c.producers| == |su.home|
    && (forall q :: 0 <= q < Queues(su) ==> |c.queues[q].threads| == su.threads + 1)
    && 0 <= c.cursor < Queues(su)
  }

  ghost predicate IdleExcept<M>(c: Chan<M>, t: int, q: int) {
    forall k :: 0 <= k < |c.queues| && k != q && 0 <= t < |c.queues[k].threads| ==> PcAt(c, k, t).Idle?
  }

  ghost predicate JobOk<M>(su: Setup, c: Chan<M>, t: int)
    requires 0 <= t < |c.jobs| && (forall q :: 0 <= q < |c.queues| ==> t < |c.queues[q].threads|)
  {
    match c.jobs[t]
    case NoJob => IdleExcept(c, t, -1)
    case Taking(p, q) =>
      && 0 <= p < |su.home| && p < |c.producers| && su.home[p] == t && c.producers[p].Ready?
      && 0 <= q < |c.queues| && InTake(PcAt(c, q, t), EmptyList) && IdleExcept(c, t, q)
    case Unlinking(q) => 0 <= q < |c.queues| && PcAt(c, q, t).TakeUnlink? && IdleExcept(c, t, q)
    case Putting(p, q, m) =>
      && 0 <= p < |su.home| && p < |c.producers| && su.home[p] == t && c.producers[p].Reserved? && c.producers[p].q == q
      && 0 <= q < |c.queues| && q < |c.data| && c.producers[p].e in c.data[q] && c.data[q][c.producers[p].e] == m
      && InPut(PcAt(c, q, t), FullList, c.producers[p].e) && IdleExcept(c, t, q)
  }

  ghost predicate ConsumerOk<M>(c: Chan<M>, t: int)
    requires 0 <= t && (forall q :: 0 <= q < |c.queues| ==> t < |c.queues[q].threads|)
  {
    match c.cjob
    case Free => IdleExcept(c, t, -1)
    case Probing =>
      c.consumer.Scanning? && 0 <= c.cursor < |c.queues| && InTake(PcAt(c, c.cursor, t), FullList)
        && IdleExcept(c, t, c.cursor)
    case Leaving(q) => c.consumer.Holding? && 0 <= q < |c.queues| && PcAt(c, q, t).TakeUnlink? && IdleExcept(c, t, q)
    case Recycling(q) =>
      && c.consumer.Ran? && c.consumer.q == q && 0 <= q < |c.queues|
      && InPut(PcAt(c, q, t), EmptyList, c.consumer.e) && IdleExcept(c, t, q)
  }

  ghost predicate QueuesOk<M>(su: Setup, c: Chan<M>, abs: seq<Abs>, s: C.State<M>)
    requires Sized(su, c, abs)
  {
    && |s.qs| == Queues(su)
    && forall q :: 0 <= q < Queues(su) ==>
         Refines(ConfigOf(su, q), c.queues[q], abs[q]) && QueueRel(s.qs[q], abs[q], c.data[q])
  }

  // What the channel sees of the rest.
  ghost predicate SameRest<M>(c: Chan<M>, s: C.State<M>) {
    && s.sem == c.sem && s.cursor == c.cursor && s.producers == c.producers && s.consumer == c.consumer
    && s.lost == c.lost && s.accepted == c.accepted && s.served == c.served
  }

  ghost predicate JobsOk<M>(su: Setup, c: Chan<M>, abs: seq<Abs>)
    requires Sized(su, c, abs)
  {
    (forall t :: 0 <= t < su.threads ==> JobOk(su, c, t)) && ConsumerOk(c, su.threads)
  }

  ghost predicate Rel<M>(su: Setup, c: Chan<M>, abs: seq<Abs>, s: C.State<M>) {
    Sized(su, c, abs) && QueuesOk(su, c, abs, s) && SameRest(c, s) && JobsOk(su, c, abs)
  }

  // ---------------------------------------------------------------------------------------
  // One access, as its thread and its queue see it.

  lemma ConfigOk(su: Setup, q: int)
    requires SetupOk(su) && 0 <= q < Queues(su)
    ensures WellFormed(ConfigOf(su, q))
  {
  }

  // A step of a queue is a step of its two stacks, and other threads stay where they are.
  lemma QueueStep(cfg: Config, s: State, a: Abs, t: int, act: Action) returns (s': State, ev: Event, a': Abs)
    requires WellFormed(cfg) && OneTaker(cfg) && Refines(cfg, s, a) && CasQueue.Step(cfg, s, t, act).Some?
    ensures CasQueue.Step(cfg, s, t, act) == Some((s', ev)) && SpecStep(a, t, ev) == Some(a') && Refines(cfg, s', a')
    ensures 0 <= t < |s.threads| == |s'.threads|
    ensures forall u :: 0 <= u < |s.threads| && u != t ==> s'.threads[u] == s.threads[u]
  {
    hide Refines, CasQueue.Step, WellFormed, OneTaker;
    StepRefines(cfg, s, a, t, act);
    CasRuns.StepFrame(cfg, s, t, act, EmptyList);
    var (r, e) := CasQueue.Step(cfg, s, t, act).value;
    s', ev := r, e;
    a' := SpecStep(a, t, ev).value;
  }

  // Where a thread gets to with its next access.
  lemma AccessIs(cfg: Config, s: State, t: int, l: ListId, e: int)
    requires 0 <= t < |s.threads| && CasQueue.Step(cfg, s, t, Advance).Some?
    ensures var pc, (s', ev) := s.threads[t].pc, CasQueue.Step(cfg, s, t, Advance).value;
            && |s'.threads| == |s.threads|
            && var pc' := s'.threads[t].pc;
            && (InTake(pc, l) ==>
                  || (ev == Nothing(l) && pc'.Idle?)
                  || (ev.Took? && ev.l == l && pc'.TakeUnlink?)
                  || ((ev == Silent || ev == Missed(l)) && InTake(pc', l)))
            && (pc.TakeUnlink? ==> ev == Silent && pc'.Idle?)
            && (InPut(pc, l, e) ==>
                  || (ev.Put? && ev.l == l && ev.e == e && pc'.Idle?)
                  || ((ev == Silent || ev == Missed(l)) && InPut(pc', l, e)))
  {
  }

  lemma BeginIs(cfg: Config, s: State, t: int, act: Action)
    requires (act.BeginTake? || act.BeginPut?) && CasQueue.Step(cfg, s, t, act).Some?
    ensures var (s', ev) := CasQueue.Step(cfg, s, t, act).value;
            && ev == Silent && 0 <= t < |s.threads| == |s'.threads| && s.threads[t].pc.Idle?
            && (act.BeginTake? ==> InTake(s'.threads[t].pc, act.l))
            && (act.BeginPut? ==> InPut(s'.threads[t].pc, act.l, act.e) && act.e in s.threads[t].held)
  {
  }

  // What the events of a queue mean for the channel.
  lemma QuietEvent<M>(a: Abs, t: int, ev: Event, sq: C.Queue<M>, d: map<int, M>)
    requires QueueRel(sq, a, d) && SpecStep(a, t, ev).Some? && !ev.Took? && !ev.Put?
    ensures SpecStep(a, t, ev).value == a
    ensures (ev == Nothing(FullList) ==> sq.full == []) && (ev == Nothing(EmptyList) ==> sq.empty == [])
  {
  }

  lemma TookEmpty<M>(a: Abs, t: int, e: int, edge: bool, sq: C.Queue<M>, d: map<int, M>)
    requires QueueRel(sq, a, d) && SpecStep(a, t, Took(EmptyList, e, edge)).Some?
    ensures sq.empty != [] && sq.empty[0] == e
    ensures QueueRel(sq.(empty := sq.empty[1..]), SpecStep(a, t, Took(EmptyList, e, edge)).value, d)
  {
  }

  lemma TookFull<M>(a: Abs, t: int, e: int, edge: bool, sq: C.Queue<M>, d: map<int, M>)
    requires QueueRel(sq, a, d) && SpecStep(a, t, Took(FullList, e, edge)).Some?
    ensures sq.full != [] && e in d && sq.full[0] == C.Item(e, d[e])
    ensures QueueRel(sq.(full := sq.full[1..]), SpecStep(a, t, Took(FullList, e, edge)).value, d)
  {
    assert a.fulls[0] == e;
  }

  lemma PutFull<M>(a: Abs, t: int, e: int, edge: bool, sq: C.Queue<M>, d: map<int, M>)
    requires QueueRel(sq, a, d) && SpecStep(a, t, Put(FullList, e, edge)).Some? && e in d
    ensures QueueRel(sq.(full := [C.Item(e, d[e])] + sq.full), SpecStep(a, t, Put(FullList, e, edge)).value, d)
  {
  }

  lemma PutEmpty<M>(a: Abs, t: int, e: int, edge: bool, sq: C.Queue<M>, d: map<int, M>)
    requires QueueRel(sq, a, d) && SpecStep(a, t, Put(EmptyList, e, edge)).Some?
    ensures QueueRel(sq.(empty := [e] + sq.empty), SpecStep(a, t, Put(EmptyList, e, edge)).value, d)
  {
  }

  // Storing a message in an entry that a thread holds is not seen on the full list.
  lemma StoreUnseen<M>(cfg: Config, s: State, a: Abs, t: int, e: int, m: M, sq: C.Queue<M>, d: map<int, M>)
    requires Refines(cfg, s, a) && QueueRel(sq, a, d) && 0 <= t < |s.threads| && e in s.threads[t].held
    ensures QueueRel(sq, a, d[e := m])
  {
    OwnerOf(s, a, t, e);
    assert ListOk(s, a, FullList);
    forall i | 0 <= i < |a.fulls|
      ensures a.fulls[i] != e
    {
      assert a.fulls[i] in a.fulls;
    }
  }

  // Entries of different threads differ.
  lemma OwnersDiffer(cfg: Config, s: State, a: Abs, t: int, u: int, e: int, d: int)
    requires Refines(cfg, s, a) && 0 <= t < |s.threads| && 0 <= u < |s.threads| && t != u
    requires e in Owns(s.threads[t]) && d in Owns(s.threads[u])
    ensures e != d
  {
    OwnerOf(s, a, t, e);
    OwnerOf(s, a, u, d);
  }

  // ---------------------------------------------------------------------------------------
  // Putting the relation together again.

  // Nothing that thread u relies on changed.
  ghost predicate SameFor<M>(su: Setup, c: Chan<M>, c': Chan<M>, u: int) {
    && |c'.queues| == |c.queues| && |c'.data| == |c.data| && |c'.producers| == |c.producers| && |c'.jobs| == |c.jobs|
    && (forall q :: 0 <= q < |c.queues| ==>
          && 0 <= u < |c.queues[q].threads| && u < |c'.queues[q].threads|
          && c'.queues[q].threads[u] == c.queues[q].threads[u])
    && (0 <= u < |c.jobs| ==> c'.jobs[u] == c.jobs[u])
    && (forall p :: 0 <= p < |su.home| && p < |c.producers| && su.home[p] == u ==> c'.producers[p] == c.producers[p])
    && (0 <= u < |c.jobs| && c.jobs[u].Putting? ==>
          var p, q := c.jobs[u].p, c.jobs[u].q;
          0 <= p < |c.producers| && c.producers[p].Reserved? && 0 <= q < |c.data| && c.producers[p].e in c.data[q] ==>
            c.producers[p].e in c'.data[q] && c'.data[q][c.producers[p].e] == c.data[q][c.producers[p].e])
  }

  lemma JobStays<M>(su: Setup, c: Chan<M>, c': Chan<M>, u: int)
    requires 0 <= u < |c.jobs| && SameFor(su, c, c', u) && JobOk(su, c, u)
    ensures JobOk(su, c', u)
  {
  }

  lemma ConsumerStays<M>(su: Setup, c: Chan<M>, c': Chan<M>, u: int)
    requires 0 <= u && SameFor(su, c, c', u) && ConsumerOk(c, u)
    requires c'.cjob == c.cjob && c'.consumer == c.consumer && c'.cursor == c.cursor
    ensures ConsumerOk(c', u)
  {
  }

  // Queue q moved on with stack a and contents sq; the others did not.
  lemma QueuesMove<M>(su: Setup, c: Chan<M>, abs: seq<Abs>, s: C.State<M>, c': Chan<M>, abs': seq<Abs>,
                      s': C.State<M>, q: int)
    requires Sized(su, c, abs) && QueuesOk(su, c, abs, s) && Sized(su, c', abs') && 0 <= q < Queues(su)
    requires c'.queues == c.queues[q := c'.queues[q]] && abs' == abs[q := abs'[q]] && |s'.qs| == |s.qs|
    requires s'.qs == s.qs[q := s'.qs[q]]
    requires c'.data == c.data[q := c'.data[q]]
    requires Refines(ConfigOf(su, q), c'.queues[q], abs'[q]) && QueueRel(s'.qs[q], abs'[q], c'.data[q])
    ensures QueuesOk(su, c', abs', s')
  {
    hide Refines, QueueRel;
    forall k | 0 <= k < Queues(su)
      ensures Refines(ConfigOf(su, k), c'.queues[k], abs'[k]) && QueueRel(s'.qs[k], abs'[k], c'.data[k])
    {
      assert Refines(ConfigOf(su, k), c.queues[k], abs[k]) && QueueRel(s.qs[k], abs[k], c.data[k]);
    }
  }

  // A step of thread t that may also have changed the producers it serves.
  ghost predicate OnlyThread<M>(su: Setup, c: Chan<M>, c': Chan<M>, q: int, t: int) {
    && 0 <= q < |c.queues| == |c'.queues| && c'.queues == c.queues[q := c'.queues[q]]
    && |c'.queues[q].threads| == |c.queues[q].threads|
    && (forall u :: 0 <= u < |c.queues[q].threads| && u != t ==> c'.queues[q].threads[u] == c.queues[q].threads[u])
    && |c'.data| == |c.data| && |c'.producers| == |c.producers| && |c'.jobs| == |c.jobs|
    && (forall u :: 0 <= u < |c.jobs| && u != t ==> c'.jobs[u] == c.jobs[u])
    && (forall p :: 0 <= p < |su.home| && p < |c.producers| && su.home[p] != t ==> c'.producers[p] == c.producers[p])
  }

  lemma OthersSame<M>(su: Setup, c: Chan<M>, abs: seq<Abs>, c': Chan<M>, q: int, t: int, u: int)
    requires Sized(su, c, abs) && OnlyThread(su, c, c', q, t) && c'.data == c.data && 0 <= u <= su.threads && u != t
    ensures SameFor(su, c, c', u)
  {
  }

  // A producer's thread moved on queue q.
  lemma ThreadMoved<M>(su: Setup, c: Chan<M>, abs: seq<Abs>, s: C.State<M>, c': Chan<M>, abs': seq<Abs>,
                       s': C.State<M>, q: int, t: int)
    requires Rel(su, c, abs, s) && Sized(su, c', abs') && 0 <= q < Queues(su) && 0 <= t < su.threads
    requires OnlyThread(su, c, c', q, t) && c'.data == c.data[q := c'.data[q]] && abs' == abs[q := abs'[q]]
    requires |s'.qs| == |s.qs| && s'.qs == s.qs[q := s'.qs[q]]
    requires Refines(ConfigOf(su, q), c'.queues[q], abs'[q]) && QueueRel(s'.qs[q], abs'[q], c'.data[q])
    requires forall u :: 0 <= u <= su.threads && u != t ==> SameFor(su, c, c', u)
    requires c'.cjob == c.cjob && c'.consumer == c.consumer && c'.cursor == c.cursor
    requires SameRest(c', s') && JobOk(su, c', t)
    ensures Rel(su, c', abs', s')
  {
    hide Refines, QueueRel, SameFor, JobOk, ConsumerOk, SameRest;
    QueuesMove(su, c, abs, s, c', abs', s', q);
    forall u | 0 <= u < su.threads
      ensures JobOk(su, c', u)
    {
      if u != t {
        JobStays(su, c, c', u);
      }
    }
    ConsumerStays(su, c, c', su.threads);
  }

  // The consumer moved on queue q.
  lemma ConsumerMoved<M>(su: Setup, c: Chan<M>, abs: seq<Abs>, s: C.State<M>, c': Chan<M>, abs': seq<Abs>,
                         s': C.State<M>, q: int)
    requires Rel(su, c, abs, s) && Sized(su, c', abs') && 0 <= q < Queues(su)
    requires OnlyThread(su, c, c', q, su.threads) && c'.data == c.data && abs' == abs[q := abs'[q]]
    requires c'.jobs == c.jobs && c'.producers == c.producers
    requires |s'.qs| == |s.qs| && s'.qs == s.qs[q := s'.qs[q]]
    requires Refines(ConfigOf(su, q), c'.queues[q], abs'[q]) && QueueRel(s'.qs[q], abs'[q], c'.data[q])
    requires SameRest(c', s') && ConsumerOk(c', su.threads)
    ensures Rel(su, c', abs', s')
  {
    hide Refines, QueueRel, SameFor, JobOk, ConsumerOk, SameRest, OnlyThread;
    SameLength(su, c, c', q);
    QueuesMove(su, c, abs, s, c', abs', s', q);
    forall u | 0 <= u < su.threads
      ensures JobOk(su, c', u)
    {
      OthersSame(su, c, abs, c', q, su.threads, u);
      JobStays(su, c, c', u);
    }
  }

  lemma SameLength<M>(su: Setup, c: Chan<M>, c': Chan<M>, q: int)
    requires OnlyThread(su, c, c', q, su.threads)
    ensures 0 <= q < |c.queues| == |c'.queues| && c'.queues == c.queues[q := c'.queues[q]]
  {
  }

  // Nobody's operation moved.
  lemma NobodyMoved<M>(su: Setup, c: Chan<M>, abs: seq<Abs>, s: C.State<M>, c': Chan<M>, s': C.State<M>)
    requires Rel(su, c, abs, s) && Sized(su, c', abs) && SameRest(c', s') && s'.qs == s.qs
    requires c'.queues == c.queues && c'.data == c.data && c'.jobs == c.jobs && c'.cjob == c.cjob
    requires c'.cursor == c.cursor
    requires c'.consumer == c.consumer || c.cjob.Free?
    requires forall p :: 0 <= p < |su.home| ==> c'.producers[p] == c.producers[p] || AtHome(su, c, p)
    ensures Rel(su, c', abs, s')
  {
    hide Refines, QueueRel;
    assert QueuesOk(su, c', abs, s');
    forall u | 0 <= u < su.threads
      ensures JobOk(su, c', u)
    {
      assert JobOk(su, c, u);
    }
    assert ConsumerOk(c, su.threads);
  }

  // ---------------------------------------------------------------------------------------
  // Every step is a step of the channel, or none.

  ghost predicate Matched<M>(su: Setup, s: C.State<M>, c': Chan<M>, abs': seq<Abs>, s': C.State<M>,
                             did: Option<C.Action<M>>) {
    && Rel(su, c', abs', s')
    && (did == None ==> s' == s)
    && (did.Some? ==> C.Step(C.Origin, s, did.value).Some? && C.Step(C.Origin, s, did.value).value.0 == s')
  }

  lemma RelQueue<M>(su: Setup, c: Chan<M>, abs: seq<Abs>, s: C.State<M>, q: int)
    requires SetupOk(su) && OneTakerEach(su) && Rel(su, c, abs, s) && 0 <= q < Queues(su)
    ensures |s.qs| == Queues(su) && WellFormed(ConfigOf(su, q)) && OneTaker(ConfigOf(su, q))
    ensures Refines(ConfigOf(su, q), c.queues[q], abs[q]) && QueueRel(s.qs[q], abs[q], c.data[q])
  {
    ConfigOk(su, q);
  }

  lemma BeginReserveMatches<M>(su: Setup, c: Chan<M>, abs: seq<Abs>, s: C.State<M>, p: int, q: int)
    requires SetupOk(su) && OneTakerEach(su) && Rel(su, c, abs, s) && Step(su, c, BeginReserve(p, q)).Some?
    ensures Matched(su, s, Step(su, c, BeginReserve(p, q)).value, abs, s, None)
  {
    hide Refines, QueueRel, CasQueue.Step, C.Step, OneTakerEach, ConfigOf, WellFormed, OneTaker, SpecStep;
    var t := su.home[p];
    RelQueue(su, c, abs, s, q);
    assert JobOk(su, c, t);
    var q', ev, a' := QueueStep(ConfigOf(su, q), c.queues[q], abs[q], t, BeginTake(EmptyList));
    BeginIs(ConfigOf(su, q), c.queues[q], t, BeginTake(EmptyList));
    QuietEvent(abs[q], t, ev, s.qs[q], c.data[q]);
    var c' := Step(su, c, BeginReserve(p, q)).value;
    forall u | 0 <= u <= su.threads && u != t
      ensures SameFor(su, c, c', u)
    {
      OthersSame(su, c, abs, c', q, t, u);
    }
    ThreadMoved(su, c, abs, s, c', abs, s, q, t);
  }

  lemma BeginPublishMatches<M>(su: Setup, c: Chan<M>, abs: seq<Abs>, s: C.State<M>, p: int, m: M)
    requires SetupOk(su) && OneTakerEach(su) && Rel(su, c, abs, s) && Step(su, c, BeginPublish(p, m)).Some?
    ensures Matched(su, s, Step(su, c, BeginPublish(p, m)).value, abs, s, None)
  {
    hide Refines, QueueRel, CasQueue.Step, C.Step, OneTakerEach, ConfigOf, WellFormed, OneTaker, SpecStep;
    var t, q, e := su.home[p], c.producers[p].q, c.producers[p].e;
    RelQueue(su, c, abs, s, q);
    assert JobOk(su, c, t);
    var q', ev, a' := QueueStep(ConfigOf(su, q), c.queues[q], abs[q], t, BeginPut(FullList, e));
    BeginIs(ConfigOf(su, q), c.queues[q], t, BeginPut(FullList, e));
    QuietEvent(abs[q], t, ev, s.qs[q], c.data[q]);
    StoreUnseen(ConfigOf(su, q), c.queues[q], abs[q], t, e, m, s.qs[q], c.data[q]);
    var c' := Step(su, c, BeginPublish(p, m)).value;
    forall u | 0 <= u <= su.threads && u != t
      ensures SameFor(su, c, c', u)
    {
      OthersSame(su, c, abs, c'.(data := c.data), q, t, u);
      StoreElsewhere(su, c, abs, s, q, t, e, u);
    }
    ThreadMoved(su, c, abs, s, c', abs, s, q, t);
  }

  // Thread u has a message for queue q under way.
  predicate PutsInto<M>(c: Chan<M>, u: int, q: int) {
    && 0 <= u < |c.jobs| && c.jobs[u].Putting? && c.jobs[u].q == q
    && 0 <= c.jobs[u].p < |c.producers| && c.producers[c.jobs[u].p].Reserved?
  }

  // Another thread's message is in another entry.
  lemma StoreElsewhere<M>(su: Setup, c: Chan<M>, abs: seq<Abs>, s: C.State<M>, q: int, t: int, e: int, u: int)
    requires SetupOk(su) && OneTakerEach(su) && Rel(su, c, abs, s) && 0 <= q < Queues(su)
    requires 0 <= t < su.threads && e in c.queues[q].threads[t].held && 0 <= u <= su.threads && u != t
    ensures PutsInto(c, u, q) ==> c.producers[c.jobs[u].p].e != e
  {
    hide Refines, QueueRel, OneTakerEach, ConfigOf, WellFormed, OneTaker;
    RelQueue(su, c, abs, s, q);
    if PutsInto(c, u, q) {
      assert JobOk(su, c, u);
      OwnersDiffer(ConfigOf(su, q), c.queues[q], abs[q], t, u, e, c.producers[c.jobs[u].p].e);
    }
  }

  lemma ReserveDoes<M>(s: C.State<M>, p: int, q: int)
    requires 0 <= p < |s.producers| && s.producers[p].Ready? && 0 <= q < |s.qs| && s.qs[q].empty != []
    ensures C.Step(C.Origin, s, C.Reserve(p, q)) ==
              Some((s.(qs := s.qs[q := s.qs[q].(empty := s.qs[q].empty[1..])],
                       producers := s.producers[p := C.Reserved(q, s.qs[q].empty[0])]), C.Quiet))
  {
  }

  lemma PublishDoes<M>(s: C.State<M>, p: int, m: M)
    requires 0 <= p < |s.producers| && s.producers[p].Reserved? && 0 <= s.producers[p].q < |s.qs|
    ensures var q, e := s.producers[p].q, s.producers[p].e;
            C.Step(C.Origin, s, C.Publish(p, m)) ==
              Some((s.(qs := s.qs[q := s.qs[q].(full := [C.Item(e, m)] + s.qs[q].full)],
                       producers := s.producers[p := C.Pushed], accepted := s.accepted + [m]), C.Quiet))
  {
  }

  // A get of thread t that is over popped an entry or found none.
  ghost predicate TakingEnds<M>(c: Chan<M>, t: int, c': Chan<M>, s: C.State<M>, did: Option<C.Action<M>>)
    requires 0 <= t < |c.jobs| && c.jobs[t].Taking?
  {
    && t < |c'.jobs| && (did == None ==> c'.jobs[t].Taking? || c'.jobs[t].NoJob?)
    && (did.Some? ==> c'.jobs[t].Unlinking?)
    && (c'.jobs[t].NoJob? ==> 0 <= c.jobs[t].q < |s.qs| && s.qs[c.jobs[t].q].empty == [])
  }

  // A put of thread t, or of the consumer, is over exactly when it pushed.
  ghost predicate PuttingEnds<M>(c: Chan<M>, t: int, c': Chan<M>, did: Option<C.Action<M>>)
    requires 0 <= t < |c.jobs| && c.jobs[t].Putting?
  {
    t < |c'.jobs| && (did == None ==> c'.jobs[t] == c.jobs[t]) && (did.Some? ==> c'.jobs[t].NoJob?)
  }

  lemma TakingMatches<M>(su: Setup, c: Chan<M>, abs: seq<Abs>, s: C.State<M>, t: int)
      returns (abs': seq<Abs>, s': C.State<M>, did: Option<C.Action<M>>)
    requires SetupOk(su) && OneTakerEach(su) && Rel(su, c, abs, s) && 0 <= t < su.threads && c.jobs[t].Taking?
    requires AccessStep(su, c, t).Some?
    ensures Matched(su, s, AccessStep(su, c, t).value, abs', s', did)
    ensures did == None || did == Some(C.Reserve(c.jobs[t].p, c.jobs[t].q))
    ensures TakingEnds(c, t, AccessStep(su, c, t).value, s, did)
  {
    hide Refines, QueueRel, CasQueue.Step, C.Step, OneTakerEach, ConfigOf, WellFormed, OneTaker, SpecStep;
    assert JobOk(su, c, t);
    var p, q := c.jobs[t].p, c.jobs[t].q;
    RelQueue(su, c, abs, s, q);
    var q', ev, a' := QueueStep(ConfigOf(su, q), c.queues[q], abs[q], t, Advance);
    AccessIs(ConfigOf(su, q), c.queues[q], t, EmptyList, 0);
    var c' := AccessStep(su, c, t).value;
    abs', s', did := abs[q := a'], s, None;
    if ev.Took? {
      TookEmpty(abs[q], t, ev.e, ev.edge, s.qs[q], c.data[q]);
      did := Some(C.Reserve(p, q));
      ReserveDoes(s, p, q);
      s' := C.Step(C.Origin, s, did.value).value.0;
    } else {
      QuietEvent(abs[q], t, ev, s.qs[q], c.data[q]);
    }
    assert did == None ==> s.qs[q := s.qs[q]] == s.qs;
    forall u | 0 <= u <= su.threads && u != t
      ensures SameFor(su, c, c', u)
    {
      OthersSame(su, c, abs, c', q, t, u);
    }
    ThreadMoved(su, c, abs, s, c', abs', s', q, t);
  }

  lemma UnlinkingMatches<M>(su: Setup, c: Chan<M>, abs: seq<Abs>, s: C.State<M>, t: int)
    requires SetupOk(su) && OneTakerEach(su) && Rel(su, c, abs, s) && 0 <= t < su.threads && c.jobs[t].Unlinking?
    requires AccessStep(su, c, t).Some?
    ensures Matched(su, s, AccessStep(su, c, t).value, abs, s, None)
  {
    hide Refines, QueueRel, CasQueue.Step, C.Step, OneTakerEach, ConfigOf, WellFormed, OneTaker, SpecStep;
    assert JobOk(su, c, t);
    var q := c.jobs[t].q;
    RelQueue(su, c, abs, s, q);
    var q', ev, a' := QueueStep(ConfigOf(su, q), c.queues[q], abs[q], t, Advance);
    AccessIs(ConfigOf(su, q), c.queues[q], t, EmptyList, 0);
    QuietEvent(abs[q], t, ev, s.qs[q], c.data[q]);
    var c' := AccessStep(su, c, t).value;
    forall u | 0 <= u <= su.threads && u != t
      ensures SameFor(su, c, c', u)
    {
      OthersSame(su, c, abs, c', q, t, u);
    }
    ThreadMoved(su, c, abs, s, c', abs, s, q, t);
  }

  lemma PuttingMatches<M>(su: Setup, c: Chan<M>, abs: seq<Abs>, s: C.State<M>, t: int)
      returns (abs': seq<Abs>, s': C.State<M>, did: Option<C.Action<M>>)
    requires SetupOk(su) && OneTakerEach(su) && Rel(su, c, abs, s) && 0 <= t < su.threads && c.jobs[t].Putting?
    requires AccessStep(su, c, t).Some?
    ensures Matched(su, s, AccessStep(su, c, t).value, abs', s', did)
    ensures did == None || did == Some(C.Publish(c.jobs[t].p, c.jobs[t].m))
    ensures PuttingEnds(c, t, AccessStep(su, c, t).value, did)
  {
    hide Refines, QueueRel, CasQueue.Step, C.Step, OneTakerEach, ConfigOf, WellFormed, OneTaker, SpecStep;
    assert JobOk(su, c, t);
    var p, q, m := c.jobs[t].p, c.jobs[t].q, c.jobs[t].m;
    RelQueue(su, c, abs, s, q);
    var q', ev, a' := QueueStep(ConfigOf(su, q), c.queues[q], abs[q], t, Advance);
    AccessIs(ConfigOf(su, q), c.queues[q], t, FullList, c.producers[p].e);
    var c' := AccessStep(su, c, t).value;
    abs', s', did := abs[q := a'], s, None;
    if ev.Put? {
      PutFull(abs[q], t, ev.e, ev.edge, s.qs[q], c.data[q]);
      did := Some(C.Publish(p, m));
      PublishDoes(s, p, m);
      s' := C.Step(C.Origin, s, did.value).value.0;
    } else {
      QuietEvent(abs[q], t, ev, s.qs[q], c.data[q]);
    }
    assert did == None ==> s.qs[q := s.qs[q]] == s.qs;
    forall u | 0 <= u <= su.threads && u != t
      ensures SameFor(su, c, c', u)
    {
      OthersSame(su, c, abs, c', q, t, u);
    }
    ThreadMoved(su, c, abs, s, c', abs', s', q, t);
  }

  lemma BeginConsumerMatches<M>(su: Setup, c: Chan<M>, abs: seq<Abs>, s: C.State<M>, act: Act<M>)
    requires SetupOk(su) && OneTakerEach(su) && Rel(su, c, abs, s) && (act.BeginProbe? || act.BeginRecycle?)
    requires Step(su, c, act).Some?
    ensures Matched(su, s, Step(su, c, act).value, abs, s, None)
  {
    hide Refines, QueueRel, CasQueue.Step, C.Step, OneTakerEach, ConfigOf, WellFormed, OneTaker, SpecStep;
    var q := if act.BeginProbe? then c.cursor else c.consumer.q;
    var op := if act.BeginProbe? then BeginTake(FullList) else BeginPut(EmptyList, c.consumer.e);
    RelQueue(su, c, abs, s, q);
    var q', ev, a' := QueueStep(ConfigOf(su, q), c.queues[q], abs[q], su.threads, op);
    BeginIs(ConfigOf(su, q), c.queues[q], su.threads, op);
    QuietEvent(abs[q], su.threads, ev, s.qs[q], c.data[q]);
    ConsumerMoved(su, c, abs, s, Step(su, c, act).value, abs, s, q);
  }

  lemma ProbingMatches<M>(su: Setup, c: Chan<M>, abs: seq<Abs>, s: C.State<M>)
      returns (abs': seq<Abs>, s': C.State<M>, did: Option<C.Action<M>>)
    requires SetupOk(su) && OneTakerEach(su) && Rel(su, c, abs, s) && c.cjob.Probing? && ConsumerAccess(su, c).Some?
    ensures Matched(su, s, ConsumerAccess(su, c).value, abs', s', did) && (did == None || did == Some(C.Probe))
  {
    hide Refines, QueueRel, CasQueue.Step, OneTakerEach, ConfigOf, WellFormed, OneTaker, SpecStep;
    var q, t := c.cursor, su.threads;
    RelQueue(su, c, abs, s, q);
    var q', ev, a' := QueueStep(ConfigOf(su, q), c.queues[q], abs[q], t, Advance);
    AccessIs(ConfigOf(su, q), c.queues[q], t, FullList, 0);
    abs', s', did := abs[q := a'], s, None;
    if ev.Took? {
      TookFull(abs[q], t, ev.e, ev.edge, s.qs[q], c.data[q]);
    } else {
      QuietEvent(abs[q], t, ev, s.qs[q], c.data[q]);
    }
    if ev.Took? || ev.Nothing? {
      did := Some(C.Probe);
      s' := C.Step(C.Origin, s, C.Probe).value.0;
      assert s.qs[q := s.qs[q]] == s.qs;
    }
    ConsumerMoved(su, c, abs, s, ConsumerAccess(su, c).value, abs', s', q);
  }

  lemma LeavingMatches<M>(su: Setup, c: Chan<M>, abs: seq<Abs>, s: C.State<M>)
    requires SetupOk(su) && OneTakerEach(su) && Rel(su, c, abs, s) && c.cjob.Leaving? && ConsumerAccess(su, c).Some?
    ensures Matched(su, s, ConsumerAccess(su, c).value, abs, s, None)
  {
    hide Refines, QueueRel, CasQueue.Step, C.Step, OneTakerEach, ConfigOf, WellFormed, OneTaker, SpecStep;
    var q, t := c.cjob.q, su.threads;
    RelQueue(su, c, abs, s, q);
    var q', ev, a' := QueueStep(ConfigOf(su, q), c.queues[q], abs[q], t, Advance);
    AccessIs(ConfigOf(su, q), c.queues[q], t, FullList, 0);
    QuietEvent(abs[q], t, ev, s.qs[q], c.data[q]);
    ConsumerMoved(su, c, abs, s, ConsumerAccess(su, c).value, abs, s, q);
  }

  lemma RecyclingMatches<M>(su: Setup, c: Chan<M>, abs: seq<Abs>, s: C.State<M>)
      returns (abs': seq<Abs>, s': C.State<M>, did: Option<C.Action<M>>)
    requires SetupOk(su) && OneTakerEach(su) && Rel(su, c, abs, s) && c.cjob.Recycling? && ConsumerAccess(su, c).Some?
    ensures Matched(su, s, ConsumerAccess(su, c).value, abs', s', did) && (did == None || did == Some(C.Recycle))
    ensures did == None <==> ConsumerAccess(su, c).value.cjob.Recycling?
    ensures did.Some? ==> ConsumerAccess(su, c).value.cjob.Free?
  {
    hide Refines, QueueRel, CasQueue.Step, OneTakerEach, ConfigOf, WellFormed, OneTaker, SpecStep;
    var q, t := c.cjob.q, su.threads;
    RelQueue(su, c, abs, s, q);
    var q', ev, a' := QueueStep(ConfigOf(su, q), c.queues[q], abs[q], t, Advance);
    AccessIs(ConfigOf(su, q), c.queues[q], t, EmptyList, c.consumer.e);
    abs', s', did := abs[q := a'], s, None;
    if ev.Put? {
      PutEmpty(abs[q], t, ev.e, ev.edge, s.qs[q], c.data[q]);
      did := Some(C.Recycle);
      s' := C.Step(C.Origin, s, C.Recycle).value.0;
    } else {
      QuietEvent(abs[q], t, ev, s.qs[q], c.data[q]);
    }
    ConsumerMoved(su, c, abs, s, ConsumerAccess(su, c).value, abs', s', q);
  }

  // Signals, closing connections, the wait and the call of the function touch no list.
  function Coarse<M>(act: Act<M>): C.Action<M>
    requires act.Signal? || act.Close? || act.Wait? || act.Serve?
  {
    match act
    case Signal(p) => C.Signal(p)
    case Close(p) => C.Close(p)
    case Wait => C.Wait
    case Serve => C.Serve
  }

  lemma PlainMatches<M>(su: Setup, c: Chan<M>, abs: seq<Abs>, s: C.State<M>, act: Act<M>)
    requires Rel(su, c, abs, s) && (act.Signal? || act.Close? || act.Wait? || act.Serve?) && Step(su, c, act).Some?
    ensures C.Step(C.Origin, s, Coarse(act)).Some?
    ensures Matched(su, s, Step(su, c, act).value, abs, C.Step(C.Origin, s, Coarse(act)).value.0, Some(Coarse(act)))
  {
    hide QueuesOk, JobsOk;
    NobodyMoved(su, c, abs, s, Step(su, c, act).value, C.Step(C.Origin, s, Coarse(act)).value.0);
  }

  // The channel action a step may amount to, and that it does when it ends an operation.
  ghost predicate Does<M>(su: Setup, c: Chan<M>, act: Act<M>, c': Chan<M>, s: C.State<M>, did: Option<C.Action<M>>) {
    && (act.Access? && 0 <= act.t < |c.jobs| && act.t != su.threads && c.jobs[act.t].Taking? ==>
          TakingEnds(c, act.t, c', s, did))
    && (act.Access? && 0 <= act.t < |c.jobs| && act.t != su.threads && c.jobs[act.t].Putting? ==>
          PuttingEnds(c, act.t, c', did))
    && (act == Access(su.threads) && c.cjob.Recycling? ==>
          (did == None <==> c'.cjob.Recycling?) && (did.Some? ==> c'.cjob.Free?))
    && match act
    case Signal(_) => did == Some(Coarse(act))
    case Close(_) => did == Some(Coarse(act))
    case Wait => did == Some(Coarse(act))
    case Serve => did == Some(Coarse(act))
    case Access(t) =>
      did == None
      || (if t == su.threads then
            (c.cjob.Probing? && did == Some(C.Probe)) || (c.cjob.Recycling? && did == Some(C.Recycle))
          else
            0 <= t < |c.jobs| && ((c.jobs[t].Taking? && did == Some(C.Reserve(c.jobs[t].p, c.jobs[t].q)))
                                  || (c.jobs[t].Putting? && did == Some(C.Publish(c.jobs[t].p, c.jobs[t].m)))))
    case _ => did == None
  }

  /** Any one access, of any thread, is one step of the channel on its atomic lists, or changes nothing there. */
  lemma StepMatches<M>(su: Setup, c: Chan<M>, abs: seq<Abs>, s: C.State<M>, act: Act<M>)
      returns (abs': seq<Abs>, s': C.State<M>, did: Option<C.Action<M>>)
    requires SetupOk(su) && OneTakerEach(su) && Rel(su, c, abs, s) && Step(su, c, act).Some?
    ensures Matched(su, s, Step(su, c, act).value, abs', s', did) && Does(su, c, act, Step(su, c, act).value, s, did)
  {
    hide SetupOk, OneTakerEach, Rel, Matched, AccessStep, C.Step, OnQueue, AtHome;
    abs', s', did := abs, s, None;
    match act
    case BeginReserve(p, q) => BeginReserveMatches(su, c, abs, s, p, q);
    case BeginPublish(p, m) => BeginPublishMatches(su, c, abs, s, p, m);
    case BeginProbe => BeginConsumerMatches(su, c, abs, s, act);
    case BeginRecycle => BeginConsumerMatches(su, c, abs, s, act);
    case Access(t) =>
      if t == su.threads {
        if c.cjob.Probing? {
          abs', s', did := ProbingMatches(su, c, abs, s);
        } else if c.cjob.Leaving? {
          LeavingMatches(su, c, abs, s);
        } else {
          abs', s', did := RecyclingMatches(su, c, abs, s);
        }
      } else {
        abs', s', did := AccessMatches(su, c, abs, s, t);
      }
    case _ =>
      PlainMatches(su, c, abs, s, act);
      s', did := C.Step(C.Origin, s, Coarse(act)).value.0, Some(Coarse(act));
  }

  lemma AccessMatches<M>(su: Setup, c: Chan<M>, abs: seq<Abs>, s: C.State<M>, t: int)
      returns (abs': seq<Abs>, s': C.State<M>, did: Option<C.Action<M>>)
    requires SetupOk(su) && OneTakerEach(su) && Rel(su, c, abs, s) && 0 <= t < |c.jobs| && t != su.threads
    requires AccessStep(su, c, t).Some?
    ensures Matched(su, s, AccessStep(su, c, t).value, abs', s', did)
    ensures Does(su, c, Access(t), AccessStep(su, c, t).value, s, did)
  {
    hide SetupOk, OneTakerEach, QueuesOk, JobsOk, Matched, C.Step, OnQueue;
    abs', s', did := abs, s, None;
    if c.jobs[t].Taking? {
      abs', s', did := TakingMatches(su, c, abs, s, t);
    } else if c.jobs[t].Unlinking? {
      UnlinkingMatches(su, c, abs, s, t);
    } else {
      abs', s', did := PuttingMatches(su, c, abs, s, t);
    }
  }

  // ---------------------------------------------------------------------------------------
  // Whole runs.

  lemma {:induction false} RunMatches<M>(su: Setup, c: Chan<M>, abs: seq<Abs>, s: C.State<M>, acts: seq<Act<M>>)
      returns (abs': seq<Abs>, s': C.State<M>, did: seq<C.Action<M>>)
    requires SetupOk(su) && OneTakerEach(su) && Rel(su, c, abs, s) && Run(su, c, acts).Some?
    ensures Rel(su, Run(su, c, acts).value, abs', s')
    ensures C.Run(C.Origin, s, did).Some? && C.Run(C.Origin, s, did).value.0 == s'
    decreases |acts|
  {
    hide SetupOk, OneTakerEach, Rel, Step, C.Step;
    if acts == [] {
      abs', s', did := abs, s, [];
    } else {
      var abs1, s1, one := StepMatches(su, c, abs, s, acts[0]);
      var rest;
      abs', s', rest := RunMatches(su, Step(su, c, acts[0]).value, abs1, s1, acts[1..]);
      did := rest;
      if one.Some? {
        did := [one.value] + rest;
        assert did[1..] == rest;
      }
    }
  }

  lemma StartRel<M>(su: Setup) returns (abs: seq<Abs>)
    requires SetupOk(su)
    ensures Rel(su, Start<M>(su), abs, C.Init(su.qlens, |su.home|))
  {
    hide Refines, WellFormed;
    abs := seq(Queues(su), q requires 0 <= q < Queues(su) => InitAbs(ConfigOf(su, q)));
    var c, s := Start<M>(su), C.Init<M>(su.qlens, |su.home|);
    forall q | 0 <= q < Queues(su)
      ensures Refines(ConfigOf(su, q), c.queues[q], abs[q]) && QueueRel(s.qs[q], abs[q], c.data[q])
    {
      ConfigOk(su, q);
      CasRuns.InitRefines(ConfigOf(su, q));
    }
    forall t | 0 <= t <= su.threads
      ensures IdleExcept(c, t, -1)
    {
    }
  }

  /** qs are the queues' lists: the linked chains, and the message in each published entry. */
  ghost predicate ListsAre<M>(c: Chan<M>, qs: seq<C.Queue<M>>) {
    |qs| == |c.queues| && forall q :: 0 <= q < |qs| ==> QueueIs(c, q, qs[q])
  }

  // The entries of a full list, in order.
  function Chain<M>(sq: C.Queue<M>): seq<int> { seq(|sq.full|, i requires 0 <= i < |sq.full| => sq.full[i].entry) }

  ghost predicate QueueIs<M>(c: Chan<M>, q: int, sq: C.Queue<M>) {
    && 0 <= q < |c.queues| && q < |c.data|
    && Linked(c.queues[q].next, c.queues[q].empty, sq.empty) && Distinct(sq.empty)
    && Linked(c.queues[q].next, c.queues[q].full, Chain(sq)) && Distinct(Chain(sq))
    && forall i :: 0 <= i < |sq.full| ==> sq.full[i].entry in c.data[q] && sq.full[i].msg == c.data[q][sq.full[i].entry]
  }

  lemma RelLists<M>(su: Setup, c: Chan<M>, abs: seq<Abs>, s: C.State<M>)
    requires Rel(su, c, abs, s)
    ensures SameRest(c, s) && ListsAre(c, s.qs)
  {
    hide Linked, Distinct;
    forall q | 0 <= q < |s.qs|
      ensures QueueIs(c, q, s.qs[q])
    {
      assert Refines(ConfigOf(su, q), c.queues[q], abs[q]) && QueueRel(s.qs[q], abs[q], c.data[q]);
      assert ListOk(c.queues[q], abs[q], EmptyList) && ListOk(c.queues[q], abs[q], FullList);
      assert Chain(s.qs[q]) == abs[q].fulls;
    }
  }

  lemma SameChain(next: seq<int>, head: int, st: seq<int>, st': seq<int>)
    requires Linked(next, head, st) && Linked(next, head, st')
    ensures st == st'
  {
    if st != [] {
      CasRuns.LinkedUnique(next, head, st, st', |st| - 1);
    }
    if st' != [] {
      CasRuns.LinkedUnique(next, head, st', st, |st'| - 1);
    }
    forall k | 0 <= k < |st|
      ensures k < |st'| && st[k] == st'[k]
    {
      CasRuns.LinkedUnique(next, head, st, st', k);
    }
  }

  // The heads and links determine the lists.
  lemma ListsUnique<M>(c: Chan<M>, qs: seq<C.Queue<M>>, qs': seq<C.Queue<M>>)
    requires ListsAre(c, qs) && ListsAre(c, qs')
    ensures qs == qs'
  {
    hide Linked, Distinct;
    forall q | 0 <= q < |qs|
      ensures qs[q] == qs'[q]
    {
      assert QueueIs(c, q, qs[q]) && QueueIs(c, q, qs'[q]);
      SameChain(c.queues[q].next, c.queues[q].empty, qs[q].empty, qs'[q].empty);
      SameChain(c.queues[q].next, c.queues[q].full, Chain(qs[q]), Chain(qs'[q]));
      assert |qs[q].full| == |Chain(qs[q])| && |qs'[q].full| == |Chain(qs'[q])|;
      forall i | 0 <= i < |qs[q].full|
        ensures qs[q].full[i] == qs'[q].full[i]
      {
        assert Chain(qs[q])[i] == Chain(qs'[q])[i];
      }
    }
  }

  /** Every interleaving of single accesses, of any length, is a run of the channel with atomic lists: the same
      semaphore, producers, consumer and messages accepted and served, and the channel's lists are the chains. */
  lemma RunsAreChannelRuns<M>(su: Setup, acts: seq<Act<M>>) returns (did: seq<C.Action<M>>, s: C.State<M>)
    requires SetupOk(su) && OneTakerEach(su) && Run(su, Start(su), acts).Some?
    ensures C.Run(C.Origin, C.Init(su.qlens, |su.home|), did).Some?
    ensures C.Run(C.Origin, C.Init(su.qlens, |su.home|), did).value.0 == s
    ensures SameRest(Run(su, Start(su), acts).value, s) && ListsAre(Run(su, Start(su), acts).value, s.qs)
  {
    hide Run, C.Run, SetupOk, OneTakerEach, Rel;
    var abs := StartRel<M>(su);
    var abs';
    abs', s, did := RunMatches(su, Start(su), abs, C.Init(su.qlens, |su.home|), acts);
    RelLists(su, Run(su, Start(su), acts).value, abs', s);
  }
}
