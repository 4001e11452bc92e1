// Workers and their output with every list operation taken apart: each worker is the consumer thread of its own
// queues and a producer's thread of the output's queue.  Under one taker per list every interleaving is a run of
// Pipeline, so what Pipeline promises holds between any two accesses.
module CasPipeline {
  import opened Common
  import CasPremise
  import C = Channel
  import F = CasChannel
  import P = Pipeline

  // The channels, access by access, and the workers that found the output full.
  datatype Fine<M, N> = Fine(ins: seq<F.Chan<M>>, out: F.Chan<N>, fell: set<int>)

  // The queues and input threads of each worker, and the length of the output's queue.
  datatype Setup = Setup(ins: seq<F.Setup>, outlen: nat)

  // Worker w is producer w of the output, and serves itself.
  function OutSetup(su: Setup): F.Setup {
    F.Setup([su.outlen], |su.ins|, seq(|su.ins|, w => w))
  }

  ghost predicate SetupOk(su: Setup) {
    su.outlen >= 1 && forall w :: 0 <= w < |su.ins| ==> F.SetupOk(su.ins[w])
  }

  // One taker per list everywhere.
  ghost predicate OneTakerAll(su: Setup) {
    F.OneTakerEach(OutSetup(su)) && forall w :: 0 <= w < |su.ins| ==> F.OneTakerEach(su.ins[w])
  }

  datatype Move<M, N> =
    | Input(w: int, act: F.Act<M>)     // connections of worker w and their threads, its wait, scan and accesses
    | ReserveOut(w: int)
    | Call(w: int)
    | Deliver(w: int)
    | OutAccess(w: int)                // worker w's next access to the output's queue
    | SignalOut(w: int)
    | GiveBack(w: int)
    | Output(send: F.Act<N>)           // the output thread

  // ---------------------------------------------------------------------------------------
  // Steps.

  // Worker w is between list operations, and as far with its message as P.Phase says.
  predicate Phase<M, N>(s: Fine<M, N>, w: int, ran: bool, reserved: bool) {
    && 0 <= w < |s.ins| && w < |s.out.producers| && w !in s.fell
    && w < |s.out.jobs| && s.out.jobs[w].NoJob? && s.ins[w].cjob.Free?
    && (if ran then s.ins[w].consumer.Ran? && s.ins[w].served != [] else s.ins[w].consumer.Holding?)
    && (if reserved then s.out.producers[w].Reserved? else s.out.producers[w].Ready?)
  }

  function InStep<M, N>(su: Setup, s: Fine<M, N>, w: int, act: F.Act<M>): Option<Fine<M, N>> {
    if !(0 <= w < |s.ins| && w < |su.ins|) then None else
    match F.Step(su.ins[w], s.ins[w], act)
    case None => None
    case Some(c) => Some(s.(ins := s.ins[w := c]))
  }

  function OutStep<M, N>(su: Setup, s: Fine<M, N>, act: F.Act<N>): Option<Fine<M, N>> {
    match F.Step(OutSetup(su), s.out, act)
    case None => None
    case Some(c) => Some(s.(out := c))
  }

  // A worker whose get is over without an entry has found the output full.
  function Noticed<M, N>(s: Fine<M, N>, w: int, s1: Fine<M, N>): Fine<M, N> {
    if Missed(s, w, s1.out) then s1.(fell := s1.fell + {w}) else s1
  }

  predicate Missed<M, N>(s: Fine<M, N>, w: int, c: F.Chan<N>) {
    0 <= w < |s.out.jobs| && w < |c.jobs| && s.out.jobs[w].Taking? && c.jobs[w].NoJob?
  }

  function Step<M, N>(su: Setup, work: (int, M) -> N, s: Fine<M, N>, mv: Move<M, N>): Option<Fine<M, N>> {
    match mv
    case Input(w, act) => if act.Serve? || act.BeginRecycle? then None else InStep(su, s, w, act)
    case ReserveOut(w) => if Phase(s, w, false, false) then OutStep(su, s, F.BeginReserve(w, 0)) else None
    case Call(w) => if Phase(s, w, false, true) then InStep(su, s, w, F.Serve) else None
    case Deliver(w) =>
      if Phase(s, w, true, true) then OutStep(su, s, F.BeginPublish(w, work(w, P.Last(s.ins[w].served)))) else None
    case OutAccess(w) =>
      if 0 <= w < |su.ins| then
        match OutStep(su, s, F.Access(w))
        case None => None
        case Some(s1) => Some(Noticed(s, w, s1))
      else None
    case SignalOut(w) => OutStep(su, s, F.Signal(w))
    case GiveBack(w) => if Phase(s, w, true, false) then InStep(su, s, w, F.BeginRecycle) else None
    case Output(send) =>
      if send.Wait? || send.BeginProbe? || send.Serve? || send.BeginRecycle?
         || (send.Access? && send.t == |su.ins|) then
        OutStep(su, s, send)
      else None
  }

  function Run<M, N>(su: Setup, work: (int, M) -> N, s: Fine<M, N>, mvs: seq<Move<M, N>>): Option<Fine<M, N>>
    decreases |mvs|
  {
    if mvs == [] then Some(s)
    else
      match Step(su, work, s, mvs[0])
      case None => None
      case Some(s1) => Run(su, work, s1, mvs[1..])
  }

  function Start<M, N>(su: Setup): Fine<M, N> {
    Fine(seq(|su.ins|, w requires 0 <= w < |su.ins| => F.Start(su.ins[w])), F.Start(OutSetup(su)), {})
  }

  // ---------------------------------------------------------------------------------------
  // The simulation relation.

  // What a worker's unfinished list operation says about its message.
  ghost predicate WorkerOk<M, N>(work: (int, M) -> N, s: Fine<M, N>, w: int)
    requires 0 <= w < |s.ins| && w < |s.out.producers| && w < |s.out.jobs|
  {
    var c, job := s.ins[w], s.out.jobs[w];
    && (c.consumer.Ran? ==> c.served != [])
    && (job.Taking? ==>
          job.p == w && job.q == 0 && c.consumer.Holding? && c.cjob.Free? && s.out.producers[w].Ready?)
    && (job.Putting? ==>
          && job.p == w && c.consumer.Ran? && c.cjob.Free? && s.out.producers[w].Reserved?
          && c.served != [] && job.m == work(w, P.Last(c.served)))
    && (c.cjob.Recycling? ==> job.NoJob? && c.consumer.Ran? && s.out.producers[w].Ready?)
    && (job.Taking? || job.Putting? || c.cjob.Recycling? ==> w !in s.fell)
  }

  // The stacks of every queue.
  datatype Stacks = Stacks(ins: seq<seq<F.CasQueue.Abs>>, out: seq<F.CasQueue.Abs>)

  ghost predicate Rel<M, N>(su: Setup, work: (int, M) -> N, s: Fine<M, N>, k: Stacks, p: P.Pipe<M, N>) {
    && |s.ins| == |su.ins| == |k.ins| == |p.ins| && |s.out.producers| == |s.out.jobs| == |su.ins|
    && (forall w :: 0 <= w < |su.ins| ==> F.Rel(su.ins[w], s.ins[w], k.ins[w], p.ins[w]))
    && F.Rel(OutSetup(su), s.out, k.out, p.out)
    && (forall w :: 0 <= w < |su.ins| ==> WorkerOk(work, s, w)) && s.fell == p.fell
  }

  // ---------------------------------------------------------------------------------------
  // What a step of one channel leaves alone.

  lemma InputFrame<M>(su: F.Setup, c: F.Chan<M>, act: F.Act<M>)
    requires F.Step(su, c, act).Some? && !act.Serve? && !act.BeginRecycle?
    ensures var c' := F.Step(su, c, act).value;
            && c'.served == c.served && (c'.consumer.Ran? ==> c.consumer.Ran?)
            && (c'.cjob.Recycling? ==> c.cjob.Recycling?)
            && (c.cjob.Free? && (c.consumer.Holding? || c.consumer.Ran?) ==>
                 c'.consumer == c.consumer && c'.cjob == c.cjob)
            && (c.cjob.Recycling? && c'.cjob.Recycling? ==> c'.consumer == c.consumer)
  {
    hide F.CasQueue.Step, F.ConfigOf;
  }

  lemma WorkerFrame<M>(su: F.Setup, c: F.Chan<M>, act: F.Act<M>)
    requires F.Step(su, c, act).Some? && (act.Serve? || act.BeginRecycle?)
    ensures var c' := F.Step(su, c, act).value;
            && (act.Serve? ==>
                  && c.consumer.Holding? && c'.consumer.Ran? && c'.cjob == c.cjob
                  && c'.served == c.served + [c.consumer.msg])
            && (act.BeginRecycle? ==> c'.consumer == c.consumer && c'.cjob.Recycling? && c'.served == c.served)
  {
    hide F.CasQueue.Step, F.ConfigOf;
  }

  // A step of worker w's thread on the output's queue, whose producers serve themselves.
  lemma OutputFrame<N>(su: F.Setup, c: F.Chan<N>, act: F.Act<N>)
    requires F.Step(su, c, act).Some? && !act.Close? && |c.jobs| == |c.producers| == |su.home| == su.threads
    requires forall p :: 0 <= p < |su.home| ==> su.home[p] == p
    requires act.Access? && act.t < su.threads ==>
               0 <= act.t && (c.jobs[act.t].Taking? || c.jobs[act.t].Putting? ==> c.jobs[act.t].p == act.t)
    ensures var c' := F.Step(su, c, act).value;
            && |c'.jobs| == |c.jobs| && |c'.producers| == |c.producers|
            && (act.BeginReserve? ==>
                  && 0 <= act.p < |c.jobs| && c.jobs[act.p].NoJob? && c.producers[act.p].Ready?
                  && c'.producers == c.producers
                  && c'.jobs == c.jobs[act.p := F.Taking(act.p, act.q)])
            && (act.BeginPublish? ==>
                  && 0 <= act.p < |c.jobs| && c.jobs[act.p].NoJob? && c.producers[act.p].Reserved?
                  && c'.producers == c.producers
                  && c'.jobs == c.jobs[act.p := F.Putting(act.p, c.producers[act.p].q, act.m)])
            && (act.Signal? ==>
                  && 0 <= act.p < |c.jobs| && c.jobs[act.p].NoJob? && c.producers[act.p].Pushed? && c'.jobs == c.jobs
                  && c'.producers == c.producers[act.p := C.Ready])
            && (!act.BeginReserve? && !act.BeginPublish? && !act.Signal? && (act.Access? ==> act.t == su.threads) ==>
                  c'.jobs == c.jobs && c'.producers == c.producers)
            && (act.Access? && act.t < su.threads ==>
                  && c'.jobs == c.jobs[act.t := c'.jobs[act.t]]
                  && c'.producers == c.producers[act.t := c'.producers[act.t]]
                  && !c.jobs[act.t].NoJob?
                  && (c'.jobs[act.t] == c.jobs[act.t] ==> c'.producers[act.t] == c.producers[act.t])
                  && (c'.jobs[act.t] != c.jobs[act.t] ==> c'.jobs[act.t].NoJob? || c'.jobs[act.t].Unlinking?))
  {
    hide F.CasQueue.Step, F.ConfigOf;
  }

  // ---------------------------------------------------------------------------------------
  // Every step is a move of the pipeline, or none.

  lemma OutSetupOk(su: Setup)
    requires SetupOk(su)
    ensures F.SetupOk(OutSetup(su)) && |OutSetup(su).home| == |su.ins| == OutSetup(su).threads
    ensures forall p :: 0 <= p < |su.ins| ==> OutSetup(su).home[p] == p
  {
  }

  // A move of a worker's own channel that calls no function.
  predicate Apart<M, N>(did: Option<P.Move<M, N>>) {
    did == None || did.value.Input? || did.value.GiveBack?
  }

  // What a step on the output's queue may amount to.
  predicate OutputKind<M, N>(s: Fine<M, N>, act: F.Act<N>, did: Option<P.Move<M, N>>) {
    match act
    case Signal(w) => did == Some(P.SignalOut(w))
    case Serve => did == Some(P.Output(C.Serve))
    case Wait => did == Some(P.Output(C.Wait))
    case Access(w) =>
      || did == None
      || (0 <= w < |s.out.jobs| && did == Some(P.ReserveOut(w)))
      || (0 <= w < |s.out.jobs| && s.out.jobs[w].Putting? && did == Some(P.Deliver(w)))
      || did == Some(P.Output(C.Probe)) || (s.out.cjob.Recycling? && did == Some(P.Output(C.Recycle)))
    case _ => did == None
  }

  /** The moves of the pipeline that a step may be. */
  predicate Kind<M, N>(s: Fine<M, N>, mv: Move<M, N>, did: Option<P.Move<M, N>>) {
    match mv
    case Input(_, _) => Apart(did)
    case Call(w) => did == Some(P.Call(w))
    case SignalOut(w) => did == Some(P.SignalOut(w))
    case OutAccess(w) => did == Some(P.Fall(w)) || OutputKind(s, F.Access(w), did)
    case Output(send) => OutputKind(s, send, did)
    case _ => did == None
  }

  // Worker w's channel moved to c, with stacks and state to match.
  lemma InputMoved<M, N>(su: Setup, work: (int, M) -> N, s: Fine<M, N>, k: Stacks, p: P.Pipe<M, N>, w: int,
                         c: F.Chan<M>, abs: seq<F.CasQueue.Abs>, t: C.State<M>)
    requires Rel(su, work, s, k, p) && 0 <= w < |su.ins| && F.Rel(su.ins[w], c, abs, t)
    requires WorkerOk(work, s.(ins := s.ins[w := c]), w)
    ensures Rel(su, work, s.(ins := s.ins[w := c]), k.(ins := k.ins[w := abs]), p.(ins := p.ins[w := t]))
  {
    hide F.Rel;
    var s' := s.(ins := s.ins[w := c]);
    forall v | 0 <= v < |su.ins|
      ensures WorkerOk(work, s', v)
    {
      assert WorkerOk(work, s, v);
    }
  }

  lemma OutputMoved<M, N>(su: Setup, work: (int, M) -> N, s: Fine<M, N>, k: Stacks, p: P.Pipe<M, N>, c: F.Chan<N>,
                          abs: seq<F.CasQueue.Abs>, t: C.State<N>, w: int)
    requires Rel(su, work, s, k, p) && F.Rel(OutSetup(su), c, abs, t) && |c.producers| == |c.jobs| == |su.ins|
    requires 0 <= w < |su.ins| ==> WorkerOk(work, s.(out := c), w)
    requires forall v :: 0 <= v < |su.ins| && v != w ==>
               c.producers[v] == s.out.producers[v] && c.jobs[v] == s.out.jobs[v]
    ensures Rel(su, work, s.(out := c), k.(out := abs), p.(out := t))
  {
    hide F.Rel;
    var s' := s.(out := c);
    forall v | 0 <= v < |su.ins|
      ensures WorkerOk(work, s', v)
    {
      assert WorkerOk(work, s, v);
    }
  }

  ghost predicate Matched<M, N>(su: Setup, work: (int, M) -> N, p: P.Pipe<M, N>, s': Fine<M, N>, k': Stacks,
                                p': P.Pipe<M, N>, did: Option<P.Move<M, N>>) {
    && Rel(su, work, s', k', p')
    && (did == None ==> p' == p)
    && (did.Some? ==> P.Move1(work, p, did.value) == Some(p'))
  }

  // The move that a step of worker w's own channel is.
  function InputMove<M, N>(w: int, b: C.Action<M>): P.Move<M, N> {
    if b.Serve? then P.Call(w) else if b.Recycle? then P.GiveBack(w) else P.Input(w, b)
  }

  lemma InputMatches<M, N>(su: Setup, work: (int, M) -> N, s: Fine<M, N>, k: Stacks, p: P.Pipe<M, N>, w: int,
                           act: F.Act<M>)
      returns (k': Stacks, p': P.Pipe<M, N>, did: Option<P.Move<M, N>>)
    requires SetupOk(su) && OneTakerAll(su) && Rel(su, work, s, k, p) && InStep(su, s, w, act).Some?
    requires act.Serve? ==> Phase(s, w, false, true)
    requires act.BeginRecycle? ==> Phase(s, w, true, false)
    ensures Matched(su, work, p, InStep(su, s, w, act).value, k', p', did)
    ensures if act.Serve? then did == Some(P.Call(w)) else Apart(did)
    ensures act.BeginRecycle? ==> did == None
  {
    hide F.Rel, F.Step, F.SetupOk, F.OneTakerEach, C.Step, F.AccessStep, F.ConsumerAccess;
    var c' := F.Step(su.ins[w], s.ins[w], act).value;
    var abs', t', one := F.StepMatches(su.ins[w], s.ins[w], k.ins[w], p.ins[w], act);
    SameSeen(su.ins[w], s.ins[w], k.ins[w], p.ins[w]);
    SameSeen(OutSetup(su), s.out, k.out, p.out);
    assert WorkerOk(work, s, w);
    if act.Serve? || act.BeginRecycle? {
      WorkerFrame(su.ins[w], s.ins[w], act);
    } else {
      InputFrame(su.ins[w], s.ins[w], act);
    }
    InputMoved(su, work, s, k, p, w, c', abs', t');
    k', p' := k.(ins := k.ins[w := abs']), p.(ins := p.ins[w := t']);
    did := None;
    if one.Some? {
      did := Some(InputMove(w, one.value));
    } else {
      assert p.ins[w := p.ins[w]] == p.ins;
    }
  }

  lemma SameSeen<M>(su: F.Setup, c: F.Chan<M>, abs: seq<F.CasQueue.Abs>, t: C.State<M>)
    requires F.Rel(su, c, abs, t)
    ensures F.SameRest(c, t) && F.Sized(su, c, abs)
  {
  }

  // The move that a step of the output's channel is.
  function OutputMove<M, N>(b: C.Action<N>): P.Move<M, N> {
    match b
    case Reserve(w, _) => P.ReserveOut(w)
    case Publish(w, _) => P.Deliver(w)
    case Signal(w) => P.SignalOut(w)
    case _ => P.Output(b)
  }

  ghost predicate ByWorker<M, N>(su: Setup, work: (int, M) -> N, s: Fine<M, N>, act: F.Act<N>, w: int) {
    match act
    case BeginReserve(v, q) => v == w && q == 0 && Phase(s, w, false, false)
    case BeginPublish(v, m) => v == w && Phase(s, w, true, true) && m == work(w, P.Last(s.ins[w].served))
    case Signal(v) => v == w
    case Close(_) => false
    case Access(v) => (0 <= v < |su.ins| && v == w) || (v == |su.ins| && w == -1)
    case _ => w == -1
  }

  lemma OutputMatches<M, N>(su: Setup, work: (int, M) -> N, s: Fine<M, N>, k: Stacks, p: P.Pipe<M, N>, act: F.Act<N>,
                            w: int)
      returns (k': Stacks, p': P.Pipe<M, N>, did: Option<P.Move<M, N>>)
    requires SetupOk(su) && OneTakerAll(su) && Rel(su, work, s, k, p) && OutStep(su, s, act).Some?
    requires ByWorker(su, work, s, act, w)
    ensures Matched(su, work, p, OutStep(su, s, act).value, k', p', did)
    ensures act.Access? && Missed(s, w, OutStep(su, s, act).value.out) ==>
              did == None && |p.out.qs| > 0 && p.out.qs[0].empty == []
    ensures OutStep(su, s, act).value == s.(out := OutStep(su, s, act).value.out)
    ensures OutputKind(s, act, did)
  {
    hide F.Rel, F.Step, F.SetupOk, F.OneTakerEach, C.Step, F.AccessStep, F.ConsumerAccess;
    OutSetupOk(su);
    var c' := F.Step(OutSetup(su), s.out, act).value;
    var abs', t', one := F.StepMatches(OutSetup(su), s.out, k.out, p.out, act);
    SameSeen(OutSetup(su), s.out, k.out, p.out);
    SameSeen(OutSetup(su), c', abs', t');
    if 0 <= w < |su.ins| {
      assert WorkerOk(work, s, w);
      SameSeen(su.ins[w], s.ins[w], k.ins[w], p.ins[w]);
    }
    OutputFrame(OutSetup(su), s.out, act);
    WorkerStays(su, work, s, act, w);
    OutputMoved(su, work, s, k, p, c', abs', t', w);
    k', p' := k.(out := abs'), p.(out := t');
    did := None;
    if one.Some? {
      did := Some(OutputMove(one.value));
    }
  }

  // The worker that stepped is still as its operation says.
  lemma WorkerStays<M, N>(su: Setup, work: (int, M) -> N, s: Fine<M, N>, act: F.Act<N>, w: int)
    requires |s.ins| == |su.ins| == |s.out.producers| == |s.out.jobs|
    requires SetupOk(su) && F.Step(OutSetup(su), s.out, act).Some? && ByWorker(su, work, s, act, w)
    requires 0 <= w < |su.ins| ==> WorkerOk(work, s, w)
    ensures var c' := F.Step(OutSetup(su), s.out, act).value;
            0 <= w < |su.ins| ==> |c'.producers| == |c'.jobs| == |su.ins| && WorkerOk(work, s.(out := c'), w)
  {
    hide F.Step;
    OutSetupOk(su);
    if 0 <= w < |su.ins| {
      OutputFrame(OutSetup(su), s.out, act);
    }
  }

  // A worker that missed goes no further.
  lemma FallMatches<M, N>(su: Setup, work: (int, M) -> N, s: Fine<M, N>, k: Stacks, p: P.Pipe<M, N>, w: int,
                          s1: Fine<M, N>, k1: Stacks, p1: P.Pipe<M, N>)
    requires Rel(su, work, s, k, p) && 0 <= w < |su.ins| && Matched(su, work, p, s1, k1, p1, None)
    requires s1.ins == s.ins && Missed(s, w, s1.out) && |p.out.qs| > 0 && p.out.qs[0].empty == []
    ensures Matched(su, work, p, s1.(fell := s1.fell + {w}), k1, p.(fell := p.fell + {w}), Some(P.Fall(w)))
  {
    hide F.Rel;
    SameSeen(su.ins[w], s.ins[w], k.ins[w], p.ins[w]);
    SameSeen(OutSetup(su), s.out, k.out, p.out);
    assert WorkerOk(work, s, w);
    var s' := s1.(fell := s1.fell + {w});
    forall v | 0 <= v < |su.ins|
      ensures WorkerOk(work, s', v)
    {
      assert WorkerOk(work, s1, v);
    }
  }

  /** Any one access of any worker, connection or output is one move of the pipeline with atomic lists, or changes
      nothing there. */
  lemma StepMatches<M, N>(su: Setup, work: (int, M) -> N, s: Fine<M, N>, k: Stacks, p: P.Pipe<M, N>, mv: Move<M, N>)
      returns (k': Stacks, p': P.Pipe<M, N>, did: Option<P.Move<M, N>>)
    requires SetupOk(su) && OneTakerAll(su) && Rel(su, work, s, k, p) && Step(su, work, s, mv).Some?
    ensures Matched(su, work, p, Step(su, work, s, mv).value, k', p', did) && Kind(s, mv, did)
  {
    hide SetupOk, OneTakerAll, Rel, Matched, InStep, OutStep, F.Step;
    match mv
    case Input(w, act) => k', p', did := InputMatches(su, work, s, k, p, w, act);
    case Call(w) => k', p', did := InputMatches(su, work, s, k, p, w, F.Serve);
    case GiveBack(w) => k', p', did := InputMatches(su, work, s, k, p, w, F.BeginRecycle);
    case ReserveOut(w) => k', p', did := OutputMatches(su, work, s, k, p, F.BeginReserve(w, 0), w);
    case Deliver(w) =>
      k', p', did := OutputMatches(su, work, s, k, p, F.BeginPublish(w, work(w, P.Last(s.ins[w].served))), w);
    case OutAccess(w) =>
      k', p', did := OutputMatches(su, work, s, k, p, F.Access(w), w);
      var s1 := OutStep(su, s, F.Access(w)).value;
      if Missed(s, w, s1.out) {
        FallMatches(su, work, s, k, p, w, s1, k', p');
        p', did := p.(fell := p.fell + {w}), Some(P.Fall(w));
      }
    case SignalOut(w) => k', p', did := OutputMatches(su, work, s, k, p, F.Signal(w), w);
    case Output(send) => k', p', did := OutputMatches(su, work, s, k, p, send, -1);
  }

  lemma {:induction false} RunMatches<M, N>(su: Setup, work: (int, M) -> N, s: Fine<M, N>, k: Stacks, p: P.Pipe<M, N>,
                                            mvs: seq<Move<M, N>>)
      returns (k': Stacks, p': P.Pipe<M, N>, did: seq<P.Move<M, N>>)
    requires SetupOk(su) && OneTakerAll(su) && Rel(su, work, s, k, p) && Run(su, work, s, mvs).Some?
    ensures Rel(su, work, Run(su, work, s, mvs).value, k', p') && P.Moves(work, p, did) == Some(p')
    decreases |mvs|
  {
    hide SetupOk, OneTakerAll, Rel, Step, P.Move1;
    if mvs == [] {
      k', p', did := k, p, [];
    } else {
      var k1, p1, one := StepMatches(su, work, s, k, p, mvs[0]);
      var rest;
      k', p', rest := RunMatches(su, work, Step(su, work, s, mvs[0]).value, k1, p1, mvs[1..]);
      did := rest;
      if one.Some? {
        did := [one.value] + rest;
        assert did[1..] == rest;
      }
    }
  }

  // The queues and connections of each worker, as Pipeline takes them.
  function QueueLengths(su: Setup): seq<seq<nat>> {
    seq(|su.ins|, w requires 0 <= w < |su.ins| => su.ins[w].qlens)
  }

  function Connections(su: Setup): seq<nat> {
    seq(|su.ins|, w requires 0 <= w < |su.ins| => |su.ins[w].home|)
  }

  function CoarseStart<M, N>(su: Setup): P.Pipe<M, N> {
    P.Start(QueueLengths(su), Connections(su), su.outlen)
  }

  lemma {:induction false} StartStacks<M>(ins: seq<F.Setup>, n: nat) returns (ks: seq<seq<F.CasQueue.Abs>>)
    requires n <= |ins| && forall w :: 0 <= w < |ins| ==> F.SetupOk(ins[w])
    ensures |ks| == n
    ensures forall w :: 0 <= w < n ==> F.Rel(ins[w], F.Start<M>(ins[w]), ks[w], C.Init(ins[w].qlens, |ins[w].home|))
    decreases n
  {
    hide F.Rel, F.SetupOk;
    ks := [];
    if n > 0 {
      ks := StartStacks<M>(ins, n - 1);
      var k := F.StartRel<M>(ins[n - 1]);
      ks := ks + [k];
    }
  }

  lemma StartRel<M, N>(su: Setup, work: (int, M) -> N) returns (k: Stacks)
    requires SetupOk(su)
    ensures Rel(su, work, Start<M, N>(su), k, CoarseStart(su))
  {
    hide F.Rel, F.SetupOk;
    OutSetupOk(su);
    var ins := StartStacks<M>(su.ins, |su.ins|);
    var out := F.StartRel<N>(OutSetup(su));
    k := Stacks(ins, out);
  }

  // What the pipeline sees of a channel.
  ghost predicate SameSeenAll<M, N>(s: Fine<M, N>, p: P.Pipe<M, N>) {
    && |p.ins| == |s.ins|
    && (forall w :: 0 <= w < |s.ins| ==>
          F.SameRest(s.ins[w], p.ins[w]) && F.ListsAre(s.ins[w], p.ins[w].qs))
    && F.SameRest(s.out, p.out) && F.ListsAre(s.out, p.out.qs)
  }

  lemma SeenAll<M, N>(su: Setup, work: (int, M) -> N, s: Fine<M, N>, k: Stacks, p: P.Pipe<M, N>)
    requires Rel(su, work, s, k, p)
    ensures SameSeenAll(s, p)
  {
    hide F.Rel, F.ListsAre, F.SameRest, WorkerOk;
    forall w | 0 <= w < |s.ins|
      ensures F.SameRest(s.ins[w], p.ins[w]) && F.ListsAre(s.ins[w], p.ins[w].qs)
    {
      F.RelLists(su.ins[w], s.ins[w], k.ins[w], p.ins[w]);
    }
    F.RelLists(OutSetup(su), s.out, k.out, p.out);
  }

  /** Every interleaving of single accesses, of any length, is a run of the pipeline with atomic lists. */
  lemma RunsArePipelineRuns<M, N>(su: Setup, work: (int, M) -> N, mvs: seq<Move<M, N>>)
      returns (did: seq<P.Move<M, N>>, p: P.Pipe<M, N>)
    requires SetupOk(su) && OneTakerAll(su) && Run(su, work, Start(su), mvs).Some?
    ensures P.Moves(work, CoarseStart(su), did) == Some(p)
    ensures SameSeenAll(Run(su, work, Start(su), mvs).value, p)
  {
    hide SetupOk, OneTakerAll, Run, P.Moves, Rel, SameSeenAll;
    var k := StartRel(su, work);
    var k';
    k', p, did := RunMatches(su, work, Start(su), k, CoarseStart(su), mvs);
    SeenAll(su, work, Run(su, work, Start(su), mvs).value, k', p);
  }

  /** The output's queue has one taker per list exactly when at most one worker feeds it or it has one entry; and then
      no run of its operations corrupts it. */
  lemma OutputPremise(su: Setup)
    requires SetupOk(su)
    ensures F.OneTakerEach(OutSetup(su)) <==> |su.ins| <= 1 || su.outlen == 1
    ensures CasPremise.AlwaysSound(F.ConfigOf(OutSetup(su), 0)) <==> |su.ins| <= 1 || su.outlen == 1
  {
    var cfg := F.ConfigOf(OutSetup(su), 0);
    OutSetupOk(su);
    F.ConfigOk(OutSetup(su), 0);
    CasPremise.SoundIffOneTaker(cfg);
    if |su.ins| > 1 {
      assert OutSetup(su).home[0] == 0 && OutSetup(su).home[1] == 1;
      assert 0 in cfg.feeders && 1 in cfg.feeders;
    }
  }

  // ---------------------------------------------------------------------------------------
  // What comes out, between any two accesses.

  // Nobody can move: every consumer waits at a zero semaphore and no signal is owed.
  ghost predicate Idle<M>(c: F.Chan<M>) {
    c.consumer.Waiting? && c.sem == 0 && forall p :: 0 <= p < |c.producers| ==> !c.producers[p].Pushed?
  }

  ghost predicate AllIdle<M, N>(s: Fine<M, N>) {
    Idle(s.out) && forall w :: 0 <= w < |s.ins| ==> Idle(s.ins[w])
  }

  /** How many of all messages the workers ever accepted have result f. */
  function Expected<M, N(==)>(work: (int, M) -> N, ins: seq<F.Chan<M>>, f: N, k: nat): nat
    requires k <= |ins|
  {
    if k == 0 then 0 else Expected(work, ins, f, k - 1) + P.Images(work, k - 1, ins[k - 1].accepted, f)
  }

  lemma {:induction false} ExpectedSame<M, N>(work: (int, M) -> N, s: Fine<M, N>, p: P.Pipe<M, N>, f: N, k: nat)
    requires SameSeenAll(s, p) && k <= |s.ins|
    ensures P.Expected(work, p.ins, f, k) == Expected(work, s.ins, f, k)
  {
    if k > 0 {
      ExpectedSame(work, s, p, f, k - 1);
    }
  }

  lemma WorkersHaveQueues(su: Setup)
    requires SetupOk(su)
    ensures forall w :: 0 <= w < |su.ins| ==> QueueLengths(su)[w] != []
  {
  }

  /** When every thread of the code is idle, the output has sent the result of every message any worker ever accepted,
      each exactly once, and nothing else. */
  lemma DrainedAtEveryAccess<M(!new), N(!new)>(su: Setup, work: (int, M) -> N, mvs: seq<Move<M, N>>, f: N)
    requires SetupOk(su) && OneTakerAll(su) && Run(su, work, Start(su), mvs).Some?
    requires AllIdle(Run(su, work, Start(su), mvs).value)
    ensures var s := Run(su, work, Start(su), mvs).value;
            multiset(s.out.served)[f] == Expected(work, s.ins, f, |s.ins|)
  {
    hide OneTakerAll, Run, P.Moves, P.Start, F.ListsAre;
    var did, p := RunsArePipelineRuns(su, work, mvs);
    WorkersHaveQueues(su);
    P.DrainedPipeline(work, QueueLengths(su), Connections(su), su.outlen, did, f);
    ExpectedSame(work, Run(su, work, Start(su), mvs).value, p, f, |p.ins|);
  }

  /** The output's pop after its wait finds the head of its list non-null at every access. */
  lemma OutputHeadIsThere<M(!new), N(!new)>(su: Setup, work: (int, M) -> N, mvs: seq<Move<M, N>>, f: N)
    requires SetupOk(su) && OneTakerAll(su) && Run(su, work, Start(su), mvs).Some?
    requires Run(su, work, Start(su), mvs).value.out.consumer.Scanning?
    ensures var out := Run(su, work, Start(su), mvs).value.out;
            |out.queues| == 1 && out.queues[0].full != F.CasQueue.NIL
  {
    hide OneTakerAll, Run, P.Moves, P.Start;
    var did, p := RunsArePipelineRuns(su, work, mvs);
    WorkersHaveQueues(su);
    P.OutputFindsEntry(work, QueueLengths(su), Connections(su), su.outlen, did, f);
    var out := Run(su, work, Start(su), mvs).value.out;
    P.OneOutputQueue(work, QueueLengths(su), Connections(su), su.outlen, did, f);
    assert F.QueueIs(out, 0, p.out.qs[0]);
    assert F.Chain(p.out.qs[0])[0] == p.out.qs[0].full[0].entry;
  }

  /** Between any two accesses the output's free list is null exactly when all its entries are on the full chain,
      reserved by workers or with the output thread. */
  lemma OutputFullIff<M, N>(su: Setup, work: (int, M) -> N, mvs: seq<Move<M, N>>) returns (chain: seq<int>)
    requires SetupOk(su) && OneTakerAll(su) && Run(su, work, Start(su), mvs).Some?
    ensures var out := Run(su, work, Start(su), mvs).value.out;
            && |out.queues| == 1 && F.CasRefinement.Linked(out.queues[0].next, out.queues[0].full, chain)
            && (out.queues[0].empty == F.CasQueue.NIL <==>
                 |chain| + C.ReservedOf(out.producers, 0) + C.At(out.consumer.Holding? || out.consumer.Ran?) ==
                   su.outlen)
  {
    hide OneTakerAll, Run, P.Moves, P.Start;
    var did, p := RunsArePipelineRuns(su, work, mvs);
    P.FullIff(work, QueueLengths(su), Connections(su), su.outlen, did);
    var out := Run(su, work, Start(su), mvs).value.out;
    assert F.QueueIs(out, 0, p.out.qs[0]);
    chain := F.Chain(p.out.qs[0]);
  }

  // ---------------------------------------------------------------------------------------
  // A worker that finds the output full.

  // Worker w found no entry for the result of the message it holds.
  ghost predicate Halted<M, N>(s: Fine<M, N>, w: int, held: C.Consumer<M>, served: seq<M>) {
    && 0 <= w < |s.ins| && w < |s.out.jobs| && w < |s.out.producers| && w in s.fell
    && s.out.jobs[w].NoJob? && s.out.producers[w].Ready? && s.ins[w].cjob.Free?
    && s.ins[w].consumer == held && held.Holding? && s.ins[w].served == served
  }

  lemma HaltedInput<M, N>(su: Setup, s: Fine<M, N>, v: int, act: F.Act<M>, w: int,
                          held: C.Consumer<M>, served: seq<M>)
    requires Halted(s, w, held, served) && InStep(su, s, v, act).Some?
    requires act.Serve? || act.BeginRecycle? ==> v != w
    ensures Halted(InStep(su, s, v, act).value, w, held, served)
  {
    hide F.Step;
    if v == w {
      InputFrame(su.ins[w], s.ins[w], act);
    }
  }

  lemma HaltedOutput<M, N>(su: Setup, work: (int, M) -> N, s: Fine<M, N>, k: Stacks, p: P.Pipe<M, N>, act: F.Act<N>,
                           v: int, w: int, held: C.Consumer<M>, served: seq<M>)
    requires SetupOk(su) && Rel(su, work, s, k, p) && Halted(s, w, held, served) && OutStep(su, s, act).Some?
    requires ByWorker(su, work, s, act, v)
    ensures Halted(OutStep(su, s, act).value, w, held, served)
  {
    hide F.Step, F.Rel;
    OutSetupOk(su);
    if 0 <= v < |su.ins| {
      assert WorkerOk(work, s, v);
    }
    OutputFrame(OutSetup(su), s.out, act);
  }

  lemma HaltedStep<M, N>(su: Setup, work: (int, M) -> N, s: Fine<M, N>, k: Stacks, p: P.Pipe<M, N>, mv: Move<M, N>,
                         w: int, held: C.Consumer<M>, served: seq<M>)
    requires SetupOk(su) && Rel(su, work, s, k, p) && Halted(s, w, held, served) && Step(su, work, s, mv).Some?
    ensures Halted(Step(su, work, s, mv).value, w, held, served)
  {
    hide F.Step, F.Rel, Rel, SetupOk, InStep, OutStep;
    match mv
    case Input(v, act) => HaltedInput(su, s, v, act, w, held, served);
    case Call(v) => HaltedInput(su, s, v, F.Serve, w, held, served);
    case GiveBack(v) => HaltedInput(su, s, v, F.BeginRecycle, w, held, served);
    case ReserveOut(v) => HaltedOutput(su, work, s, k, p, F.BeginReserve(v, 0), v, w, held, served);
    case Deliver(v) =>
      HaltedOutput(su, work, s, k, p, F.BeginPublish(v, work(v, P.Last(s.ins[v].served))), v, w, held, served);
    case OutAccess(v) =>
      HaltedOutput(su, work, s, k, p, F.Access(v), v, w, held, served);
    case SignalOut(v) => HaltedOutput(su, work, s, k, p, F.Signal(v), v, w, held, served);
    case Output(send) =>
      RelSizes(su, work, s, k, p);
      HaltedOutput(su, work, s, k, p, send, -1, w, held, served);
  }

  lemma RelSizes<M, N>(su: Setup, work: (int, M) -> N, s: Fine<M, N>, k: Stacks, p: P.Pipe<M, N>)
    requires Rel(su, work, s, k, p)
    ensures |s.ins| == |su.ins| == |s.out.producers| == |s.out.jobs|
  {
  }

  lemma {:induction false} HaltedRun<M, N>(su: Setup, work: (int, M) -> N, s: Fine<M, N>, k: Stacks, p: P.Pipe<M, N>,
                                           mvs: seq<Move<M, N>>, w: int, held: C.Consumer<M>, served: seq<M>)
    requires SetupOk(su) && OneTakerAll(su) && Rel(su, work, s, k, p) && Run(su, work, s, mvs).Some?
    requires Halted(s, w, held, served)
    ensures Halted(Run(su, work, s, mvs).value, w, held, served)
    decreases |mvs|
  {
    hide SetupOk, OneTakerAll, Rel, Step, Halted, Matched;
    if mvs != [] {
      HaltedStep(su, work, s, k, p, mvs[0], w, held, served);
      var k1, p1, one := StepMatches(su, work, s, k, p, mvs[0]);
      MatchedRel(su, work, p, Step(su, work, s, mvs[0]).value, k1, p1, one);
      HaltedRun(su, work, Step(su, work, s, mvs[0]).value, k1, p1, mvs[1..], w, held, served);
    }
  }

  lemma MatchedRel<M, N>(su: Setup, work: (int, M) -> N, p: P.Pipe<M, N>, s': Fine<M, N>, k': Stacks, p': P.Pipe<M, N>,
                         did: Option<P.Move<M, N>>)
    requires Matched(su, work, p, s', k', p', did)
    ensures Rel(su, work, s', k', p')
  {
  }

  // A get of worker w that ends without an entry.
  lemma MissHalts<M, N>(su: Setup, work: (int, M) -> N, s: Fine<M, N>, k: Stacks, p: P.Pipe<M, N>, w: int)
    requires SetupOk(su) && Rel(su, work, s, k, p) && 0 <= w < |su.ins| && Step(su, work, s, OutAccess(w)).Some?
    requires w < |s.out.jobs| && s.out.jobs[w].Taking?
    requires var s1 := Step(su, work, s, OutAccess(w)).value; w < |s1.out.jobs| && s1.out.jobs[w].NoJob?
    ensures 0 <= w < |s.ins|
    ensures Halted(Step(su, work, s, OutAccess(w)).value, w, s.ins[w].consumer, s.ins[w].served)
  {
    hide F.Rel, F.CasQueue.Step, F.ConfigOf;
    assert WorkerOk(work, s, w);
  }

  /** A worker whose get loads a null free list takes no more part: in no run does it reserve an entry, push a result,
      call its function for that message or let go of it after that. */
  lemma MissIsLast<M, N>(su: Setup, work: (int, M) -> N, before: seq<Move<M, N>>, w: int, after: seq<Move<M, N>>)
    requires SetupOk(su) && OneTakerAll(su) && 0 <= w < |su.ins| && Run(su, work, Start(su), before).Some?
    requires var s := Run(su, work, Start(su), before).value;
             && w < |s.out.jobs| && s.out.jobs[w].Taking? && Step(su, work, s, OutAccess(w)).Some?
             && var s1 := Step(su, work, s, OutAccess(w)).value;
                w < |s1.out.jobs| && s1.out.jobs[w].NoJob? && Run(su, work, s1, after).Some?
    ensures var s := Run(su, work, Start(su), before).value;
            var s' := Run(su, work, Step(su, work, s, OutAccess(w)).value, after).value;
            && w < |s.ins| == |s'.ins| && s.ins[w].consumer.Holding?
            && s'.ins[w].consumer == s.ins[w].consumer && s'.ins[w].served == s.ins[w].served
            && w < |s'.out.producers| && s'.out.producers[w].Ready? && w < |s'.out.jobs| && s'.out.jobs[w].NoJob?
  {
    hide SetupOk, OneTakerAll, Rel, Run, Step, Matched;
    var k0 := StartRel(su, work);
    var k, p, did := RunMatches(su, work, Start(su), k0, CoarseStart(su), before);
    var s := Run(su, work, Start(su), before).value;
    var s1 := Step(su, work, s, OutAccess(w)).value;
    MissHalts(su, work, s, k, p, w);
    var k1, p1, one := StepMatches(su, work, s, k, p, OutAccess(w));
    MatchedRel(su, work, p, s1, k1, p1, one);
    HaltedRun(su, work, s1, k1, p1, after, w, s.ins[w].consumer, s.ins[w].served);
    SameSize(su, work, s, k, p);
    var k2, p2, rest := RunMatches(su, work, s1, k1, p1, after);
    SameSize(su, work, Run(su, work, s1, after).value, k2, p2);
  }

  lemma SameSize<M, N>(su: Setup, work: (int, M) -> N, s: Fine<M, N>, k: Stacks, p: P.Pipe<M, N>)
    requires Rel(su, work, s, k, p)
    ensures |s.ins| == |su.ins|
  {
  }
}
