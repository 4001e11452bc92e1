// Workers and the output thread are never stuck: at every point of every interleaving each of them can take its next
// step, unless it waits at a zero semaphore or has found the output full.
module Progress {
  import opened Common
  import opened Framing
  import opened OutputBytes
  import opened CasWire
  import Channel
  import C = CasChannel
  import CP = CasProgress
  import F = CasPipeline
  import P = Pipeline
  import W = OutputRuns
  import E = EndToEnd

  // ---------------------------------------------------------------------------------------
  // How far a worker's message and its output entry go together.

  ghost predicate StageOk(x: W.Wired, w: int) {
    0 <= w < |x.p.out.producers| ==>
      && w < |x.p.ins| && w < |x.m.stage|
      && var c, st := x.p.ins[w], x.m.stage[w];
         match x.p.out.producers[w]
         case Ready => st == Bare
         case Reserved(_, _) =>
           || (c.consumer.Holding? && (st == Bare || st == Headed))
           || (c.consumer.Ran? && c.served != [] && (st == Headed || st == Complete))
         case Pushed => true
  }

  ghost predicate StagesOk(x: W.Wired) { forall w :: StageOk(x, w) }

  // A consumer with a message keeps it through steps that neither call its function nor recycle.
  lemma InputLeaves(c: Channel.State<Message>, act: Channel.Action<Message>)
    requires Channel.Step(Channel.Origin, c, act).Some? && !act.Serve? && !act.Recycle?
    ensures var c' := Channel.Step(Channel.Origin, c, act).value.0;
            (c.consumer.Holding? || c.consumer.Ran? ==> c'.consumer == c.consumer) && c'.served == c.served
  {
  }

  lemma StageStep(ws: seq<Setup>, space: nat, x: W.Wired, act: W.Act, v: int)
    requires StagesOk(x) && W.Step1(ws, space, x, act).Some?
    ensures StageOk(W.Step1(ws, space, x, act).value, v)
  {
    hide Channel.Step, Fits, Work, StageOk, P.InStep, P.OutStep;
    if act.List? {
      match act.mv
      case Input(w, a) => InStage(ws, space, x, act, w, a, v);
      case Call(w) => InStage(ws, space, x, act, w, Channel.Serve, v);
      case GiveBack(w) => InStage(ws, space, x, act, w, Channel.Recycle, v);
      case ReserveOut(w) => OutStage(ws, space, x, act, Channel.Reserve(w, 0), v);
      case Deliver(w) =>
        OutStage(ws, space, x, act, Channel.Publish(w, Work(ws, space)(w, P.Last(x.p.ins[w].served))), v);
      case SignalOut(w) => OutStage(ws, space, x, act, Channel.Signal(w), v);
      case Output(send) => OutStage(ws, space, x, act, send, v);
      case Fall(w) => SameStage(x, W.Step1(ws, space, x, act).value, v);
    } else {
      StoreStage(ws, space, x, act.d, v);
    }
  }

  lemma SameStage(x: W.Wired, x': W.Wired, v: int)
    requires StagesOk(x) && x'.p.ins == x.p.ins && x'.p.out == x.p.out && x'.m.stage == x.m.stage
    ensures StageOk(x', v)
  {
    assert StageOk(x, v);
  }

  lemma StoreStage(ws: seq<Setup>, space: nat, x: W.Wired, d: Deed, v: int)
    requires StagesOk(x) && W.Step1(ws, space, x, W.Stores(d)).Some?
    ensures StageOk(W.Step1(ws, space, x, W.Stores(d)).value, v)
  {
    hide Work;
    assert StageOk(x, v);
  }

  lemma InStage(ws: seq<Setup>, space: nat, x: W.Wired, act: W.Act, w: int, a: Channel.Action<Message>, v: int)
    requires StagesOk(x) && W.Step1(ws, space, x, act).Some? && act.List? && 0 <= w < |x.p.ins|
    requires P.Move1(Work(ws, space), x.p, act.mv) == P.InStep(x.p, w, a)
    requires !a.Serve? && !a.Recycle? ==> W.DeedOf(act.mv) == Touch
    requires a.Serve? ==> act.mv == P.Call(w)
    requires a.Recycle? ==> act.mv == P.GiveBack(w)
    ensures StageOk(W.Step1(ws, space, x, act).value, v)
  {
    hide Channel.Step, Work;
    assert StageOk(x, v) && StageOk(x, w);
    P.InputFrame(x.p.ins[w], a);
    if !a.Serve? && !a.Recycle? {
      InputLeaves(x.p.ins[w], a);
    }
  }

  lemma OutStage(ws: seq<Setup>, space: nat, x: W.Wired, act: W.Act, a: Channel.Action<Frame>, v: int)
    requires StagesOk(x) && W.Step1(ws, space, x, act).Some? && act.List? && !a.Close?
    requires P.Move1(Work(ws, space), x.p, act.mv) == P.OutStep(x.p, a)
    requires a.Signal? ==> act.mv == P.SignalOut(a.p)
    requires a.Reserve? ==> act.mv == P.ReserveOut(a.p)
    requires a.Publish? ==> act.mv == P.Deliver(a.p)
    requires a.Wait? || a.Probe? || a.Serve? || a.Recycle? ==> act.mv == P.Output(a)
    ensures StageOk(W.Step1(ws, space, x, act).value, v)
  {
    hide Channel.Step, Work;
    assert StageOk(x, v);
    P.OutputFrame(x.p.out, a);
    if a.Reserve? {
      ReservesOne(x.p.out, a.p, a.q);
    }
  }

  lemma ReservesOne(out: Channel.State<Frame>, p: int, q: int)
    requires Channel.Step(Channel.Origin, out, Channel.Reserve(p, q)).Some?
    ensures 0 <= p < |out.producers|
    ensures Channel.Step(Channel.Origin, out, Channel.Reserve(p, q)).value.0.producers[p].Reserved?
  {
  }

  lemma {:induction false} StagesKeep(ws: seq<Setup>, space: nat, x: W.Wired, acts: seq<W.Act>)
    requires StagesOk(x) && W.Steps(ws, space, x, acts).Some?
    ensures StagesOk(W.Steps(ws, space, x, acts).value)
    decreases |acts|
  {
    hide W.Step1, StageOk;
    if acts != [] {
      forall v
        ensures StageOk(W.Step1(ws, space, x, acts[0]).value, v)
      {
        StageStep(ws, space, x, acts[0], v);
      }
      StagesKeep(ws, space, W.Step1(ws, space, x, acts[0]).value, acts[1..]);
    }
  }

  // ---------------------------------------------------------------------------------------
  // Who owns which entry.

  ghost predicate Owners(su: F.Setup, f: F.Fine<Message, Frame>) {
    && |f.ins| == |su.ins|
    && (forall w :: 0 <= w < |f.ins| ==> CP.ProducersOwn(su.ins[w], f.ins[w]) && CP.ConsumerOwns(su.ins[w], f.ins[w]))
    && CP.ProducersOwn(F.OutSetup(su), f.out) && CP.ConsumerOwns(F.OutSetup(su), f.out)
  }

  lemma InOwners(ws: seq<Setup>, space: nat, su: F.Setup, s: Wire, k: F.Stacks, x: W.Wired, w: int, a: C.Act<Message>)
    requires F.SetupOk(su) && F.OneTakerAll(su) && Rel(ws, space, su, s, k, x) && Owners(su, s.f)
    requires F.InStep(su, s.f, w, a).Some?
    ensures Owners(su, F.InStep(su, s.f, w, a).value)
  {
    hide C.Rel, C.Step, CP.ProducersOwn, CP.ConsumerOwns, C.SetupOk, C.OneTakerEach, Marks;
    CP.OwnersKept(su.ins[w], s.f.ins[w], k.ins[w], x.p.ins[w], a);
  }

  lemma OutOwners(ws: seq<Setup>, space: nat, su: F.Setup, s: Wire, k: F.Stacks, x: W.Wired, a: C.Act<Frame>,
                  f: F.Fine<Message, Frame>)
    requires F.SetupOk(su) && F.OneTakerAll(su) && Rel(ws, space, su, s, k, x) && Owners(su, s.f)
    requires F.OutStep(su, s.f, a).Some? && f.out == F.OutStep(su, s.f, a).value.out && f.ins == s.f.ins
    ensures Owners(su, f)
  {
    hide C.Rel, C.Step, CP.ProducersOwn, CP.ConsumerOwns, C.OneTakerEach, Marks;
    F.OutSetupOk(su);
    CP.OwnersKept(F.OutSetup(su), s.f.out, k.out, x.p.out, a);
  }

  lemma OwnersStep(ws: seq<Setup>, space: nat, su: F.Setup, s: Wire, k: F.Stacks, x: W.Wired, act: Act)
    requires F.SetupOk(su) && F.OneTakerAll(su) && Rel(ws, space, su, s, k, x) && Owners(su, s.f)
    requires Step(ws, space, su, s, act).Some?
    ensures Owners(su, Step(ws, space, su, s, act).value.f)
  {
    hide Rel, Owners, F.InStep, F.SetupOk, F.OneTakerAll, C.Step, Do, Work;
    if act.List? {
      var f := Step(ws, space, su, s, act).value.f;
      match act.mv
      case Input(w, a) => InOwners(ws, space, su, s, k, x, w, a);
      case Call(w) => InOwners(ws, space, su, s, k, x, w, C.Serve);
      case GiveBack(w) => InOwners(ws, space, su, s, k, x, w, C.BeginRecycle);
      case ReserveOut(w) => OutOwners(ws, space, su, s, k, x, C.BeginReserve(w, 0), f);
      case Deliver(w) =>
        OutOwners(ws, space, su, s, k, x, C.BeginPublish(w, Work(ws, space)(w, P.Last(s.f.ins[w].served))), f);
      case OutAccess(w) => OutOwners(ws, space, su, s, k, x, C.Access(w), f);
      case SignalOut(w) => OutOwners(ws, space, su, s, k, x, C.Signal(w), f);
      case Output(send) => OutOwners(ws, space, su, s, k, x, send, f);
    }
  }

  lemma {:induction false} RunOwners(ws: seq<Setup>, space: nat, su: F.Setup, s: Wire, k: F.Stacks, x: W.Wired,
                                     acts: seq<Act>)
      returns (k': F.Stacks, x': W.Wired, did: seq<W.Act>)
    requires F.SetupOk(su) && F.OneTakerAll(su) && Rel(ws, space, su, s, k, x) && Owners(su, s.f)
    requires Run(ws, space, su, s, acts).Some?
    ensures Rel(ws, space, su, Run(ws, space, su, s, acts).value, k', x') && W.Steps(ws, space, x, did) == Some(x')
    ensures Owners(su, Run(ws, space, su, s, acts).value.f)
    decreases |acts|
  {
    hide F.SetupOk, F.OneTakerAll, Rel, Step, W.Step1, Owners;
    if acts == [] {
      k', x', did := k, x, [];
    } else {
      OwnersStep(ws, space, su, s, k, x, acts[0]);
      var k1, x1, one := StepMatches(ws, space, su, s, k, x, acts[0]);
      var rest;
      k', x', rest := RunOwners(ws, space, su, Step(ws, space, su, s, acts[0]).value, k1, x1, acts[1..]);
      did := rest;
      if one.Some? {
        did := [one.value] + rest;
        assert did[1..] == rest;
      }
    }
  }

  lemma StartOwners(su: F.Setup)
    ensures Owners(su, F.Start<Message, Frame>(su))
  {
    hide CP.ProducersOwn, CP.ConsumerOwns;
    forall w | 0 <= w < |su.ins|
      ensures CP.ProducersOwn(su.ins[w], C.Start<Message>(su.ins[w]))
      ensures CP.ConsumerOwns(su.ins[w], C.Start<Message>(su.ins[w]))
    {
      CP.StartOwns<Message>(su.ins[w]);
    }
    CP.StartOwns<Frame>(F.OutSetup(su));
  }

  // ---------------------------------------------------------------------------------------
  // The next step.

  // What worker w's thread does.
  predicate OfWorker(su: F.Setup, act: Act, w: int) {
    0 <= w < |su.ins|
    && match act
       case List(mv) =>
         (match mv
          case Input(v, a) => v == w && (a.Wait? || a.BeginProbe? || a == C.Access(su.ins[w].threads))
          case ReserveOut(v) => v == w
          case Call(v) => v == w
          case Deliver(v) => v == w
          case OutAccess(v) => v == w
          case SignalOut(v) => v == w
          case GiveBack(v) => v == w
          case Output(_) => false)
       case Stores(d) => d == PutHeader(w) || d == PutLength(w)
  }

  // What the output thread does.
  predicate OfSender(su: F.Setup, act: Act) {
    match act
    case List(mv) => mv.Output? && (mv.send.Access? ==> mv.send.t == |su.ins|)
    case Stores(d) => d == Clear
  }

  // A reachable state, as the proofs see it.
  ghost predicate Reached(ws: seq<Setup>, space: nat, su: F.Setup, s: Wire, k: F.Stacks, x: W.Wired) {
    && SetupOk(ws, space) && F.SetupOk(su) && Rel(ws, space, su, s, k, x) && Owners(su, s.f) && StagesOk(x)
    && |ws| == |su.ins| && exists script :: W.Inv(ws, space, x, script)
  }

  lemma DeedCan(ws: seq<Setup>, space: nat, su: F.Setup, s: Wire, k: F.Stacks, x: W.Wired, d: Deed)
    requires Reached(ws, space, su, s, k, x) && Due(SeenBy(s.f), s.m, d)
    ensures Do(ws, space, SeenBy(s.f), s.m, d).Some?
  {
    hide SetupOk, F.SetupOk, Rel, Owners, StagesOk, W.Inv, Due, Fits;
    var script :| W.Inv(ws, space, x, script);
    SameSeen(ws, space, su, s, k, x);
    SameMem(ws, space, su, s, k, x);
    W.DueFits(ws, space, x, script, d);
  }

  lemma SameMem(ws: seq<Setup>, space: nat, su: F.Setup, s: Wire, k: F.Stacks, x: W.Wired)
    requires Rel(ws, space, su, s, k, x)
    ensures x.m == s.m
  {
  }

  // Sizes, and what the relation says of worker w.
  lemma WorkerFacts(ws: seq<Setup>, space: nat, su: F.Setup, s: Wire, k: F.Stacks, x: W.Wired, w: int)
    requires Reached(ws, space, su, s, k, x) && 0 <= w < |su.ins|
    ensures |s.f.ins| == |su.ins| == |s.f.out.producers| == |s.f.out.jobs| == |s.m.stage|
    ensures |k.ins| == |x.p.ins| == |su.ins|
    ensures C.Rel(su.ins[w], s.f.ins[w], k.ins[w], x.p.ins[w]) && C.Rel(F.OutSetup(su), s.f.out, k.out, x.p.out)
    ensures C.SetupOk(su.ins[w]) && C.SetupOk(F.OutSetup(su)) && F.OutSetup(su).threads == |su.ins|
    ensures CP.ProducersOwn(F.OutSetup(su), s.f.out) && CP.ConsumerOwns(su.ins[w], s.f.ins[w])
    ensures s.f.out.jobs[w].NoJob? ==> C.AtHome(F.OutSetup(su), s.f.out, w)
    ensures s.f.ins[w].consumer.Ran? ==> s.f.ins[w].served != []
    ensures w < |SeenBy(s.f).workers| && SeenBy(s.f).workers[w] == s.f.ins[w].consumer
    ensures match s.f.out.producers[w]
            case Ready => s.m.stage[w] == Bare
            case Reserved(_, _) =>
              || (s.f.ins[w].consumer.Holding? && (s.m.stage[w] == Bare || s.m.stage[w] == Headed))
              || (s.f.ins[w].consumer.Ran? && (s.m.stage[w] == Headed || s.m.stage[w] == Complete))
            case Pushed => true
  {
    hide C.Rel, C.SetupOk, CP.ProducersOwn, CP.ConsumerOwns, Marks, StagesOk;
    F.OutSetupOk(su);
    assert F.WorkerOk(Work(ws, space), s.f, w);
    F.SameSeen(su.ins[w], s.f.ins[w], k.ins[w], x.p.ins[w]);
    F.SameSeen(F.OutSetup(su), s.f.out, k.out, x.p.out);
    StageAt(x, w);
    StageSizes(ws, space, x);
  }

  lemma StageAt(x: W.Wired, w: int)
    requires StagesOk(x)
    ensures StageOk(x, w)
  {
  }

  lemma StageSizes(ws: seq<Setup>, space: nat, x: W.Wired)
    requires exists script :: W.Inv(ws, space, x, script)
    ensures |x.m.stage| == |ws|
  {
  }

  // A worker whose thread has an operation under way.
  lemma BusyWorkerCan(ws: seq<Setup>, space: nat, su: F.Setup, s: Wire, k: F.Stacks, x: W.Wired, w: int)
      returns (act: Act)
    requires Reached(ws, space, su, s, k, x) && 0 <= w < |su.ins|
    requires w < |s.f.out.jobs| && w < |s.f.ins| && (!s.f.out.jobs[w].NoJob? || !s.f.ins[w].cjob.Free?)
    ensures OfWorker(su, act, w) && Step(ws, space, su, s, act).Some?
  {
    hide Reached, C.Rel, C.Step, C.SetupOk;
    WorkerFacts(ws, space, su, s, k, x, w);
    if !s.f.out.jobs[w].NoJob? {
      CP.AccessCan(F.OutSetup(su), s.f.out, k.out, x.p.out, w);
      act := List(F.OutAccess(w));
    } else {
      CP.AccessCan(su.ins[w], s.f.ins[w], k.ins[w], x.p.ins[w], 0);
      act := List(F.Input(w, C.Access(su.ins[w].threads)));
    }
  }

  // A worker that has popped a message and not called its function on it yet.
  lemma HoldingWorkerCan(ws: seq<Setup>, space: nat, su: F.Setup, s: Wire, k: F.Stacks, x: W.Wired, w: int)
      returns (act: Act)
    requires Reached(ws, space, su, s, k, x) && 0 <= w < |su.ins| && w < |s.f.out.jobs| && w < |s.f.ins|
    requires s.f.out.jobs[w].NoJob? && s.f.ins[w].cjob.Free? && w !in s.f.fell && s.f.ins[w].consumer.Holding?
    ensures OfWorker(su, act, w) && Step(ws, space, su, s, act).Some?
  {
    hide Reached, C.Rel, C.Step, C.SetupOk, Fits;
    WorkerFacts(ws, space, su, s, k, x, w);
    CP.ProducerCan(F.OutSetup(su), s.f.out, k.out, x.p.out, w, 0, Frame(Header(0, 0, 0), []));
    CP.ConsumerCan(su.ins[w], s.f.ins[w], k.ins[w], x.p.ins[w]);
    match s.f.out.producers[w]
    case Ready =>
      act := List(F.ReserveOut(w));
      DeedCan(ws, space, su, s, k, x, Touch);
    case Pushed =>
      act := List(F.SignalOut(w));
      DeedCan(ws, space, su, s, k, x, Rest(w));
    case Reserved(_, _) =>
      if s.m.stage[w] == Bare {
        act := Stores(PutHeader(w));
        DeedCan(ws, space, su, s, k, x, PutHeader(w));
      } else {
        act := List(F.Call(w));
        DeedCan(ws, space, su, s, k, x, Compute(w));
      }
  }

  // A worker that has called its function.
  lemma RanWorkerCan(ws: seq<Setup>, space: nat, su: F.Setup, s: Wire, k: F.Stacks, x: W.Wired, w: int)
      returns (act: Act)
    requires Reached(ws, space, su, s, k, x) && 0 <= w < |su.ins| && w < |s.f.out.jobs| && w < |s.f.ins|
    requires s.f.out.jobs[w].NoJob? && s.f.ins[w].cjob.Free? && w !in s.f.fell && s.f.ins[w].consumer.Ran?
    ensures OfWorker(su, act, w) && Step(ws, space, su, s, act).Some?
  {
    hide Reached, C.Rel, C.Step, C.SetupOk, Fits, Work;
    WorkerFacts(ws, space, su, s, k, x, w);
    CP.ProducerCan(F.OutSetup(su), s.f.out, k.out, x.p.out, w, 0, Work(ws, space)(w, P.Last(s.f.ins[w].served)));
    CP.ConsumerCan(su.ins[w], s.f.ins[w], k.ins[w], x.p.ins[w]);
    match s.f.out.producers[w]
    case Ready =>
      act := List(F.GiveBack(w));
      DeedCan(ws, space, su, s, k, x, Touch);
    case Pushed =>
      act := List(F.SignalOut(w));
      DeedCan(ws, space, su, s, k, x, Rest(w));
    case Reserved(_, _) =>
      if s.m.stage[w] == Headed {
        act := Stores(PutLength(w));
        DeedCan(ws, space, su, s, k, x, PutLength(w));
      } else {
        act := List(F.Deliver(w));
        DeedCan(ws, space, su, s, k, x, Hand(w));
      }
  }

  lemma WorkerCan(ws: seq<Setup>, space: nat, su: F.Setup, s: Wire, k: F.Stacks, x: W.Wired, w: int)
      returns (act: Act)
    requires Reached(ws, space, su, s, k, x) && 0 <= w < |su.ins| && w < |s.f.out.jobs| && w < |s.f.ins|
    requires w !in s.f.fell
    requires !(s.f.out.jobs[w].NoJob? && s.f.ins[w].cjob.Free? && s.f.ins[w].consumer.Waiting? && s.f.ins[w].sem == 0)
    ensures OfWorker(su, act, w) && Step(ws, space, su, s, act).Some?
  {
    hide Reached, C.Rel, C.Step, C.SetupOk, Step, Fits, OfWorker;
    if !s.f.out.jobs[w].NoJob? || !s.f.ins[w].cjob.Free? {
      act := BusyWorkerCan(ws, space, su, s, k, x, w);
    } else if s.f.ins[w].consumer.Holding? {
      act := HoldingWorkerCan(ws, space, su, s, k, x, w);
    } else if s.f.ins[w].consumer.Ran? {
      act := RanWorkerCan(ws, space, su, s, k, x, w);
    } else {
      act := WaitingWorkerCan(ws, space, su, s, k, x, w);
    }
  }

  // A worker that is signalled, or scans.
  lemma WaitingWorkerCan(ws: seq<Setup>, space: nat, su: F.Setup, s: Wire, k: F.Stacks, x: W.Wired, w: int)
      returns (act: Act)
    requires Reached(ws, space, su, s, k, x) && 0 <= w < |su.ins| && w < |s.f.ins| && s.f.ins[w].cjob.Free?
    requires s.f.ins[w].consumer.Scanning? || (s.f.ins[w].consumer.Waiting? && s.f.ins[w].sem > 0)
    ensures OfWorker(su, act, w) && Step(ws, space, su, s, act).Some?
  {
    hide Reached, C.Rel, C.Step, C.SetupOk;
    WorkerFacts(ws, space, su, s, k, x, w);
    CP.ConsumerCan(su.ins[w], s.f.ins[w], k.ins[w], x.p.ins[w]);
    act := List(F.Input(w, if s.f.ins[w].consumer.Scanning? then C.BeginProbe else C.Wait));
  }

  lemma SenderCan(ws: seq<Setup>, space: nat, su: F.Setup, s: Wire, k: F.Stacks, x: W.Wired) returns (act: Act)
    requires Reached(ws, space, su, s, k, x)
    requires !(s.f.out.cjob.Free? && s.f.out.consumer.Waiting? && s.f.out.sem == 0)
    ensures OfSender(su, act) && Step(ws, space, su, s, act).Some?
  {
    hide C.Rel, C.Step, C.SetupOk, Fits, Marks, W.Inv, CP.ProducersOwn, CP.ConsumerOwns, StagesOk, SetupOk;
    F.OutSetupOk(su);
    var out := s.f.out;
    CP.AccessCan(F.OutSetup(su), out, k.out, x.p.out, 0);
    F.SameSeen(F.OutSetup(su), out, k.out, x.p.out);
    DeedCan(ws, space, su, s, k, x, Touch);
    if !out.cjob.Free? {
      act := List(F.Output(C.Access(|su.ins|)));
    } else {
      CP.ConsumerCan(F.OutSetup(su), out, k.out, x.p.out);
      match out.consumer
      case Waiting => act := List(F.Output(C.Wait));
      case Scanning => act := List(F.Output(C.BeginProbe));
      case Holding(_, _, _) =>
        act := List(F.Output(C.Serve));
        DeedCan(ws, space, su, s, k, x, Send);
      case Ran(_, _) =>
        if s.m.cleared {
          act := List(F.Output(C.BeginRecycle));
          DeedCan(ws, space, su, s, k, x, GoHome);
        } else {
          act := Stores(Clear);
          DeedCan(ws, space, su, s, k, x, Clear);
        }
    }
  }

  lemma RunReaches(ws: seq<Setup>, space: nat, su: F.Setup, s0: Wire, acts: seq<Act>)
      returns (k: F.Stacks, x: W.Wired)
    requires SetupOk(ws, space) && Starts(ws, space, su, s0) && E.Premise(su)
    requires Run(ws, space, su, s0, acts).Some? && E.Calm(ws, space, su, Run(ws, space, su, s0, acts).value)
    ensures Reached(ws, space, su, Run(ws, space, su, s0, acts).value, k, x)
  {
    hide Run, F.SetupOk, W.Steps, SetupOk, W.Starts, F.OneTakerAll, W.OneResult, Started, W.Inv, Rel, Owners, StageOk;
    E.AllOneTakerOf(ws, space, su, s0);
    var k0, x0 := StartRel(ws, space, su, s0);
    StartOwners(su);
    StartStages(ws, space, su, x0);
    var did;
    k, x, did := RunOwners(ws, space, su, s0, k0, x0, acts);
    StagesKeep(ws, space, x0, did);
    W.StartIs(ws, space, SizesOf(su), x0);
    SameMem(ws, space, su, Run(ws, space, su, s0, acts).value, k, x);
    W.RunInv(ws, space, SizesOf(su), x0, did);
  }

  lemma StartStages(ws: seq<Setup>, space: nat, su: F.Setup, x: W.Wired)
    requires W.Starts(ws, space, SizesOf(su), x)
    ensures StagesOk(x)
  {
    hide W.SizesOk;
    forall w
      ensures StageOk(x, w)
    {
      StartsSize(ws, space, su, x);
    }
  }

  lemma StartsSize(ws: seq<Setup>, space: nat, su: F.Setup, x: W.Wired)
    requires W.Starts(ws, space, SizesOf(su), x)
    ensures |ws| == |x.p.ins| == |x.p.out.producers|
  {
  }

  /** At every point of every calm interleaving a worker that has not found the output full can take its next step, be
      it an access, a store, a wait or a call, unless it waits at its semaphore and that is zero. */
  lemma WorkersNeverStuck(ws: seq<Setup>, space: nat, su: F.Setup, s0: Wire, acts: seq<Act>, w: int)
      returns (next: Act)
    requires SetupOk(ws, space) && Starts(ws, space, su, s0) && E.Premise(su) && 0 <= w < |su.ins|
    requires Run(ws, space, su, s0, acts).Some? && E.Calm(ws, space, su, Run(ws, space, su, s0, acts).value)
    ensures var s := Run(ws, space, su, s0, acts).value;
            && w < |s.f.ins| && w < |s.f.out.jobs|
            && (w !in s.f.fell
                && !(s.f.out.jobs[w].NoJob? && s.f.ins[w].cjob.Free? && s.f.ins[w].consumer.Waiting?
                     && s.f.ins[w].sem == 0) ==>
                  OfWorker(su, next, w) && Step(ws, space, su, s, next).Some?)
  {
    hide Run, Reached, SetupOk, Starts, E.Premise, E.Calm, Step, OfWorker;
    var k, x := RunReaches(ws, space, su, s0, acts);
    var s := Run(ws, space, su, s0, acts).value;
    WorkerFacts(ws, space, su, s, k, x, w);
    next := Stores(Clear);
    if w !in s.f.fell && !(s.f.out.jobs[w].NoJob? && s.f.ins[w].cjob.Free? && s.f.ins[w].consumer.Waiting?
                           && s.f.ins[w].sem == 0) {
      next := WorkerCan(ws, space, su, s, k, x, w);
    }
  }

  /** And so can the output thread. */
  lemma SenderNeverStuck(ws: seq<Setup>, space: nat, su: F.Setup, s0: Wire, acts: seq<Act>) returns (next: Act)
    requires SetupOk(ws, space) && Starts(ws, space, su, s0) && E.Premise(su)
    requires Run(ws, space, su, s0, acts).Some? && E.Calm(ws, space, su, Run(ws, space, su, s0, acts).value)
    ensures var s := Run(ws, space, su, s0, acts).value;
            !(s.f.out.cjob.Free? && s.f.out.consumer.Waiting? && s.f.out.sem == 0) ==>
              OfSender(su, next) && Step(ws, space, su, s, next).Some?
  {
    hide Run, Reached, SetupOk, Starts, E.Premise, E.Calm, Step, OfSender;
    var k, x := RunReaches(ws, space, su, s0, acts);
    var s := Run(ws, space, su, s0, acts).value;
    next := Stores(Clear);
    if !(s.f.out.cjob.Free? && s.f.out.consumer.Waiting? && s.f.out.sem == 0) {
      next := SenderCan(ws, space, su, s, k, x);
    }
  }
}
