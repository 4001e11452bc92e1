// Workers, connections and output interleaved access by access, with the bytes of the output's entries and of the
// wire.  Under one taker per list every interleaving is a run of OutputRuns with the very same bytes.
module CasWire {
  import opened Common
  import opened Framing
  import opened Channel
  import opened OutputBytes
  import C = CasChannel
  import F = CasPipeline
  import P = Pipeline
  import W = OutputRuns

  datatype Wire = Wire(f: F.Fine<Message, Frame>, m: Mem)

  datatype Act =
    | List(mv: F.Move<Message, Frame>)
    | Stores(d: Deed)

  // ---------------------------------------------------------------------------------------
  // Steps.

  function SeenBy(f: F.Fine<Message, Frame>): Seen {
    Seen(seq(|f.ins|, w requires 0 <= w < |f.ins| => f.ins[w].consumer),
         seq(|f.ins|, w requires 0 <= w < |f.ins| => f.ins[w].served), f.out.producers, f.out.consumer, f.fell)
  }

  function DeedOf(mv: F.Move<Message, Frame>): Deed {
    match mv
    case Call(w) => Compute(w)
    case Deliver(w) => Hand(w)
    case SignalOut(w) => Rest(w)
    case Output(Serve) => Send
    case Output(BeginRecycle) => GoHome
    case _ => Touch
  }

  // The thread that would store has no list operation under way.
  predicate Between(f: F.Fine<Message, Frame>, d: Deed) {
    match d
    case PutHeader(w) => 0 <= w < |f.out.jobs| && f.out.jobs[w].NoJob? && w < |f.ins| && f.ins[w].cjob.Free?
    case PutLength(w) => 0 <= w < |f.out.jobs| && f.out.jobs[w].NoJob? && w < |f.ins| && f.ins[w].cjob.Free?
    case Clear => f.out.cjob.Free?
    case Scribble(w) => 0 <= w < |f.out.jobs| && f.out.jobs[w].NoJob? && w < |f.ins| && f.ins[w].cjob.Free?
    case _ => false
  }

  function Step(ws: seq<Setup>, space: nat, su: F.Setup, s: Wire, act: Act): Option<Wire> {
    match act
    case List(mv) =>
      (match F.Step(su, Work(ws, space), s.f, mv)
       case None => None
       case Some(f) =>
         match Do(ws, space, SeenBy(s.f), s.m, DeedOf(mv))
         case None => None
         case Some(m) => Some(Wire(f, m)))
    case Stores(d) =>
      if Between(s.f, d) then
        match Do(ws, space, SeenBy(s.f), s.m, d)
        case None => None
        case Some(m) => Some(s.(m := m))
      else None
  }

  function Run(ws: seq<Setup>, space: nat, su: F.Setup, s: Wire, acts: seq<Act>): Option<Wire>
    decreases |acts|
  {
    if acts == [] then Some(s)
    else
      match Step(ws, space, su, s, acts[0])
      case None => None
      case Some(s1) => Run(ws, space, su, s1, acts[1..])
  }

  function SizesOf(su: F.Setup): W.Sizes {
    W.Sizes(F.QueueLengths(su), F.Connections(su), su.outlen)
  }

  ghost predicate Starts(ws: seq<Setup>, space: nat, su: F.Setup, s: Wire) {
    |ws| == |su.ins| && F.SetupOk(su) && s.f == F.Start(su) && Started(ws, space, su.outlen, s.m)
  }

  // ---------------------------------------------------------------------------------------
  // The simulation relation.

  // A push under way is of a complete entry, and a put of the output thread follows the clearing of the length.
  ghost predicate Marks(s: Wire) {
    && (forall w :: 0 <= w < |s.f.out.jobs| && s.f.out.jobs[w].Putting? ==> w < |s.m.stage| && s.m.stage[w] == Complete)
    && (s.f.out.cjob.Recycling? ==> s.m.cleared)
  }

  ghost predicate Rel(ws: seq<Setup>, space: nat, su: F.Setup, s: Wire, k: F.Stacks, x: W.Wired) {
    F.Rel(su, Work(ws, space), s.f, k, x.p) && x.m == s.m && Marks(s)
  }

  lemma SameSeen(ws: seq<Setup>, space: nat, su: F.Setup, s: Wire, k: F.Stacks, x: W.Wired)
    requires Rel(ws, space, su, s, k, x)
    ensures SeenBy(s.f) == W.SeenBy(x.p)
  {
    hide C.Rel, F.WorkerOk, Marks;
    forall w | 0 <= w < |s.f.ins|
      ensures C.SameRest(s.f.ins[w], x.p.ins[w])
    {
      F.SameSeen(su.ins[w], s.f.ins[w], k.ins[w], x.p.ins[w]);
    }
    F.SameSeen(F.OutSetup(su), s.f.out, k.out, x.p.out);
  }

  // Where pushes and puts come from.
  lemma JobFrame<M>(su: C.Setup, c: C.Chan<M>, act: C.Act<M>)
    requires C.Step(su, c, act).Some?
    ensures var c' := C.Step(su, c, act).value;
            && |c'.jobs| == |c.jobs|
            && (forall t :: 0 <= t < |c.jobs| && c'.jobs[t].Putting? ==>
                  c.jobs[t].Putting? || (act.BeginPublish? && 0 <= act.p < |su.home| && su.home[act.p] == t))
            && (c'.cjob.Recycling? ==> c.cjob.Recycling? || act.BeginRecycle?)
            && (act.Signal? ==>
                  0 <= act.p < |su.home| && 0 <= su.home[act.p] < |c.jobs| && c.jobs[su.home[act.p]].NoJob?)
            && (act.Serve? ==> c.cjob.Free?)
  {
    hide C.CasQueue.Step, C.ConfigOf;
  }

  // The same of a move.
  lemma MoveFrame(su: F.Setup, work: (int, Message) -> Frame, f: F.Fine<Message, Frame>, mv: F.Move<Message, Frame>)
    requires F.SetupOk(su) && F.Step(su, work, f, mv).Some?
    ensures var f' := F.Step(su, work, f, mv).value;
            && |f'.out.jobs| == |f.out.jobs|
            && (forall t :: 0 <= t < |f.out.jobs| && f'.out.jobs[t].Putting? ==>
                  f.out.jobs[t].Putting? || mv == F.Deliver(t))
            && (f'.out.cjob.Recycling? ==> f.out.cjob.Recycling? || mv == F.Output(C.BeginRecycle))
            && (mv.SignalOut? ==> 0 <= mv.w < |f.out.jobs| && f.out.jobs[mv.w].NoJob?)
            && (mv == F.Output(C.Serve) ==> f.out.cjob.Free?)
  {
    hide C.Step;
    F.OutSetupOk(su);
    match mv
    case ReserveOut(w) => JobFrame(F.OutSetup(su), f.out, C.BeginReserve(w, 0));
    case Deliver(w) => JobFrame(F.OutSetup(su), f.out, C.BeginPublish(w, work(w, P.Last(f.ins[w].served))));
    case OutAccess(w) => JobFrame(F.OutSetup(su), f.out, C.Access(w));
    case SignalOut(w) => JobFrame(F.OutSetup(su), f.out, C.Signal(w));
    case Output(send) => JobFrame(F.OutSetup(su), f.out, send);
    case _ =>
  }

  lemma MarksKept(ws: seq<Setup>, space: nat, su: F.Setup, s: Wire, act: Act)
    requires F.SetupOk(su) && Marks(s) && Step(ws, space, su, s, act).Some?
    ensures Marks(Step(ws, space, su, s, act).value)
  {
    hide F.Step, Fits, Work, SeenBy;
    if act.List? {
      MoveFrame(su, Work(ws, space), s.f, act.mv);
    }
  }

  // ---------------------------------------------------------------------------------------
  // Every step is an act of OutputRuns on the same bytes, or changes nothing there.

  ghost predicate Matched(ws: seq<Setup>, space: nat, su: F.Setup, x: W.Wired, s': Wire, k': F.Stacks, x': W.Wired,
                          did: Option<W.Act>) {
    && Rel(ws, space, su, s', k', x')
    && (did == None ==> x' == x) && (did.Some? ==> W.Step1(ws, space, x, did.value) == Some(x'))
  }

  // A push or a put under way is due.
  lemma DueNow(ws: seq<Setup>, space: nat, su: F.Setup, s: Wire, k: F.Stacks, x: W.Wired, w: int)
    requires Rel(ws, space, su, s, k, x)
    ensures 0 <= w < |s.f.out.jobs| && s.f.out.jobs[w].Putting? ==> Due(SeenBy(s.f), s.m, Hand(w))
    ensures s.f.out.cjob.Recycling? && s.f.out.consumer.Ran? ==> Due(SeenBy(s.f), s.m, GoHome)
  {
    hide C.Rel;
    if 0 <= w < |s.f.out.jobs| && s.f.out.jobs[w].Putting? {
      assert F.WorkerOk(Work(ws, space), s.f, w);
    }
  }

  lemma ListMatches(ws: seq<Setup>, space: nat, su: F.Setup, s: Wire, k: F.Stacks, x: W.Wired,
                    mv: F.Move<Message, Frame>)
      returns (k': F.Stacks, x': W.Wired, did: Option<W.Act>)
    requires F.SetupOk(su) && F.OneTakerAll(su) && Rel(ws, space, su, s, k, x)
    requires Step(ws, space, su, s, List(mv)).Some?
    ensures Matched(ws, space, su, x, Step(ws, space, su, s, List(mv)).value, k', x', did)
  {
    hide F.SetupOk, F.OneTakerAll, F.Rel, F.Step, P.Move1, Work, Fits, Marks;
    var p', one;
    k', p', one := F.StepMatches(su, Work(ws, space), s.f, k, x.p, mv);
    MarksKept(ws, space, su, s, List(mv));
    SameSeen(ws, space, su, s, k, x);
    x', did := x, None;
    if one.Some? {
      did := Some(W.List(one.value));
      x' := W.Wired(p', Step(ws, space, su, s, List(mv)).value.m);
      SameDeed(ws, space, su, s, k, x, mv, one.value, p');
    }
  }

  lemma SameDeed(ws: seq<Setup>, space: nat, su: F.Setup, s: Wire, k: F.Stacks, x: W.Wired,
                 mv: F.Move<Message, Frame>, one: P.Move<Message, Frame>, p': P.Pipe<Message, Frame>)
    requires Rel(ws, space, su, s, k, x) && Do(ws, space, SeenBy(s.f), s.m, DeedOf(mv)).Some?
    requires F.Step(su, Work(ws, space), s.f, mv).Some? && F.Kind(s.f, mv, Some(one))
    requires P.Move1(Work(ws, space), x.p, one) == Some(p')
    ensures Do(ws, space, SeenBy(s.f), s.m, W.DeedOf(one)) == Do(ws, space, SeenBy(s.f), s.m, DeedOf(mv))
  {
    hide F.Rel, F.InStep, F.OutStep, F.Phase, Work, Marks, P.InStep, P.Phase, Channel.Step;
    match one
    case Deliver(w) => DueNow(ws, space, su, s, k, x, w);
    case Output(send) =>
      if send.Recycle? {
        RecycleRan(x.p);
        SameSeen(ws, space, su, s, k, x);
        DueNow(ws, space, su, s, k, x, -1);
      }
    case _ =>
  }

  lemma RecycleRan(p: P.Pipe<Message, Frame>)
    requires P.OutStep(p, Recycle).Some?
    ensures p.out.consumer.Ran?
  {
  }

  lemma StoreMatches(ws: seq<Setup>, space: nat, su: F.Setup, s: Wire, k: F.Stacks, x: W.Wired, d: Deed)
      returns (x': W.Wired)
    requires F.SetupOk(su) && Rel(ws, space, su, s, k, x) && Step(ws, space, su, s, Stores(d)).Some?
    ensures Matched(ws, space, su, x, Step(ws, space, su, s, Stores(d)).value, k, x', Some(W.Stores(d)))
  {
    hide F.Rel, Work, Fits, Marks, SeenBy;
    MarksKept(ws, space, su, s, Stores(d));
    SameSeen(ws, space, su, s, k, x);
    x' := x.(m := Step(ws, space, su, s, Stores(d)).value.m);
  }

  /** Any one access, store or call of any thread is one act of the workers and the output with atomic lists, on the
      same bytes, or changes nothing there. */
  lemma StepMatches(ws: seq<Setup>, space: nat, su: F.Setup, s: Wire, k: F.Stacks, x: W.Wired, act: Act)
      returns (k': F.Stacks, x': W.Wired, did: Option<W.Act>)
    requires F.SetupOk(su) && F.OneTakerAll(su) && Rel(ws, space, su, s, k, x) && Step(ws, space, su, s, act).Some?
    ensures Matched(ws, space, su, x, Step(ws, space, su, s, act).value, k', x', did)
  {
    hide Step, Rel, Matched;
    match act
    case List(mv) => k', x', did := ListMatches(ws, space, su, s, k, x, mv);
    case Stores(d) =>
      x' := StoreMatches(ws, space, su, s, k, x, d);
      k', did := k, Some(W.Stores(d));
  }

  lemma {:induction false} RunMatches(ws: seq<Setup>, space: nat, su: F.Setup, s: Wire, k: F.Stacks, x: W.Wired,
                                      acts: seq<Act>)
      returns (k': F.Stacks, x': W.Wired, did: seq<W.Act>)
    requires F.SetupOk(su) && F.OneTakerAll(su) && Rel(ws, space, su, s, k, x) && Run(ws, space, su, s, acts).Some?
    ensures Rel(ws, space, su, Run(ws, space, su, s, acts).value, k', x') && W.Steps(ws, space, x, did) == Some(x')
    decreases |acts|
  {
    hide F.SetupOk, F.OneTakerAll, Rel, Step, W.Step1;
    if acts == [] {
      k', x', did := k, x, [];
    } else {
      var k1, x1, one := StepMatches(ws, space, su, s, k, x, acts[0]);
      var rest;
      k', x', rest := RunMatches(ws, space, su, Step(ws, space, su, s, acts[0]).value, k1, x1, acts[1..]);
      did := rest;
      if one.Some? {
        did := [one.value] + rest;
        assert did[1..] == rest;
      }
    }
  }

  lemma StartRel(ws: seq<Setup>, space: nat, su: F.Setup, s: Wire) returns (k: F.Stacks, x: W.Wired)
    requires Starts(ws, space, su, s)
    ensures Rel(ws, space, su, s, k, x) && W.Starts(ws, space, SizesOf(su), x) && x.m == s.m
  {
    hide F.Rel, Started;
    k := F.StartRel(su, Work(ws, space));
    x := W.Wired(F.CoarseStart(su), s.m);
    F.WorkersHaveQueues(su);
  }

  /** Every interleaving of accesses, stores and calls, of any length, is a run with atomic lists: the same bytes and
      wire, the same producers, consumers, semaphores and messages, and the lists are the linked chains. */
  lemma RunsAreWiredRuns(ws: seq<Setup>, space: nat, su: F.Setup, s0: Wire, acts: seq<Act>)
      returns (x0: W.Wired, did: seq<W.Act>, x: W.Wired)
    requires Starts(ws, space, su, s0) && F.OneTakerAll(su) && Run(ws, space, su, s0, acts).Some?
    ensures W.Starts(ws, space, SizesOf(su), x0) && x0.m == s0.m && W.Steps(ws, space, x0, did) == Some(x)
    ensures x.m == Run(ws, space, su, s0, acts).value.m && F.SameSeenAll(Run(ws, space, su, s0, acts).value.f, x.p)
    ensures SeenBy(Run(ws, space, su, s0, acts).value.f) == W.SeenBy(x.p)
  {
    hide F.SetupOk, F.OneTakerAll, F.Rel, Run, W.Steps, W.Starts, F.SameSeenAll;
    var k, k';
    k, x0 := StartRel(ws, space, su, s0);
    k', x, did := RunMatches(ws, space, su, s0, k, x0, acts);
    SameSeen(ws, space, su, Run(ws, space, su, s0, acts).value, k', x);
    F.SeenAll(su, Work(ws, space), Run(ws, space, su, s0, acts).value.f, k', x.p);
  }
}
