// The stream the code sends: workers, connections and output interleaved access by access, with the bytes they store
// in the output's entries and on the wire.
module EndToEnd {
  import opened Common
  import opened Framing
  import opened OutputBytes
  import opened CasWire
  import C = CasChannel
  import F = CasPipeline
  import P = Pipeline
  import W = OutputRuns
  import O = Output

  // One worker feeds the output or its queue has one entry; each worker's queue has one entry or all its connections
  // are served by one input thread.
  ghost predicate Premise(su: F.Setup) {
    && (|su.ins| <= 1 || su.outlen == 1)
    && forall w :: 0 <= w < |su.ins| ==> C.OneTakerEach(su.ins[w])
  }

  lemma AllOneTaker(su: F.Setup)
    requires F.SetupOk(su) && Premise(su)
    ensures F.OneTakerAll(su)
  {
    hide C.OneTakerEach, F.SetupOk;
    F.OutputPremise(su);
  }

  /** No worker has stored its result without an output entry, or all workers with connections give one and the same
      result. */
  ghost predicate Calm(ws: seq<Setup>, space: nat, su: F.Setup, s: Wire) {
    s.m.strayed ==> W.OneResult(ws, space, F.CoarseStart(su))
  }

  // The chain of published entries, each with its frame, and the entry about to be sent with its own.
  ghost predicate FramesInPlace(s: Wire, chain: seq<int>) {
    var out := s.f.out;
    && |out.queues| == 1 <= |out.data| && C.CasRefinement.Linked(out.queues[0].next, out.queues[0].full, chain)
    && (forall i :: 0 <= i < |chain| ==>
          chain[i] in out.data[0] && CarriesFrame(s.m, chain[i], out.data[0][chain[i]]))
    && (out.consumer.Holding? ==> CarriesFrame(s.m, out.consumer.e, out.consumer.msg))
  }

  lemma ChainCarries(ws: seq<Setup>, space: nat, su: F.Setup, s: Wire, x0: W.Wired, did: seq<W.Act>, x: W.Wired)
      returns (chain: seq<int>)
    requires SetupOk(ws, space) && W.Starts(ws, space, SizesOf(su), x0) && W.Steps(ws, space, x0, did) == Some(x)
    requires W.Calm(ws, space, SizesOf(su), x.m) && F.SameSeenAll(s.f, x.p) && x.m == s.m
    ensures FramesInPlace(s, chain)
  {
    hide W.Steps, W.Starts, SetupOk, CarriesFrame, W.Calm, P.Moves, P.Start;
    W.StepsAreMoves(ws, space, x0, did);
    W.StartIs(ws, space, SizesOf(su), x0);
    P.FullIff(Work(ws, space), F.QueueLengths(su), F.Connections(su), su.outlen, W.MovesOf(did));
    assert C.QueueIs(s.f.out, 0, x.p.out.qs[0]);
    chain := C.Chain(x.p.out.qs[0]);
    forall i | 0 <= i < |chain|
      ensures chain[i] in s.f.out.data[0] && CarriesFrame(s.m, chain[i], s.f.out.data[0][chain[i]])
    {
      var it := x.p.out.qs[0].full[i];
      W.EntriesCarryFrames(ws, space, SizesOf(su), x0, did, it.entry, it.msg);
    }
    if x.p.out.consumer.Holding? {
      W.EntriesCarryFrames(ws, space, SizesOf(su), x0, did, x.p.out.consumer.e, x.p.out.consumer.msg);
    }
  }

  /** In every such interleaving the bytes of an entry on the output's full chain are the ids of a worker, the length,
      and what that worker's function gave for a message it accepted, or nothing if it has no function. */
  lemma ChainHoldsResults(ws: seq<Setup>, space: nat, su: F.Setup, s0: Wire, acts: seq<Act>, chain: seq<int>, i: nat)
      returns (w: int, x: Message)
    requires SetupOk(ws, space) && Starts(ws, space, su, s0) && Premise(su)
    requires Run(ws, space, su, s0, acts).Some? && Calm(ws, space, su, Run(ws, space, su, s0, acts).value)
    requires var out := Run(ws, space, su, s0, acts).value.f.out;
             && |out.queues| == 1 && C.CasRefinement.Linked(out.queues[0].next, out.queues[0].full, chain)
    requires i < |chain|
    ensures var s := Run(ws, space, su, s0, acts).value;
            && 0 <= w < |ws| == |s.f.ins| && x in s.f.ins[w].accepted
            && 0 <= chain[i] < |s.m.data| == |s.m.lens| && HDRLEN <= s.m.lens[chain[i]] <= |s.m.data[chain[i]]|
            && s.m.data[chain[i]][HDRLEN..s.m.lens[chain[i]]] ==
                 (if ws[w].func.Some? then ws[w].func.value(x, space) else [])
            && DecodeHeader(s.m.data[chain[i]][..HDRLEN]) ==
                 Header(ws[w].owid, ws[w].oqid, s.m.lens[chain[i]] - HDRLEN)
  {
    hide Run, F.SetupOk, W.Steps, SetupOk, W.Starts, F.OneTakerAll, W.OneResult, Starts, DecodeHeader, P.Moves, P.Start;
    AllOneTakerOf(ws, space, su, s0);
    var x0, did, y := RunsAreWiredRuns(ws, space, su, s0, acts);
    W.StartIs(ws, space, SizesOf(su), x0);
    W.StepsAreMoves(ws, space, x0, did);
    P.FullIff(Work(ws, space), F.QueueLengths(su), F.Connections(su), su.outlen, W.MovesOf(did));
    var s := Run(ws, space, su, s0, acts).value;
    assert C.QueueIs(s.f.out, 0, y.p.out.qs[0]);
    C.SameChain(s.f.out.queues[0].next, s.f.out.queues[0].full, chain, C.Chain(y.p.out.qs[0]));
    var it := y.p.out.qs[0].full[i];
    w, x := W.PublishedAreResults(ws, space, SizesOf(su), x0, did, it.entry, it.msg);
  }

  /** In every interleaving of the code's accesses and stores under the premise, every published output entry carries
      8 + flen bytes within its capacity that are its frame, the wire is what the sends let through of the frames sent
      and parses back to them exactly when no send failed, and once every thread is idle it carries the results of all
      messages the workers ever accepted, each as often as it was computed. */
  lemma StreamOfTheCode(ws: seq<Setup>, space: nat, su: F.Setup, s0: Wire, acts: seq<Act>, f: Frame)
      returns (chain: seq<int>)
    requires SetupOk(ws, space) && Starts(ws, space, su, s0) && Premise(su)
    requires Run(ws, space, su, s0, acts).Some? && Calm(ws, space, su, Run(ws, space, su, s0, acts).value)
    ensures var s := Run(ws, space, su, s0, acts).value;
            && FramesInPlace(s, chain) && AllValid(s.f.out.served)
            && s.m.wire == O.Sent(s0.m.script, O.Encoded(s.f.out.served))
            && (Frames(s.m.wire) == s.f.out.served <==> O.AllSent(s0.m.script, O.Encoded(s.f.out.served)))
            && (F.AllIdle(s.f) && O.AllSent(s0.m.script, O.Encoded(s.f.out.served)) ==>
                  multiset(Frames(s.m.wire))[f] == F.Expected(Work(ws, space), s.f.ins, f, |s.f.ins|))
  {
    hide Run, F.SetupOk, W.Steps, Work, SetupOk, W.Starts, O.Encoded, O.Sent, O.AllSent, CarriesFrame, P.Expected,
         F.Expected, C.ListsAre, F.OneTakerAll, W.OneResult, Starts, ValidFrame, FramesInPlace;
    AllOneTakerOf(ws, space, su, s0);
    var x0, did, x := RunsAreWiredRuns(ws, space, su, s0, acts);
    var s := Run(ws, space, su, s0, acts).value;
    W.StartIs(ws, space, SizesOf(su), x0);
    chain := ChainCarries(ws, space, su, s, x0, did, x);
    W.WireIsSent(ws, space, SizesOf(su), x0, did);
    W.StreamCarriesEveryResult(ws, space, SizesOf(su), x0, did, f);
    if F.AllIdle(s.f) {
      F.ExpectedSame(Work(ws, space), s.f, x.p, f, |s.f.ins|);
    }
  }

  lemma AllOneTakerOf(ws: seq<Setup>, space: nat, su: F.Setup, s0: Wire)
    requires Starts(ws, space, su, s0) && Premise(su)
    ensures F.OneTakerAll(su)
  {
    hide C.OneTakerEach, F.SetupOk;
    AllOneTaker(su);
  }

  /** Every store that any thread is about to make, at any point of such an interleaving, stays inside the entry. */
  lemma StoresStayInside(ws: seq<Setup>, space: nat, su: F.Setup, s0: Wire, acts: seq<Act>, d: Deed)
    requires SetupOk(ws, space) && Starts(ws, space, su, s0) && Premise(su)
    requires Run(ws, space, su, s0, acts).Some? && Calm(ws, space, su, Run(ws, space, su, s0, acts).value)
    requires var s := Run(ws, space, su, s0, acts).value; Due(SeenBy(s.f), s.m, d)
    ensures var s := Run(ws, space, su, s0, acts).value; Fits(ws, space, SeenBy(s.f), s.m, d)
  {
    hide Run, F.SetupOk, W.Steps, SetupOk, W.Starts, F.OneTakerAll, W.OneResult, Starts, W.Inv, C.ListsAre, Due, Fits;
    AllOneTakerOf(ws, space, su, s0);
    var x0, did, x := RunsAreWiredRuns(ws, space, su, s0, acts);
    W.StartIs(ws, space, SizesOf(su), x0);
    W.RunInv(ws, space, SizesOf(su), x0, did);
    W.DueFits(ws, space, x, x0.m.script, d);
  }
}
