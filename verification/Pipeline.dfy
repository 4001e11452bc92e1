// Workers that feed one output: each worker is the consumer of its own queues and a producer of the
// output's queue.  It pops a message, reserves an output entry, calls its function, pushes the result,
// signals the output, and only then recycles the message's entry (worker.c).
module Pipeline {
  import opened Common
  import opened Channel
  import opened ChannelRuns

  // The states of the workers' channels, and of the output's, whose producer w is worker w; and the workers that
  // found the output full.  The code only prints that it did and goes on with a null entry, so such a worker does
  // nothing more to the lists before the process dies.
  datatype Pipe<M, N> = Pipe(ins: seq<State<M>>, out: State<N>, fell: set<int>)

  datatype Move<M, N> =
    | Input(w: int, act: Action<M>)    // producers of worker w, or its wait and scan
    | ReserveOut(w: int)
    | Fall(w: int)                     // no entry to reserve
    | Call(w: int)
    | Deliver(w: int)
    | SignalOut(w: int)
    | GiveBack(w: int)
    | Output(send: Action<N>)          // the output thread

  function InStep<M, N>(s: Pipe<M, N>, w: int, act: Action<M>): Option<Pipe<M, N>>
    requires 0 <= w < |s.ins|
  {
    match Step(Origin, s.ins[w], act)
    case None => None
    case Some((t, _)) => Some(s.(ins := s.ins[w := t]))
  }

  function OutStep<M, N>(s: Pipe<M, N>, act: Action<N>): Option<Pipe<M, N>> {
    match Step(Origin, s.out, act)
    case None => None
    case Some((t, _)) => Some(s.(out := t))
  }

  // Worker w works on a message and its claim on an output entry is as given.
  predicate Phase<M, N>(s: Pipe<M, N>, w: int, ran: bool, reserved: bool) {
    && 0 <= w < |s.ins| && w < |s.out.producers| && w !in s.fell
    && (if ran then s.ins[w].consumer.Ran? && s.ins[w].served != [] else s.ins[w].consumer.Holding?)
    && (if reserved then s.out.producers[w].Reserved? else s.out.producers[w].Ready?)
  }

  function Last<T>(xs: seq<T>): T
    requires xs != []
  {
    xs[|xs| - 1]
  }

  function Move1<M, N>(work: (int, M) -> N, s: Pipe<M, N>, mv: Move<M, N>): Option<Pipe<M, N>> {
    match mv
    case Input(w, act) => if 0 <= w < |s.ins| && !act.Serve? && !act.Recycle? then InStep(s, w, act) else None
    case ReserveOut(w) => if Phase(s, w, false, false) then OutStep(s, Reserve(w, 0)) else None
    case Fall(w) =>
      if Phase(s, w, false, false) && s.out.qs != [] && s.out.qs[0].empty == [] then Some(s.(fell := s.fell + {w}))
      else None
    case Call(w) => if Phase(s, w, false, true) then InStep(s, w, Serve) else None
    case Deliver(w) => if Phase(s, w, true, true) then OutStep(s, Publish(w, work(w, Last(s.ins[w].served)))) else None
    case SignalOut(w) => OutStep(s, Signal(w))
    case GiveBack(w) => if Phase(s, w, true, false) then InStep(s, w, Recycle) else None
    case Output(send) => if send.Wait? || send.Probe? || send.Serve? || send.Recycle? then OutStep(s, send) else None
  }

  function Moves<M, N>(work: (int, M) -> N, s: Pipe<M, N>, mvs: seq<Move<M, N>>): Option<Pipe<M, N>>
    decreases |mvs|
  {
    if mvs == [] then Some(s)
    else
      match Move1(work, s, mvs[0])
      case None => None
      case Some(s1) => Moves(work, s1, mvs[1..])
  }

  /** Worker w has queues of the given lengths and ps[w] connections; the output has outlen entries. */
  function Start<M, N>(qlens: seq<seq<nat>>, ps: seq<nat>, outlen: nat): Pipe<M, N>
    requires |qlens| == |ps|
  {
    Pipe(seq(|qlens|, w requires 0 <= w < |qlens| => Init(qlens[w], ps[w])), Init([outlen], |qlens|), {})
  }

  // ---------------------------------------------------------------------------------------
  // Results.

  /** How many of the messages have result f at worker w. */
  function Images<M, N(==)>(work: (int, M) -> N, w: int, ms: seq<M>, f: N): nat {
    if ms == [] then 0 else Images(work, w, ms[..|ms| - 1], f) + At(work(w, Last(ms)) == f)
  }

  // Worker w has called its function and not pushed the result yet.
  predicate Owes<M>(c: State<M>, p: Producer) {
    c.consumer.Ran? && p.Reserved? && c.served != []
  }

  // Results f that worker w has pushed.
  function Share<M, N(==)>(work: (int, M) -> N, w: int, c: State<M>, p: Producer, f: N): int {
    Images(work, w, c.served, f) - At(Owes(c, p) && work(w, Last(c.served)) == f)
  }

  // The pushed results of workers 0..k-1.
  function Shares<M, N(==)>(work: (int, M) -> N, s: Pipe<M, N>, f: N, k: nat): int
    requires k <= |s.ins| <= |s.out.producers|
  {
    if k == 0 then 0 else Shares(work, s, f, k - 1) + Share(work, k - 1, s.ins[k - 1], s.out.producers[k - 1], f)
  }

  lemma {:induction false} SharesFrame<M, N>(work: (int, M) -> N, s: Pipe<M, N>, s': Pipe<M, N>, f: N, k: nat, w: int)
    requires |s.ins| == |s'.ins| && k <= |s.ins| <= |s.out.producers| == |s'.out.producers|
    requires forall i :: 0 <= i < k && i != w ==>
               Share(work, i, s'.ins[i], s'.out.producers[i], f) == Share(work, i, s.ins[i], s.out.producers[i], f)
    ensures Shares(work, s', f, k) - Shares(work, s, f, k) ==
              if 0 <= w < k then
                Share(work, w, s'.ins[w], s'.out.producers[w], f) - Share(work, w, s.ins[w], s.out.producers[w], f)
              else 0
  {
    if k > 0 {
      SharesFrame(work, s, s', f, k - 1, w);
    }
  }

  lemma ImagesSnoc<M, N>(work: (int, M) -> N, w: int, ms: seq<M>, m: M, f: N)
    ensures Images(work, w, ms + [m], f) == Images(work, w, ms, f) + At(work(w, m) == f)
  {
    assert (ms + [m])[..|ms|] == ms;
  }

  /** What the output accepted is what the workers computed, less what is computed and not pushed yet. */
  ghost predicate ResultsOk<M, N>(work: (int, M) -> N, s: Pipe<M, N>, f: N) {
    |s.ins| <= |s.out.producers| && multiset(s.out.accepted)[f] == Shares(work, s, f, |s.ins|)
  }

  // What a step of one channel leaves alone.
  lemma InputFrame<M>(c: State<M>, act: Action<M>)
    requires Step(Origin, c, act).Some?
    ensures var c' := Step(Origin, c, act).value.0;
            && (!act.Serve? ==> c'.served == c.served)
            && (!act.Serve? && !act.Recycle? ==> (c'.consumer.Ran? <==> c.consumer.Ran?))
            && (act.Serve? ==> c.consumer.Holding? && c'.consumer.Ran? && c'.served == c.served + [c.consumer.msg])
            && (act.Recycle? ==> c.consumer.Ran? && c'.consumer == Waiting)
  {
  }

  lemma OutputFrame<N>(c: State<N>, act: Action<N>)
    requires Step(Origin, c, act).Some?
    ensures var c' := Step(Origin, c, act).value.0;
            && |c'.producers| == |c.producers|
            && (act.Publish? ==>
                  && 0 <= act.p < |c.producers| && c'.accepted == c.accepted + [act.msg]
                  && c.producers[act.p].Reserved? && c'.producers == c.producers[act.p := Pushed])
            && (!act.Publish? ==> c'.accepted == c.accepted)
            && (act.Reserve? ==>
                  && 0 <= act.p < |c.producers| && c.producers[act.p].Ready?
                  && c'.producers == c.producers[act.p := c'.producers[act.p]])
            && (act.Signal? ==>
                  && 0 <= act.p < |c.producers| && c.producers[act.p].Pushed?
                  && c'.producers == c.producers[act.p := Ready])
            && (act.Wait? || act.Probe? || act.Serve? || act.Recycle? ==> c'.producers == c.producers)
  {
  }

  lemma InputResults<M, N>(work: (int, M) -> N, s: Pipe<M, N>, w: int, act: Action<M>, f: N)
    requires ResultsOk(work, s, f) && 0 <= w < |s.ins| && InStep(s, w, act).Some?
    requires act.Serve? ==> Phase(s, w, false, true)
    requires act.Recycle? ==> Phase(s, w, true, false)
    ensures ResultsOk(work, InStep(s, w, act).value, f)
  {
    hide Step;
    var s' := InStep(s, w, act).value;
    InputFrame(s.ins[w], act);
    if act.Serve? {
      ImagesSnoc(work, w, s.ins[w].served, s.ins[w].consumer.msg, f);
    }
    SharesFrame(work, s, s', f, |s.ins|, w);
  }

  lemma OutputResults<M, N>(work: (int, M) -> N, s: Pipe<M, N>, act: Action<N>, f: N)
    requires ResultsOk(work, s, f) && OutStep(s, act).Some? && !act.Close?
    requires act.Reserve? ==> Phase(s, act.p, false, false)
    requires act.Publish? ==> Phase(s, act.p, true, true) && act.msg == work(act.p, Last(s.ins[act.p].served))
    ensures ResultsOk(work, OutStep(s, act).value, f)
  {
    hide Step;
    var s' := OutStep(s, act).value;
    OutputFrame(s.out, act);
    if act.Publish? {
      Snoc(s.out.accepted, act.msg, f);
    }
    SharesFrame(work, s, s', f, |s.ins|, if act.Reserve? || act.Publish? || act.Signal? then act.p else -1);
  }

  lemma FallResults<M, N>(work: (int, M) -> N, s: Pipe<M, N>, w: int, f: N)
    requires ResultsOk(work, s, f)
    ensures ResultsOk(work, s.(fell := s.fell + {w}), f)
  {
    SharesFrame(work, s, s.(fell := s.fell + {w}), f, |s.ins|, -1);
  }

  lemma MoveResults<M, N>(work: (int, M) -> N, s: Pipe<M, N>, mv: Move<M, N>, f: N)
    requires ResultsOk(work, s, f) && Move1(work, s, mv).Some?
    ensures ResultsOk(work, Move1(work, s, mv).value, f)
  {
    hide InStep, OutStep, ResultsOk;
    match mv
    case Input(w, act) => InputResults(work, s, w, act, f);
    case ReserveOut(w) => OutputResults(work, s, Reserve(w, 0), f);
    case Fall(w) => FallResults(work, s, w, f);
    case Call(w) => InputResults(work, s, w, Serve, f);
    case Deliver(w) => OutputResults(work, s, Publish(w, work(w, Last(s.ins[w].served))), f);
    case SignalOut(w) => OutputResults(work, s, Signal(w), f);
    case GiveBack(w) => InputResults(work, s, w, Recycle, f);
    case Output(send) => OutputResults(work, s, send, f);
  }

  // ---------------------------------------------------------------------------------------
  // Every channel keeps what it keeps by itself.

  ghost predicate Channels<M(!new), N(!new)>(s: Pipe<M, N>) {
    && |s.ins| <= |s.out.producers| && |s.out.qs| == 1
    && (forall w :: 0 <= w < |s.ins| ==> Invariant(s.ins[w]))
    && (forall w, m :: 0 <= w < |s.ins| ==> OnceOk(s.ins[w], m))
    && Invariant(s.out) && (forall f :: OnceOk(s.out, f))
  }

  lemma InputChannels<M(!new), N(!new)>(s: Pipe<M, N>, w: int, act: Action<M>)
    requires Channels(s) && 0 <= w < |s.ins| && InStep(s, w, act).Some?
    ensures Channels(InStep(s, w, act).value)
  {
    hide Step, Invariant, OnceOk;
    var s' := InStep(s, w, act).value;
    KeepsInvariant(s.ins[w], act);
    forall m
      ensures OnceOk(s'.ins[w], m)
    {
      StepOnce(Origin, s.ins[w], act, m);
    }
  }

  lemma KeepsInvariant<M>(c: State<M>, act: Action<M>)
    requires Invariant(c) && Step(Origin, c, act).Some?
    ensures Invariant(Step(Origin, c, act).value.0)
    ensures |Step(Origin, c, act).value.0.producers| == |c.producers| && |Step(Origin, c, act).value.0.qs| == |c.qs|
  {
    hide TokensOk, Step, Shape;
    StepShape(Origin, c, act);
    StepTokens(Origin, c, act);
  }

  lemma OutputChannels<M(!new), N(!new)>(s: Pipe<M, N>, act: Action<N>)
    requires Channels(s) && OutStep(s, act).Some?
    ensures Channels(OutStep(s, act).value)
  {
    hide Step, Invariant, OnceOk;
    KeepsInvariant(s.out, act);
    forall f
      ensures OnceOk(OutStep(s, act).value.out, f)
    {
      StepOnce(Origin, s.out, act, f);
    }
  }

  lemma FallChannels<M(!new), N(!new)>(s: Pipe<M, N>, w: int)
    requires Channels(s)
    ensures Channels(s.(fell := s.fell + {w}))
  {
    hide Invariant, OnceOk;
  }

  lemma MoveChannels<M(!new), N(!new)>(work: (int, M) -> N, s: Pipe<M, N>, mv: Move<M, N>)
    requires Channels(s) && Move1(work, s, mv).Some?
    ensures Channels(Move1(work, s, mv).value)
  {
    hide InStep, OutStep, Channels;
    match mv
    case Input(w, act) => InputChannels(s, w, act);
    case ReserveOut(w) => OutputChannels(s, Reserve(w, 0));
    case Fall(w) => FallChannels(s, w);
    case Call(w) => InputChannels(s, w, Serve);
    case Deliver(w) => OutputChannels(s, Publish(w, work(w, Last(s.ins[w].served))));
    case SignalOut(w) => OutputChannels(s, Signal(w));
    case GiveBack(w) => InputChannels(s, w, Recycle);
    case Output(send) => OutputChannels(s, send);
  }

  lemma {:induction false} MovesKeep<M(!new), N(!new)>(work: (int, M) -> N, s: Pipe<M, N>, mvs: seq<Move<M, N>>, f: N)
    requires Channels(s) && ResultsOk(work, s, f) && Moves(work, s, mvs).Some?
    ensures Channels(Moves(work, s, mvs).value) && ResultsOk(work, Moves(work, s, mvs).value, f)
    decreases |mvs|
  {
    hide Channels, ResultsOk, Move1;
    if mvs != [] {
      MoveChannels(work, s, mvs[0]);
      MoveResults(work, s, mvs[0], f);
      MovesKeep(work, Move1(work, s, mvs[0]).value, mvs[1..], f);
    }
  }

  lemma {:induction false} NoShares<M, N>(work: (int, M) -> N, s: Pipe<M, N>, f: N, k: nat)
    requires k <= |s.ins| <= |s.out.producers| && forall w :: 0 <= w < |s.ins| ==> s.ins[w].served == []
    ensures Shares(work, s, f, k) == 0
  {
    if k > 0 {
      NoShares(work, s, f, k - 1);
    }
  }

  lemma StartOk<M(!new), N(!new)>(work: (int, M) -> N, qlens: seq<seq<nat>>, ps: seq<nat>, outlen: nat, f: N)
    requires |qlens| == |ps| && forall w :: 0 <= w < |qlens| ==> qlens[w] != []
    ensures Channels(Start<M, N>(qlens, ps, outlen)) && ResultsOk(work, Start<M, N>(qlens, ps, outlen), f)
  {
    hide Invariant, OnceOk;
    var s := Start<M, N>(qlens, ps, outlen);
    forall w | 0 <= w < |s.ins|
      ensures Invariant(s.ins[w])
    {
      InitInvariant<M>(qlens[w], ps[w]);
    }
    forall w, m | 0 <= w < |s.ins|
      ensures OnceOk(s.ins[w], m)
    {
      InitOnce(qlens[w], ps[w], m);
    }
    InitInvariant<N>([outlen], |qlens|);
    forall g
      ensures OnceOk(s.out, g)
    {
      InitOnce([outlen], |qlens|, g);
    }
    NoShares(work, s, f, |s.ins|);
  }

  // ---------------------------------------------------------------------------------------
  // What comes out.

  /** At every moment each result was sent, or is in the output's hands or on its list; and the results the
      output got are those of the messages the workers served, less those not pushed yet. */
  lemma ResultsAccounted<M(!new), N(!new)>(work: (int, M) -> N, qlens: seq<seq<nat>>, ps: seq<nat>, outlen: nat,
                           mvs: seq<Move<M, N>>, f: N)
    requires |qlens| == |ps| && forall w :: 0 <= w < |qlens| ==> qlens[w] != []
    requires Moves(work, Start(qlens, ps, outlen), mvs).Some?
    ensures var s := Moves(work, Start(qlens, ps, outlen), mvs).value;
            && |s.ins| <= |s.out.producers|
            && multiset(s.out.served)[f] + FullCount(s.out.qs, f) + InHand(s.out.consumer, f) ==
                 Shares(work, s, f, |s.ins|)
  {
    hide Moves, Start;
    StartOk<M, N>(work, qlens, ps, outlen, f);
    MovesKeep(work, Start(qlens, ps, outlen), mvs, f);
    assert OnceOk(Moves(work, Start(qlens, ps, outlen), mvs).value.out, f);
  }

  lemma {:induction false} SomeImage<M, N>(work: (int, M) -> N, w: int, ms: seq<M>, f: N) returns (m: M)
    requires Images(work, w, ms, f) > 0
    ensures m in ms && work(w, m) == f
  {
    m := Last(ms);
    if work(w, m) != f {
      m := SomeImage(work, w, ms[..|ms| - 1], f);
    }
  }

  lemma {:induction false} SomeShare<M, N>(work: (int, M) -> N, s: Pipe<M, N>, f: N, k: nat) returns (w: int, m: M)
    requires k <= |s.ins| <= |s.out.producers| && Shares(work, s, f, k) > 0
    ensures 0 <= w < k && m in s.ins[w].served && work(w, m) == f
  {
    w := k - 1;
    if Share(work, w, s.ins[w], s.out.producers[w], f) > 0 {
      m := SomeImage(work, w, s.ins[w].served, f);
    } else {
      w, m := SomeShare(work, s, f, k - 1);
    }
  }

  /** Whatever the output has sent, has on its list or in its hands is some worker's result for a message which that
      worker accepted. */
  lemma ResultsComeFromMessages<M(!new), N(!new)>(work: (int, M) -> N, qlens: seq<seq<nat>>, ps: seq<nat>, outlen: nat,
                                                  mvs: seq<Move<M, N>>, f: N)
      returns (w: int, m: M)
    requires |qlens| == |ps| && forall w :: 0 <= w < |qlens| ==> qlens[w] != []
    requires Moves(work, Start(qlens, ps, outlen), mvs).Some?
    requires var out := Moves(work, Start(qlens, ps, outlen), mvs).value.out;
             f in out.served || FullCount(out.qs, f) > 0 || InHand(out.consumer, f) > 0
    ensures var s := Moves(work, Start(qlens, ps, outlen), mvs).value;
            0 <= w < |s.ins| && m in s.ins[w].accepted && work(w, m) == f
  {
    hide Moves, Start, Images;
    ResultsAccounted(work, qlens, ps, outlen, mvs, f);
    var s := Moves(work, Start(qlens, ps, outlen), mvs).value;
    w, m := SomeShare(work, s, f, |s.ins|);
    StartOk<M, N>(work, qlens, ps, outlen, f);
    MovesKeep(work, Start(qlens, ps, outlen), mvs, f);
    assert OnceOk(s.ins[w], m);
    assert m in multiset(s.ins[w].accepted);
  }

  // Nobody can move by themselves: every consumer waits at a zero semaphore and no signal is owed.
  ghost predicate Idle<M>(c: State<M>) {
    c.consumer.Waiting? && c.sem == 0 && forall p :: 0 <= p < |c.producers| ==> !c.producers[p].Pushed?
  }

  ghost predicate AllIdle<M, N>(s: Pipe<M, N>) {
    Idle(s.out) && forall w :: 0 <= w < |s.ins| ==> Idle(s.ins[w])
  }

  lemma {:induction false} NoneUnsignalled(ps: seq<Producer>)
    requires forall p :: 0 <= p < |ps| ==> !ps[p].Pushed?
    ensures Unsignalled(ps) == 0
  {
    if ps != [] {
      NoneUnsignalled(ps[1..]);
    }
  }

  // An idle consumer has served everything.
  lemma IdleServedAll<M>(c: State<M>, m: M)
    requires Invariant(c) && OnceOk(c, m) && Idle(c)
    ensures multiset(c.accepted)[m] == multiset(c.served)[m]
  {
    NoneUnsignalled(c.producers);
    forall j | 0 <= j < |c.qs|
      ensures c.qs[j].full == []
    {
      NoneFull(c.qs, j);
    }
    NothingFull(c.qs, m);
  }

  // Results do not depend on the order of service.
  lemma {:induction false} ImagesOfSame<M, N>(work: (int, M) -> N, w: int, xs: seq<M>, ys: seq<M>, f: N)
    requires multiset(xs) == multiset(ys)
    ensures Images(work, w, xs, f) == Images(work, w, ys, f)
    decreases |xs|
  {
    if xs == [] {
      assert |multiset(ys)| == 0;
    } else {
      var x := Last(xs);
      var i := IndexOf(ys, x, xs);
      var ys' := ys[..i] + ys[i + 1..];
      assert ys == ys[..i] + ([x] + ys[i + 1..]);
      assert xs == xs[..|xs| - 1] + [x];
      assert multiset(ys') == multiset(ys) - multiset{x};
      assert multiset(xs[..|xs| - 1]) == multiset(xs) - multiset{x};
      ImagesOfSame(work, w, xs[..|xs| - 1], ys', f);
      ImagesMiddle(work, w, ys[..i], x, ys[i + 1..], f);
    }
  }

  lemma IndexOf<M>(ys: seq<M>, x: M, xs: seq<M>) returns (i: nat)
    requires multiset(xs) == multiset(ys) && xs != [] && x == Last(xs)
    ensures i < |ys| && ys[i] == x
  {
    assert x in multiset(xs);
    assert x in ys;
    i :| i < |ys| && ys[i] == x;
  }

  lemma {:induction false} ImagesMiddle<M, N>(work: (int, M) -> N, w: int, a: seq<M>, x: M, b: seq<M>, f: N)
    ensures Images(work, w, a + ([x] + b), f) == Images(work, w, a + b, f) + At(work(w, x) == f)
    decreases |b|
  {
    if b == [] {
      assert a + ([x] + b) == a + [x] && a + b == a;
      ImagesSnoc(work, w, a, x, f);
    } else {
      var c, y := b[..|b| - 1], Last(b);
      ImagesMiddle(work, w, a, x, c, f);
      assert a + ([x] + b) == (a + ([x] + c)) + [y] && a + b == (a + c) + [y];
      ImagesSnoc(work, w, a + ([x] + c), y, f);
      ImagesSnoc(work, w, a + c, y, f);
    }
  }

  /** How many of all messages the workers ever accepted have result f. */
  function Expected<M, N(==)>(work: (int, M) -> N, ins: seq<State<M>>, f: N, k: nat): nat
    requires k <= |ins|
  {
    if k == 0 then 0 else Expected(work, ins, f, k - 1) + Images(work, k - 1, ins[k - 1].accepted, f)
  }

  lemma {:induction false} IdleShares<M(!new), N(!new)>(work: (int, M) -> N, s: Pipe<M, N>, f: N, k: nat)
    requires Channels(s) && k <= |s.ins| && forall w :: 0 <= w < |s.ins| ==> Idle(s.ins[w])
    ensures Shares(work, s, f, k) == Expected(work, s.ins, f, k)
  {
    hide Idle, Invariant, OnceOk;
    if k > 0 {
      IdleShares(work, s, f, k - 1);
      IdleShare(work, s.ins[k - 1], s.out.producers[k - 1], k - 1, f);
    }
  }

  lemma IdleShare<M(!new), N>(work: (int, M) -> N, c: State<M>, p: Producer, w: int, f: N)
    requires Invariant(c) && (forall m :: OnceOk(c, m)) && Idle(c)
    ensures Share(work, w, c, p, f) == Images(work, w, c.accepted, f)
  {
    hide Invariant;
    forall m
      ensures multiset(c.accepted)[m] == multiset(c.served)[m]
    {
      assert OnceOk(c, m);
      IdleServedAll(c, m);
    }
    ImagesOfSame(work, w, c.served, c.accepted, f);
  }

  /** When no thread has anything left to do, the output has sent the result of every message that any
      worker ever accepted, each exactly once, and nothing else. */
  lemma DrainedPipeline<M(!new), N(!new)>(work: (int, M) -> N, qlens: seq<seq<nat>>, ps: seq<nat>, outlen: nat,
                          mvs: seq<Move<M, N>>, f: N)
    requires |qlens| == |ps| && forall w :: 0 <= w < |qlens| ==> qlens[w] != []
    requires Moves(work, Start(qlens, ps, outlen), mvs).Some?
    requires AllIdle(Moves(work, Start(qlens, ps, outlen), mvs).value)
    ensures var s := Moves(work, Start(qlens, ps, outlen), mvs).value;
            multiset(s.out.served)[f] == Expected(work, s.ins, f, |s.ins|)
  {
    hide Moves, Start, Idle;
    StartOk<M, N>(work, qlens, ps, outlen, f);
    MovesKeep(work, Start(qlens, ps, outlen), mvs, f);
    var s := Moves(work, Start(qlens, ps, outlen), mvs).value;
    IdleServedAll(s.out, f);
    IdleShares(work, s, f, |s.ins|);
  }

  lemma OneOutputQueue<M(!new), N(!new)>(work: (int, M) -> N, qlens: seq<seq<nat>>, ps: seq<nat>, outlen: nat,
                                         mvs: seq<Move<M, N>>, f: N)
    requires |qlens| == |ps| && forall w :: 0 <= w < |qlens| ==> qlens[w] != []
    requires Moves(work, Start(qlens, ps, outlen), mvs).Some?
    ensures |Moves(work, Start(qlens, ps, outlen), mvs).value.out.qs| == 1
  {
    hide Moves, Start;
    StartOk<M, N>(work, qlens, ps, outlen, f);
    MovesKeep(work, Start(qlens, ps, outlen), mvs, f);
  }

  /** With any number of workers feeding it, the output finds the entry it asserts after every wait. */
  lemma OutputFindsEntry<M(!new), N(!new)>(work: (int, M) -> N, qlens: seq<seq<nat>>, ps: seq<nat>, outlen: nat,
                           mvs: seq<Move<M, N>>, f: N)
    requires |qlens| == |ps| && forall w :: 0 <= w < |qlens| ==> qlens[w] != []
    requires Moves(work, Start(qlens, ps, outlen), mvs).Some?
    requires Moves(work, Start(qlens, ps, outlen), mvs).value.out.consumer.Scanning?
    ensures var out := Moves(work, Start(qlens, ps, outlen), mvs).value.out;
            Step(Origin, out, Probe).Some? && Step(Origin, out, Probe).value.1 == Popped(0)
  {
    hide Moves, Start;
    StartOk<M, N>(work, qlens, ps, outlen, f);
    MovesKeep(work, Start(qlens, ps, outlen), mvs, f);
    var j := FindFull(Moves(work, Start(qlens, ps, outlen), mvs).value.out.qs);
  }

  // ---------------------------------------------------------------------------------------
  // The free list is empty exactly when all entries are in use.

  lemma {:induction false} NoCloses<N>(s: State<N>, acts: seq<Action<N>>, q: int)
    requires Run(Origin, s, acts).Some? && forall i :: 0 <= i < |acts| ==> !acts[i].Close?
    ensures ClosedMidway(Origin, s, acts, q) == 0
    decreases |acts|
  {
    hide Step;
    if acts != [] {
      NoCloses(Step(Origin, s, acts[0]).value.0, acts[1..], q);
    }
  }

  // The move's step on the output, if it is one.
  lemma OutMove<M, N>(work: (int, M) -> N, s: Pipe<M, N>, mv: Move<M, N>) returns (act: Option<Action<N>>)
    requires Move1(work, s, mv).Some?
    ensures act == None ==> Move1(work, s, mv).value.out == s.out
    ensures act.Some? ==>
              && !act.value.Close? && Step(Origin, s.out, act.value).Some?
              && Step(Origin, s.out, act.value).value.0 == Move1(work, s, mv).value.out
  {
    hide Step;
    act := match mv
      case ReserveOut(w) => Some(Reserve(w, 0))
      case Deliver(w) => Some(Publish(w, work(w, Last(s.ins[w].served))))
      case SignalOut(w) => Some(Signal(w))
      case Output(send) => Some(send)
      case _ => None;
  }

  // The output's part of a run.
  lemma {:induction false} OutRun<M, N>(work: (int, M) -> N, s: Pipe<M, N>, mvs: seq<Move<M, N>>)
      returns (acts: seq<Action<N>>)
    requires Moves(work, s, mvs).Some?
    ensures Run(Origin, s.out, acts).Some? && Run(Origin, s.out, acts).value.0 == Moves(work, s, mvs).value.out
    ensures forall i :: 0 <= i < |acts| ==> !acts[i].Close?
    decreases |mvs|
  {
    hide Move1, Step;
    acts := [];
    if mvs != [] {
      var one := OutMove(work, s, mvs[0]);
      acts := OutRun(work, Move1(work, s, mvs[0]).value, mvs[1..]);
      if one.Some? {
        RunFirst(Origin, s.out, [one.value] + acts);
        acts := [one.value] + acts;
      }
    }
  }

  // Entries published, reserved by workers, and with the output thread.
  function InUse<N>(out: State<N>): nat
    requires |out.qs| == 1
  {
    |out.qs[0].full| + ReservedOf(out.producers, 0) + At(out.consumer.Holding? || out.consumer.Ran?)
  }

  /** In every run a worker finds no entry exactly when all of the output's entries are published, reserved or with the
      output thread. */
  lemma FullIff<M, N>(work: (int, M) -> N, qlens: seq<seq<nat>>, ps: seq<nat>, outlen: nat, mvs: seq<Move<M, N>>)
    requires |qlens| == |ps| && Moves(work, Start(qlens, ps, outlen), mvs).Some?
    ensures var out := Moves(work, Start(qlens, ps, outlen), mvs).value.out;
            && |out.qs| == 1 && out.lost == [[]]
            && InUse(out) <= outlen && (out.qs[0].empty == [] <==> InUse(out) == outlen)
  {
    hide Moves, Run;
    var acts := OutRun(work, Start(qlens, ps, outlen), mvs);
    QueueTally([outlen], |qlens|, acts, 0);
    NoCloses(Init<N>([outlen], |qlens|), acts, 0);
    var s := Init<N>([outlen], |qlens|);
    RunShape(Origin, s, acts);
  }
}
