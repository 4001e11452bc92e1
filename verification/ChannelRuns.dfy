// What one consumer and its producers guarantee over whole runs.
module ChannelRuns {
  import opened Common
  import opened Channel

  ghost predicate Invariant<M>(s: State<M>) {
    Shape(s) && TokensOk(s)
  }

  lemma {:induction false} NothingFull<M>(qs: seq<Queue<M>>, m: M)
    requires forall i :: 0 <= i < |qs| ==> qs[i].full == []
    ensures TotalFull(qs) == 0 && FullCount(qs, m) == 0
  {
    if qs != [] {
      NothingFull(qs[1..], m);
    }
  }

  lemma {:induction false} AllReady(ps: seq<Producer>, q: int, e: int)
    requires forall i :: 0 <= i < |ps| ==> ps[i] == Ready
    ensures Unsignalled(ps) == 0 && ReservedCopies(ps, q, e) == 0
  {
    if ps != [] {
      AllReady(ps[1..], q, e);
    }
  }

  lemma {:induction false} Identity(n: nat, e: int)
    ensures multiset(seq(n, k => k))[e] == At(0 <= e < n)
  {
    if n > 0 {
      Identity(n - 1, e);
      assert seq(n, k => k) == seq(n - 1, k => k) + [n - 1];
      Snoc(seq(n - 1, k => k), n - 1, e);
    }
  }

  lemma {:induction false} NothingFullTotal<M>(qs: seq<Queue<M>>)
    requires forall i :: 0 <= i < |qs| ==> qs[i].full == []
    ensures TotalFull(qs) == 0
  {
    if qs != [] {
      NothingFullTotal(qs[1..]);
    }
  }

  lemma InitInvariant<M>(qlens: seq<nat>, ps: nat)
    requires |qlens| > 0
    ensures Invariant(Init<M>(qlens, ps))
  {
    var s := Init<M>(qlens, ps);
    NothingFullTotal(s.qs);
    AllReady(s.producers, 0, 0);
  }

  lemma InitOnce<M>(qlens: seq<nat>, ps: nat, m: M)
    ensures OnceOk(Init<M>(qlens, ps), m)
  {
    NothingFull(Init<M>(qlens, ps).qs, m);
  }

  lemma InitPlaces<M>(qlens: seq<nat>, ps: nat, q: int, e: int)
    requires 0 <= q < |qlens|
    ensures Places(Init<M>(qlens, ps), q, e) == At(0 <= e < qlens[q])
  {
    Identity(qlens[q], e);
    AllReady(Init<M>(qlens, ps).producers, q, e);
  }

  lemma {:induction false} RunInvariant<M>(rep: Report, s: State<M>, acts: seq<Action<M>>)
    requires Invariant(s) && Run(rep, s, acts).Some?
    ensures Invariant(Run(rep, s, acts).value.0)
    ensures |Run(rep, s, acts).value.0.qs| == |s.qs|
    decreases |acts|
  {
    if acts != [] {
      StepShape(rep, s, acts[0]);
      StepTokens(rep, s, acts[0]);
      RunInvariant(rep, Step(rep, s, acts[0]).value.0, acts[1..]);
    }
  }

  /** In every reachable state the tokens match the published entries. */
  lemma TokensAccounted<M>(rep: Report, qlens: seq<nat>, ps: nat, acts: seq<Action<M>>)
    requires |qlens| > 0 && Run(rep, Init(qlens, ps), acts).Some?
    ensures var s := Run(rep, Init(qlens, ps), acts).value.0;
            TotalFull(s.qs) == s.sem + Unsignalled(s.producers) + (if s.consumer.Scanning? then 1 else 0)
  {
    var s0 := Init<M>(qlens, ps);
    InitInvariant<M>(qlens, ps);
    RunInvariant(rep, s0, acts);
  }

  lemma {:induction false} SomebodyPushed(ps: seq<Producer>)
    requires Unsignalled(ps) > 0
    ensures exists p :: 0 <= p < |ps| && ps[p].Pushed?
  {
    if ps[0].Pushed? {
    } else {
      SomebodyPushed(ps[1..]);
      var p :| 0 <= p < |ps[1..]| && ps[1..][p].Pushed?;
      assert ps[p + 1].Pushed?;
    }
  }

  /** No wake-up is lost: a waiting consumer with a published message can wait through, or a producer still owes its
      signal. */
  lemma NeverLeftBlocked<M>(rep: Report, qlens: seq<nat>, ps: nat, acts: seq<Action<M>>, j: int)
    requires |qlens| > 0 && Run(rep, Init(qlens, ps), acts).Some?
    requires var s := Run(rep, Init(qlens, ps), acts).value.0;
             s.consumer.Waiting? && 0 <= j < |s.qs| && s.qs[j].full != []
    ensures var s := Run(rep, Init(qlens, ps), acts).value.0;
            || Step(rep, s, Wait).Some?
            || exists p :: 0 <= p < |s.producers| && s.producers[p].Pushed?
  {
    TokensAccounted(rep, qlens, ps, acts);
    var s := Run(rep, Init(qlens, ps), acts).value.0;
    if TotalFull(s.qs) == 0 {
      NoneFull(s.qs, j);
    } else if s.sem == 0 {
      SomebodyPushed(s.producers);
    }
  }

  /** After the wait over a single queue, the entry the consumer asserts is there. */
  lemma OutputAssertHolds<M>(rep: Report, qlen: nat, ps: nat, acts: seq<Action<M>>)
    requires Run(rep, Init([qlen], ps), acts).Some?
    requires Run(rep, Init([qlen], ps), acts).value.0.consumer.Scanning?
    ensures var s := Run(rep, Init([qlen], ps), acts).value.0;
            Step(rep, s, Probe).Some? && Step(rep, s, Probe).value.1 == Popped(0)
  {
    TokensAccounted(rep, [qlen], ps, acts);
    var s0 := Init<M>([qlen], ps);
    InitInvariant<M>([qlen], ps);
    RunInvariant(rep, s0, acts);
    var s := Run(rep, s0, acts).value.0;
    var j := FindFull(s.qs);
  }

  /** With a token in hand, the scan pops an entry before it has missed n times, whatever producers do meanwhile. */
  lemma ScanFinds<M>(rep: Report, s: State<M>, acts: seq<Action<M>>)
    requires Invariant(s) && s.consumer.Scanning? && Run(rep, s, acts).Some?
    requires forall q :: Popped(q) !in Run(rep, s, acts).value.1
    ensures Probes(Run(rep, s, acts).value.1) < |s.qs|
  {
    var j := FindFull(s.qs);
    ProbesApproach(rep, s, acts, j);
    RunInvariant(rep, s, acts);
  }

  lemma {:induction false} PopsAreProbes(tr: seq<Event>, j: int)
    ensures PopsElsewhere(tr, j) <= Probes(tr)
  {
    if tr != [] {
      PopsAreProbes(tr[1..], j);
    }
  }

  /** Until a non-empty queue j is served, at most (j - cursor) mod n entries are taken from other queues. */
  lemma BoundedBypass<M>(rep: Report, s: State<M>, acts: seq<Action<M>>, j: int)
    requires Shape(s) && 0 <= j < |s.qs| && s.qs[j].full != []
    requires Run(rep, s, acts).Some? && Popped(j) !in Run(rep, s, acts).value.1
    ensures PopsElsewhere(Run(rep, s, acts).value.1, j) <= (j - s.cursor) % |s.qs|
  {
    var n := |s.qs|;
    ProbesApproach(rep, s, acts, j);
    PopsAreProbes(Run(rep, s, acts).value.1, j);
    var (s', tr) := Run(rep, s, acts).value;
    RunShape(rep, s, acts);
    AheadIsMod(n, s.cursor, j);
  }

  lemma AheadIsMod(n: nat, c: int, j: int)
    requires 0 <= c < n && 0 <= j < n
    ensures Ahead(n, c, j) == (j - c) % n
  {
    if j < c {
      assert (j - c) / n == -1;
    }
  }

  lemma {:induction false} RunShape<M>(rep: Report, s: State<M>, acts: seq<Action<M>>)
    requires Shape(s) && Run(rep, s, acts).Some?
    ensures Shape(Run(rep, s, acts).value.0) && |Run(rep, s, acts).value.0.qs| == |s.qs|
    decreases |acts|
  {
    if acts != [] {
      StepShape(rep, s, acts[0]);
      RunShape(rep, Step(rep, s, acts[0]).value.0, acts[1..]);
    }
  }

  lemma {:induction false} RunOnce<M>(rep: Report, s: State<M>, acts: seq<Action<M>>, m: M)
    requires OnceOk(s, m) && Run(rep, s, acts).Some?
    ensures OnceOk(Run(rep, s, acts).value.0, m)
    decreases |acts|
  {
    if acts != [] {
      StepOnce(rep, s, acts[0], m);
      RunOnce(rep, Step(rep, s, acts[0]).value.0, acts[1..], m);
    }
  }

  /** Exactly once: each copy of each message was served, or is published, or is in the consumer's hand. */
  lemma ExactlyOnce<M>(rep: Report, qlens: seq<nat>, ps: nat, acts: seq<Action<M>>, m: M)
    requires |qlens| > 0 && Run(rep, Init(qlens, ps), acts).Some?
    ensures var s := Run(rep, Init(qlens, ps), acts).value.0;
            multiset(s.accepted)[m] == multiset(s.served)[m] + FullCount(s.qs, m) + InHand(s.consumer, m)
  {
    InitOnce(qlens, ps, m);
    RunOnce(rep, Init(qlens, ps), acts, m);
  }

  // ---------------------------------------------------------------------------------------
  // Conservation, and what the missing store of the scan's index costs.

  lemma {:induction false} RunPlaces<M>(rep: Report, s: State<M>, acts: seq<Action<M>>, q: int, e: int)
    requires Shape(s) && 0 <= q < |s.qs| && Run(rep, s, acts).Some?
    requires rep.Origin? || (|s.qs| == 1 && rep.index == 0)
    ensures Shape(Run(rep, s, acts).value.0) && |Run(rep, s, acts).value.0.qs| == |s.qs|
    ensures Places(Run(rep, s, acts).value.0, q, e) == Places(s, q, e)
    decreases |acts|
  {
    if acts != [] {
      StepShape(rep, s, acts[0]);
      StepPlaces(rep, s, acts[0], q, e);
      RunPlaces(rep, Step(rep, s, acts[0]).value.0, acts[1..], q, e);
    }
  }

  // After this run, entry e of queue q is in exactly one place if it exists and nowhere if not.
  ghost predicate Conserved<M>(rep: Report, qlens: seq<nat>, ps: nat, acts: seq<Action<M>>, q: int, e: int) {
    Run(rep, Init(qlens, ps), acts).Some? && 0 <= q < |qlens| ==>
      var s := Run(rep, Init(qlens, ps), acts).value.0;
      |s.qs| == |s.lost| == |qlens| && Places(s, q, e) == At(0 <= e < qlens[q])
  }

  /** Every entry of every queue is in exactly one place, and no others appear, in every run. */
  ghost predicate AlwaysConserves<M(!new)>(rep: Report, qlens: seq<nat>, ps: nat) {
    forall acts: seq<Action<M>>, q: int, e: int :: Conserved(rep, qlens, ps, acts, q, e)
  }

  /** With the popped index reported, no run duplicates or misplaces an entry; it is lost only to a closed
      connection. */
  lemma EntriesConserved<M>(qlens: seq<nat>, ps: nat, acts: seq<Action<M>>, q: int, e: int)
    requires 0 <= q < |qlens| && Run(Origin, Init(qlens, ps), acts).Some?
    ensures var s := Run(Origin, Init(qlens, ps), acts).value.0;
            |s.qs| == |s.lost| == |qlens| && Places(s, q, e) == At(0 <= e < qlens[q])
  {
    InitPlaces<M>(qlens, ps, q, e);
    RunPlaces(Origin, Init(qlens, ps), acts, q, e);
  }

  // How many connections closed in the middle of a message for queue q.
  function ClosedMidway<M>(rep: Report, s: State<M>, acts: seq<Action<M>>, q: int): nat
    requires Run(rep, s, acts).Some?
    decreases |acts|
  {
    if acts == [] then 0
    else
      At(acts[0].Close? && s.producers[acts[0].p].Reserved? && s.producers[acts[0].p].q == q)
      + ClosedMidway(rep, Step(rep, s, acts[0]).value.0, acts[1..], q)
  }

  lemma {:induction false} RunTally<M>(s: State<M>, acts: seq<Action<M>>, q: int)
    requires Shape(s) && 0 <= q < |s.qs| && Run(Origin, s, acts).Some?
    ensures var s' := Run(Origin, s, acts).value.0;
            && |s'.qs| == |s'.lost| == |s.qs| && Tally(s', q) == Tally(s, q)
            && |s'.lost[q]| == |s.lost[q]| + ClosedMidway(Origin, s, acts, q)
    decreases |acts|
  {
    hide Step, Shape, Tally;
    ShapeSizes(s);
    if acts != [] {
      StepShape(Origin, s, acts[0]);
      StepTally(Origin, s, acts[0], q);
      RunTally(Step(Origin, s, acts[0]).value.0, acts[1..], q);
    }
  }

  lemma ShapeSizes<M>(s: State<M>)
    requires Shape(s)
    ensures |s.lost| == |s.qs|
  {
  }

  lemma {:induction false} NoneReserved(ps: seq<Producer>, q: int)
    requires forall i :: 0 <= i < |ps| ==> ps[i] == Ready
    ensures ReservedOf(ps, q) == 0
  {
    if ps != [] {
      NoneReserved(ps[1..], q);
    }
  }

  /** qlen = empty + full + reserved + in the consumer's hands + lost, in every run, where lost counts the
      connections that closed in the middle of a message. */
  lemma QueueTally<M>(qlens: seq<nat>, ps: nat, acts: seq<Action<M>>, q: int)
    requires 0 <= q < |qlens| && Run(Origin, Init(qlens, ps), acts).Some?
    ensures var s := Run(Origin, Init(qlens, ps), acts).value.0;
            && |s.qs| == |s.lost| == |qlens|
            && qlens[q] == |s.qs[q].empty| + |s.qs[q].full| + ReservedOf(s.producers, q)
                           + At((s.consumer.Holding? || s.consumer.Ran?) && s.consumer.q == q) + |s.lost[q]|
            && |s.lost[q]| == ClosedMidway(Origin, Init(qlens, ps), acts, q)
  {
    NoneReserved(Init<M>(qlens, ps).producers, q);
    RunTally(Init(qlens, ps), acts, q);
  }

  // One message through queue k, which is 0 or 1, then recycled to the stale index.
  function OneMessage<M>(k: int, m: M): seq<Action<M>> {
    [Reserve(0, k), Publish(0, m), Signal(0), Wait] + ((if k == 0 then [Probe] else [Probe, Probe]) + [Serve, Recycle])
  }

  lemma RunFirst<M>(rep: Report, s: State<M>, acts: seq<Action<M>>)
    requires acts != [] && Step(rep, s, acts[0]).Some?
    requires Run(rep, Step(rep, s, acts[0]).value.0, acts[1..]).Some?
    ensures Run(rep, s, acts).Some?
    ensures Run(rep, s, acts).value.0 == Run(rep, Step(rep, s, acts[0]).value.0, acts[1..]).value.0
  {
  }

  lemma {:induction false} RunAppend<M>(rep: Report, s: State<M>, xs: seq<Action<M>>, ys: seq<Action<M>>)
    requires Run(rep, s, xs).Some? && Run(rep, Run(rep, s, xs).value.0, ys).Some?
    ensures Run(rep, s, xs + ys).Some?
    ensures Run(rep, s, xs + ys).value.0 == Run(rep, Run(rep, s, xs).value.0, ys).value.0
    decreases |xs|
  {
    if xs == [] {
      assert xs + ys == ys;
    } else {
      assert (xs + ys)[1..] == xs[1..] + ys;
      RunAppend(rep, Step(rep, s, xs[0]).value.0, xs[1..], ys);
    }
  }

  // The producer's half, and the consumer's wait.
  lemma DeliverRuns<M>(rep: Report, s: State<M>, k: int, m: M)
    requires |s.producers| > 0 && s.producers[0] == Ready && 0 <= k < |s.qs|
    requires s.qs[k].empty != [] && s.consumer.Waiting?
    ensures var acts := [Reserve(0, k), Publish(0, m), Signal(0), Wait];
            && Run(rep, s, acts).Some?
            && Run(rep, s, acts).value.0 ==
                 s.(qs := s.qs[k := Queue(s.qs[k].empty[1..], [Item(s.qs[k].empty[0], m)] + s.qs[k].full)],
                    accepted := s.accepted + [m], consumer := Scanning)
  {
    var acts: seq<Action<M>> := [Reserve(0, k), Publish(0, m), Signal(0), Wait];
    var s1 := Step(rep, s, acts[0]).value.0;
    var s2 := Step(rep, s1, acts[1]).value.0;
    var s3 := Step(rep, s2, acts[2]).value.0;
    var s4 := Step(rep, s3, acts[3]).value.0;
    assert s4.producers == s.producers;
    assert s4.qs == s.qs[k := Queue(s.qs[k].empty[1..], [Item(s.qs[k].empty[0], m)] + s.qs[k].full)];
    assert acts[1..][1..][1..] == [Wait];
    RunFirst(rep, s3, acts[1..][1..][1..]);
    RunFirst(rep, s2, acts[1..][1..]);
    RunFirst(rep, s1, acts[1..]);
    RunFirst(rep, s, acts);
  }

  // The consumer's half, when queue k holds the only published entry.
  lemma ConsumeRuns<M>(g: int, s: State<M>, k: int)
    requires 0 <= k < 2 && k < |s.qs| && s.cursor == 0 && s.consumer.Scanning?
    requires |s.qs[k].full| == 1 && (k == 1 ==> s.qs[0].full == []) && k != g
    ensures var acts := (if k == 0 then [Probe] else [Probe, Probe]) + [Serve, Recycle];
            && Run(Stale(g), s, acts).Some?
            && var s' := Run(Stale(g), s, acts).value.0;
               && |s'.qs| == |s.qs| && s'.consumer.Waiting? && s'.producers == s.producers && s'.lost == s.lost
               && s'.qs[k].full == [] && s'.qs[k].empty == s.qs[k].empty
  {
    var rep := Stale(g);
    var acts: seq<Action<M>> := (if k == 0 then [Probe] else [Probe, Probe]) + [Serve, Recycle];
    var s1, rest := s, acts;
    if k == 1 {
      s1 := Step(rep, s, Probe).value.0;
      rest := acts[1..];
    }
    assert s1.cursor == k && rest == [Probe, Serve, Recycle];
    var s2 := Step(rep, s1, Probe).value.0;
    var s3 := Step(rep, s2, Serve).value.0;
    assert rest[1..][1..] == [Recycle];
    RunFirst(rep, s3, rest[1..][1..]);
    RunFirst(rep, s2, rest[1..]);
    RunFirst(rep, s1, rest);
    if k == 1 {
      RunFirst(rep, s, acts);
    }
  }

  /** An entry of a queue other than the stale index, in range or not, ends up nowhere in its queue. */
  lemma StaleIndexMisplaces<M>(g: int, qlens: seq<nat>, ps: nat, k: int, m: M)
    requires 0 <= k < 2 && k < |qlens| && k != g && qlens[k] >= 1 && ps >= 1
    ensures Run(Stale(g), Init(qlens, ps), OneMessage(k, m)).Some?
    ensures var s := Run(Stale(g), Init(qlens, ps), OneMessage(k, m)).value.0;
            |s.qs| == |s.lost| == |qlens| && Places(s, k, 0) == 0
  {
    var s := Init<M>(qlens, ps);
    DeliverRuns(Stale(g), s, k, m);
    var first: seq<Action<M>> := [Reserve(0, k), Publish(0, m), Signal(0), Wait];
    var s1 := Run(Stale(g), s, first).value.0;
    ConsumeRuns(g, s1, k);
    RunAppend(Stale(g), s, first, (if k == 0 then [Probe] else [Probe, Probe]) + [Serve, Recycle]);
    InitPlaces<M>(qlens, ps, k, 0);
    HeadTail(s.qs[k].empty, 0);
  }

  /** As written, entries are conserved in every run exactly when the worker has a single queue and the
      untouched index happens to be 0. */
  lemma StaleIndexConservesIff<M(!new)>(g: int, qlens: seq<nat>, ps: nat, m: M)
    requires |qlens| >= 1 && ps >= 1 && forall q :: 0 <= q < |qlens| ==> qlens[q] >= 1
    ensures AlwaysConserves<M>(Stale(g), qlens, ps) <==> |qlens| == 1 && g == 0
  {
    if |qlens| == 1 && g == 0 {
      forall acts: seq<Action<M>>, q: int, e: int
        ensures Conserved(Stale(g), qlens, ps, acts, q, e)
      {
        if Run(Stale(g), Init(qlens, ps), acts).Some? && 0 <= q < |qlens| {
          InitPlaces<M>(qlens, ps, q, e);
          RunPlaces(Stale(g), Init(qlens, ps), acts, q, e);
        }
      }
    } else {
      var k := if g == 0 then 1 else 0;
      StaleIndexMisplaces(g, qlens, ps, k, m);
      assert !Conserved(Stale(g), qlens, ps, OneMessage(k, m), k, 0);
    }
  }
}
