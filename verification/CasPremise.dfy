// The one-taker premise is exact: with two feeders and two entries the free list can be corrupted.
module CasPremise {
  import opened Common
  import opened CasQueue
  import opened CasRefinement
  import opened CasRuns

  /** In every run from the initial state, every entry stays accounted for. */
  ghost predicate AlwaysSound(cfg: Config) {
    forall sched :: Run(cfg, Init(cfg), sched).Some? ==> Sound(Run(cfg, Init(cfg), sched).value.0)
  }

  // What input.c, worker.c and output.c do with the operations: feeders fill, the consumer recycles, and a
  // thread starts a get only with empty hands.
  ghost predicate InRole(cfg: Config, s: State, t: int, act: Action) {
    && (act.BeginPut? ==> if act.l == EmptyList then t == cfg.consumer else t in cfg.feeders)
    && (act.BeginTake? ==> 0 <= t < |s.threads| && s.threads[t].held == {})
  }

  ghost predicate KeepsRoles(cfg: Config, s: State, sched: Schedule)
    decreases |sched|
  {
    sched == [] || (InRole(cfg, s, sched[0].0, sched[0].1) && Step(cfg, s, sched[0].0, sched[0].1).Some?
                    && KeepsRoles(cfg, Step(cfg, s, sched[0].0, sched[0].1).value.0, sched[1..]))
  }

  /** In every run in which threads keep to their roles, every entry stays accounted for. */
  ghost predicate SoundInRoles(cfg: Config) {
    forall sched :: Run(cfg, Init(cfg), sched).Some? && KeepsRoles(cfg, Init(cfg), sched) ==>
      Sound(Run(cfg, Init(cfg), sched).value.0)
  }

  lemma {:induction false} RunAppend(cfg: Config, s: State, p: Schedule, q: Schedule)
    requires Run(cfg, s, p).Some? && Run(cfg, Run(cfg, s, p).value.0, q).Some?
    ensures Run(cfg, s, p + q).Some?
    ensures Run(cfg, s, p + q).value.0 == Run(cfg, Run(cfg, s, p).value.0, q).value.0
    ensures KeepsRoles(cfg, s, p) && KeepsRoles(cfg, Run(cfg, s, p).value.0, q) ==> KeepsRoles(cfg, s, p + q)
    decreases |p|
  {
    if p == [] {
      assert p + q == q;
    } else {
      assert (p + q)[1..] == p[1..] + q;
      RunAppend(cfg, Step(cfg, s, p[0].0, p[0].1).value.0, p[1..], q);
    }
  }

  // A schedule runs if its first step does and the rest runs from there.
  lemma RunFirst(cfg: Config, s: State, c: Schedule)
    requires c != [] && Step(cfg, s, c[0].0, c[0].1).Some?
    requires Run(cfg, Step(cfg, s, c[0].0, c[0].1).value.0, c[1..]).Some?
    ensures Run(cfg, s, c).Some?
    ensures Run(cfg, s, c).value.0 == Run(cfg, Step(cfg, s, c[0].0, c[0].1).value.0, c[1..]).value.0
    ensures InRole(cfg, s, c[0].0, c[0].1) && KeepsRoles(cfg, Step(cfg, s, c[0].0, c[0].1).value.0, c[1..]) ==>
              KeepsRoles(cfg, s, c)
  {
  }

  function TakeCall(t: int, l: ListId): Schedule {
    [(t, BeginTake(l)), (t, Advance), (t, Advance), (t, Advance), (t, Advance)]
  }

  function PutCall(t: int, l: ListId, e: int): Schedule {
    [(t, BeginPut(l, e)), (t, Advance), (t, Advance), (t, Advance)]
  }

  function AfterTake(s: State, t: int, l: ListId): State
    requires 0 <= t < |s.threads| && 0 <= Head(s, l) < |s.next|
  {
    var h := Head(s, l);
    WithThread(WithHead(s, l, s.next[h]).(next := s.next[h := NIL]), t, Idle, s.threads[t].held + {h})
  }

  function AfterPut(s: State, t: int, l: ListId, e: int): State
    requires 0 <= t < |s.threads| && 0 <= e < |s.next| && |s.len| == |s.next|
  {
    var s1 := if l == EmptyList then s.(len := s.len[e := 0]) else s;
    WithThread(WithHead(s1, l, e).(next := s.next[e := Head(s, l)]), t, Idle, s.threads[t].held - {e})
  }

  /** A get that nobody disturbs pops the head and keeps it. */
  lemma SoloTake(cfg: Config, s: State, t: int, l: ListId)
    requires 0 <= t < |s.threads| && s.threads[t].pc == Idle && MayTake(cfg, t, l)
    requires 0 <= Head(s, l) < |s.next|
    ensures Run(cfg, s, TakeCall(t, l)).Some?
    ensures Run(cfg, s, TakeCall(t, l)).value.0 == AfterTake(s, t, l)
    ensures s.threads[t].held == {} ==> KeepsRoles(cfg, s, TakeCall(t, l))
  {
    var c := TakeCall(t, l);
    var h := Head(s, l);
    var s1 := Step(cfg, s, t, BeginTake(l)).value.0;
    var s2 := Step(cfg, s1, t, Advance).value.0;
    var s3 := Step(cfg, s2, t, Advance).value.0;
    var s4 := Step(cfg, s3, t, Advance).value.0;
    var s5 := Step(cfg, s4, t, Advance).value.0;
    assert s5 == AfterTake(s, t, l);
    assert c[1..][1..][1..][1..] == [(t, Advance)];
    RunFirst(cfg, s4, c[1..][1..][1..][1..]);
    RunFirst(cfg, s3, c[1..][1..][1..]);
    RunFirst(cfg, s2, c[1..][1..]);
    RunFirst(cfg, s1, c[1..]);
    RunFirst(cfg, s, c);
  }

  /** A put that nobody disturbs pushes the entry and lets go of it. */
  lemma SoloPut(cfg: Config, s: State, t: int, l: ListId, e: int)
    requires 0 <= t < |s.threads| && s.threads[t].pc == Idle && e in s.threads[t].held
    requires 0 <= e < |s.next| && |s.len| == |s.next|
    ensures Run(cfg, s, PutCall(t, l, e)).Some?
    ensures Run(cfg, s, PutCall(t, l, e)).value.0 == AfterPut(s, t, l, e)
    ensures (if l == EmptyList then t == cfg.consumer else t in cfg.feeders) ==> KeepsRoles(cfg, s, PutCall(t, l, e))
  {
    var c := PutCall(t, l, e);
    var s1 := Step(cfg, s, t, BeginPut(l, e)).value.0;
    var s2 := Step(cfg, s1, t, Advance).value.0;
    var s3 := Step(cfg, s2, t, Advance).value.0;
    var s4 := Step(cfg, s3, t, Advance).value.0;
    assert s4 == AfterPut(s, t, l, e);
    assert c[1..][1..][1..] == [(t, Advance)];
    RunFirst(cfg, s3, c[1..][1..][1..]);
    RunFirst(cfg, s2, c[1..][1..]);
    RunFirst(cfg, s1, c[1..]);
    RunFirst(cfg, s, c);
  }

  // Feeder i stops between its load of `next` and its CAS.  Meanwhile feeder j takes entry 0, publishes it
  // and takes entry 1, the consumer takes and recycles 0, and i's CAS finds its old head in place.
  function Interrupted(i: int): Schedule {
    [(i, BeginTake(EmptyList)), (i, Advance), (i, Advance)]
  }

  function Meanwhile(j: int, c: int): Schedule {
    TakeCall(j, EmptyList) +
    (PutCall(j, FullList, 0) + (TakeCall(j, EmptyList) + (TakeCall(c, FullList) + PutCall(c, EmptyList, 0))))
  }

  function Witness(i: int, j: int, c: int): Schedule {
    Interrupted(i) + (Meanwhile(j, c) + [(i, Advance)])
  }

  lemma MeanwhileRuns(cfg: Config, s: State, j: int, c: int)
    requires 0 <= j < |s.threads| && 0 <= c < |s.threads| && j != c && j in cfg.feeders && c == cfg.consumer
    requires s.threads[j] == Thread(Idle, {}) && s.threads[c] == Thread(Idle, {})
    requires |s.next| == |s.len| >= 2 && s.empty == 0 && s.next[0] == 1 && s.full == NIL
    ensures Run(cfg, s, Meanwhile(j, c)).Some? && KeepsRoles(cfg, s, Meanwhile(j, c))
    ensures var s' := Run(cfg, s, Meanwhile(j, c)).value.0;
            && s'.empty == 0 && |s'.threads| == |s.threads| && s'.threads[j].held == {1}
            && forall t :: 0 <= t < |s.threads| && t != j && t != c ==> s'.threads[t] == s.threads[t]
  {
    hide TakeCall, PutCall, Run, Step, KeepsRoles;
    SoloTake(cfg, s, j, EmptyList);
    var s1 := AfterTake(s, j, EmptyList);
    SoloPut(cfg, s1, j, FullList, 0);
    var s2 := AfterPut(s1, j, FullList, 0);
    SoloTake(cfg, s2, j, EmptyList);
    var s3 := AfterTake(s2, j, EmptyList);
    SoloTake(cfg, s3, c, FullList);
    var s4 := AfterTake(s3, c, FullList);
    SoloPut(cfg, s4, c, EmptyList, 0);
    RunAppend(cfg, s3, TakeCall(c, FullList), PutCall(c, EmptyList, 0));
    RunAppend(cfg, s2, TakeCall(j, EmptyList), TakeCall(c, FullList) + PutCall(c, EmptyList, 0));
    RunAppend(cfg, s1, PutCall(j, FullList, 0), 
              TakeCall(j, EmptyList) + (TakeCall(c, FullList) + PutCall(c, EmptyList, 0)));
    RunAppend(cfg, s, TakeCall(j, EmptyList),
              PutCall(j, FullList, 0) + (TakeCall(j, EmptyList) + (TakeCall(c, FullList) + PutCall(c, EmptyList, 0))));
  }

  // Feeder i, up to its swap.
  lemma InterruptedRuns(cfg: Config, i: int)
    requires WellFormed(cfg) && cfg.qlen >= 2 && i in cfg.feeders
    ensures Run(cfg, Init(cfg), Interrupted(i)).Some? && KeepsRoles(cfg, Init(cfg), Interrupted(i))
    ensures Run(cfg, Init(cfg), Interrupted(i)).value.0 == WithPc(Init(cfg), i, TakeReady(EmptyList, 0, 1))
  {
    var s := Init(cfg);
    var p := Interrupted(i);
    var s1 := Step(cfg, s, i, BeginTake(EmptyList)).value.0;
    var s2 := Step(cfg, s1, i, Advance).value.0;
    var s3 := Step(cfg, s2, i, Advance).value.0;
    assert s3.threads == s.threads[i := Thread(TakeReady(EmptyList, 0, 1), {})];
    assert p[1..][1..] == [(i, Advance)];
    RunFirst(cfg, s2, p[1..][1..]);
    RunFirst(cfg, s1, p[1..]);
    RunFirst(cfg, s, p);
  }

  // Its swap, which finds entry 0 at the head again.
  lemma SwapRuns(cfg: Config, s: State, i: int)
    requires 0 <= i < |s.threads| && s.threads[i].pc == TakeReady(EmptyList, 0, 1) && s.empty == 0
    ensures Run(cfg, s, [(i, Advance)]).Some? && KeepsRoles(cfg, s, [(i, Advance)])
    ensures var s' := Run(cfg, s, [(i, Advance)]).value.0;
            && s'.empty == 1 && |s'.threads| == |s.threads|
            && forall t :: 0 <= t < |s.threads| && t != i ==> s'.threads[t] == s.threads[t]
  {
    var last: Schedule := [(i, Advance)];
    assert last[1..] == [];
    RunFirst(cfg, s, last);
  }

  /** Two feeders: a run that keeps the roles, with no thread ever holding two entries, puts entry 1 on the free
      list while feeder j still holds it. */
  lemma TwoFeedersCorrupt(cfg: Config, i: int, j: int)
    requires WellFormed(cfg) && cfg.qlen >= 2 && i in cfg.feeders && j in cfg.feeders && i != j
    ensures var w := Witness(i, j, cfg.consumer);
            && Run(cfg, Init(cfg), w).Some? && KeepsRoles(cfg, Init(cfg), w)
            && Run(cfg, Init(cfg), w).value.0.empty == 1
            && 0 <= j < |Run(cfg, Init(cfg), w).value.0.threads|
            && 1 in Run(cfg, Init(cfg), w).value.0.threads[j].held
  {
    hide Run, Step, KeepsRoles, Meanwhile, Interrupted;
    var c := cfg.consumer;
    InterruptedRuns(cfg, i);
    var s3 := WithPc(Init(cfg), i, TakeReady(EmptyList, 0, 1));
    MeanwhileRuns(cfg, s3, j, c);
    var s4 := Run(cfg, s3, Meanwhile(j, c)).value.0;
    SwapRuns(cfg, s4, i);
    RunAppend(cfg, s3, Meanwhile(j, c), [(i, Advance)]);
    RunAppend(cfg, Init(cfg), Interrupted(i), Meanwhile(j, c) + [(i, Advance)]);
  }

  // The state the witness ends in has an entry in two places.
  lemma WitnessUnsound(cfg: Config, i: int, j: int)
    requires WellFormed(cfg) && cfg.qlen >= 2 && i in cfg.feeders && j in cfg.feeders && i != j
    ensures Run(cfg, Init(cfg), Witness(i, j, cfg.consumer)).Some?
    ensures KeepsRoles(cfg, Init(cfg), Witness(i, j, cfg.consumer))
    ensures !Sound(Run(cfg, Init(cfg), Witness(i, j, cfg.consumer)).value.0)
  {
    hide Run, Step, KeepsRoles, Witness;
    TwoFeedersCorrupt(cfg, i, j);
    var s := Run(cfg, Init(cfg), Witness(i, j, cfg.consumer)).value.0;
    assert 1 in Owns(s.threads[j]);
    forall es, fs
      ensures !Partition(s, es, fs)
    {
      if Linked(s.next, s.empty, es) {
        assert es[0] in es;
        assert !OwnsApart(s, j, es, fs);
      }
    }
  }

  /** The queue is sound in every run, or in every run that keeps the roles, exactly when it has one entry or at
      most one feeder. */
  lemma SoundIffOneTaker(cfg: Config)
    requires WellFormed(cfg)
    ensures AlwaysSound(cfg) <==> OneTaker(cfg)
    ensures SoundInRoles(cfg) <==> OneTaker(cfg)
  {
    hide Run, Sound, KeepsRoles;
    if OneTaker(cfg) {
      forall sched | Run(cfg, Init(cfg), sched).Some?
        ensures Sound(Run(cfg, Init(cfg), sched).value.0)
      {
        EntriesStayAccounted(cfg, sched);
      }
    } else {
      var i, j :| i in cfg.feeders && j in cfg.feeders && i != j;
      WitnessUnsound(cfg, i, j);
    }
  }
}
