// What the refinement gives over whole runs of the list operations.
module CasRuns {
  import opened Common
  import opened CasQueue
  import opened CasRefinement

  lemma InitRefines(cfg: Config)
    requires WellFormed(cfg)
    ensures Refines(cfg, Init(cfg), InitAbs(cfg))
  {
    var s, a := Init(cfg), InitAbs(cfg);
    assert Linked(s.next, s.empty, a.empties);
    forall e | 0 <= e < cfg.qlen
      ensures e in a.empties
    {
      assert a.empties[e] == e;
    }
    assert ListOk(s, a, EmptyList);
    assert ListOk(s, a, FullList);
    forall t, e | 0 <= t < |s.threads|
      ensures e in Owns(s.threads[t]) <==> 0 <= e < |a.owner| && a.owner[e] == With(t)
    {
      assert s.threads[t] == Thread(Idle, {});
    }
  }

  /** Any interleaving, of any length, is matched event by event by the two stacks. */
  lemma {:induction false} RunRefines(cfg: Config, s: State, a: Abs, sched: Schedule)
    requires WellFormed(cfg) && OneTaker(cfg) && Refines(cfg, s, a)
    requires Run(cfg, s, sched).Some?
    ensures SpecRun(a, Run(cfg, s, sched).value.1).Some?
    ensures Refines(cfg, Run(cfg, s, sched).value.0, SpecRun(a, Run(cfg, s, sched).value.1).value)
    decreases |sched|
  {
    if sched != [] {
      StepRefines(cfg, s, a, sched[0].0, sched[0].1);
      var (s1, ev) := Step(cfg, s, sched[0].0, sched[0].1).value;
      var a1 := SpecStep(a, sched[0].0, ev).value;
      RunRefines(cfg, s1, a1, sched[1..]);
      var tr := Run(cfg, s, sched).value.1;
      assert tr[1..] == Run(cfg, s1, sched[1..]).value.1;
    }
  }

  ghost predicate OwnsApart(s: State, t: int, es: seq<int>, fs: seq<int>)
    requires 0 <= t < |s.threads|
  {
    forall e :: e in Owns(s.threads[t]) ==> 0 <= e < |s.next| && e !in es && e !in fs
  }

  /** es and fs are the two lists, and every entry is in exactly one place: a list or one thread. */
  ghost predicate Partition(s: State, es: seq<int>, fs: seq<int>) {
    && Linked(s.next, s.empty, es) && Distinct(es)
    && Linked(s.next, s.full, fs) && Distinct(fs)
    && (forall e :: e in es ==> e !in fs)
    && (forall t :: 0 <= t < |s.threads| ==> OwnsApart(s, t, es, fs))
    && (forall t, u :: 0 <= t < u < |s.threads| ==> Owns(s.threads[t]) !! Owns(s.threads[u]))
    && (forall e :: 0 <= e < |s.next| ==>
          e in es || e in fs || exists t :: 0 <= t < |s.threads| && e in Owns(s.threads[t]))
  }

  ghost predicate Sound(s: State) {
    exists es, fs :: Partition(s, es, fs)
  }

  // Every entry the map gives to a thread is given to a thread that exists.
  ghost predicate OwnersExist(s: State, a: Abs) {
    forall e :: 0 <= e < |a.owner| && a.owner[e].With? ==> 0 <= a.owner[e].t < |s.threads|
  }

  lemma {:induction false} RunOwnersExist(cfg: Config, s: State, a: Abs, sched: Schedule)
    requires OwnersExist(s, a) && Run(cfg, s, sched).Some?
    requires SpecRun(a, Run(cfg, s, sched).value.1).Some?
    ensures OwnersExist(Run(cfg, s, sched).value.0, SpecRun(a, Run(cfg, s, sched).value.1).value)
    decreases |sched|
  {
    if sched != [] {
      var (s1, ev) := Step(cfg, s, sched[0].0, sched[0].1).value;
      var tr := Run(cfg, s, sched).value.1;
      assert tr[0] == (sched[0].0, ev);
      var a1 := SpecStep(a, sched[0].0, ev).value;
      assert tr[1..] == Run(cfg, s1, sched[1..]).value.1;
      RunOwnersExist(cfg, s1, a1, sched[1..]);
    }
  }

  lemma RefinesPartition(cfg: Config, s: State, a: Abs)
    requires Refines(cfg, s, a) && OwnersExist(s, a)
    ensures Partition(s, a.empties, a.fulls)
  {
    var es, fs := a.empties, a.fulls;
    assert ListOk(s, a, EmptyList) && ListOk(s, a, FullList);
    forall e | e in es || e in fs
      ensures 0 <= e < |a.owner|
    {
    }
    forall t | 0 <= t < |s.threads|
      ensures OwnsApart(s, t, es, fs)
    {
      forall e | e in Owns(s.threads[t])
        ensures 0 <= e < |s.next| && e !in es && e !in fs
      {
        OwnerOf(s, a, t, e);
      }
    }
    forall t, u | 0 <= t < u < |s.threads|
      ensures Owns(s.threads[t]) !! Owns(s.threads[u])
    {
      forall e | e in Owns(s.threads[t])
        ensures e !in Owns(s.threads[u])
      {
        OwnerOf(s, a, t, e);
        OwnerOf(s, a, u, e);
      }
    }
    forall e | 0 <= e < |s.next|
      ensures e in es || e in fs || exists t :: 0 <= t < |s.threads| && e in Owns(s.threads[t])
    {
      if a.owner[e].With? {
        OwnerOf(s, a, a.owner[e].t, e);
        assert e in Owns(s.threads[a.owner[e].t]);
      }
    }
  }

  /** No interleaving loses, duplicates or double-books an entry, or breaks a list. */
  lemma EntriesStayAccounted(cfg: Config, sched: Schedule)
    requires WellFormed(cfg) && OneTaker(cfg) && Run(cfg, Init(cfg), sched).Some?
    ensures Sound(Run(cfg, Init(cfg), sched).value.0)
  {
    InitRefines(cfg);
    RunRefines(cfg, Init(cfg), InitAbs(cfg), sched);
    RunOwnersExist(cfg, Init(cfg), InitAbs(cfg), sched);
    var (s, tr) := Run(cfg, Init(cfg), sched).value;
    var a := SpecRun(InitAbs(cfg), tr).value;
    RefinesPartition(cfg, s, a);
  }

  /** Every entry on the free list has len 0, whatever its holders stored in it before. */
  lemma FreeEntriesAreClean(cfg: Config, sched: Schedule, es: seq<int>, k: nat)
    requires WellFormed(cfg) && OneTaker(cfg) && Run(cfg, Init(cfg), sched).Some?
    requires Linked(Run(cfg, Init(cfg), sched).value.0.next, Run(cfg, Init(cfg), sched).value.0.empty, es) && k < |es|
    ensures es[k] < |Run(cfg, Init(cfg), sched).value.0.len|
    ensures Run(cfg, Init(cfg), sched).value.0.len[es[k]] == 0
  {
    InitRefines(cfg);
    RunRefines(cfg, Init(cfg), InitAbs(cfg), sched);
    var (s, tr) := Run(cfg, Init(cfg), sched).value;
    var a := SpecRun(InitAbs(cfg), tr).value;
    assert ListOk(s, a, EmptyList);
    LinkedUnique(s.next, s.empty, es, a.empties, k);
    assert es[k] in a.empties;
  }

  // A head determines its list.
  lemma {:induction false} LinkedUnique(next: seq<int>, head: int, st: seq<int>, st': seq<int>, k: nat)
    requires Linked(next, head, st) && Linked(next, head, st') && k < |st|
    ensures k < |st'| && st[k] == st'[k]
    decreases k
  {
    if k > 0 {
      LinkedUnique(next, head, st, st', k - 1);
      assert After(st, k - 1) == next[st[k - 1]] == After(st', k - 1);
    }
  }

  // ---------------------------------------------------------------------------------------
  // Edge reports.

  /** True results of puts on l minus true results of takes from l. */
  function Edges(tr: Trace, l: ListId): int {
    if tr == [] then 0 else
    (match tr[0].1
     case Put(k, _, edge) => if k == l && edge then 1 else 0
     case Took(k, _, edge) => if k == l && edge then -1 else 0
     case _ => 0) + Edges(tr[1..], l)
  }

  function NonEmpty(st: seq<int>): int { if st == [] then 0 else 1 }

  lemma {:induction false} SpecEdges(a: Abs, tr: Trace, l: ListId)
    requires SpecRun(a, tr).Some?
    ensures Edges(tr, l) == NonEmpty(Stack(SpecRun(a, tr).value, l)) - NonEmpty(Stack(a, l))
    decreases |tr|
  {
    if tr != [] {
      var a1 := SpecStep(a, tr[0].0, tr[0].1).value;
      SpecEdges(a1, tr[1..], l);
    }
  }

  /** At every point of every run the reports on `full` add up to 1 when it is non-null and to 0 otherwise. */
  lemma EdgeReportsAreExact(cfg: Config, sched: Schedule)
    requires WellFormed(cfg) && OneTaker(cfg) && Run(cfg, Init(cfg), sched).Some?
    ensures var (s, tr) := Run(cfg, Init(cfg), sched).value;
            Edges(tr, FullList) == (if s.full == NIL then 0 else 1)
  {
    InitRefines(cfg);
    RunRefines(cfg, Init(cfg), InitAbs(cfg), sched);
    var (s, tr) := Run(cfg, Init(cfg), sched).value;
    SpecEdges(InitAbs(cfg), tr, FullList);
    var a := SpecRun(InitAbs(cfg), tr).value;
    assert ListOk(s, a, FullList);
  }

  // ---------------------------------------------------------------------------------------
  // Progress.

  /** A thread inside an operation can always take its next step. */
  lemma NeverStuck(cfg: Config, s: State, a: Abs, t: int)
    requires WellFormed(cfg) && Refines(cfg, s, a) && 0 <= t < |s.threads| && !s.threads[t].pc.Idle?
    ensures Step(cfg, s, t, Advance).Some?
  {
    assert PcOk(cfg, s, a, t, s.threads[t].pc);
    match s.threads[t].pc
    case TakeUnlink(_, h, _) => OwnerOf(s, a, t, h);
    case PutLoaded(_, e, _) => OwnerOf(s, a, t, e);
    case _ =>
  }

  function Fails(tr: Trace, l: ListId): nat {
    if tr == [] then 0 else (if tr[0].1 == Missed(l) then 1 else 0) + Fails(tr[1..], l)
  }

  predicate Wins(ev: Event, l: ListId) { (ev.Took? || ev.Put?) && ev.l == l }

  function Successes(tr: Trace, l: ListId): nat {
    if tr == [] then 0 else (if Wins(tr[0].1, l) then 1 else 0) + Successes(tr[1..], l)
  }

  // The thread holds a head of l that is no longer the head.
  predicate Stale(s: State, l: ListId, pc: Pc) {
    match pc
    case TakeLoaded(k, h) => k == l && h != Head(s, l)
    case TakeReady(k, h, _) => k == l && h != Head(s, l)
    case PutLoaded(k, _, h) => k == l && h != Head(s, l)
    case PutReady(k, _, h) => k == l && h != Head(s, l)
    case _ => false
  }

  ghost function StaleThreads(s: State, l: ListId): set<int> {
    set t | 0 <= t < |s.threads| && Stale(s, l, s.threads[t].pc)
  }

  lemma SubsetSize(ts: set<int>, us: set<int>)
    requires ts <= us
    ensures |ts| <= |us|
  {
    assert us == ts + (us - ts);
  }

  lemma {:induction false} RangeSize(n: nat, ts: set<int>)
    requires forall t :: t in ts ==> 0 <= t < n
    ensures |ts| <= n
  {
    if n > 0 {
      RangeSize(n - 1, ts - {n - 1});
      SubsetSize(ts, (ts - {n - 1}) + {n - 1});
    } else {
      assert forall t :: t !in ts;
    }
  }

  // What one step does to the staleness of the thread that takes it.
  lemma StepFrame(cfg: Config, s: State, t: int, act: Action, l: ListId)
    requires Step(cfg, s, t, act).Some?
    ensures var (s', ev) := Step(cfg, s, t, act).value;
            && 0 <= t < |s.threads| == |s'.threads|
            && (forall u :: 0 <= u < |s.threads| && u != t ==> s'.threads[u] == s.threads[u])
            && (!Wins(ev, l) ==> Head(s', l) == Head(s, l))
            && (Wins(ev, l) ==> !Stale(s', l, s'.threads[t].pc))
            && (ev == Missed(l) ==> Stale(s, l, s.threads[t].pc) && !Stale(s', l, s'.threads[t].pc))
            && (!Wins(ev, l) && Stale(s', l, s'.threads[t].pc) ==> Stale(s, l, s.threads[t].pc))
  {
  }

  // The potential argument, one step at a time.
  lemma StaleStep(cfg: Config, s: State, t: int, act: Action, l: ListId)
    requires Step(cfg, s, t, act).Some?
    ensures var (s', ev) := Step(cfg, s, t, act).value;
            && |s'.threads| == |s.threads|
            && (ev == Missed(l) ==> |StaleThreads(s', l)| + 1 <= |StaleThreads(s, l)|)
            && (!Wins(ev, l) ==> |StaleThreads(s', l)| <= |StaleThreads(s, l)|)
            && (Wins(ev, l) ==> |StaleThreads(s', l)| <= |s.threads| - 1)
  {
    StepFrame(cfg, s, t, act, l);
    var (s', ev) := Step(cfg, s, t, act).value;
    StalePotential(s, s', t, l, Wins(ev, l), ev == Missed(l));
  }

  lemma StalePotential(s: State, s': State, t: int, l: ListId, won: bool, missed: bool)
    requires 0 <= t < |s.threads| == |s'.threads| && !(won && missed)
    requires forall u :: 0 <= u < |s.threads| && u != t ==> s'.threads[u] == s.threads[u]
    requires !won ==> Head(s', l) == Head(s, l)
    requires won ==> !Stale(s', l, s'.threads[t].pc)
    requires missed ==> Stale(s, l, s.threads[t].pc) && !Stale(s', l, s'.threads[t].pc)
    requires !won && Stale(s', l, s'.threads[t].pc) ==> Stale(s, l, s.threads[t].pc)
    ensures missed ==> |StaleThreads(s', l)| + 1 <= |StaleThreads(s, l)|
    ensures !won ==> |StaleThreads(s', l)| <= |StaleThreads(s, l)|
    ensures won ==> |StaleThreads(s', l)| <= |s.threads| - 1
  {
    var before, after := StaleThreads(s, l), StaleThreads(s', l);
    if won {
      assert t !in after;
      RangeSize(|s.threads|, after + {t});
      assert |after + {t}| == |after| + 1;
    } else if missed {
      SubsetSize(after, before - {t});
    } else {
      SubsetSize(after, before);
    }
  }

  lemma {:induction false} FailsBounded(cfg: Config, s: State, sched: Schedule, l: ListId)
    requires Run(cfg, s, sched).Some? && |s.threads| > 0
    ensures var (s', tr) := Run(cfg, s, sched).value;
            Fails(tr, l) + |StaleThreads(s', l)| <= (|s.threads| - 1) * Successes(tr, l) + |StaleThreads(s, l)|
    decreases |sched|
  {
    hide Step, StaleThreads;
    if sched != [] {
      StaleStep(cfg, s, sched[0].0, sched[0].1, l);
      var (s1, ev) := Step(cfg, s, sched[0].0, sched[0].1).value;
      FailsBounded(cfg, s1, sched[1..], l);
      var tr := Run(cfg, s, sched).value.1;
      assert tr[1..] == Run(cfg, s1, sched[1..]).value.1;
      var n, m := |s.threads| - 1, Successes(tr[1..], l);
      assert n * (m + 1) == n * m + n;
    }
  }

  /** Lock-freedom: each successful CAS on a head pays for at most T - 1 failed ones, for any number of takers. */
  lemma FailedCasBound(cfg: Config, sched: Schedule, l: ListId)
    requires WellFormed(cfg) && Run(cfg, Init(cfg), sched).Some?
    ensures var tr := Run(cfg, Init(cfg), sched).value.1;
            Fails(tr, l) <= (cfg.threads - 1) * Successes(tr, l)
  {
    FailsBounded(cfg, Init(cfg), sched, l);
    assert StaleThreads(Init(cfg), l) == {};
  }

  // ---------------------------------------------------------------------------------------
  // Lengths.

  // Nobody sets the length of entry e, nor puts the entry on the free list, which clears it.
  ghost predicate LeavesLength(sched: Schedule, e: int) {
    forall i :: 0 <= i < |sched| ==>
      && !(sched[i].1.SetLen? && sched[i].1.e == e)
      && !(sched[i].1.BeginPut? && sched[i].1.l == EmptyList && sched[i].1.e == e)
  }

  lemma {:induction false} LengthStays(cfg: Config, s: State, sched: Schedule, e: int)
    requires Run(cfg, s, sched).Some? && LeavesLength(sched, e) && 0 <= e < |s.len|
    ensures var s' := Run(cfg, s, sched).value.0; |s'.len| == |s.len| && s'.len[e] == s.len[e]
    decreases |sched|
  {
    if sched != [] {
      var s1 := Step(cfg, s, sched[0].0, sched[0].1).value.0;
      assert |s1.len| == |s.len| && s1.len[e] == s.len[e];
      LengthStays(cfg, s1, sched[1..], e);
    }
  }

  /** The length that a thread records for an entry is what every other thread finds there, whatever lists the entry is
      put on and taken from, until it is freed or another length is recorded. */
  lemma LengthTravels(cfg: Config, s: State, t: int, e: int, n: nat, sched: Schedule)
    requires Run(cfg, s, [(t, SetLen(e, n))] + sched).Some? && LeavesLength(sched, e)
    ensures var s' := Run(cfg, s, [(t, SetLen(e, n))] + sched).value.0; 0 <= e < |s'.len| && s'.len[e] == n
  {
    var all: Schedule := [(t, SetLen(e, n))] + sched;
    assert all[1..] == sched;
    LengthStays(cfg, Step(cfg, s, t, SetLen(e, n)).value.0, sched, e);
  }

  /** Whoever holds an entry and is between operations can record its length. */
  lemma HolderCanRecord(cfg: Config, s: State, a: Abs, t: int, e: int, n: nat)
    requires Refines(cfg, s, a) && 0 <= t < |s.threads| && s.threads[t].pc.Idle? && e in s.threads[t].held
    ensures Step(cfg, s, t, SetLen(e, n)).Some?
  {
    OwnerOf(s, a, t, e);
  }
}
