// The four list operations of queue.h as the loops they are.  Before every access of the calling thread
// the other threads take a chunk of steps; each access is one step of the machine in CasQueue.
module QueueOps {
  import opened Common
  import opened CasQueue
  import opened CasRefinement
  import opened CasRuns

  /** What thread t did in a trace, its silent steps left out. */
  function Own(t: int, tr: Trace): seq<Event> {
    if tr == [] then []
    else (if tr[0].0 == t && tr[0].1 != Silent then [tr[0].1] else []) + Own(t, tr[1..])
  }

  function Misses(n: nat, l: ListId): seq<Event> { seq(n, _ => Missed(l)) }

  lemma {:induction false} OwnAppend(t: int, p: Trace, q: Trace)
    ensures Own(t, p + q) == Own(t, p) + Own(t, q)
    decreases |p|
  {
    if p == [] {
      assert p + q == q;
    } else {
      assert (p + q)[1..] == p[1..] + q;
      OwnAppend(t, p[1..], q);
    }
  }

  lemma {:induction false} SpecAppend(a: Abs, p: Trace, q: Trace)
    requires SpecRun(a, p).Some?
    ensures SpecRun(a, p + q) == SpecRun(SpecRun(a, p).value, q)
    decreases |p|
  {
    if p == [] {
      assert p + q == q;
    } else {
      assert (p + q)[1..] == p[1..] + q;
      SpecAppend(SpecStep(a, p[0].0, p[0].1).value, p[1..], q);
    }
  }

  lemma MissesNext(n: nat, l: ListId)
    ensures Misses(n + 1, l) == Misses(n, l) + [Missed(l)] && Misses(0, l) == []
  {
  }

  // Steps of other threads leave thread t where it is.
  lemma {:induction false} OthersKeep(cfg: Config, s: State, sched: Schedule, t: int)
    requires 0 <= t < |s.threads| && Run(cfg, s, sched).Some? && forall i :: 0 <= i < |sched| ==> sched[i].0 != t
    ensures var (s', tr) := Run(cfg, s, sched).value;
            |s'.threads| == |s.threads| && s'.threads[t] == s.threads[t] && Own(t, tr) == []
    decreases |sched|
  {
    if sched != [] {
      var (s1, ev) := Step(cfg, s, sched[0].0, sched[0].1).value;
      StepFrame(cfg, s, sched[0].0, sched[0].1, EmptyList);
      OthersKeep(cfg, s1, sched[1..], t);
      assert Run(cfg, s, sched).value.1[1..] == Run(cfg, s1, sched[1..]).value.1;
    }
  }

  // A thread's next step inside a get.
  lemma TakeSteps(cfg: Config, s: State, t: int)
    requires 0 <= t < |s.threads| && Step(cfg, s, t, Advance).Some?
    ensures var th, (s', ev) := s.threads[t], Step(cfg, s, t, Advance).value;
            && |s'.threads| == |s.threads|
            && (forall l :: th.pc == TakeTry(l) ==>
                  && s'.empty == s.empty && s'.full == s.full
                  && if Head(s, l) == NIL then ev == Nothing(l) && s'.threads[t] == Thread(Idle, th.held)
                     else ev == Silent && s'.threads[t] == Thread(TakeLoaded(l, Head(s, l)), th.held))
            && (forall l, h :: th.pc == TakeLoaded(l, h) ==>
                  && s'.empty == s.empty && s'.full == s.full && ev == Silent && 0 <= h < |s.next|
                  && s'.threads[t] == Thread(TakeReady(l, h, s.next[h]), th.held))
            && (forall l, h, nx :: th.pc == TakeReady(l, h, nx) ==>
                  if Head(s, l) == h then
                    ev == Took(l, h, nx == NIL) && s'.threads[t] == Thread(TakeUnlink(l, h, nx), th.held)
                  else ev == Missed(l) && s'.threads[t] == Thread(TakeTry(l), th.held))
            && (forall l, h, nx :: th.pc == TakeUnlink(l, h, nx) ==>
                  ev == Silent && s'.threads[t] == Thread(Idle, th.held + {h}))
  {
  }

  // A thread's next step inside a put.
  lemma PutSteps(cfg: Config, s: State, t: int)
    requires 0 <= t < |s.threads| && Step(cfg, s, t, Advance).Some?
    ensures var th, (s', ev) := s.threads[t], Step(cfg, s, t, Advance).value;
            && |s'.threads| == |s.threads|
            && (forall l, e :: th.pc == PutTry(l, e) ==>
                  && s'.empty == s.empty && s'.full == s.full && ev == Silent
                  && s'.threads[t] == Thread(PutLoaded(l, e, Head(s, l)), th.held))
            && (forall l, e, h :: th.pc == PutLoaded(l, e, h) ==>
                  && s'.empty == s.empty && s'.full == s.full && ev == Silent
                  && s'.threads[t] == Thread(PutReady(l, e, h), th.held))
            && (forall l, e, h :: th.pc == PutReady(l, e, h) ==>
                  if Head(s, l) == h then ev == Put(l, e, h == NIL) && s'.threads[t] == Thread(Idle, th.held)
                  else ev == Missed(l) && s'.threads[t] == Thread(PutTry(l, e), th.held))
  {
  }

  class SharedQueue {
    const cfg: Config
    const maxentrysize: nat
    var s: State
    ghost var a: Abs
    var others: seq<Schedule>

    ghost predicate Valid()
      reads this
    {
      WellFormed(cfg) && OneTaker(cfg) && Refines(cfg, s, a)
    }

    constructor (cfg: Config, maxentrysize: nat, others: seq<Schedule>)
      requires WellFormed(cfg) && OneTaker(cfg)
      ensures Valid() && this.cfg == cfg && this.maxentrysize == maxentrysize && this.others == others
      ensures s == CasQueue.Init(cfg) && a == InitAbs(cfg)
    {
      this.cfg, this.maxentrysize, this.others := cfg, maxentrysize, others;
      s, a := CasQueue.Init(cfg), InitAbs(cfg);
      InitRefines(cfg);
    }

    // The other threads' next chunk, if they can take it.
    method Others(t: int) returns (ghost more: Trace)
      requires Valid() && 0 <= t < |s.threads|
      modifies this
      ensures Valid() && SpecRun(old(a), more) == Some(a) && Own(t, more) == []
      ensures |s.threads| == old(|s.threads|) && s.threads[t] == old(s.threads[t])
      ensures if old(others) == [] then s == old(s) && others == [] else others == old(others)[1..]
    {
      hide Refines, Step, WellFormed, OneTaker;
      more := [];
      if others != [] {
        var chunk := others[0];
        others := others[1..];
        if (forall i :: 0 <= i < |chunk| ==> chunk[i].0 != t) && Run(cfg, s, chunk).Some? {
          OthersKeep(cfg, s, chunk, t);
          RunRefines(cfg, s, a, chunk);
          more := Run(cfg, s, chunk).value.1;
          s := Run(cfg, s, chunk).value.0;
          a := SpecRun(a, more).value;
        }
      }
    }

    // One access of thread t.
    method Access(t: int, act: Action) returns (ev: Event, ghost more: Trace)
      requires Valid() && Step(cfg, s, t, act).Some?
      modifies this`s, this`a
      ensures Valid() && SpecRun(old(a), more) == Some(a) && more == [(t, ev)]
      ensures (s, ev) == Step(cfg, old(s), t, act).value
    {
      hide Refines, Step, WellFormed, OneTaker;
      StepRefines(cfg, s, a, t, act);
      var (s', ev') := Step(cfg, s, t, act).value;
      more := [(t, ev')];
      assert more[1..] == [];
      ev := ev';
      a := SpecStep(a, t, ev').value;
      s := s';
    }

    // Other threads run, then thread t takes the next step of its operation.
    method Next(t: int) returns (ev: Event, ghost more: Trace, ghost at: State)
      requires Valid() && 0 <= t < |s.threads| && !s.threads[t].pc.Idle?
      modifies this
      ensures Valid() && SpecRun(old(a), more) == Some(a) && Own(t, more) == (if ev == Silent then [] else [ev])
      ensures |at.threads| == old(|s.threads|) && at.threads[t] == old(s.threads[t])
      ensures Step(cfg, at, t, Advance) == Some((s, ev))
      ensures if old(others) == [] then at == old(s) && others == [] else others == old(others)[1..]
    {
      hide Refines, Step, WellFormed, OneTaker;
      var pre := Others(t);
      at := s;
      NeverStuck(cfg, s, a, t);
      ghost var one;
      ev, one := Access(t, Advance);
      more := pre + one;
      SpecAppend(old(a), pre, one);
      OwnAppend(t, pre, one);
      assert one[1..] == [];
    }

    /** queue_getEmptyEntry after its length check, and queue_getFullEntry: the thread's retries, then either
        the abstract pop of the entry returned or the report that the list was empty. */
    method Take(t: int, l: ListId) returns (qe: Option<int>, edge: bool, ghost misses: nat, ghost more: Trace)
      requires Valid() && 0 <= t < |s.threads| && s.threads[t].pc.Idle? && MayTake(cfg, t, l)
      modifies this
      ensures Valid() && SpecRun(old(a), more) == Some(a) && |s.threads| == old(|s.threads|)
      ensures misses <= |old(others)| && (qe == None ==> !edge)
      ensures Own(t, more) == Misses(misses, l) + [if qe.Some? then Took(l, qe.value, edge) else Nothing(l)]
      ensures s.threads[t] == Thread(Idle, old(s.threads[t].held) + (if qe.Some? then {qe.value} else {}))
    {
      hide Refines, Step, WellFormed, OneTaker, Own, SpecRun, Misses, MayTake;
      ghost var held := s.threads[t].held;
      BeginSteps(cfg, s, t, BeginTake(l));
      var ev, m := Access(t, BeginTake(l));
      OwnOne(t, ev);
      more, misses := m, 0;
      MissesNext(0, l);
      edge := false;
      ghost var a0, tries := old(a), |others|;
      while true
        invariant Valid() && SpecRun(a0, more) == Some(a) && Own(t, more) == Misses(misses, l)
        invariant misses + |others| <= tries && !edge
        invariant 0 <= t < |s.threads| == old(|s.threads|) && s.threads[t] == Thread(TakeTry(l), held)
        decreases |others|
      {
        ghost var at, budget := s, |others|;
        ev, m, at := Next(t);
        TakeSteps(cfg, at, t);
        more := Log(t, a0, more, m);
        if ev.Nothing? {
          return None, edge, misses, more;
        }
        var head := s.threads[t].pc.h;
        ev, m, at := Next(t);
        TakeSteps(cfg, at, t);
        more := Log(t, a0, more, m);
        var next := s.threads[t].pc.nx;
        ev, m, at := Next(t);
        TakeSteps(cfg, at, t);
        more := Log(t, a0, more, m);
        if ev.Took? {
          ev, m, at := Next(t);
          TakeSteps(cfg, at, t);
          more := Log(t, a0, more, m);
          return Some(head), next == NIL, misses, more;
        }
        MissesNext(misses, l);
        misses := misses + 1;
      }
    }

    /** queue_putBackFullEntry and queue_putBackEmptyEntry: the thread's retries, then the abstract push of the
        entry, and whether it found the list empty. */
    method PutBack(t: int, l: ListId, e: int) returns (edge: bool, ghost misses: nat, ghost more: Trace)
      requires Valid() && 0 <= t < |s.threads| && s.threads[t].pc.Idle? && e in s.threads[t].held
      modifies this
      ensures Valid() && SpecRun(old(a), more) == Some(a) && |s.threads| == old(|s.threads|)
      ensures misses <= |old(others)|
      ensures Own(t, more) == Misses(misses, l) + [Put(l, e, edge)]
      ensures s.threads[t] == Thread(Idle, old(s.threads[t].held) - {e})
    {
      hide Refines, Step, WellFormed, OneTaker, Own, SpecRun, Misses;
      ghost var held := s.threads[t].held - {e};
      HeldIsEntry(cfg, s, a, t, e);
      BeginSteps(cfg, s, t, BeginPut(l, e));
      var ev, m := Access(t, BeginPut(l, e));
      OwnOne(t, ev);
      more, misses := m, 0;
      MissesNext(0, l);
      ghost var a0, tries := old(a), |others|;
      while true
        invariant Valid() && SpecRun(a0, more) == Some(a) && Own(t, more) == Misses(misses, l)
        invariant misses + |others| <= tries
        invariant 0 <= t < |s.threads| == old(|s.threads|) && s.threads[t] == Thread(PutTry(l, e), held)
        decreases |others|
      {
        ghost var at := s;
        ev, m, at := Next(t);
        PutSteps(cfg, at, t);
        more := Log(t, a0, more, m);
        var head := s.threads[t].pc.h;
        ev, m, at := Next(t);
        PutSteps(cfg, at, t);
        more := Log(t, a0, more, m);
        ev, m, at := Next(t);
        PutSteps(cfg, at, t);
        more := Log(t, a0, more, m);
        if ev.Put? {
          return head == NIL, misses, more;
        }
        MissesNext(misses, l);
        misses := misses + 1;
      }
    }

    // Appending to what was recorded since a0.
    ghost method Log(t: int, a0: Abs, before: Trace, m: Trace) returns (r: Trace)
      requires SpecRun(a0, before).Some?
      ensures r == before + m && Own(t, r) == Own(t, before) + Own(t, m)
      ensures SpecRun(a0, r) == SpecRun(SpecRun(a0, before).value, m)
    {
      r := before + m;
      OwnAppend(t, before, m);
      SpecAppend(a0, before, m);
    }

    /** queue_getEmptyEntry. */
    method GetEmptyEntry(t: int, checklen: bool, len: nat)
        returns (rc: FindRC<int>, len': nat, ghost misses: nat, ghost more: Trace)
      requires Valid() && 0 <= t < |s.threads| && s.threads[t].pc.Idle? && MayTake(cfg, t, EmptyList)
      modifies this
      ensures Valid() && SpecRun(old(a), more) == Some(a) && |s.threads| == old(|s.threads|)
      ensures rc.MsgTooBig? <==> checklen && len > maxentrysize
      ensures len' == if checklen then len else maxentrysize
      ensures rc.MsgTooBig? || rc.QueueFull? || rc.Found?
      ensures match rc
              case MsgTooBig => s == old(s) && more == []
              case QueueFull =>
                && Own(t, more) == Misses(misses, EmptyList) + [Nothing(EmptyList)]
                && s.threads[t] == old(s.threads[t])
              case Found(e) => s.threads[t] == Thread(Idle, old(s.threads[t].held) + {e})
                               && exists edge :: Own(t, more) == Misses(misses, EmptyList) + [Took(EmptyList, e, edge)]
    {
      len' := len;
      misses, more := 0, [];
      if checklen {
        if len > maxentrysize {
          return MsgTooBig, len', misses, more;
        }
      } else {
        len' := maxentrysize;
      }
      var qe, edge;
      qe, edge, misses, more := Take(t, EmptyList);
      rc := if qe.Some? then Found(qe.value) else QueueFull;
    }
  }

  lemma OwnOne(t: int, ev: Event)
    ensures Own(t, [(t, ev)]) == if ev == Silent then [] else [ev]
  {
    assert [(t, ev)][1..] == [];
  }

  lemma HeldIsEntry(cfg: Config, s: State, a: Abs, t: int, e: int)
    requires Refines(cfg, s, a) && 0 <= t < |s.threads| && e in s.threads[t].held
    ensures 0 <= e < |s.len|
  {
    OwnerOf(s, a, t, e);
  }

  // Entering an operation.
  lemma BeginSteps(cfg: Config, s: State, t: int, act: Action)
    requires 0 <= t < |s.threads| && s.threads[t].pc.Idle? && (act.BeginTake? || act.BeginPut?)
    requires act.BeginTake? ==> MayTake(cfg, t, act.l)
    requires act.BeginPut? ==> act.e in s.threads[t].held && 0 <= act.e < |s.len|
    ensures Step(cfg, s, t, act).Some?
    ensures var th, (s', ev) := s.threads[t], Step(cfg, s, t, act).value;
            && |s'.threads| == |s.threads| && ev == Silent
            && s'.threads[t] == (if act.BeginTake? then Thread(TakeTry(act.l), th.held)
                                 else Thread(PutTry(act.l, act.e), th.held - {act.e}))
  {
  }
}
