// No thread of a channel is ever stuck: whoever has an operation under way can make its next access, and whoever is
// between operations can start the next one.
module CasProgress {
  import opened Common
  import Q = CasQueue
  import opened CasRefinement
  import opened CasChannel
  import CasRuns
  import C = Channel

  // ---------------------------------------------------------------------------------------
  // Producers and the consumer own the entries they are said to have.

  // Thread t owns entry e of queue q.
  ghost predicate Has<M>(c: Chan<M>, q: int, t: int, e: int) {
    0 <= q < |c.queues| && 0 <= t < |c.queues[q].threads| && e in Owns(c.queues[q].threads[t])
  }

  ghost predicate ProducersOwn<M>(su: Setup, c: Chan<M>) {
    && (forall p :: 0 <= p < |c.producers| && p < |su.home| && c.producers[p].Reserved? ==>
          Has(c, c.producers[p].q, su.home[p], c.producers[p].e))
    && forall p, r :: 0 <= p < |c.producers| && 0 <= r < |c.producers| && p != r && c.producers[p].Reserved?
                      && c.producers[r].Reserved? && c.producers[p].q == c.producers[r].q ==>
                        c.producers[p].e != c.producers[r].e
  }

  ghost predicate ConsumerOwns<M>(su: Setup, c: Chan<M>) {
    c.consumer.Holding? || c.consumer.Ran? ==> Has(c, c.consumer.q, su.threads, c.consumer.e)
  }

  // What a step of thread t on one queue does to ownership.
  lemma StepOwns(cfg: Q.Config, s: Q.State, t: int, act: Q.Action)
    requires Q.Step(cfg, s, t, act).Some? && 0 <= t < |s.threads|
    ensures var (s', ev) := Q.Step(cfg, s, t, act).value;
            && |s'.threads| == |s.threads|
            && (forall u :: 0 <= u < |s.threads| && u != t ==> s'.threads[u] == s.threads[u])
            && (forall e :: e in Owns(s.threads[t]) ==> e in Owns(s'.threads[t]) || (ev.Put? && e == ev.e))
            && (ev.Took? ==> ev.e in Owns(s'.threads[t]))
  {
  }

  // Nobody owned an entry that is popped.
  lemma TookUnowned(cfg: Q.Config, s: Q.State, a: Q.Abs, t: int, act: Q.Action)
    requires Q.WellFormed(cfg) && OneTaker(cfg) && Refines(cfg, s, a) && Q.Step(cfg, s, t, act).Some?
    requires Q.Step(cfg, s, t, act).value.1.Took?
    ensures forall u :: 0 <= u < |s.threads| ==> Q.Step(cfg, s, t, act).value.1.e !in Owns(s.threads[u])
  {
    hide Q.Step;
    StepRefines(cfg, s, a, t, act);
    var ev := Q.Step(cfg, s, t, act).value.1;
    assert ListOk(s, a, ev.l) && ev.e in Q.Stack(a, ev.l);
  }

  // The same for a step on queue q of a channel.
  lemma OnQueueOwns<M>(su: Setup, c: Chan<M>, abs: seq<Q.Abs>, s: C.State<M>, q: int, t: int, act: Q.Action)
    requires SetupOk(su) && OneTakerEach(su) && Rel(su, c, abs, s) && OnQueue(su, c, q, t, act).Some?
    ensures var (c1, ev) := OnQueue(su, c, q, t, act).value;
            && c1 == c.(queues := c1.queues) && |c1.queues| == |c.queues|
            && (forall r, u, e :: Has(c, r, u, e) ==> Has(c1, r, u, e) || (ev.Put? && r == q && u == t && e == ev.e))
            && (ev.Took? ==> Has(c1, q, t, ev.e) && forall u :: !Has(c, q, u, ev.e))
  {
    hide Q.Step, Refines, QueueRel, ConfigOf, Q.WellFormed, OneTaker, OneTakerEach;
    RelQueue(su, c, abs, s, q);
    CasRuns.StepFrame(ConfigOf(su, q), c.queues[q], t, act, Q.EmptyList);
    StepOwns(ConfigOf(su, q), c.queues[q], t, act);
    if Q.Step(ConfigOf(su, q), c.queues[q], t, act).value.1.Took? {
      TookUnowned(ConfigOf(su, q), c.queues[q], abs[q], t, act);
    }
  }

  // Owners stay when nothing was put, and nobody got an entry.
  lemma OwnersStay<M>(su: Setup, c: Chan<M>, c': Chan<M>)
    requires ProducersOwn(su, c) && ConsumerOwns(su, c)
    requires forall r, u, e :: Has(c, r, u, e) ==> Has(c', r, u, e)
    requires |c'.producers| == |c.producers|
    requires forall p :: 0 <= p < |c.producers| ==> c'.producers[p] == c.producers[p] || !c'.producers[p].Reserved?
    requires (c'.consumer.Holding? || c'.consumer.Ran?) ==>
               && (c.consumer.Holding? || c.consumer.Ran?) && c'.consumer.q == c.consumer.q
               && c'.consumer.e == c.consumer.e
    ensures ProducersOwn(su, c') && ConsumerOwns(su, c')
  {
    hide Has;
  }

  lemma ProducerAccessOwns<M>(su: Setup, c: Chan<M>, abs: seq<Q.Abs>, s: C.State<M>, t: int)
    requires SetupOk(su) && OneTakerEach(su) && Rel(su, c, abs, s) && ProducersOwn(su, c) && ConsumerOwns(su, c)
    requires 0 <= t < |c.jobs| && AccessStep(su, c, t).Some?
    ensures ProducersOwn(su, AccessStep(su, c, t).value) && ConsumerOwns(su, AccessStep(su, c, t).value)
  {
    hide Q.Step, Refines, QueueRel, ConfigOf, Q.WellFormed, OneTaker, OneTakerEach, OnQueue, Has, QueuesOk;
    assert JobOk(su, c, t);
    var job, c' := c.jobs[t], AccessStep(su, c, t).value;
    OnQueueOwns(su, c, abs, s, job.q, t, Q.Advance);
    var (c1, ev) := OnQueue(su, c, job.q, t, Q.Advance).value;
    QueuesOnly(c1, c');
    if job.Putting? {
      PutIs(su, c, t);
    } else if job.Unlinking? {
      UnlinkIs(su, c, t);
    } else {
      TakeIs(su, c, t);
    }
    if !ev.Took? && !ev.Put? {
      OwnersStay(su, c, c');
    }
  }

  // The queues alone say who has what.
  lemma QueuesOnly<M>(c: Chan<M>, c': Chan<M>)
    requires c'.queues == c.queues
    ensures forall r, u, e :: Has(c', r, u, e) <==> Has(c, r, u, e)
  {
  }

  // Which events an access of a thread's job can be.
  lemma PutIs<M>(su: Setup, c: Chan<M>, t: int)
    requires 0 <= t < |c.jobs| && c.jobs[t].Putting? && OnQueue(su, c, c.jobs[t].q, t, Q.Advance).Some?
    requires (forall q :: 0 <= q < |c.queues| ==> t < |c.queues[q].threads|) && JobOk(su, c, t)
    ensures var ev := OnQueue(su, c, c.jobs[t].q, t, Q.Advance).value.1;
            !ev.Took? && (ev.Put? ==> ev.e == c.producers[c.jobs[t].p].e)
  {
    hide Q.Step, ConfigOf;
    AccessIs(ConfigOf(su, c.jobs[t].q), c.queues[c.jobs[t].q], t, Q.FullList, c.producers[c.jobs[t].p].e);
  }

  lemma UnlinkIs<M>(su: Setup, c: Chan<M>, t: int)
    requires 0 <= t < |c.jobs| && c.jobs[t].Unlinking? && OnQueue(su, c, c.jobs[t].q, t, Q.Advance).Some?
    requires (forall q :: 0 <= q < |c.queues| ==> t < |c.queues[q].threads|) && JobOk(su, c, t)
    ensures OnQueue(su, c, c.jobs[t].q, t, Q.Advance).value.1 == Q.Silent
  {
    hide Q.Step, ConfigOf;
    AccessIs(ConfigOf(su, c.jobs[t].q), c.queues[c.jobs[t].q], t, Q.FullList, 0);
  }

  lemma TakeIs<M>(su: Setup, c: Chan<M>, t: int)
    requires 0 <= t < |c.jobs| && c.jobs[t].Taking? && OnQueue(su, c, c.jobs[t].q, t, Q.Advance).Some?
    requires (forall q :: 0 <= q < |c.queues| ==> t < |c.queues[q].threads|) && JobOk(su, c, t)
    ensures !OnQueue(su, c, c.jobs[t].q, t, Q.Advance).value.1.Put?
  {
    hide Q.Step, ConfigOf;
    AccessIs(ConfigOf(su, c.jobs[t].q), c.queues[c.jobs[t].q], t, Q.EmptyList, 0);
  }

  lemma ConsumerAccessOwns<M>(su: Setup, c: Chan<M>, abs: seq<Q.Abs>, s: C.State<M>)
    requires SetupOk(su) && OneTakerEach(su) && Rel(su, c, abs, s) && ProducersOwn(su, c) && ConsumerOwns(su, c)
    requires ConsumerAccess(su, c).Some?
    ensures ProducersOwn(su, ConsumerAccess(su, c).value) && ConsumerOwns(su, ConsumerAccess(su, c).value)
  {
    hide Q.Step, Refines, QueueRel, ConfigOf, Q.WellFormed, OneTaker, OneTakerEach, OnQueue, Has, QueuesOk;
    var q, c' := if c.cjob.Probing? then c.cursor else c.cjob.q, ConsumerAccess(su, c).value;
    OnQueueOwns(su, c, abs, s, q, su.threads, Q.Advance);
    var (c1, ev) := OnQueue(su, c, q, su.threads, Q.Advance).value;
    QueuesOnly(c1, c');
    ConsumerEvent(su, c, q);
    if !ev.Took? && !ev.Put? {
      OwnersStay(su, c, c');
    }
  }

  lemma ConsumerEvent<M>(su: Setup, c: Chan<M>, q: int)
    requires (forall k :: 0 <= k < |c.queues| ==> su.threads < |c.queues[k].threads|) && ConsumerOk(c, su.threads)
    requires !c.cjob.Free? && q == (if c.cjob.Probing? then c.cursor else c.cjob.q)
    requires OnQueue(su, c, q, su.threads, Q.Advance).Some?
    ensures var ev := OnQueue(su, c, q, su.threads, Q.Advance).value.1;
            && (ev.Took? ==> c.cjob.Probing?) && (ev.Put? ==> c.cjob.Recycling?)
            && (ev.Took? && q < |c.data| ==> c.consumer.Scanning?)
  {
    hide Q.Step, ConfigOf;
    AccessIs(ConfigOf(su, q), c.queues[q], su.threads, if c.cjob.Probing? then Q.FullList else Q.EmptyList,
             if c.cjob.Recycling? then c.consumer.e else 0);
  }

  // The start of an operation moves no entry between threads.
  lemma BeginOwns<M>(su: Setup, c: Chan<M>, abs: seq<Q.Abs>, s: C.State<M>, q: int, t: int, act: Q.Action, c': Chan<M>)
    requires SetupOk(su) && OneTakerEach(su) && Rel(su, c, abs, s) && ProducersOwn(su, c) && ConsumerOwns(su, c)
    requires (act.BeginTake? || act.BeginPut?) && OnQueue(su, c, q, t, act).Some?
    requires c'.queues == OnQueue(su, c, q, t, act).value.0.queues
    requires c'.producers == c.producers && c'.consumer == c.consumer
    ensures ProducersOwn(su, c') && ConsumerOwns(su, c')
  {
    hide Q.Step, Refines, QueueRel, ConfigOf, Q.WellFormed, OneTaker, OneTakerEach, Has, QueuesOk;
    OnQueueOwns(su, c, abs, s, q, t, act);
    QueuesOnly(OnQueue(su, c, q, t, act).value.0, c');
    BeginIs(ConfigOf(su, q), c.queues[q], t, act);
    OwnersStay(su, c, c');
  }

  /** Every step keeps: a producer or the consumer that is said to have an entry owns it. */
  lemma OwnersKept<M>(su: Setup, c: Chan<M>, abs: seq<Q.Abs>, s: C.State<M>, act: Act<M>)
    requires SetupOk(su) && OneTakerEach(su) && Rel(su, c, abs, s) && ProducersOwn(su, c) && ConsumerOwns(su, c)
    requires Step(su, c, act).Some?
    ensures ProducersOwn(su, Step(su, c, act).value) && ConsumerOwns(su, Step(su, c, act).value)
  {
    hide Q.Step, Rel, ConfigOf, OneTakerEach, Has, AccessStep, ConsumerAccess, ProducersOwn, ConsumerOwns;
    var c' := Step(su, c, act).value;
    match act
    case BeginReserve(p, q) => BeginOwns(su, c, abs, s, q, su.home[p], Q.BeginTake(Q.EmptyList), c');
    case BeginPublish(p, m) =>
      BeginOwns(su, c, abs, s, c.producers[p].q, su.home[p], Q.BeginPut(Q.FullList, c.producers[p].e), c');
    case BeginProbe => BeginOwns(su, c, abs, s, c.cursor, su.threads, Q.BeginTake(Q.FullList), c');
    case BeginRecycle =>
      BeginOwns(su, c, abs, s, c.consumer.q, su.threads, Q.BeginPut(Q.EmptyList, c.consumer.e), c');
    case Access(t) =>
      if t == su.threads {
        ConsumerAccessOwns(su, c, abs, s);
      } else {
        ProducerAccessOwns(su, c, abs, s, t);
      }
    case _ =>
      QueuesOnly(c, c');
      OwnersStay(su, c, c');
  }

  lemma StartOwns<M>(su: Setup)
    ensures ProducersOwn(su, Start<M>(su)) && ConsumerOwns(su, Start<M>(su))
  {
  }

  // ---------------------------------------------------------------------------------------
  // What can happen next.

  lemma OnQueueCan<M>(su: Setup, c: Chan<M>, abs: seq<Q.Abs>, s: C.State<M>, q: int, t: int)
    requires SetupOk(su) && Rel(su, c, abs, s) && 0 <= q < Queues(su) && 0 <= t < |c.queues[q].threads|
    requires !PcAt(c, q, t).Idle?
    ensures OnQueue(su, c, q, t, Q.Advance).Some?
  {
    hide Q.Step, Refines, QueueRel;
    ConfigOk(su, q);
    CasRuns.NeverStuck(ConfigOf(su, q), c.queues[q], abs[q], t);
  }

  /** A thread with an operation under way can make its next access. */
  lemma AccessCan<M>(su: Setup, c: Chan<M>, abs: seq<Q.Abs>, s: C.State<M>, t: int)
    requires SetupOk(su) && Rel(su, c, abs, s)
    ensures 0 <= t < |c.jobs| && t != su.threads && !c.jobs[t].NoJob? ==> Step(su, c, Access(t)).Some?
    ensures !c.cjob.Free? ==> Step(su, c, Access(su.threads)).Some?
  {
    hide Q.Step, OnQueue, QueuesOk;
    if 0 <= t < |c.jobs| && !c.jobs[t].NoJob? {
      assert JobOk(su, c, t);
      OnQueueCan(su, c, abs, s, c.jobs[t].q, t);
    }
    if !c.cjob.Free? {
      OnQueueCan(su, c, abs, s, if c.cjob.Probing? then c.cursor else c.cjob.q, su.threads);
    }
  }

  // A thread that owns an entry and is between operations holds it.
  lemma HeldIsEntry(cfg: Q.Config, s: Q.State, a: Q.Abs, t: int, e: int)
    requires Refines(cfg, s, a) && 0 <= t < |s.threads| && s.threads[t].pc.Idle? && e in Owns(s.threads[t])
    ensures e in s.threads[t].held && 0 <= e < |s.len|
  {
    OwnerOf(s, a, t, e);
    assert InHand(s.threads[t].pc) == {};
  }

  /** A producer whose thread is between operations can start the next one. */
  lemma ProducerCan<M>(su: Setup, c: Chan<M>, abs: seq<Q.Abs>, s: C.State<M>, p: int, q: int, m: M)
    requires SetupOk(su) && Rel(su, c, abs, s) && ProducersOwn(su, c) && AtHome(su, c, p)
    ensures c.producers[p].Ready? && 0 <= q < Queues(su) ==> Step(su, c, BeginReserve(p, q)).Some?
    ensures c.producers[p].Reserved? ==> Step(su, c, BeginPublish(p, m)).Some?
    ensures c.producers[p].Pushed? ==> Step(su, c, Signal(p)).Some?
  {
    hide Refines, QueueRel;
    var t := su.home[p];
    assert JobOk(su, c, t);
    if c.producers[p].Reserved? {
      var r, e := c.producers[p].q, c.producers[p].e;
      assert Has(c, r, t, e) && PcAt(c, r, t).Idle?;
      HeldIsEntry(ConfigOf(su, r), c.queues[r], abs[r], t, e);
    } else if c.producers[p].Ready? && 0 <= q < Queues(su) {
      assert PcAt(c, q, t).Idle? && t in ConfigOf(su, q).feeders;
    }
  }

  /** The consumer between operations can do what is next: it waits only at a zero semaphore. */
  lemma ConsumerCan<M>(su: Setup, c: Chan<M>, abs: seq<Q.Abs>, s: C.State<M>)
    requires SetupOk(su) && Rel(su, c, abs, s) && ConsumerOwns(su, c) && c.cjob.Free?
    ensures c.consumer.Waiting? && c.sem > 0 ==> Step(su, c, Wait).Some?
    ensures c.consumer.Scanning? ==> Step(su, c, BeginProbe).Some?
    ensures c.consumer.Holding? ==> Step(su, c, Serve).Some?
    ensures c.consumer.Ran? ==> Step(su, c, BeginRecycle).Some?
  {
    hide Refines, QueueRel;
    if c.consumer.Ran? {
      var q, e := c.consumer.q, c.consumer.e;
      assert Has(c, q, su.threads, e) && PcAt(c, q, su.threads).Idle?;
      HeldIsEntry(ConfigOf(su, q), c.queues[q], abs[q], su.threads, e);
    } else if c.consumer.Scanning? {
      assert PcAt(c, c.cursor, su.threads).Idle?;
    }
  }
}
