// One consumer and its queues: producers reserve an entry, push it full and signal a semaphore; the
// consumer waits, scans its queues round robin from a cursor it keeps, pops, runs, recycles.
//
// A worker is such a consumer over many queues (input.c, worker.c, rr_queue_scan.c); an output is one
// over a single queue whose producers are workers (output.h, output.c).  List operations are atomic.
module Channel {
  import opened Common

  datatype Item<M> = Item(entry: int, msg: M)

  // Both lists are stacks, newest first.
  datatype Queue<M> = Queue(empty: seq<int>, full: seq<Item<M>>)

  // A connection of an input thread, or a worker that feeds an output.
  datatype Producer =
    | Ready                      // nothing in hand
    | Reserved(q: int, e: int)   // has an entry of queue q, message incomplete
    | Pushed                     // pushed its entry, has not signalled yet

  datatype Consumer<M> =
    | Waiting                    // at semop
    | Scanning                   // consumed a token, nothing popped yet
    | Holding(q: int, e: int, msg: M)
    | Ran(q: int, e: int)        // the function has been called on the message

  datatype State<M> = State(
    qs: seq<Queue<M>>,
    sem: nat,
    cursor: int,
    producers: seq<Producer>,
    consumer: Consumer<M>,
    lost: seq<seq<int>>,         // per queue, entries a closed connection took with it
    accepted: seq<M>,            // every message pushed so far, in order
    served: seq<M>)              // every message the function was called on, in order

  datatype Action<M> =
    | Reserve(p: int, q: int) | Publish(p: int, msg: M) | Signal(p: int) | Close(p: int)
    | Wait | Probe | Serve | Recycle

  datatype Event = Quiet | Missed(q: int) | Popped(q: int)

  // Where a served entry goes back to.  The scan is meant to report the queue it popped from; as
  // written it leaves the caller's index untouched, whatever value that has, in range or not.
  datatype Report = Origin | Stale(index: int)

  function Target(rep: Report, q: int): int {
    if rep.Origin? then q else rep.index
  }

  function NextCursor(n: nat, c: int): int {
    if c + 1 == n then 0 else c + 1
  }

  function Step<M>(rep: Report, s: State<M>, act: Action<M>): Option<(State<M>, Event)> {
    var n := |s.qs|;
    match act
    case Reserve(p, q) =>
      if 0 <= p < |s.producers| && s.producers[p].Ready? && 0 <= q < n && s.qs[q].empty != [] then
        var e := s.qs[q].empty[0];
        Some((s.(qs := s.qs[q := s.qs[q].(empty := s.qs[q].empty[1..])],
                 producers := s.producers[p := Reserved(q, e)]), Quiet))
      else None
    case Publish(p, msg) =>
      if 0 <= p < |s.producers| && s.producers[p].Reserved? && 0 <= s.producers[p].q < n then
        var q := s.producers[p].q;
        Some((s.(qs := s.qs[q := s.qs[q].(full := [Item(s.producers[p].e, msg)] + s.qs[q].full)],
                 producers := s.producers[p := Pushed], accepted := s.accepted + [msg]), Quiet))
      else None
    case Signal(p) =>
      if 0 <= p < |s.producers| && s.producers[p].Pushed? then
        Some((s.(sem := s.sem + 1, producers := s.producers[p := Ready]), Quiet))
      else None
    case Close(p) =>
      if 0 <= p < |s.producers| && s.producers[p].Reserved? && 0 <= s.producers[p].q < |s.lost| then
        var q := s.producers[p].q;
        Some((s.(lost := s.lost[q := s.lost[q] + [s.producers[p].e]],
                 producers := s.producers[p := Ready]), Quiet))
      else None
    case Wait =>
      if s.consumer.Waiting? && s.sem > 0 then Some((s.(sem := s.sem - 1, consumer := Scanning), Quiet)) else None
    case Probe =>
      if s.consumer.Scanning? && 0 <= s.cursor < n then
        var q := s.cursor;
        var s1 := s.(cursor := NextCursor(n, q));
        if s.qs[q].full == [] then Some((s1, Missed(q)))
        else
          var it := s.qs[q].full[0];
          Some((s1.(qs := s.qs[q := s.qs[q].(full := s.qs[q].full[1..])], consumer := Holding(q, it.entry, it.msg)),
                Popped(q)))
      else None
    case Serve =>
      if s.consumer.Holding? then
        Some((s.(consumer := Ran(s.consumer.q, s.consumer.e), served := s.served + [s.consumer.msg]), Quiet))
      else None
    case Recycle =>
      if s.consumer.Ran? then
        var q := Target(rep, s.consumer.q);
        if 0 <= q < n then
          Some((s.(qs := s.qs[q := s.qs[q].(empty := [s.consumer.e] + s.qs[q].empty)], consumer := Waiting), Quiet))
        else
          Some((s.(consumer := Waiting), Quiet))   // to no queue of this consumer
      else None
  }

  function Run<M>(rep: Report, s: State<M>, acts: seq<Action<M>>): Option<(State<M>, seq<Event>)>
    decreases |acts|
  {
    if acts == [] then Some((s, [])) else
    match Step(rep, s, acts[0])
    case None => None
    case Some((s1, ev)) =>
      match Run(rep, s1, acts[1..])
      case None => None
      case Some((s2, tr)) => Some((s2, [ev] + tr))
  }

  /** Queue q starts with qlens[q] empty entries; nobody has done anything. */
  function Init<M>(qlens: seq<nat>, producers: nat): State<M> {
    State(seq(|qlens|, i requires 0 <= i < |qlens| => Queue(seq(qlens[i], k => k), [])), 0, 0,
          seq(producers, i => Ready), Waiting, seq(|qlens|, i => []), [], [])
  }

  // ---------------------------------------------------------------------------------------
  // Tokens.

  function TotalFull<M>(qs: seq<Queue<M>>): nat {
    if qs == [] then 0 else |qs[0].full| + TotalFull(qs[1..])
  }

  function Unsignalled(ps: seq<Producer>): nat {
    if ps == [] then 0 else (if ps[0].Pushed? then 1 else 0) + Unsignalled(ps[1..])
  }

  lemma {:induction false} TotalFullUpdate<M>(qs: seq<Queue<M>>, i: int, q: Queue<M>)
    requires 0 <= i < |qs|
    ensures TotalFull(qs[i := q]) == TotalFull(qs) - |qs[i].full| + |q.full|
  {
    if i > 0 {
      TotalFullUpdate(qs[1..], i - 1, q);
      assert qs[i := q][1..] == qs[1..][i - 1 := q];
    } else {
      assert qs[i := q][1..] == qs[1..];
    }
  }

  lemma {:induction false} UnsignalledUpdate(ps: seq<Producer>, i: int, p: Producer)
    requires 0 <= i < |ps|
    ensures Unsignalled(ps[i := p]) == Unsignalled(ps) - (if ps[i].Pushed? then 1 else 0) + (if p.Pushed? then 1 else 0)
  {
    if i > 0 {
      UnsignalledUpdate(ps[1..], i - 1, p);
      assert ps[i := p][1..] == ps[1..][i - 1 := p];
    } else {
      assert ps[i := p][1..] == ps[1..];
    }
  }

  lemma {:induction false} FindFull<M>(qs: seq<Queue<M>>) returns (j: int)
    requires TotalFull(qs) > 0
    ensures 0 <= j < |qs| && qs[j].full != []
  {
    if qs[0].full != [] {
      j := 0;
    } else {
      j := FindFull(qs[1..]);
      j := j + 1;
    }
  }

  lemma {:induction false} NoneFull<M>(qs: seq<Queue<M>>, j: int)
    requires 0 <= j < |qs| && TotalFull(qs) == 0
    ensures qs[j].full == []
  {
    if j > 0 {
      NoneFull(qs[1..], j - 1);
    }
  }

  /** Entries published = signals pending + producers between push and signal + the token in use. */
  ghost predicate TokensOk<M>(s: State<M>) {
    TotalFull(s.qs) == s.sem + Unsignalled(s.producers) + (if s.consumer.Scanning? then 1 else 0)
  }

  lemma StepTokens<M>(rep: Report, s: State<M>, act: Action<M>)
    requires TokensOk(s) && Step(rep, s, act).Some?
    ensures TokensOk(Step(rep, s, act).value.0)
  {
    var s' := Step(rep, s, act).value.0;
    if act.Reserve? || act.Publish? || act.Signal? || act.Close? {
      UnsignalledUpdate(s.producers, act.p, s'.producers[act.p]);
    }
    match act
    case Reserve(p, q) => TotalFullUpdate(s.qs, q, s'.qs[q]);
    case Publish(p, _) => TotalFullUpdate(s.qs, s.producers[p].q, s'.qs[s.producers[p].q]);
    case Probe => TotalFullUpdate(s.qs, s.cursor, s'.qs[s.cursor]);
    case Recycle =>
      var q := Target(rep, s.consumer.q);
      if 0 <= q < |s.qs| {
        TotalFullUpdate(s.qs, q, s'.qs[q]);
      }
    case _ =>
  }

  // ---------------------------------------------------------------------------------------
  // Messages.

  /** How often m is on the full lists. */
  function FullCount<M(==)>(qs: seq<Queue<M>>, m: M): nat {
    if qs == [] then 0 else Copies(qs[0].full, m) + FullCount(qs[1..], m)
  }

  function Copies<M(==)>(items: seq<Item<M>>, m: M): nat {
    if items == [] then 0 else (if items[0].msg == m then 1 else 0) + Copies(items[1..], m)
  }

  function InHand<M(==)>(c: Consumer<M>, m: M): nat {
    if c.Holding? && c.msg == m then 1 else 0
  }

  lemma {:induction false} FullCountUpdate<M>(qs: seq<Queue<M>>, i: int, q: Queue<M>, m: M)
    requires 0 <= i < |qs|
    ensures FullCount(qs[i := q], m) == FullCount(qs, m) - Copies(qs[i].full, m) + Copies(q.full, m)
  {
    if i > 0 {
      FullCountUpdate(qs[1..], i - 1, q, m);
      assert qs[i := q][1..] == qs[1..][i - 1 := q];
    } else {
      assert qs[i := q][1..] == qs[1..];
    }
  }

  /** Every accepted message was served, or is on a full list, or is in the consumer's hand: once. */
  ghost predicate OnceOk<M>(s: State<M>, m: M) {
    multiset(s.accepted)[m] == multiset(s.served)[m] + FullCount(s.qs, m) + InHand(s.consumer, m)
  }

  lemma ProducerOnce<M>(rep: Report, s: State<M>, act: Action<M>, m: M)
    requires OnceOk(s, m) && Step(rep, s, act).Some?
    requires act.Reserve? || act.Publish? || act.Signal? || act.Close?
    ensures OnceOk(Step(rep, s, act).value.0, m)
  {
    var s' := Step(rep, s, act).value.0;
    match act
    case Reserve(p, q) => FullCountUpdate(s.qs, q, s'.qs[q], m);
    case Publish(p, msg) =>
      var q := s.producers[p].q;
      FullCountUpdate(s.qs, q, s'.qs[q], m);
      assert s'.qs[q].full[1..] == s.qs[q].full;
      assert multiset(s'.accepted) == multiset(s.accepted) + multiset{msg};
    case _ =>
  }

  lemma ConsumerOnce<M>(rep: Report, s: State<M>, act: Action<M>, m: M)
    requires OnceOk(s, m) && Step(rep, s, act).Some?
    requires act.Wait? || act.Probe? || act.Serve? || act.Recycle?
    ensures OnceOk(Step(rep, s, act).value.0, m)
  {
    var s' := Step(rep, s, act).value.0;
    match act
    case Probe => FullCountUpdate(s.qs, s.cursor, s'.qs[s.cursor], m);
    case Recycle =>
      var q := Target(rep, s.consumer.q);
      if 0 <= q < |s.qs| {
        FullCountUpdate(s.qs, q, s'.qs[q], m);
      }
    case Serve =>
      assert multiset(s'.served) == multiset(s.served) + multiset{s.consumer.msg};
    case _ =>
  }

  lemma StepOnce<M>(rep: Report, s: State<M>, act: Action<M>, m: M)
    requires OnceOk(s, m) && Step(rep, s, act).Some?
    ensures OnceOk(Step(rep, s, act).value.0, m)
  {
    hide OnceOk, Step;
    if act.Wait? || act.Probe? || act.Serve? || act.Recycle? {
      ConsumerOnce(rep, s, act, m);
    } else {
      ProducerOnce(rep, s, act, m);
    }
  }

  // ---------------------------------------------------------------------------------------
  // Entries.

  function At(b: bool): nat { if b then 1 else 0 }

  function EntryCopies<M>(items: seq<Item<M>>, e: int): nat {
    if items == [] then 0 else At(items[0].entry == e) + EntryCopies(items[1..], e)
  }

  function ReservedCopies(ps: seq<Producer>, q: int, e: int): nat {
    if ps == [] then 0 else At(ps[0] == Reserved(q, e)) + ReservedCopies(ps[1..], q, e)
  }

  function ConsumerHas<M>(c: Consumer<M>, q: int, e: int): bool {
    match c
    case Holding(k, d, _) => k == q && d == e
    case Ran(k, d) => k == q && d == e
    case _ => false
  }

  /** In how many places entry e of queue q is: its lists, a producer, the consumer, or lost. */
  function Places<M>(s: State<M>, q: int, e: int): nat
    requires 0 <= q < |s.qs| == |s.lost|
  {
    multiset(s.qs[q].empty)[e] + EntryCopies(s.qs[q].full, e) + ReservedCopies(s.producers, q, e)
    + At(ConsumerHas(s.consumer, q, e)) + multiset(s.lost[q])[e]
  }

  lemma {:induction false} ReservedUpdate(ps: seq<Producer>, i: int, p: Producer, q: int, e: int)
    requires 0 <= i < |ps|
    ensures ReservedCopies(ps[i := p], q, e) ==
              ReservedCopies(ps, q, e) - At(ps[i] == Reserved(q, e)) + At(p == Reserved(q, e))
  {
    if i > 0 {
      ReservedUpdate(ps[1..], i - 1, p, q, e);
      assert ps[i := p][1..] == ps[1..][i - 1 := p];
    } else {
      assert ps[i := p][1..] == ps[1..];
    }
  }

  // Indices in range.
  ghost predicate Shape<M>(s: State<M>) {
    && |s.lost| == |s.qs|
    && 0 <= s.cursor < |s.qs|
    && (s.consumer.Holding? || s.consumer.Ran? ==> 0 <= s.consumer.q < |s.qs|)
    && forall p :: 0 <= p < |s.producers| && s.producers[p].Reserved? ==> 0 <= s.producers[p].q < |s.qs|
  }

  lemma StepShape<M>(rep: Report, s: State<M>, act: Action<M>)
    requires Shape(s) && Step(rep, s, act).Some?
    ensures Shape(Step(rep, s, act).value.0)
    ensures |Step(rep, s, act).value.0.qs| == |s.qs|
    ensures |Step(rep, s, act).value.0.producers| == |s.producers|
  {
  }

  lemma HeadTail<T>(xs: seq<T>, e: T)
    requires xs != []
    ensures multiset(xs)[e] == At(xs[0] == e) + multiset(xs[1..])[e]
  {
    assert xs == [xs[0]] + xs[1..];
    assert multiset(xs) == multiset{xs[0]} + multiset(xs[1..]);
  }

  lemma Snoc<T>(xs: seq<T>, x: T, e: T)
    ensures multiset(xs + [x])[e] == multiset(xs)[e] + At(x == e)
  {
    assert multiset(xs + [x]) == multiset(xs) + multiset{x};
  }

  // Splitting Places by what a producer and what the consumer changes.
  lemma ProducerPlaces<M>(rep: Report, s: State<M>, act: Action<M>, q: int, e: int)
    requires Shape(s) && 0 <= q < |s.qs| && Step(rep, s, act).Some?
    requires act.Reserve? || act.Publish? || act.Signal? || act.Close?
    ensures Places(Step(rep, s, act).value.0, q, e) == Places(s, q, e)
  {
    var s' := Step(rep, s, act).value.0;
    ReservedUpdate(s.producers, act.p, s'.producers[act.p], q, e);
    match act
    case Reserve(p, k) => HeadTail(s.qs[k].empty, e);
    case Publish(p, msg) =>
      var k := s.producers[p].q;
      assert s'.qs[k].full[1..] == s.qs[k].full;
    case Close(p) => Snoc(s.lost[s.producers[p].q], s.producers[p].e, e);
    case _ =>
  }

  lemma ConsumerPlaces<M>(rep: Report, s: State<M>, act: Action<M>, q: int, e: int)
    requires Shape(s) && 0 <= q < |s.qs| && Step(rep, s, act).Some?
    requires act.Wait? || act.Probe? || act.Serve? || act.Recycle?
    requires act.Recycle? ==> Target(rep, s.consumer.q) == s.consumer.q
    ensures Places(Step(rep, s, act).value.0, q, e) == Places(s, q, e)
  {
    var s' := Step(rep, s, act).value.0;
    if act.Recycle? {
      var k := s.consumer.q;
      HeadTail(s'.qs[k].empty, e);
      assert s'.qs[k].empty[1..] == s.qs[k].empty;
    }
  }

  /** A step leaves every entry in as many places as it was, if served entries go home. */
  lemma StepPlaces<M>(rep: Report, s: State<M>, act: Action<M>, q: int, e: int)
    requires Shape(s) && 0 <= q < |s.qs| && Step(rep, s, act).Some?
    requires act.Recycle? ==> Target(rep, s.consumer.q) == s.consumer.q
    ensures Places(Step(rep, s, act).value.0, q, e) == Places(s, q, e)
  {
    if act.Wait? || act.Probe? || act.Serve? || act.Recycle? {
      ConsumerPlaces(rep, s, act, q, e);
    } else {
      ProducerPlaces(rep, s, act, q, e);
    }
  }

  function ReservedOf(ps: seq<Producer>, q: int): nat {
    if ps == [] then 0 else At(ps[0].Reserved? && ps[0].q == q) + ReservedOf(ps[1..], q)
  }

  lemma {:induction false} ReservedOfUpdate(ps: seq<Producer>, i: int, p: Producer, q: int)
    requires 0 <= i < |ps|
    ensures ReservedOf(ps[i := p], q) ==
              ReservedOf(ps, q) - At(ps[i].Reserved? && ps[i].q == q) + At(p.Reserved? && p.q == q)
  {
    if i > 0 {
      ReservedOfUpdate(ps[1..], i - 1, p, q);
      assert ps[i := p][1..] == ps[1..][i - 1 := p];
    } else {
      assert ps[i := p][1..] == ps[1..];
    }
  }

  /** Entries of queue q: empty, full, with producers, with the consumer, lost. */
  function Tally<M>(s: State<M>, q: int): nat
    requires 0 <= q < |s.qs| == |s.lost|
  {
    |s.qs[q].empty| + |s.qs[q].full| + ReservedOf(s.producers, q)
    + At((s.consumer.Holding? || s.consumer.Ran?) && s.consumer.q == q) + |s.lost[q]|
  }

  lemma StepTally<M>(rep: Report, s: State<M>, act: Action<M>, q: int)
    requires Shape(s) && 0 <= q < |s.qs| && Step(rep, s, act).Some?
    requires act.Recycle? ==> Target(rep, s.consumer.q) == s.consumer.q
    ensures var s' := Step(rep, s, act).value.0;
            && |s'.qs| == |s.qs| == |s'.lost| && Tally(s', q) == Tally(s, q)
            && |s'.lost[q]| == |s.lost[q]| + At(act.Close? && s.producers[act.p].Reserved? && s.producers[act.p].q == q)
  {
    var s' := Step(rep, s, act).value.0;
    if act.Reserve? || act.Publish? || act.Signal? || act.Close? {
      ReservedOfUpdate(s.producers, act.p, s'.producers[act.p], q);
    }
  }

  // ---------------------------------------------------------------------------------------
  // The scan.

  /** How many probes from cursor c until queue j is probed. */
  function Ahead(n: nat, c: int, j: int): int {
    if j >= c then j - c else j + n - c
  }

  function Probes(tr: seq<Event>): nat {
    if tr == [] then 0 else (if tr[0].Quiet? then 0 else 1) + Probes(tr[1..])
  }

  function PopsElsewhere(tr: seq<Event>, j: int): nat {
    if tr == [] then 0 else (if tr[0].Popped? && tr[0].q != j then 1 else 0) + PopsElsewhere(tr[1..], j)
  }

  // One step that does not serve j.
  lemma StepApproaches<M>(rep: Report, s: State<M>, act: Action<M>, j: int)
    requires Shape(s) && 0 <= j < |s.qs| && s.qs[j].full != []
    requires Step(rep, s, act).Some? && Step(rep, s, act).value.1 != Popped(j)
    ensures var (s1, ev) := Step(rep, s, act).value;
            && |s1.qs| == |s.qs| && s1.qs[j].full != []
            && (if ev.Quiet? then 0 else 1) + Ahead(|s.qs|, s1.cursor, j) == Ahead(|s.qs|, s.cursor, j)
  {
  }

  /** Until queue j is served it stays non-empty and every probe brings the cursor one queue closer. */
  lemma {:induction false} ProbesApproach<M>(rep: Report, s: State<M>, acts: seq<Action<M>>, j: int)
    requires Shape(s) && 0 <= j < |s.qs| && s.qs[j].full != []
    requires Run(rep, s, acts).Some? && Popped(j) !in Run(rep, s, acts).value.1
    ensures var (s', tr) := Run(rep, s, acts).value;
            && |s'.qs| == |s.qs| && s'.qs[j].full != []
            && Probes(tr) + Ahead(|s.qs|, s'.cursor, j) == Ahead(|s.qs|, s.cursor, j)
    decreases |acts|
  {
    hide Step, Shape, Ahead;
    if acts != [] {
      var (s1, ev) := Step(rep, s, acts[0]).value;
      var tr := Run(rep, s, acts).value.1;
      assert ev == tr[0] && tr[1..] == Run(rep, s1, acts[1..]).value.1;
      StepShape(rep, s, acts[0]);
      StepApproaches(rep, s, acts[0], j);
      ProbesApproach(rep, s1, acts[1..], j);
    }
  }
}
