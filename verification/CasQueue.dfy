// The four list operations of one queue (queue.h), one shared-memory access at a time.
//
// A queue keeps its entries on two linked stacks, `empty` and `full`.  Any number of threads
// run the operations concurrently; a step below is one load, one store or one compare-and-swap
// of one thread, and a schedule picks the thread at every step.  Memory is sequentially
// consistent.  Entries are named by their index, NIL is the null pointer.
module CasQueue {
  import opened Common

  const NIL := -1

  datatype ListId = EmptyList | FullList

  // Where a thread stands inside an operation, with the locals that are live there.
  datatype Pc =
    | Idle
    | TakeTry(l: ListId)                              // at `retry:` of a get
    | TakeLoaded(l: ListId, h: int)                   // head loaded, not null
    | TakeReady(l: ListId, h: int, nx: int)           // h->next loaded, about to CAS
    | TakeUnlink(l: ListId, h: int, nx: int)          // CAS done, about to clear h->next
    | PutTry(l: ListId, e: int)                       // at `retry:` of a put
    | PutLoaded(l: ListId, e: int, h: int)            // head loaded
    | PutReady(l: ListId, e: int, h: int)             // e->next stored, about to CAS

  datatype Thread = Thread(pc: Pc, held: set<int>)

  datatype State = State(empty: int, full: int, next: seq<int>, len: seq<nat>, threads: seq<Thread>)

  // The threads that feed the queue may take from `empty`; one thread, the consumer, takes from
  // `full`.  Any thread that holds an entry may put it on either list.
  datatype Config = Config(qlen: nat, threads: nat, feeders: set<int>, consumer: int)

  ghost predicate WellFormed(cfg: Config) {
    && 1 <= cfg.qlen
    && 0 <= cfg.consumer < cfg.threads
    && cfg.consumer !in cfg.feeders
    && forall t :: t in cfg.feeders ==> 0 <= t < cfg.threads
  }

  predicate MayTake(cfg: Config, t: int, l: ListId) {
    if l == EmptyList then t in cfg.feeders else t == cfg.consumer
  }

  datatype Action =
    | BeginTake(l: ListId)          // call a get
    | BeginPut(l: ListId, e: int)   // call a put; a put on `empty` first stores len = 0
    | SetLen(e: int, n: nat)        // the holder of an entry records how much data it has
    | Advance                       // the next access of the operation under way

  // What a step lets the caller see.  `edge` is the boolean the operation returns.
  datatype Event =
    | Silent
    | Took(l: ListId, e: int, edge: bool)
    | Put(l: ListId, e: int, edge: bool)
    | Nothing(l: ListId)            // Q_FULL, or null from `full`
    | Missed(l: ListId)             // a failed CAS

  function Head(s: State, l: ListId): int {
    if l == EmptyList then s.empty else s.full
  }

  function WithHead(s: State, l: ListId, p: int): State {
    if l == EmptyList then s.(empty := p) else s.(full := p)
  }

  function WithPc(s: State, t: nat, pc: Pc): State
    requires t < |s.threads|
  {
    s.(threads := s.threads[t := s.threads[t].(pc := pc)])
  }

  function WithThread(s: State, t: nat, pc: Pc, held: set<int>): State
    requires t < |s.threads|
  {
    s.(threads := s.threads[t := Thread(pc, held)])
  }

  /** One step of thread t; None when the step is not enabled. */
  function Step(cfg: Config, s: State, t: int, act: Action): Option<(State, Event)> {
    if !(0 <= t < |s.threads|) then None else
    var th := s.threads[t];
    match act
    case BeginTake(l) =>
      if th.pc.Idle? && MayTake(cfg, t, l) then Some((WithPc(s, t, TakeTry(l)), Silent)) else None
    case BeginPut(l, e) =>
      if th.pc.Idle? && e in th.held && 0 <= e < |s.len| then
        var s1 := if l == EmptyList then s.(len := s.len[e := 0]) else s;
        Some((WithThread(s1, t, PutTry(l, e), th.held - {e}), Silent))
      else None
    case SetLen(e, n) =>
      if th.pc.Idle? && e in th.held && 0 <= e < |s.len| then Some((s.(len := s.len[e := n]), Silent)) else None
    case Advance =>
      match th.pc
      case Idle => None
      case TakeTry(l) =>
        if Head(s, l) == NIL then Some((WithPc(s, t, Idle), Nothing(l)))
        else Some((WithPc(s, t, TakeLoaded(l, Head(s, l))), Silent))
      case TakeLoaded(l, h) =>
        if 0 <= h < |s.next| then Some((WithPc(s, t, TakeReady(l, h, s.next[h])), Silent)) else None
      case TakeReady(l, h, nx) =>
        if Head(s, l) == h then Some((WithPc(WithHead(s, l, nx), t, TakeUnlink(l, h, nx)), Took(l, h, nx == NIL)))
        else Some((WithPc(s, t, TakeTry(l)), Missed(l)))
      case TakeUnlink(l, h, nx) =>
        if 0 <= h < |s.next| then
          Some((WithThread(s.(next := s.next[h := NIL]), t, Idle, th.held + {h}), Silent))
        else None
      case PutTry(l, e) =>
        Some((WithPc(s, t, PutLoaded(l, e, Head(s, l))), Silent))
      case PutLoaded(l, e, h) =>
        if 0 <= e < |s.next| then Some((WithPc(s.(next := s.next[e := h]), t, PutReady(l, e, h)), Silent)) else None
      case PutReady(l, e, h) =>
        if Head(s, l) == h then Some((WithPc(WithHead(s, l, e), t, Idle), Put(l, e, h == NIL)))
        else Some((WithPc(s, t, PutTry(l, e)), Missed(l)))
  }

  type Schedule = seq<(int, Action)>
  type Trace = seq<(int, Event)>

  /** A whole run: the final state and what was observed, in order. */
  function Run(cfg: Config, s: State, sched: Schedule): Option<(State, Trace)>
    decreases |sched|
  {
    if sched == [] then Some((s, [])) else
    match Step(cfg, s, sched[0].0, sched[0].1)
    case None => None
    case Some((s1, ev)) =>
      match Run(cfg, s1, sched[1..])
      case None => None
      case Some((s2, tr)) => Some((s2, [(sched[0].0, ev)] + tr))
  }

  /** The state queue_init leaves, with every thread idle and empty-handed. */
  function Init(cfg: Config): State {
    State(if cfg.qlen == 0 then NIL else 0, NIL,
          seq(cfg.qlen, i => if i + 1 < cfg.qlen then i + 1 else NIL),
          seq(cfg.qlen, i => 0),
          seq(cfg.threads, i => Thread(Idle, {})))
  }

  // ---------------------------------------------------------------------------------------
  // The specification: two stacks and a map that says where every entry is.

  datatype Place = On(l: ListId) | With(t: int)

  datatype Abs = Abs(empties: seq<int>, fulls: seq<int>, owner: seq<Place>)

  function Stack(a: Abs, l: ListId): seq<int> {
    if l == EmptyList then a.empties else a.fulls
  }

  function WithStack(a: Abs, l: ListId, st: seq<int>): Abs {
    if l == EmptyList then a.(empties := st) else a.(fulls := st)
  }

  /** The abstract effect of an event; None when two stacks could not show this event. */
  function SpecStep(a: Abs, t: int, ev: Event): Option<Abs> {
    match ev
    case Silent => Some(a)
    case Missed(l) => Some(a)
    case Nothing(l) => if Stack(a, l) == [] then Some(a) else None
    case Took(l, e, edge) =>
      var st := Stack(a, l);
      if st != [] && st[0] == e && 0 <= e < |a.owner| && edge == (|st| == 1) then
        Some(WithStack(a, l, st[1..]).(owner := a.owner[e := With(t)]))
      else None
    case Put(l, e, edge) =>
      var st := Stack(a, l);
      if 0 <= e < |a.owner| && a.owner[e] == With(t) && edge == (st == []) then
        Some(WithStack(a, l, [e] + st).(owner := a.owner[e := On(l)]))
      else None
  }

  function SpecRun(a: Abs, tr: Trace): Option<Abs>
    decreases |tr|
  {
    if tr == [] then Some(a) else
    match SpecStep(a, tr[0].0, tr[0].1)
    case None => None
    case Some(a1) => SpecRun(a1, tr[1..])
  }

  function InitAbs(cfg: Config): Abs {
    Abs(seq(cfg.qlen, i => i), [], seq(cfg.qlen, i => On(EmptyList)))
  }
}
