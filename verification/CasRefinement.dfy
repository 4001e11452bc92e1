// Under one taker per list, every step of the compare-and-swap machine is a step of two stacks.
module CasRefinement {
  import opened Common
  import opened CasQueue

  // The simulation relation.

  // The entry a thread works on inside an operation.
  function InHand(pc: Pc): set<int> {
    match pc
    case TakeUnlink(_, h, _) => {h}
    case PutTry(_, e) => {e}
    case PutLoaded(_, e, _) => {e}
    case PutReady(_, e, _) => {e}
    case _ => {}
  }

  function Owns(th: Thread): set<int> { th.held + InHand(th.pc) }

  // What the next field of the i-th entry of a stack holds.
  function After(st: seq<int>, i: int): int
    requires 0 <= i < |st|
  {
    if i + 1 < |st| then st[i + 1] else NIL
  }

  /** From `head`, the `next` fields visit exactly st and end in NIL. */
  ghost predicate Linked(next: seq<int>, head: int, st: seq<int>) {
    && head == (if st == [] then NIL else st[0])
    && (forall i :: 0 <= i < |st| ==> 0 <= st[i] < |next|)
    && (forall i {:trigger After(st, i)} {:trigger next[st[i]]} :: 0 <= i < |st| ==> next[st[i]] == After(st, i))
  }

  ghost predicate ListOk(s: State, a: Abs, l: ListId) {
    && Linked(s.next, Head(s, l), Stack(a, l))
    && Distinct(Stack(a, l))
    && (forall e :: 0 <= e < |a.owner| ==> (a.owner[e] == On(l) <==> e in Stack(a, l)))
  }

  ghost predicate HeldOk(s: State, a: Abs) {
    && (forall t, e :: 0 <= t < |s.threads| ==>
          (e in Owns(s.threads[t]) <==> 0 <= e < |a.owner| && a.owner[e] == With(t)))
    && (forall t :: 0 <= t < |s.threads| ==> InHand(s.threads[t].pc) !! s.threads[t].held)
  }

  ghost predicate IsPtr(cfg: Config, p: int) { p == NIL || 0 <= p < cfg.qlen }

  // What a thread may rely on at each point of an operation.
  ghost predicate PcOk(cfg: Config, s: State, a: Abs, t: int, pc: Pc) {
    match pc
    case Idle => true
    case TakeTry(l) => MayTake(cfg, t, l)
    case TakeLoaded(l, h) =>
      MayTake(cfg, t, l) && 0 <= h < cfg.qlen && (cfg.qlen > 1 ==> h in Stack(a, l))
    case TakeReady(l, h, nx) =>
      && MayTake(cfg, t, l) && 0 <= h < cfg.qlen && h < |s.next| && nx == s.next[h]
      && (cfg.qlen > 1 ==> h in Stack(a, l))
    case TakeUnlink(l, h, nx) => MayTake(cfg, t, l)
    case PutTry(l, e) => l == EmptyList ==> 0 <= e < |s.len| && s.len[e] == 0
    case PutLoaded(l, e, h) =>
      && (l == EmptyList ==> 0 <= e < |s.len| && s.len[e] == 0)
      && IsPtr(cfg, h) && (cfg.qlen == 1 ==> h == NIL)
    case PutReady(l, e, h) =>
      && (l == EmptyList ==> 0 <= e < |s.len| && s.len[e] == 0)
      && IsPtr(cfg, h) && 0 <= e < |s.next| && s.next[e] == h
  }

  ghost predicate PcsOk(cfg: Config, s: State, a: Abs) {
    forall t :: 0 <= t < |s.threads| ==> PcOk(cfg, s, a, t, s.threads[t].pc)
  }

  ghost predicate Sizes(cfg: Config, s: State, a: Abs) {
    && |s.threads| == cfg.threads
    && |s.next| == |s.len| == |a.owner| == cfg.qlen
    && (cfg.qlen == 1 ==> s.next[0] == NIL)
  }

  // An entry on the free list carries no data.
  ghost predicate EmptiesClean(s: State, a: Abs) {
    forall e :: 0 <= e < |s.len| && e in a.empties ==> s.len[e] == 0
  }

  ghost predicate Refines(cfg: Config, s: State, a: Abs) {
    && Sizes(cfg, s, a)
    && ListOk(s, a, EmptyList) && ListOk(s, a, FullList)
    && HeldOk(s, a)
    && PcsOk(cfg, s, a)
    && EmptiesClean(s, a)
  }

  // The premise under which the operations are sound: one feeder, or a single entry.
  ghost predicate OneTaker(cfg: Config) {
    cfg.qlen == 1 || forall t, u :: t in cfg.feeders && u in cfg.feeders ==> t == u
  }

  // ---------------------------------------------------------------------------------------
  // Every step refines the two stacks.

  lemma TakerIsAlone(cfg: Config, t: int, u: int, l: ListId)
    requires OneTaker(cfg) && cfg.qlen > 1 && MayTake(cfg, t, l) && MayTake(cfg, u, l)
    ensures t == u
  {
  }

  lemma LinkedPop(next: seq<int>, st: seq<int>)
    requires st != [] && Linked(next, st[0], st) && Distinct(st)
    ensures Linked(next, next[st[0]], st[1..]) && Distinct(st[1..])
    ensures next[st[0]] == After(st, 0)
    ensures forall e :: e in st[1..] <==> e in st && e != st[0]
  {
    var rest := st[1..];
    forall i | 0 <= i < |rest|
      ensures 0 <= rest[i] < |next| && next[rest[i]] == After(rest, i)
    {
      assert rest[i] == st[i + 1] && After(rest, i) == After(st, i + 1);
    }
    forall e | e in st && e != st[0]
      ensures e in rest
    {
      var i :| 0 <= i < |st| && st[i] == e;
      assert rest[i - 1] == e;
    }
  }

  lemma LinkedPush(next: seq<int>, head: int, st: seq<int>, e: int)
    requires Linked(next, head, st) && Distinct(st) && e !in st && 0 <= e < |next| && next[e] == head
    ensures Linked(next, e, [e] + st) && Distinct([e] + st)
  {
    var st' := [e] + st;
    forall i | 0 <= i < |st'|
      ensures 0 <= st'[i] < |next| && next[st'[i]] == After(st', i)
    {
      if i > 0 {
        assert st'[i] == st[i - 1] && After(st', i) == After(st, i - 1);
      }
    }
  }

  lemma LinkedFrame(next: seq<int>, head: int, st: seq<int>, e: int, p: int)
    requires Linked(next, head, st) && e !in st && 0 <= e < |next|
    ensures Linked(next[e := p], head, st)
  {
    forall i | 0 <= i < |st|
      ensures next[e := p][st[i]] == After(st, i)
    {
      assert st[i] in st;
    }
  }

  // What it means for thread t to own e.
  lemma OwnerOf(s: State, a: Abs, t: int, e: int)
    requires HeldOk(s, a) && 0 <= t < |s.threads|
    ensures e in s.threads[t].held || e in InHand(s.threads[t].pc) <==> 0 <= e < |a.owner| && a.owner[e] == With(t)
  {
    assert e in Owns(s.threads[t]) <==> 0 <= e < |a.owner| && a.owner[e] == With(t);
  }

  // A thread that keeps what it owns.
  lemma OwnerStays(s: State, a: Abs, s': State, t: int)
    requires HeldOk(s, a) && 0 <= t < |s.threads| == |s'.threads|
    requires s'.threads == s.threads[t := s'.threads[t]]
    requires Owns(s'.threads[t]) == Owns(s.threads[t]) && InHand(s'.threads[t].pc) !! s'.threads[t].held
    ensures HeldOk(s', a)
  {
    forall u, d | 0 <= u < |s'.threads|
      ensures d in Owns(s'.threads[u]) <==> 0 <= d < |a.owner| && a.owner[d] == With(u)
    {
      OwnerOf(s, a, u, d);
    }
  }

  // Handing one entry to or from a thread.
  lemma OwnerMoves(s: State, a: Abs, s': State, a': Abs, t: int, e: int)
    requires HeldOk(s, a) && 0 <= t < |s.threads| == |s'.threads| && 0 <= e < |a.owner|
    requires s'.threads == s.threads[t := s'.threads[t]] && |a'.owner| == |a.owner|
    requires a'.owner == a.owner[e := a'.owner[e]]
    requires a.owner[e] == With(t) || a.owner[e].On?
    requires a'.owner[e] == With(t) || a'.owner[e].On?
    requires Owns(s'.threads[t]) ==
               if a'.owner[e] == With(t) then Owns(s.threads[t]) + {e} else Owns(s.threads[t]) - {e}
    requires InHand(s'.threads[t].pc) !! s'.threads[t].held
    ensures HeldOk(s', a')
  {
    forall u, d | 0 <= u < |s'.threads|
      ensures d in Owns(s'.threads[u]) <==> 0 <= d < |a'.owner| && a'.owner[d] == With(u)
    {
      OwnerOf(s, a, u, d);
    }
  }

  // The head is not null, so the stack is not empty and starts where the head points.
  lemma TakeSucceeds(cfg: Config, s: State, a: Abs, t: int, l: ListId, h: int, nx: int)
    requires WellFormed(cfg) && Refines(cfg, s, a) && 0 <= t < |s.threads|
    requires s.threads[t].pc == TakeReady(l, h, nx) && Head(s, l) == h
    ensures Stack(a, l) != [] && Stack(a, l)[0] == h
    ensures nx == (if |Stack(a, l)| == 1 then NIL else Stack(a, l)[1])
  {
    assert PcOk(cfg, s, a, t, s.threads[t].pc);
    var st := Stack(a, l);
    assert ListOk(s, a, l);
    assert st != [] && st[0] == h;
    assert s.next[st[0]] == After(st, 0);
  }

  // What a successful take does to the two lists.
  lemma TakeLists(cfg: Config, s: State, a: Abs, t: int, l: ListId, h: int, nx: int)
    requires WellFormed(cfg) && Refines(cfg, s, a) && 0 <= t < |s.threads|
    requires s.threads[t].pc == TakeReady(l, h, nx) && Head(s, l) == h
    ensures SpecStep(a, t, Took(l, h, nx == NIL)).Some?
    ensures var s' := WithPc(WithHead(s, l, nx), t, TakeUnlink(l, h, nx));
            var a' := SpecStep(a, t, Took(l, h, nx == NIL)).value;
            ListOk(s', a', EmptyList) && ListOk(s', a', FullList)
    ensures 0 <= h < |a.owner| && a.owner[h] == On(l)
  {
    assert PcOk(cfg, s, a, t, s.threads[t].pc);
    TakeSucceeds(cfg, s, a, t, l, h, nx);
    var st := Stack(a, l);
    var s' := WithPc(WithHead(s, l, nx), t, TakeUnlink(l, h, nx));
    if |st| > 1 {
      assert st[1] in st;
    }
    var a' := SpecStep(a, t, Took(l, h, nx == NIL)).value;
    assert Stack(a', l) == st[1..];
    forall k | k == EmptyList || k == FullList
      ensures ListOk(s', a', k)
    {
      assert ListOk(s, a, k);
      if k == l {
        LinkedPop(s.next, st);
      }
    }
  }

  lemma TakeStep(cfg: Config, s: State, a: Abs, t: int, l: ListId, h: int, nx: int)
    requires WellFormed(cfg) && OneTaker(cfg) && Refines(cfg, s, a) && 0 <= t < |s.threads|
    requires s.threads[t].pc == TakeReady(l, h, nx) && Head(s, l) == h
    ensures SpecStep(a, t, Took(l, h, nx == NIL)).Some?
    ensures Refines(cfg, WithPc(WithHead(s, l, nx), t, TakeUnlink(l, h, nx)),
              SpecStep(a, t, Took(l, h, nx == NIL)).value)
  {
    hide ListOk, Linked, Distinct;
    assert PcOk(cfg, s, a, t, s.threads[t].pc);
    TakeLists(cfg, s, a, t, l, h, nx);
    var s' := WithPc(WithHead(s, l, nx), t, TakeUnlink(l, h, nx));
    var a' := SpecStep(a, t, Took(l, h, nx == NIL)).value;
    OwnerOf(s, a, t, h);
    OwnerMoves(s, a, s', a', t, h);
    forall u | 0 <= u < |s'.threads|
      ensures PcOk(cfg, s', a', u, s'.threads[u].pc)
    {
      assert PcOk(cfg, s, a, u, s.threads[u].pc);
      if u != t {
        var pc := s.threads[u].pc;
        if (pc.TakeLoaded? || pc.TakeReady?) && pc.l == l && cfg.qlen > 1 {
          TakerIsAlone(cfg, t, u, l);
        }
      }
    }
  }

  // A successful put is the abstract push on list l, and the other list is not touched.
  lemma PutLists(cfg: Config, s: State, a: Abs, t: int, l: ListId, e: int, h: int)
    requires WellFormed(cfg) && Refines(cfg, s, a) && 0 <= t < |s.threads|
    requires s.threads[t].pc == PutReady(l, e, h) && Head(s, l) == h
    ensures 0 <= e < |a.owner| && a.owner[e] == With(t) && e !in Stack(a, l)
    ensures (h == NIL) == (Stack(a, l) == [])
    ensures Linked(s.next, e, [e] + Stack(a, l)) && Distinct([e] + Stack(a, l))
  {
    assert PcOk(cfg, s, a, t, s.threads[t].pc);
    OwnerOf(s, a, t, e);
    assert ListOk(s, a, l);
    LinkedPush(s.next, h, Stack(a, l), e);
  }

  lemma PutStep(cfg: Config, s: State, a: Abs, t: int, l: ListId, e: int, h: int)
    requires WellFormed(cfg) && Refines(cfg, s, a) && 0 <= t < |s.threads|
    requires s.threads[t].pc == PutReady(l, e, h) && Head(s, l) == h
    ensures SpecStep(a, t, Put(l, e, h == NIL)).Some?
    ensures Refines(cfg, WithPc(WithHead(s, l, e), t, Idle), SpecStep(a, t, Put(l, e, h == NIL)).value)
  {
    hide Linked, Distinct;
    PutLists(cfg, s, a, t, l, e, h);
    var s' := WithPc(WithHead(s, l, e), t, Idle);
    var a' := SpecStep(a, t, Put(l, e, h == NIL)).value;
    forall k | k == EmptyList || k == FullList
      ensures ListOk(s', a', k)
    {
      assert ListOk(s, a, k);
    }
    hide ListOk;
    OwnerMoves(s, a, s', a', t, e);
    forall u | 0 <= u < |s'.threads|
      ensures PcOk(cfg, s', a', u, s'.threads[u].pc)
    {
      assert PcOk(cfg, s, a, u, s.threads[u].pc);
      assert forall d :: d in Stack(a, l) ==> d in Stack(a', l);
    }
    assert PcOk(cfg, s, a, t, s.threads[t].pc);
  }

  // A store to `next` of an entry its holder is still working on is invisible to both lists.
  lemma StoreStep(cfg: Config, s: State, a: Abs, t: int, e: int, p: int, th: Thread)
    requires WellFormed(cfg) && OneTaker(cfg) && Refines(cfg, s, a) && 0 <= t < |s.threads|
    requires e in InHand(s.threads[t].pc) && 0 <= e < |s.next| && (cfg.qlen == 1 ==> p == NIL)
    requires Owns(th) == Owns(s.threads[t]) && InHand(th.pc) !! th.held
    requires PcOk(cfg, s.(next := s.next[e := p]), a, t, th.pc)
    ensures Refines(cfg, s.(next := s.next[e := p], threads := s.threads[t := th]), a)
  {
    OwnerOf(s, a, t, e);
    var s' := s.(next := s.next[e := p], threads := s.threads[t := th]);
    forall k | k == EmptyList || k == FullList
      ensures ListOk(s', a, k)
    {
      assert ListOk(s, a, k);
      LinkedFrame(s.next, Head(s, k), Stack(a, k), e, p);
    }
    OwnerStays(s, a, s', t);
    forall u | 0 <= u < |s'.threads|
      ensures PcOk(cfg, s', a, u, s'.threads[u].pc)
    {
      assert PcOk(cfg, s, a, u, s.threads[u].pc);
      if u != t {
        OwnerOf(s, a, u, e);
      }
    }
  }

  // A step that moves one thread and touches no shared memory.
  lemma LocalStep(cfg: Config, s: State, a: Abs, t: int, th: Thread)
    requires Refines(cfg, s, a) && 0 <= t < |s.threads|
    requires Owns(th) == Owns(s.threads[t]) && InHand(th.pc) !! th.held
    requires PcOk(cfg, s, a, t, th.pc)
    ensures Refines(cfg, s.(threads := s.threads[t := th]), a)
  {
    var s' := s.(threads := s.threads[t := th]);
    forall k | k == EmptyList || k == FullList
      ensures ListOk(s', a, k)
    {
      assert ListOk(s, a, k);
    }
    OwnerStays(s, a, s', t);
    forall u | 0 <= u < |s'.threads|
      ensures PcOk(cfg, s', a, u, s'.threads[u].pc)
    {
      assert PcOk(cfg, s, a, u, s.threads[u].pc);
    }
  }

  // The holder of an entry may overwrite its len.
  lemma LenStep(cfg: Config, s: State, a: Abs, t: int, e: int, n: nat)
    requires Refines(cfg, s, a) && 0 <= t < |s.threads|
    requires s.threads[t].pc.Idle? && e in s.threads[t].held
    ensures 0 <= e < |s.len| && Refines(cfg, s.(len := s.len[e := n]), a)
  {
    OwnerOf(s, a, t, e);
    var s' := s.(len := s.len[e := n]);
    forall k | k == EmptyList || k == FullList
      ensures ListOk(s', a, k)
    {
      assert ListOk(s, a, k);
      assert e !in Stack(a, k);
    }
    OwnerStays(s, a, s', t);
    forall u | 0 <= u < |s'.threads|
      ensures PcOk(cfg, s', a, u, s'.threads[u].pc)
    {
      assert PcOk(cfg, s, a, u, s.threads[u].pc);
      if u != t {
        OwnerOf(s, a, u, e);
      }
    }
  }

  // With one entry, the thread that works on it finds both lists empty.
  lemma SingleEntryOut(cfg: Config, s: State, a: Abs, t: int, l: ListId, e: int)
    requires Refines(cfg, s, a) && cfg.qlen == 1 && 0 <= t < |s.threads| && e in InHand(s.threads[t].pc)
    ensures Head(s, l) == NIL
  {
    OwnerOf(s, a, t, e);
    assert ListOk(s, a, l);
    var st := Stack(a, l);
    assert e !in st;
    assert forall i :: 0 <= i < |st| ==> st[i] == e && st[i] in st;
  }

  lemma LoadStep(cfg: Config, s: State, a: Abs, t: int)
    requires WellFormed(cfg) && OneTaker(cfg) && Refines(cfg, s, a) && 0 <= t < |s.threads|
    requires s.threads[t].pc.TakeTry? || s.threads[t].pc.TakeLoaded? || s.threads[t].pc.PutTry?
    requires Step(cfg, s, t, Advance).Some?
    ensures SpecStep(a, t, Step(cfg, s, t, Advance).value.1) == Some(a)
    ensures Refines(cfg, Step(cfg, s, t, Advance).value.0, a)
  {
    var pc := s.threads[t].pc;
    assert PcOk(cfg, s, a, t, pc);
    assert ListOk(s, a, pc.l);
    var s' := Step(cfg, s, t, Advance).value.0;
    if pc.PutTry? {
      OwnerOf(s, a, t, pc.e);
      if cfg.qlen == 1 {
        SingleEntryOut(cfg, s, a, t, pc.l, pc.e);
      }
    }
    LocalStep(cfg, s, a, t, s'.threads[t]);
    assert s' == s.(threads := s.threads[t := s'.threads[t]]);
  }

  lemma BeginStep(cfg: Config, s: State, a: Abs, t: int, act: Action)
    requires WellFormed(cfg) && OneTaker(cfg) && Refines(cfg, s, a) && 0 <= t < |s.threads|
    requires !act.Advance? && Step(cfg, s, t, act).Some?
    ensures SpecStep(a, t, Step(cfg, s, t, act).value.1) == Some(a)
    ensures Refines(cfg, Step(cfg, s, t, act).value.0, a)
  {
    var s' := Step(cfg, s, t, act).value.0;
    match act
    case BeginTake(l) =>
      LocalStep(cfg, s, a, t, s'.threads[t]);
    case SetLen(e, n) =>
      LenStep(cfg, s, a, t, e, n);
    case BeginPut(l, e) =>
      var s1 := s;
      if l == EmptyList {
        LenStep(cfg, s, a, t, e, 0);
        s1 := s.(len := s.len[e := 0]);
      }
      assert Owns(s'.threads[t]) == Owns(s1.threads[t]);
      LocalStep(cfg, s1, a, t, s'.threads[t]);
  }

  /** One step of any thread keeps the relation and is a step of the two stacks. */
  lemma StepRefines(cfg: Config, s: State, a: Abs, t: int, act: Action)
    requires WellFormed(cfg) && OneTaker(cfg) && Refines(cfg, s, a)
    requires Step(cfg, s, t, act).Some?
    ensures SpecStep(a, t, Step(cfg, s, t, act).value.1).Some?
    ensures Refines(cfg, Step(cfg, s, t, act).value.0, SpecStep(a, t, Step(cfg, s, t, act).value.1).value)
  {
    hide ListOk, EmptiesClean, OneTaker, WellFormed;
    if !act.Advance? {
      BeginStep(cfg, s, a, t, act);
    } else {
      var (s', ev) := Step(cfg, s, t, Advance).value;
      var pc := s.threads[t].pc;
      assert PcOk(cfg, s, a, t, pc);
      match pc
      case TakeReady(l, h, nx) =>
        if Head(s, l) == h {
          TakeStep(cfg, s, a, t, l, h, nx);
        } else {
          LocalStep(cfg, s, a, t, s'.threads[t]);
        }
      case PutReady(l, e, h) =>
        if Head(s, l) == h {
          PutStep(cfg, s, a, t, l, e, h);
        } else {
          LocalStep(cfg, s, a, t, s'.threads[t]);
        }
      case TakeUnlink(l, h, nx) =>
        OwnerOf(s, a, t, h);
        StoreStep(cfg, s, a, t, h, NIL, s'.threads[t]);
      case PutLoaded(l, e, h) =>
        OwnerOf(s, a, t, e);
        StoreStep(cfg, s, a, t, e, h, s'.threads[t]);
      case _ =>
        LoadStep(cfg, s, a, t);
    }
  }
}
