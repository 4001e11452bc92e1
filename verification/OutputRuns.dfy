// Workers and their output with the bytes of the output's entries: what every entry holds, and what is on the
// wire, at every moment of every run (worker.c, output.h, output.c).
module OutputRuns {
  import opened Common
  import opened Bytes
  import opened Framing
  import opened Net
  import opened Channel
  import opened ChannelRuns
  import opened Pipeline
  import opened OutputBytes
  import O = Output

  datatype Wired = Wired(p: Pipe<Message, Frame>, m: Mem)

  datatype Act =
    | List(mv: Move<Message, Frame>)
    | Stores(d: Deed)

  // ---------------------------------------------------------------------------------------
  // Steps.

  function SeenBy(p: Pipe<Message, Frame>): Seen {
    Seen(seq(|p.ins|, w requires 0 <= w < |p.ins| => p.ins[w].consumer),
         seq(|p.ins|, w requires 0 <= w < |p.ins| => p.ins[w].served), p.out.producers, p.out.consumer, p.fell)
  }

  // What a move of the channels asks of the bytes, or does to them.
  function DeedOf(mv: Move<Message, Frame>): Deed {
    match mv
    case Call(w) => Compute(w)
    case Deliver(w) => Hand(w)
    case SignalOut(w) => Rest(w)
    case Output(Serve) => Send
    case Output(Recycle) => GoHome
    case _ => Touch
  }

  // What happens between list operations.
  predicate Between(d: Deed) { d.PutHeader? || d.PutLength? || d.Clear? || d.Scribble? }

  function Step1(ws: seq<Setup>, space: nat, s: Wired, act: Act): Option<Wired> {
    match act
    case List(mv) =>
      (match Move1(Work(ws, space), s.p, mv)
       case None => None
       case Some(p) =>
         match Do(ws, space, SeenBy(s.p), s.m, DeedOf(mv))
         case None => None
         case Some(m) => Some(Wired(p, m)))
    case Stores(d) =>
      if Between(d) then
        match Do(ws, space, SeenBy(s.p), s.m, d)
        case None => None
        case Some(m) => Some(s.(m := m))
      else None
  }

  function Steps(ws: seq<Setup>, space: nat, s: Wired, acts: seq<Act>): Option<Wired>
    decreases |acts|
  {
    if acts == [] then Some(s)
    else
      match Step1(ws, space, s, acts[0])
      case None => None
      case Some(s1) => Steps(ws, space, s1, acts[1..])
  }

  // The queues of each worker, its connections, and the entries of the output.
  datatype Sizes = Sizes(qlens: seq<seq<nat>>, ps: seq<nat>, outlen: nat)

  ghost predicate SizesOk(ws: seq<Setup>, z: Sizes) {
    |ws| == |z.qlens| == |z.ps| && forall w :: 0 <= w < |z.qlens| ==> z.qlens[w] != []
  }

  /** The start, with whatever the memory holds. */
  ghost predicate Starts(ws: seq<Setup>, space: nat, z: Sizes, s: Wired) {
    SizesOk(ws, z) && s.p == Start(z.qlens, z.ps, z.outlen) && Started(ws, space, z.outlen, s.m)
  }

  // ---------------------------------------------------------------------------------------
  // The invariant.

  // The ids and the result are in entry e, or not yet.
  ghost predicate Filled(ws: seq<Setup>, space: nat, s: Wired, w: int, e: int)
    requires 0 <= w < |ws| == |s.p.ins| == |s.m.stage|
  {
    && 0 <= e < |s.m.data| == |s.m.lens|
    && match s.m.stage[w]
       case Bare => s.m.lens[e] == 0
       case Headed =>
         && s.m.lens[e] == HDRLEN <= |s.m.data[e]| && IsInt16(ws[w].owid) && IsInt16(ws[w].oqid)
         && s.m.data[e][..4] == EncodeHeader(Header(ws[w].owid, ws[w].oqid, 0))[..4]
         && (s.p.ins[w].consumer.Ran? && s.p.ins[w].served != [] ==>
               var r := ResultOf(ws, space, w, Last(s.p.ins[w].served));
               HDRLEN + |r| <= |s.m.data[e]| && s.m.data[e][HDRLEN..HDRLEN + |r|] == r)
       case Complete =>
         s.p.ins[w].served != [] && CarriesFrame(s.m, e, Work(ws, space)(w, Last(s.p.ins[w].served)))
  }

  ghost predicate Filling(ws: seq<Setup>, space: nat, s: Wired, w: int) {
    0 <= w < |s.p.out.producers| ==>
      && w < |ws| == |s.p.ins| == |s.m.stage|
      && (s.p.out.producers[w].Ready? ==> s.m.stage[w] == Bare)
      && (s.p.out.producers[w].Reserved? ==> Filled(ws, space, s, w, s.p.out.producers[w].e))
  }

  ghost predicate Sized(ws: seq<Setup>, space: nat, s: Wired) {
    && |s.m.data| == |s.m.lens| && (forall e :: 0 <= e < |s.m.data| ==> |s.m.data[e]| == HDRLEN + space)
    && |ws| == |s.p.ins| == |s.p.out.producers| == |s.m.stage| == |s.m.left| && |s.p.out.qs| == |s.p.out.lost| == 1
    && (forall w :: 0 <= w < |ws| ==> IsInt16(ws[w].owid) && IsInt16(ws[w].oqid))
  }

  // Every entry of the output is in exactly one place.
  ghost predicate Owned(s: Wired)
    requires |s.p.out.qs| == |s.p.out.lost| == 1
  {
    forall e :: Places(s.p.out, 0, e) == At(0 <= e < |s.m.data|)
  }

  ghost predicate Listed(s: Wired)
    requires |s.p.out.qs| == 1
  {
    && (forall i :: 0 <= i < |s.p.out.qs[0].full| ==>
          CarriesFrame(s.m, s.p.out.qs[0].full[i].entry, s.p.out.qs[0].full[i].msg))
    && (s.p.out.consumer.Holding? ==> CarriesFrame(s.m, s.p.out.consumer.e, s.p.out.consumer.msg))
  }

  // An entry on the free list has length 0, and so has a sent one once its length is cleared.
  ghost predicate Clean(s: Wired)
    requires |s.p.out.qs| == 1
  {
    && (forall e :: e in s.p.out.qs[0].empty && 0 <= e < |s.m.lens| ==> s.m.lens[e] == 0)
    && (s.p.out.consumer.Ran? && s.m.cleared && 0 <= s.p.out.consumer.e < |s.m.lens| ==>
          s.m.lens[s.p.out.consumer.e] == 0)
  }

  /** The wire is what the sends let through of the frames sent so far. */
  ghost predicate OnWire(s: Wired, script: seq<Send>) {
    && AllValid(s.p.out.served)
    && s.m.wire == O.Sent(script, O.Encoded(s.p.out.served))
    && s.m.script == O.Later(script, O.Encoded(s.p.out.served))
  }

  ghost predicate Inv(ws: seq<Setup>, space: nat, s: Wired, script: seq<Send>) {
    && Sized(ws, space, s) && Shape(s.p.out) && Owned(s) && Listed(s) && Clean(s)
    && (forall w :: Filling(ws, space, s, w)) && OnWire(s, script)
  }

  // ---------------------------------------------------------------------------------------
  // An entry is in one place, so a store to it is seen nowhere else.

  lemma {:induction false} TwoReserved(ps: seq<Producer>, q: int, e: int, v: int, w: int)
    requires 0 <= v < w < |ps| && ps[v] == Reserved(q, e) && ps[w] == Reserved(q, e)
    ensures ReservedCopies(ps, q, e) >= 2
  {
    if v > 0 {
      TwoReserved(ps[1..], q, e, v - 1, w - 1);
    } else {
      OneReserved(ps[1..], q, e, w - 1);
    }
  }

  lemma {:induction false} OneReserved(ps: seq<Producer>, q: int, e: int, w: int)
    requires 0 <= w < |ps| && ps[w] == Reserved(q, e)
    ensures ReservedCopies(ps, q, e) >= 1
  {
    if w > 0 {
      OneReserved(ps[1..], q, e, w - 1);
    }
  }

  lemma {:induction false} NotListed<M>(items: seq<Item<M>>, e: int)
    requires EntryCopies(items, e) == 0
    ensures forall i :: 0 <= i < |items| ==> items[i].entry != e
  {
    if items != [] {
      NotListed(items[1..], e);
      assert forall i :: 1 <= i < |items| ==> items[i] == items[1..][i - 1];
    }
  }

  // Entry e is not on the lists, nor with the consumer.
  ghost predicate OffLists(out: State<Frame>, e: int)
    requires |out.qs| == 1
  {
    && e !in out.qs[0].empty && (forall i :: 0 <= i < |out.qs[0].full| ==> out.qs[0].full[i].entry != e)
    && (out.consumer.Holding? || out.consumer.Ran? ==> out.consumer.e != e)
  }

  lemma ReservedIsAlone(out: State<Frame>, e: int, w: int)
    requires |out.qs| == |out.lost| == 1 && Shape(out) && Places(out, 0, e) <= 1
    requires 0 <= w < |out.producers| && out.producers[w].Reserved? && out.producers[w].e == e
    ensures OffLists(out, e)
    ensures forall v :: 0 <= v < |out.producers| && v != w && out.producers[v].Reserved? ==> out.producers[v].e != e
  {
    assert out.producers[w] == Reserved(0, e);
    OneReserved(out.producers, 0, e, w);
    NotListed(out.qs[0].full, e);
    forall v | 0 <= v < |out.producers| && v != w && out.producers[v].Reserved?
      ensures out.producers[v].e != e
    {
      if out.producers[v] == Reserved(0, e) {
        TwoReserved(out.producers, 0, e, if v < w then v else w, if v < w then w else v);
      }
    }
  }

  lemma ConsumerIsAlone(out: State<Frame>, e: int)
    requires |out.qs| == |out.lost| == 1 && Shape(out) && Places(out, 0, e) <= 1
    requires (out.consumer.Holding? || out.consumer.Ran?) && out.consumer.e == e
    ensures e !in out.qs[0].empty && (forall i :: 0 <= i < |out.qs[0].full| ==> out.qs[0].full[i].entry != e)
    ensures forall v :: 0 <= v < |out.producers| && out.producers[v].Reserved? ==> out.producers[v].e != e
  {
    NotListed(out.qs[0].full, e);
    forall v | 0 <= v < |out.producers| && out.producers[v].Reserved?
      ensures out.producers[v].e != e
    {
      if out.producers[v] == Reserved(0, e) {
        OneReserved(out.producers, 0, e, v);
      }
    }
  }

  // An entry that is somewhere exists.
  lemma Exists(s: Wired, e: int)
    requires |s.p.out.qs| == |s.p.out.lost| == 1 && Owned(s) && Places(s.p.out, 0, e) >= 1
    ensures 0 <= e < |s.m.data|
  {
  }

  // Only entry e differs.
  ghost predicate Elsewhere(m: Mem, m': Mem, e: int) {
    && |m'.data| == |m.data| && |m'.lens| == |m.lens| && |m'.stage| == |m.stage|
    && (forall d :: 0 <= d < |m.data| && d != e ==> m'.data[d] == m.data[d])
    && (forall d :: 0 <= d < |m.lens| && d != e ==> m'.lens[d] == m.lens[d])
  }

  lemma CarriesStays(m: Mem, m': Mem, e: int, d: int, f: Frame)
    requires Elsewhere(m, m', e) && d != e && CarriesFrame(m, d, f)
    ensures CarriesFrame(m', d, f)
  {
  }

  lemma FillingStays(ws: seq<Setup>, space: nat, s: Wired, s': Wired, e: int, w: int)
    requires Filling(ws, space, s, w) && Elsewhere(s.m, s'.m, e)
    requires |s'.p.out.producers| == |s.p.out.producers| && |s'.p.ins| == |s.p.ins|
    requires 0 <= w < |s.p.out.producers| ==>
               && s'.p.out.producers[w] == s.p.out.producers[w] && s'.m.stage[w] == s.m.stage[w]
               && (s.p.out.producers[w].Reserved? ==>
                     && (e >= 0 ==> s.p.out.producers[w].e != e) && s'.p.ins[w].served == s.p.ins[w].served
                     && (s'.p.ins[w].consumer.Ran? ==> s.p.ins[w].consumer.Ran?))
    ensures Filling(ws, space, s', w)
  {
    hide Work, EncodeHeader;
    if 0 <= w < |s.p.out.producers| && s.p.out.producers[w].Reserved? && s.m.stage[w].Complete? {
      CarriesStays(s.m, s'.m, e, s.p.out.producers[w].e, Work(ws, space)(w, Last(s.p.ins[w].served)));
    }
  }

  // ---------------------------------------------------------------------------------------
  // The channel part of a move.

  lemma OutOwned(s: Wired, act: Action<Frame>, out': State<Frame>)
    requires |s.p.out.qs| == |s.p.out.lost| == 1 && Owned(s) && Shape(s.p.out)
    requires Step(Origin, s.p.out, act).Some? && out' == Step(Origin, s.p.out, act).value.0
    ensures Shape(out') && |out'.qs| == |out'.lost| == 1 && |out'.producers| == |s.p.out.producers|
    ensures forall e :: Places(out', 0, e) == At(0 <= e < |s.m.data|)
  {
    hide Step, Places;
    StepShape(Origin, s.p.out, act);
    forall e
      ensures Places(out', 0, e) == At(0 <= e < |s.m.data|)
    {
      StepPlaces(Origin, s.p.out, act, 0, e);
    }
  }

  // Steps of one worker's channel that neither call its function nor follow the call of a worker with an entry.
  lemma InputKeeps(ws: seq<Setup>, space: nat, s: Wired, script: seq<Send>, w: int, act: Action<Message>)
    requires Inv(ws, space, s, script) && 0 <= w < |s.p.ins| && !act.Serve? && InStep(s.p, w, act).Some?
    requires act.Recycle? ==> Phase(s.p, w, true, false)
    ensures Inv(ws, space, s.(p := InStep(s.p, w, act).value), script)
  {
    hide Channel.Step, Listed, Owned, Clean, OnWire;
    InputFrame(s.p.ins[w], act);
    var s' := s.(p := InStep(s.p, w, act).value);
    SameOut(s, s', script);
    forall v
      ensures Filling(ws, space, s', v)
    {
      assert Filling(ws, space, s, v);
      FillingStays(ws, space, s, s', -1, v);
    }
  }

  lemma SameOut(s: Wired, s': Wired, script: seq<Send>)
    requires |s.p.out.qs| == |s.p.out.lost| == 1 && Owned(s) && Listed(s) && Clean(s) && OnWire(s, script)
    requires s'.p.out == s.p.out && s'.m == s.m
    ensures Owned(s') && Listed(s') && Clean(s') && OnWire(s', script)
  {
  }

  lemma FallKeeps(ws: seq<Setup>, space: nat, s: Wired, script: seq<Send>, w: int)
    requires Inv(ws, space, s, script)
    ensures Inv(ws, space, s.(p := s.p.(fell := s.p.fell + {w})), script)
  {
    hide Listed, Owned, Clean, OnWire;
    var s' := s.(p := s.p.(fell := s.p.fell + {w}));
    SameOut(s, s', script);
    forall v
      ensures Filling(ws, space, s', v)
    {
      assert Filling(ws, space, s, v);
      FillingStays(ws, space, s, s', -1, v);
    }
  }

  // The output's wait and its pop.
  lemma OutQuietKeeps(ws: seq<Setup>, space: nat, s: Wired, script: seq<Send>, act: Action<Frame>)
    requires Inv(ws, space, s, script) && (act.Wait? || act.Probe?) && OutStep(s.p, act).Some?
    ensures Inv(ws, space, s.(p := OutStep(s.p, act).value), script)
  {
    hide Places, CarriesFrame, OnWire, Filled;
    var s' := s.(p := OutStep(s.p, act).value);
    OutOwned(s, act, s'.p.out);
    forall v
      ensures Filling(ws, space, s', v)
    {
      assert Filling(ws, space, s, v);
      FillingStays(ws, space, s, s', -1, v);
    }
    WireSame(s, s', script);
  }

  lemma WireSame(s: Wired, s': Wired, script: seq<Send>)
    requires OnWire(s, script) && s'.p.out.served == s.p.out.served
    requires s'.m.wire == s.m.wire && s'.m.script == s.m.script
    ensures OnWire(s', script)
  {
  }

  lemma SignalKeeps(ws: seq<Setup>, space: nat, s: Wired, script: seq<Send>, w: int)
    requires Inv(ws, space, s, script) && OutStep(s.p, Signal(w)).Some?
    ensures Due(SeenBy(s.p), s.m, Rest(w))
    ensures Inv(ws, space, Wired(OutStep(s.p, Signal(w)).value, s.m.(stage := s.m.stage[w := Bare])), script)
  {
    hide Places, OnWire, Filled;
    var s' := Wired(OutStep(s.p, Signal(w)).value, s.m.(stage := s.m.stage[w := Bare]));
    OutOwned(s, Signal(w), s'.p.out);
    forall v
      ensures Filling(ws, space, s', v)
    {
      assert Filling(ws, space, s, v);
      if v != w {
        FillingStays(ws, space, s, s', -1, v);
      }
    }
    WireSame(s, s', script);
  }

  // What a push and a pop of the output's free list by worker w do.
  lemma ReserveIs(out: State<Frame>, w: int)
    requires |out.qs| == 1 && Step(Origin, out, Reserve(w, 0)).Some?
    ensures out.qs[0].empty != [] && 0 <= w < |out.producers| && out.producers[w].Ready?
    ensures Step(Origin, out, Reserve(w, 0)).value.0 ==
              out.(qs := [out.qs[0].(empty := out.qs[0].empty[1..])],
                   producers := out.producers[w := Reserved(0, out.qs[0].empty[0])])
  {
  }

  lemma PublishIs(out: State<Frame>, w: int, f: Frame)
    requires |out.qs| == 1 && Step(Origin, out, Publish(w, f)).Some?
    ensures 0 <= w < |out.producers| && out.producers[w].Reserved?
    ensures Step(Origin, out, Publish(w, f)).value.0 ==
              out.(qs := [out.qs[0].(full := [Item(out.producers[w].e, f)] + out.qs[0].full)],
                   producers := out.producers[w := Pushed], accepted := out.accepted + [f])
  {
  }

  lemma RecycleIs(out: State<Frame>)
    requires |out.qs| == 1 && Shape(out) && Step(Origin, out, Recycle).Some?
    ensures out.consumer.Ran?
    ensures Step(Origin, out, Recycle).value.0 ==
              out.(qs := [out.qs[0].(empty := [out.consumer.e] + out.qs[0].empty)], consumer := Waiting)
  {
  }

  lemma ReserveKeeps(ws: seq<Setup>, space: nat, s: Wired, script: seq<Send>, w: int)
    requires Inv(ws, space, s, script) && Phase(s.p, w, false, false) && OutStep(s.p, Reserve(w, 0)).Some?
    ensures Inv(ws, space, s.(p := OutStep(s.p, Reserve(w, 0)).value), script)
  {
    hide Channel.Step, Places, CarriesFrame, OnWire;
    var s' := s.(p := OutStep(s.p, Reserve(w, 0)).value);
    ReserveIs(s.p.out, w);
    OutOwned(s, Reserve(w, 0), s'.p.out);
    var e := s'.p.out.producers[w].e;
    SomewhereReserved(s'.p.out, e, w);
    Exists(s', e);
    assert e in s.p.out.qs[0].empty;
    forall v
      ensures Filling(ws, space, s', v)
    {
      assert Filling(ws, space, s, v);
      if v != w {
        FillingStays(ws, space, s, s', -1, v);
      }
    }
    WireSame(s, s', script);
  }

  lemma SomewhereReserved(out: State<Frame>, e: int, w: int)
    requires |out.qs| == |out.lost| == 1 && 0 <= w < |out.producers| && out.producers[w] == Reserved(0, e)
    ensures Places(out, 0, e) >= 1
  {
    OneReserved(out.producers, 0, e, w);
  }

  // Storing in entry e of worker w, which is on no list.
  lemma AfterStore(ws: seq<Setup>, space: nat, s: Wired, s': Wired, script: seq<Send>, w: int)
    requires Inv(ws, space, s, script) && 0 <= w < |s.p.out.producers| && s.p.out.producers[w].Reserved?
    requires Elsewhere(s.m, s'.m, s.p.out.producers[w].e) && s'.p.out == s.p.out
    requires |s'.p.ins| == |s.p.ins| && s'.m.stage == s.m.stage[w := s'.m.stage[w]] && Filling(ws, space, s', w)
    requires |s'.m.left| == |s.m.left|
    requires forall v :: 0 <= v < |s.p.ins| && v != w ==> s'.p.ins[v] == s.p.ins[v]
    requires s'.m.cleared == s.m.cleared && s'.m.wire == s.m.wire && s'.m.script == s.m.script
    requires forall e :: 0 <= e < |s.m.data| ==> |s'.m.data[e]| == |s.m.data[e]|
    ensures Inv(ws, space, s', script)
  {
    hide CarriesFrame, Places, OnWire, Filled;
    var e := s.p.out.producers[w].e;
    ReservedIsAlone(s.p.out, e, w);
    forall i | 0 <= i < |s'.p.out.qs[0].full|
      ensures CarriesFrame(s'.m, s'.p.out.qs[0].full[i].entry, s'.p.out.qs[0].full[i].msg)
    {
      CarriesStays(s.m, s'.m, e, s'.p.out.qs[0].full[i].entry, s'.p.out.qs[0].full[i].msg);
    }
    if s'.p.out.consumer.Holding? {
      CarriesStays(s.m, s'.m, e, s'.p.out.consumer.e, s'.p.out.consumer.msg);
    }
    forall v
      ensures Filling(ws, space, s', v)
    {
      assert Filling(ws, space, s, v);
      if v != w {
        FillingStays(ws, space, s, s', e, v);
      }
    }
    WireSame(s, s', script);
  }

  lemma HeaderIn(d: seq<Byte>, owid: int, oqid: int)
    requires IsInt16(owid) && IsInt16(oqid) && HDRLEN <= |d|
    ensures O.HeaderStored(d, owid, oqid)[..4] == EncodeHeader(Header(owid, oqid, 0))[..4]
  {
    hide EncodeHeader;
  }

  lemma HeaderKeeps(ws: seq<Setup>, space: nat, s: Wired, script: seq<Send>, w: int)
    requires Inv(ws, space, s, script) && Due(SeenBy(s.p), s.m, PutHeader(w))
    ensures Fits(ws, space, SeenBy(s.p), s.m, PutHeader(w))
    ensures Inv(ws, space, s.(m := Store(ws, space, SeenBy(s.p), s.m, PutHeader(w))), script)
  {
    hide Places, CarriesFrame, OnWire, O.HeaderStored, EncodeHeader, Listed, Owned, Clean;
    assert Filling(ws, space, s, w);
    var s' := s.(m := Store(ws, space, SeenBy(s.p), s.m, PutHeader(w)));
    HeaderIn(s.m.data[s.p.out.producers[w].e], ws[w].owid, ws[w].oqid);
    AfterStore(ws, space, s, s', script, w);
  }

  lemma BodyIn(d: seq<Byte>, r: seq<Byte>)
    requires HDRLEN + |r| <= |d|
    ensures O.BodyStored(d, r)[..4] == d[..4] && O.BodyStored(d, r)[HDRLEN..HDRLEN + |r|] == r
  {
  }

  lemma CallKeeps(ws: seq<Setup>, space: nat, s: Wired, script: seq<Send>, w: int)
    requires SetupOk(ws, space) && Inv(ws, space, s, script) && Due(SeenBy(s.p), s.m, Compute(w))
    requires InStep(s.p, w, Serve).Some?
    ensures Fits(ws, space, SeenBy(s.p), s.m, Compute(w))
    ensures Inv(ws, space, Wired(InStep(s.p, w, Serve).value, Store(ws, space, SeenBy(s.p), s.m, Compute(w))), script)
  {
    hide Channel.Step, Places, CarriesFrame, OnWire, O.BodyStored, EncodeHeader, O.Result, Listed, Owned, Clean;
    assert Filling(ws, space, s, w);
    var p := InStep(s.p, w, Serve).value;
    InputFrame(s.p.ins[w], Serve);
    var x, e := s.p.ins[w].consumer.msg, s.p.out.producers[w].e;
    assert O.KeepsTo(ws[w].func, x, space);
    var s' := Wired(p, Store(ws, space, SeenBy(s.p), s.m, Compute(w)));
    BodyIn(s.m.data[e], ResultOf(ws, space, w, x));
    AfterStore(ws, space, s, s', script, w);
  }

  // A whole frame in place.
  lemma FrameIn(m: Mem, e: int, owid: int, oqid: int, d: seq<Byte>, r: seq<Byte>)
    requires IsInt16(owid) && IsInt16(oqid) && |r| <= MAX_BODY && HDRLEN + |r| <= |d|
    requires d[..4] == EncodeHeader(Header(owid, oqid, 0))[..4] && d[HDRLEN..HDRLEN + |r|] == r
    requires 0 <= e < |m.data| == |m.lens| && m.data[e] == O.LengthStored(d, |r|) && m.lens[e] == HDRLEN + |r|
    ensures CarriesFrame(m, e, O.FrameOf(owid, oqid, r))
  {
    hide EncodeHeader, O.LengthStored, EncodeFrame, O.FrameBytes, ValidFrame;
    O.FrameAssembles(d, owid, oqid, r);
    O.FrameFits(owid, oqid, r);
  }

  lemma LengthKeeps(ws: seq<Setup>, space: nat, s: Wired, script: seq<Send>, w: int)
    requires SetupOk(ws, space) && Inv(ws, space, s, script) && Due(SeenBy(s.p), s.m, PutLength(w))
    ensures Fits(ws, space, SeenBy(s.p), s.m, PutLength(w))
    ensures Inv(ws, space, s.(m := Store(ws, space, SeenBy(s.p), s.m, PutLength(w))), script)
  {
    hide Places, CarriesFrame, OnWire, O.LengthStored, EncodeHeader, O.Result, Listed, Owned, Clean;
    assert Filling(ws, space, s, w);
    var x, e := Last(s.p.ins[w].served), s.p.out.producers[w].e;
    assert O.KeepsTo(ws[w].func, x, space);
    var s' := s.(m := Store(ws, space, SeenBy(s.p), s.m, PutLength(w)));
    FrameIn(s'.m, e, ws[w].owid, ws[w].oqid, s.m.data[e], ResultOf(ws, space, w, x));
    AfterStore(ws, space, s, s', script, w);
  }

  lemma DeliverKeeps(ws: seq<Setup>, space: nat, s: Wired, script: seq<Send>, w: int, f: Frame)
    requires Inv(ws, space, s, script) && Due(SeenBy(s.p), s.m, Hand(w))
    requires f == Work(ws, space)(w, Last(s.p.ins[w].served)) && OutStep(s.p, Publish(w, f)).Some?
    ensures Inv(ws, space, s.(p := OutStep(s.p, Publish(w, f)).value), script)
  {
    hide Channel.Step, Places, OnWire, CarriesFrame, Work;
    var s' := s.(p := OutStep(s.p, Publish(w, f)).value);
    PublishIs(s.p.out, w, f);
    OutOwned(s, Publish(w, f), s'.p.out);
    assert Filling(ws, space, s, w);
    var full, full' := s.p.out.qs[0].full, s'.p.out.qs[0].full;
    forall i | 0 <= i < |full'|
      ensures CarriesFrame(s'.m, full'[i].entry, full'[i].msg)
    {
      if i > 0 {
        assert full'[i] == full[i - 1];
      }
    }
    forall v
      ensures Filling(ws, space, s', v)
    {
      assert Filling(ws, space, s, v);
      if v != w {
        FillingStays(ws, space, s, s', -1, v);
      }
    }
    WireSame(s, s', script);
  }

  lemma SendKeeps(ws: seq<Setup>, space: nat, s: Wired, script: seq<Send>)
    requires Inv(ws, space, s, script) && OutStep(s.p, Serve).Some?
    ensures Due(SeenBy(s.p), s.m, Send) && Fits(ws, space, SeenBy(s.p), s.m, Send)
    ensures Inv(ws, space, Wired(OutStep(s.p, Serve).value, Store(ws, space, SeenBy(s.p), s.m, Send)), script)
  {
    hide Places, OnWire, EncodeHeader, EncodeFrame, ValidFrame, Filled;
    var p := OutStep(s.p, Serve).value;
    OutOwned(s, Serve, p.out);
    var s' := Wired(p, Store(ws, space, SeenBy(s.p), s.m, Send));
    forall v
      ensures Filling(ws, space, s', v)
    {
      assert Filling(ws, space, s, v);
      FillingStays(ws, space, s, s', -1, v);
    }
    WireGrows(s, s', script, s.p.out.consumer.e, s.p.out.consumer.msg);
  }

  lemma WireGrows(s: Wired, s': Wired, script: seq<Send>, e: int, f: Frame)
    requires OnWire(s, script) && CarriesFrame(s.m, e, f) && s'.p.out.served == s.p.out.served + [f]
    requires var w := Writes(s.m.script, s.m.lens[e]);
             s'.m.wire == s.m.wire + s.m.data[e][..w.count] && s'.m.script == w.later
    ensures OnWire(s', script)
  {
    hide EncodeFrame, ValidFrame;
    var fs := s.p.out.served;
    assert O.Encoded(fs + [f]) == O.Encoded(fs) + [EncodeFrame(f)];
    O.SentSnoc(script, O.Encoded(fs), EncodeFrame(f));
  }

  lemma ConsumerSomewhere(out: State<Frame>, e: int)
    requires |out.qs| == |out.lost| == 1 && Shape(out) && (out.consumer.Holding? || out.consumer.Ran?)
    requires out.consumer.e == e
    ensures Places(out, 0, e) >= 1
  {
  }

  lemma LensFit(ws: seq<Setup>, space: nat, s: Wired, script: seq<Send>, e: int)
    requires Inv(ws, space, s, script) && s.p.out.consumer.Ran? && s.p.out.consumer.e == e
    ensures 0 <= e < |s.m.data|
  {
    hide Places;
    ConsumerSomewhere(s.p.out, e);
    Exists(s, e);
  }

  lemma ClearKeeps(ws: seq<Setup>, space: nat, s: Wired, script: seq<Send>)
    requires Inv(ws, space, s, script) && Due(SeenBy(s.p), s.m, Clear)
    ensures Fits(ws, space, SeenBy(s.p), s.m, Clear)
    ensures Inv(ws, space, s.(m := Store(ws, space, SeenBy(s.p), s.m, Clear)), script)
  {
    hide Places, CarriesFrame, OnWire, EncodeHeader, Filled;
    var e := s.p.out.consumer.e;
    LensFit(ws, space, s, script, e);
    ConsumerIsAlone(s.p.out, e);
    var s' := s.(m := Store(ws, space, SeenBy(s.p), s.m, Clear));
    forall i | 0 <= i < |s'.p.out.qs[0].full|
      ensures CarriesFrame(s'.m, s'.p.out.qs[0].full[i].entry, s'.p.out.qs[0].full[i].msg)
    {
      CarriesStays(s.m, s'.m, e, s'.p.out.qs[0].full[i].entry, s'.p.out.qs[0].full[i].msg);
    }
    forall v
      ensures Filling(ws, space, s', v)
    {
      assert Filling(ws, space, s, v);
      FillingStays(ws, space, s, s', e, v);
    }
    WireSame(s, s', script);
  }

  lemma RecycleKeeps(ws: seq<Setup>, space: nat, s: Wired, script: seq<Send>)
    requires Inv(ws, space, s, script) && OutStep(s.p, Recycle).Some? && Due(SeenBy(s.p), s.m, GoHome)
    ensures Inv(ws, space, s.(p := OutStep(s.p, Recycle).value), script)
  {
    hide Channel.Step, Places, CarriesFrame, OnWire, Filled;
    var s' := s.(p := OutStep(s.p, Recycle).value);
    RecycleIs(s.p.out);
    OutOwned(s, Recycle, s'.p.out);
    forall v
      ensures Filling(ws, space, s', v)
    {
      assert Filling(ws, space, s, v);
      FillingStays(ws, space, s, s', -1, v);
    }
    WireSame(s, s', script);
  }

  // ---------------------------------------------------------------------------------------
  // Workers without an output entry.

  predicate Connected(p: Pipe<Message, Frame>, w: int) { 0 <= w < |p.ins| && p.ins[w].producers != [] }

  /** All workers with connections give one and the same result, whatever the message and whichever of the two spaces
      they are offered. */
  ghost predicate OneResult(ws: seq<Setup>, space: nat, p: Pipe<Message, Frame>) {
    forall v, w, x, y :: Connected(p, v) && Connected(p, w) && v < |ws| && w < |ws| ==>
      SameResult(ws, space, v, x, w, y)
  }

  predicate SameResult(ws: seq<Setup>, space: nat, v: int, x: Message, w: int, y: Message)
    requires 0 <= v < |ws| && 0 <= w < |ws|
  {
    ResultOf(ws, space, v, x) == ResultOf(ws, HDRLEN + space, w, y)
  }

  // A worker without connections never gets a message.
  ghost predicate Unused(c: State<Message>) {
    c.producers == [] ==> !c.consumer.Holding? && !c.consumer.Ran? && forall q :: 0 <= q < |c.qs| ==> c.qs[q].full == []
  }

  // The body of a frame on the list is every worker's result.
  ghost predicate AllGive(ws: seq<Setup>, space: nat, p: Pipe<Message, Frame>, f: Frame) {
    forall w, y :: Connected(p, w) && w < |ws| ==> BodyIs(ws, space, f, w, y)
  }

  predicate BodyIs(ws: seq<Setup>, space: nat, f: Frame, w: int, y: Message)
    requires 0 <= w < |ws|
  {
    f.body == ResultOf(ws, HDRLEN + space, w, y)
  }

  ghost predicate Uniform(ws: seq<Setup>, space: nat, p: Pipe<Message, Frame>) {
    && |ws| == |p.ins| == |p.out.producers| && |p.out.qs| == 1 && (forall w :: 0 <= w < |p.ins| ==> Unused(p.ins[w]))
    && (forall w :: 0 <= w < |p.ins| && p.ins[w].producers == [] ==> p.ins[w].served == [])
    && (forall w :: w in p.fell ==> Connected(p, w))
    && (OneResult(ws, space, p) ==>
          && (forall i :: 0 <= i < |p.out.qs[0].full| ==> AllGive(ws, space, p, p.out.qs[0].full[i].msg))
          && (p.out.consumer.Holding? ==> AllGive(ws, space, p, p.out.consumer.msg)))
  }

  // Connections come and go, but there are as many producers.
  lemma InputUnused(c: State<Message>, act: Action<Message>)
    requires Unused(c) && (c.producers == [] ==> c.served == []) && Step(Origin, c, act).Some?
    ensures var c' := Step(Origin, c, act).value.0;
            Unused(c') && |c'.producers| == |c.producers| && (c'.producers == [] ==> c'.served == [])
  {
  }

  lemma InputUniform(ws: seq<Setup>, space: nat, p: Pipe<Message, Frame>, w: int, act: Action<Message>)
    requires Uniform(ws, space, p) && 0 <= w < |p.ins| && InStep(p, w, act).Some?
    ensures Uniform(ws, space, InStep(p, w, act).value)
    ensures OneResult(ws, space, InStep(p, w, act).value) <==> OneResult(ws, space, p)
  {
    hide Step, Unused, SameResult;
    InputUnused(p.ins[w], act);
    SameWorkers(ws, space, p, InStep(p, w, act).value);
  }

  lemma SameWorkers(ws: seq<Setup>, space: nat, p: Pipe<Message, Frame>, p': Pipe<Message, Frame>)
    requires |p'.ins| == |p.ins| && forall w :: 0 <= w < |p.ins| ==> |p'.ins[w].producers| == |p.ins[w].producers|
    ensures OneResult(ws, space, p') <==> OneResult(ws, space, p)
    ensures forall f :: AllGive(ws, space, p, f) ==> AllGive(ws, space, p', f)
  {
    hide SameResult, BodyIs;
    assert forall w :: Connected(p', w) <==> Connected(p, w);
  }

  lemma OutputUniform(ws: seq<Setup>, space: nat, p: Pipe<Message, Frame>, act: Action<Frame>)
    requires Uniform(ws, space, p) && OutStep(p, act).Some?
    requires act.Publish? ==>
               Phase(p, act.p, true, true) && act.msg == Work(ws, space)(act.p, Last(p.ins[act.p].served))
    ensures Uniform(ws, space, OutStep(p, act).value)
    ensures OneResult(ws, space, OutStep(p, act).value) <==> OneResult(ws, space, p)
  {
    hide Unused, O.Result;
    var p' := OutStep(p, act).value;
    SameWorkers(ws, space, p, p');
    if act.Publish? && OneResult(ws, space, p) {
      var x := Last(p.ins[act.p].served);
      assert Connected(p, act.p);
      forall w, y | Connected(p, w) && w < |ws|
        ensures BodyIs(ws, space, act.msg, w, y)
      {
        assert SameResult(ws, space, act.p, x, w, y);
      }
    }
  }

  lemma MoveUniform(ws: seq<Setup>, space: nat, p: Pipe<Message, Frame>, mv: Move<Message, Frame>)
    requires Uniform(ws, space, p) && Move1(Work(ws, space), p, mv).Some?
    ensures Uniform(ws, space, Move1(Work(ws, space), p, mv).value)
    ensures OneResult(ws, space, Move1(Work(ws, space), p, mv).value) <==> OneResult(ws, space, p)
  {
    hide InStep, OutStep, Uniform, OneResult, Work;
    match mv
    case Input(w, act) => InputUniform(ws, space, p, w, act);
    case ReserveOut(w) => OutputUniform(ws, space, p, Reserve(w, 0));
    case Fall(w) => FallUniform(ws, space, p, w);
    case Call(w) => InputUniform(ws, space, p, w, Serve);
    case Deliver(w) => OutputUniform(ws, space, p, Publish(w, Work(ws, space)(w, Last(p.ins[w].served))));
    case SignalOut(w) => OutputUniform(ws, space, p, Signal(w));
    case GiveBack(w) => InputUniform(ws, space, p, w, Recycle);
    case Output(send) => OutputUniform(ws, space, p, send);
  }

  lemma FallUniform(ws: seq<Setup>, space: nat, p: Pipe<Message, Frame>, w: int)
    requires Uniform(ws, space, p) && Phase(p, w, false, false)
    ensures Uniform(ws, space, p.(fell := p.fell + {w}))
    ensures OneResult(ws, space, p.(fell := p.fell + {w})) <==> OneResult(ws, space, p)
  {
    assert Unused(p.ins[w]);
    SameWorkers(ws, space, p, p.(fell := p.fell + {w}));
  }

  // A store of the same body and length over a frame leaves the frame.
  lemma ScribbledFrame(m: Mem, m': Mem, e: int, f: Frame)
    requires CarriesFrame(m, e, f) && |m'.data| == |m.data| && m'.lens == m.lens
    requires m'.data[e] == Scribbled(m.data[e], f.body)
    ensures CarriesFrame(m', e, f)
  {
    hide EncodeHeader, O.LengthStored, O.BodyStored, O.FrameBytes;
    var d, r := m.data[e], f.body;
    var h := EncodeHeader(f.hdr);
    assert d[..4] == EncodeFrame(f)[..4] == h[..4];
    O.HeaderParts(f.hdr.wid, f.hdr.qidx, 0);
    O.HeaderParts(f.hdr.wid, f.hdr.qidx, |r|);
    BodyIn(d, r);
    FrameIn(m', e, f.hdr.wid, f.hdr.qidx, O.BodyStored(d, r), r);
  }

  // An entry being filled, with the worker's own result, if it has one, stored over it.
  lemma ScribbledFilling(ws: seq<Setup>, space: nat, s: Wired, s': Wired, w: int, r: Message)
    requires 0 <= w < |s.p.out.producers| && s.p.out.producers[w].Reserved? && Filling(ws, space, s, w)
    requires s'.p == s.p && |s'.m.data| == |s.m.data| && s'.m.lens == s.m.lens && s'.m.stage == s.m.stage
    requires var e := s.p.out.producers[w].e; HDRLEN + |r| <= |s.m.data[e]| && s'.m.data[e] == Scribbled(s.m.data[e], r)
    requires s.p.ins[w].served != [] ==> r == ResultOf(ws, space, w, Last(s.p.ins[w].served))
    ensures Filling(ws, space, s', w)
  {
    hide EncodeHeader, O.Result, CarriesFrame, ToLE;
    var e := s.p.out.producers[w].e;
    if s.m.stage[w].Complete? {
      ScribbledFrame(s.m, s'.m, e, Work(ws, space)(w, Last(s.p.ins[w].served)));
    } else if s.m.stage[w].Headed? {
      BodyIn(s.m.data[e], r);
      assert s'.m.data[e][HDRLEN..HDRLEN + |r|] == r;
    }
  }

  lemma ScribbleKeeps(ws: seq<Setup>, space: nat, s: Wired, script: seq<Send>, w: int)
    requires SetupOk(ws, space) && Inv(ws, space, s, script) && Uniform(ws, space, s.p) && OneResult(ws, space, s.p)
    requires Due(SeenBy(s.p), s.m, Scribble(w))
    ensures Fits(ws, space, SeenBy(s.p), s.m, Scribble(w))
    ensures Inv(ws, space, s.(m := Store(ws, space, SeenBy(s.p), s.m, Scribble(w))), script)
  {
    hide CarriesFrame, Places, OnWire, Filled, Scribbled, O.Result, EncodeHeader;
    var x, e := s.p.ins[w].consumer.msg, s.m.left[w];
    var r := ResultOf(ws, HDRLEN + space, w, x);
    var s' := s.(m := Store(ws, space, SeenBy(s.p), s.m, Scribble(w)));
    assert Unused(s.p.ins[w]) && Connected(s.p, w);
    assert SameResult(ws, space, w, x, w, x) && O.KeepsTo(ws[w].func, x, space);
    if 0 <= e < |s.m.data| {
      ScribbledSize(s.m.data[e], r);
      forall i | 0 <= i < |s.p.out.qs[0].full|
        ensures CarriesFrame(s'.m, s.p.out.qs[0].full[i].entry, s.p.out.qs[0].full[i].msg)
      {
        FrameAfter(ws, space, s, s', s.p.out.qs[0].full[i].entry, s.p.out.qs[0].full[i].msg, w, x);
      }
      if s.p.out.consumer.Holding? {
        FrameAfter(ws, space, s, s', s.p.out.consumer.e, s.p.out.consumer.msg, w, x);
      }
    } else {
      SameListed(s, s');
    }
    forall v
      ensures Filling(ws, space, s', v)
    {
      assert Filling(ws, space, s, v);
      FillingAfter(ws, space, s, s', v, w, x);
    }
    WireSame(s, s', script);
  }

  lemma SameListed(s: Wired, s': Wired)
    requires |s.p.out.qs| == 1 && Listed(s) && s'.p == s.p && s'.m.data == s.m.data && s'.m.lens == s.m.lens
    ensures Listed(s')
  {
  }

  lemma ScribbledSize(d: seq<Byte>, r: Message)
    requires HDRLEN <= |d|
    ensures |Scribbled(d, r)| == |d|
  {
  }

  // What worker w's stray store of its result for message x does to the frame in entry d.
  lemma FrameAfter(ws: seq<Setup>, space: nat, s: Wired, s': Wired, d: int, f: Frame, w: int, x: Message)
    requires 0 <= w < |ws| && w < |s.m.left| && Connected(s.p, w) && AllGive(ws, space, s.p, f)
    requires CarriesFrame(s.m, d, f) && 0 <= s.m.left[w] < |s.m.data| && Elsewhere(s.m, s'.m, s.m.left[w])
    requires HDRLEN <= |s.m.data[s.m.left[w]]| && s'.m.lens == s.m.lens
    requires s'.m.data[s.m.left[w]] == Scribbled(s.m.data[s.m.left[w]], ResultOf(ws, HDRLEN + space, w, x))
    ensures CarriesFrame(s'.m, d, f)
  {
    hide Scribbled, O.Result, EncodeFrame;
    assert BodyIs(ws, space, f, w, x);
    if d == s.m.left[w] {
      ScribbledFrame(s.m, s'.m, d, f);
    } else {
      CarriesStays(s.m, s'.m, s.m.left[w], d, f);
    }
  }

  lemma FillingAfter(ws: seq<Setup>, space: nat, s: Wired, s': Wired, v: int, w: int, x: Message)
    requires |ws| == |s.p.ins| == |s.p.out.producers| == |s.m.stage| == |s.m.left| && 0 <= w < |ws|
    requires Connected(s.p, w) && Filling(ws, space, s, v) && s'.p == s.p && Uniform(ws, space, s.p)
    requires OneResult(ws, space, s.p) && s'.m.lens == s.m.lens && s'.m.stage == s.m.stage && |s'.m.data| == |s.m.data|
    requires var e, r := s.m.left[w], ResultOf(ws, HDRLEN + space, w, x);
             if 0 <= e < |s.m.data| then
               && HDRLEN + |r| <= |s.m.data[e]| && Elsewhere(s.m, s'.m, e)
               && s'.m.data[e] == Scribbled(s.m.data[e], r)
             else s'.m.data == s.m.data
    ensures Filling(ws, space, s', v)
  {
    hide Scribbled, O.Result, CarriesFrame, EncodeHeader, Unused;
    var e, r := s.m.left[w], ResultOf(ws, HDRLEN + space, w, x);
    if 0 <= v < |ws| && s.p.out.producers[v].Reserved? && s.p.out.producers[v].e == e {
      if s.p.ins[v].served != [] {
        assert Connected(s.p, v) && SameResult(ws, space, v, Last(s.p.ins[v].served), w, x);
      }
      ScribbledFilling(ws, space, s, s', v, r);
    } else {
      FillingStays(ws, space, s, s', if 0 <= e < |s.m.data| then e else -1, v);
    }
  }

  // ---------------------------------------------------------------------------------------
  // Runs.

  // The channels and the stages allow it.
  ghost predicate Enabled(ws: seq<Setup>, space: nat, s: Wired, act: Act) {
    match act
    case List(mv) => Move1(Work(ws, space), s.p, mv).Some? && Due(SeenBy(s.p), s.m, DeedOf(mv))
    case Stores(d) => Between(d) && Due(SeenBy(s.p), s.m, d)
  }

  /** Whatever the channels allow can make its stores inside its entry, and keeps what every entry holds at its stage;
      a worker without an entry keeps it if all workers give one and the same result. */
  lemma StepKeeps(ws: seq<Setup>, space: nat, s: Wired, script: seq<Send>, act: Act)
    requires SetupOk(ws, space) && Inv(ws, space, s, script) && Uniform(ws, space, s.p) && Enabled(ws, space, s, act)
    requires act.Stores? && act.d.Scribble? ==> OneResult(ws, space, s.p)
    ensures Step1(ws, space, s, act).Some?
    ensures Inv(ws, space, Step1(ws, space, s, act).value, script)
    ensures Uniform(ws, space, Step1(ws, space, s, act).value.p)
    ensures OneResult(ws, space, Step1(ws, space, s, act).value.p) <==> OneResult(ws, space, s.p)
  {
    hide Inv, Uniform, OneResult, SetupOk, Move1, SeenBy;
    if act.List? {
      MoveUniform(ws, space, s.p, act.mv);
      ListKeeps(ws, space, s, script, act.mv);
    } else {
      match act.d
      case PutHeader(w) => HeaderKeeps(ws, space, s, script, w);
      case PutLength(w) => LengthKeeps(ws, space, s, script, w);
      case Clear => ClearKeeps(ws, space, s, script);
      case Scribble(w) => ScribbleKeeps(ws, space, s, script, w);
    }
  }

  lemma ListKeeps(ws: seq<Setup>, space: nat, s: Wired, script: seq<Send>, mv: Move<Message, Frame>)
    requires SetupOk(ws, space) && Inv(ws, space, s, script) && Enabled(ws, space, s, List(mv))
    ensures Step1(ws, space, s, List(mv)).Some? && Inv(ws, space, Step1(ws, space, s, List(mv)).value, script)
  {
    hide InStep, OutStep, Inv, SetupOk, Work, Due, SeenBy;
    match mv
    case Input(w, act) => InputKeeps(ws, space, s, script, w, act);
    case ReserveOut(w) => ReserveKeeps(ws, space, s, script, w);
    case Fall(w) => FallKeeps(ws, space, s, script, w);
    case Call(w) => CallKeeps(ws, space, s, script, w);
    case Deliver(w) => DeliverKeeps(ws, space, s, script, w, Work(ws, space)(w, Last(s.p.ins[w].served)));
    case SignalOut(w) => SignalKeeps(ws, space, s, script, w);
    case GiveBack(w) => InputKeeps(ws, space, s, script, w, Recycle);
    case Output(send) =>
      if send.Serve? {
        SendKeeps(ws, space, s, script);
      } else if send.Recycle? {
        RecycleKeeps(ws, space, s, script);
      } else {
        OutQuietKeeps(ws, space, s, script, send);
      }
  }

  /** Whatever is due stays inside its entry. */
  lemma DueFits(ws: seq<Setup>, space: nat, s: Wired, script: seq<Send>, d: Deed)
    requires SetupOk(ws, space) && Inv(ws, space, s, script) && Due(SeenBy(s.p), s.m, d)
    ensures Fits(ws, space, SeenBy(s.p), s.m, d)
  {
    hide SetupOk, Listed, Owned, Clean, Filling, OnWire;
    match d
    case PutHeader(w) => HeaderKeeps(ws, space, s, script, w);
    case Compute(w) => CallKeeps(ws, space, s, script, w);
    case PutLength(w) => LengthKeeps(ws, space, s, script, w);
    case Send => SendKeeps(ws, space, s, script);
    case Clear => ClearKeeps(ws, space, s, script);
    case _ =>
  }

  lemma StepStrays(ws: seq<Setup>, space: nat, s: Wired, act: Act)
    requires Step1(ws, space, s, act).Some?
    ensures s.m.strayed ==> Step1(ws, space, s, act).value.m.strayed
    ensures act.Stores? && act.d.Scribble? ==> Step1(ws, space, s, act).value.m.strayed
    ensures Enabled(ws, space, s, act)
  {
    hide Move1, SeenBy;
  }

  lemma {:induction false} StraysStay(ws: seq<Setup>, space: nat, s: Wired, acts: seq<Act>)
    requires Steps(ws, space, s, acts).Some? && s.m.strayed
    ensures Steps(ws, space, s, acts).value.m.strayed
    decreases |acts|
  {
    hide Step1;
    if acts != [] {
      StepStrays(ws, space, s, acts[0]);
      StraysStay(ws, space, Step1(ws, space, s, acts[0]).value, acts[1..]);
    }
  }

  lemma {:induction false} StepsKeep(ws: seq<Setup>, space: nat, s: Wired, script: seq<Send>, acts: seq<Act>)
    requires SetupOk(ws, space) && Inv(ws, space, s, script) && Uniform(ws, space, s.p)
    requires Steps(ws, space, s, acts).Some?
    requires Steps(ws, space, s, acts).value.m.strayed ==> OneResult(ws, space, s.p)
    ensures Inv(ws, space, Steps(ws, space, s, acts).value, script)
    ensures OneResult(ws, space, Steps(ws, space, s, acts).value.p) <==> OneResult(ws, space, s.p)
    decreases |acts|
  {
    hide Inv, SetupOk, Uniform, OneResult, Step1, Enabled;
    if acts != [] {
      StepStrays(ws, space, s, acts[0]);
      var s1 := Step1(ws, space, s, acts[0]).value;
      if s1.m.strayed {
        StraysStay(ws, space, s1, acts[1..]);
      }
      StepKeeps(ws, space, s, script, acts[0]);
      StepsKeep(ws, space, s1, script, acts[1..]);
    }
  }

  // The moves of the channels among the acts.
  function MovesOf(acts: seq<Act>): seq<Move<Message, Frame>> {
    if acts == [] then [] else (if acts[0].List? then [acts[0].mv] else []) + MovesOf(acts[1..])
  }

  lemma {:induction false} StepsAreMoves(ws: seq<Setup>, space: nat, s: Wired, acts: seq<Act>)
    requires Steps(ws, space, s, acts).Some?
    ensures Moves(Work(ws, space), s.p, MovesOf(acts)) == Some(Steps(ws, space, s, acts).value.p)
    decreases |acts|
  {
    hide Move1, Work, Do, SeenBy;
    if acts != [] {
      var s1 := Step1(ws, space, s, acts[0]).value;
      StepsAreMoves(ws, space, s1, acts[1..]);
      if acts[0].List? {
        assert MovesOf(acts)[0] == acts[0].mv && MovesOf(acts)[1..] == MovesOf(acts[1..]);
      } else {
        assert MovesOf(acts) == MovesOf(acts[1..]);
      }
    }
  }

  lemma StartIs(ws: seq<Setup>, space: nat, z: Sizes, s: Wired)
    requires Starts(ws, space, z, s)
    ensures SizesOk(ws, z) && s.p == Start(z.qlens, z.ps, z.outlen)
  {
  }

  lemma StartKeeps(ws: seq<Setup>, space: nat, z: Sizes, s: Wired)
    requires SetupOk(ws, space) && Starts(ws, space, z, s)
    ensures Inv(ws, space, s, s.m.script) && Uniform(ws, space, s.p)
  {
    forall e
      ensures Places(s.p.out, 0, e) == At(0 <= e < |s.m.data|)
    {
      InitPlaces<Frame>([z.outlen], |z.qlens|, 0, e);
    }
    assert O.Encoded([]) == [];
  }

  /** No worker has stored without an entry, or it makes no difference what they store. */
  ghost predicate Calm(ws: seq<Setup>, space: nat, z: Sizes, m: Mem)
    requires SizesOk(ws, z)
  {
    m.strayed ==> OneResult(ws, space, Start(z.qlens, z.ps, z.outlen))
  }

  lemma RunInv(ws: seq<Setup>, space: nat, z: Sizes, s0: Wired, acts: seq<Act>)
    requires SetupOk(ws, space) && Starts(ws, space, z, s0) && Steps(ws, space, s0, acts).Some?
    requires Calm(ws, space, z, Steps(ws, space, s0, acts).value.m)
    ensures var s := Steps(ws, space, s0, acts).value;
            && Inv(ws, space, s, s0.m.script)
            && Moves(Work(ws, space), Start(z.qlens, z.ps, z.outlen), MovesOf(acts)) == Some(s.p)
  {
    hide Inv, Steps, Uniform, SetupOk, OneResult, Moves, Work;
    StartKeeps(ws, space, z, s0);
    StepsKeep(ws, space, s0, s0.m.script, acts);
    StepsAreMoves(ws, space, s0, acts);
  }

  // What the output has published and what it is about to send.
  predicate Published(out: State<Frame>, e: int, f: Frame) {
    || (|out.qs| == 1 && Item(e, f) in out.qs[0].full)
    || (out.consumer.Holding? && out.consumer.e == e && out.consumer.msg == f)
  }

  /** In every run every entry on the output's list, and the one it is about to send, carries 8 + flen bytes
      within its capacity, and they are the frame of the result the worker computed. */
  lemma EntriesCarryFrames(ws: seq<Setup>, space: nat, z: Sizes, s0: Wired, acts: seq<Act>, e: int, f: Frame)
    requires SetupOk(ws, space) && Starts(ws, space, z, s0) && Steps(ws, space, s0, acts).Some?
    requires Calm(ws, space, z, Steps(ws, space, s0, acts).value.m)
    requires Published(Steps(ws, space, s0, acts).value.p.out, e, f)
    ensures CarriesFrame(Steps(ws, space, s0, acts).value.m, e, f)
  {
    hide Steps, Starts, Moves, CarriesFrame, SetupOk, Calm;
    RunInv(ws, space, z, s0, acts);
    var s := Steps(ws, space, s0, acts).value;
    if Item(e, f) in s.p.out.qs[0].full {
      var i :| 0 <= i < |s.p.out.qs[0].full| && s.p.out.qs[0].full[i] == Item(e, f);
      assert CarriesFrame(s.m, s.p.out.qs[0].full[i].entry, s.p.out.qs[0].full[i].msg);
    }
  }

  lemma ListedCounts(items: seq<Item<Frame>>, e: int, f: Frame)
    requires Item(e, f) in items
    ensures Copies(items, f) > 0
  {
    if items[0] != Item(e, f) {
      ListedCounts(items[1..], e, f);
    }
  }

  lemma PublishedCounts(out: State<Frame>, e: int, f: Frame)
    requires Published(out, e, f)
    ensures FullCount(out.qs, f) > 0 || InHand(out.consumer, f) > 0
  {
    if |out.qs| == 1 && Item(e, f) in out.qs[0].full {
      ListedCounts(out.qs[0].full, e, f);
    }
  }

  // The bytes of an entry that carries the frame of worker w's result for message x.
  lemma ResultBytes(ws: seq<Setup>, space: nat, m: Mem, e: int, w: int, x: Message)
    requires SetupOk(ws, space) && 0 <= w < |ws| && CarriesFrame(m, e, Work(ws, space)(w, x))
    ensures 0 <= e < |m.data| == |m.lens| && HDRLEN <= m.lens[e] <= |m.data[e]|
    ensures m.data[e][HDRLEN..m.lens[e]] == if ws[w].func.Some? then ws[w].func.value(x, space) else []
    ensures DecodeHeader(m.data[e][..HDRLEN]) == Header(ws[w].owid, ws[w].oqid, m.lens[e] - HDRLEN)
  {
    hide EncodeHeader, DecodeHeader, O.FrameBytes;
    var r := ResultOf(ws, space, w, x);
    assert O.KeepsTo(ws[w].func, x, space);
    O.FrameFits(ws[w].owid, ws[w].oqid, r);
    O.FrameParts(m.data[e], ws[w].owid, ws[w].oqid, r);
  }

  /** In every calm run the bytes of a published entry are the ids of a worker, the length, and what that worker's
      function gave for a message it accepted, or nothing if it has no function. */
  lemma PublishedAreResults(ws: seq<Setup>, space: nat, z: Sizes, s0: Wired, acts: seq<Act>, e: int, f: Frame)
      returns (w: int, x: Message)
    requires SetupOk(ws, space) && Starts(ws, space, z, s0) && Steps(ws, space, s0, acts).Some?
    requires Calm(ws, space, z, Steps(ws, space, s0, acts).value.m)
    requires Published(Steps(ws, space, s0, acts).value.p.out, e, f)
    ensures var s := Steps(ws, space, s0, acts).value;
            && 0 <= w < |ws| == |s.p.ins| && x in s.p.ins[w].accepted
            && 0 <= e < |s.m.data| == |s.m.lens| && HDRLEN <= s.m.lens[e] <= |s.m.data[e]|
            && s.m.data[e][HDRLEN..s.m.lens[e]] == (if ws[w].func.Some? then ws[w].func.value(x, space) else [])
            && DecodeHeader(s.m.data[e][..HDRLEN]) == Header(ws[w].owid, ws[w].oqid, s.m.lens[e] - HDRLEN)
  {
    hide Steps, Moves, CarriesFrame, SetupOk, Calm, Work, DecodeHeader, Inv, Start;
    EntriesCarryFrames(ws, space, z, s0, acts, e, f);
    StepsAreMoves(ws, space, s0, acts);
    RunSizes(ws, space, z, s0, acts);
    var s := Steps(ws, space, s0, acts).value;
    PublishedCounts(s.p.out, e, f);
    w, x := ResultsComeFromMessages(Work(ws, space), z.qlens, z.ps, z.outlen, MovesOf(acts), f);
    ResultBytes(ws, space, s.m, e, w, x);
  }

  lemma RunSizes(ws: seq<Setup>, space: nat, z: Sizes, s0: Wired, acts: seq<Act>)
    requires SetupOk(ws, space) && Starts(ws, space, z, s0) && Steps(ws, space, s0, acts).Some?
    requires Calm(ws, space, z, Steps(ws, space, s0, acts).value.m)
    ensures |ws| == |Steps(ws, space, s0, acts).value.p.ins|
  {
    hide Steps, SetupOk, Calm, Starts, Moves, Filling, Listed, Clean, Owned, OnWire;
    RunInv(ws, space, z, s0, acts);
  }

  /** In every run what is on the wire is what the sends let through of the frames sent so far, in order. */
  lemma WireIsSent(ws: seq<Setup>, space: nat, z: Sizes, s0: Wired, acts: seq<Act>)
    requires SetupOk(ws, space) && Starts(ws, space, z, s0) && Steps(ws, space, s0, acts).Some?
    requires Calm(ws, space, z, Steps(ws, space, s0, acts).value.m)
    ensures var s := Steps(ws, space, s0, acts).value;
            AllValid(s.p.out.served) && s.m.wire == O.Sent(s0.m.script, O.Encoded(s.p.out.served))
  {
    hide Steps, Starts, Moves, O.Encoded, O.Sent, Calm, SetupOk;
    RunInv(ws, space, z, s0, acts);
  }

  /** In every run the wire parses back to exactly the frames sent so far if and only if no send failed, and once
      every thread is idle these are the results of all messages the workers ever accepted, each as often as it
      was computed. */
  lemma StreamCarriesEveryResult(ws: seq<Setup>, space: nat, z: Sizes, s0: Wired, acts: seq<Act>, f: Frame)
    requires SetupOk(ws, space) && Starts(ws, space, z, s0) && Steps(ws, space, s0, acts).Some?
    requires Calm(ws, space, z, Steps(ws, space, s0, acts).value.m)
    ensures var s := Steps(ws, space, s0, acts).value;
            && AllValid(s.p.out.served)
            && (Frames(s.m.wire) == s.p.out.served <==> O.AllSent(s0.m.script, O.Encoded(s.p.out.served)))
            && (O.AllSent(s0.m.script, O.Encoded(s.p.out.served)) ==> Framing.Rest(s.m.wire) == [])
            && (O.AllSent(s0.m.script, O.Encoded(s.p.out.served)) && AllIdle(s.p) ==>
                  multiset(Frames(s.m.wire))[f] == Expected(Work(ws, space), s.p.ins, f, |s.p.ins|))
  {
    hide Steps, Moves, Inv, Work, O.Encoded, O.Sent, O.AllSent, Idle, Start, SetupOk, Calm;
    RunInv(ws, space, z, s0, acts);
    WireIsSent(ws, space, z, s0, acts);
    var s := Steps(ws, space, s0, acts).value;
    O.WireReadsBackIff(s0.m.script, s.p.out.served);
    if AllIdle(s.p) {
      DrainedPipeline(Work(ws, space), z.qlens, z.ps, z.outlen, MovesOf(acts), f);
    }
  }
}
