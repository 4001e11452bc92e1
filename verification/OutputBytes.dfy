// The bytes of an output's entries and of its wire, and what workers and the output thread store there between their
// list operations (worker.c, output.c).
module OutputBytes {
  import opened Common
  import opened Bytes
  import opened Framing
  import opened Net
  import opened Channel
  import O = Output
  import P = Pipeline

  datatype Setup = Setup(owid: int, oqid: int, func: Option<O.Func>)

  type Message = seq<Byte>

  // Worker ids and queue indices are int16, and functions keep to the space they are offered:
  // an entry's without its header, or by a worker without an entry the whole.
  ghost predicate SetupOk(ws: seq<Setup>, space: nat) {
    && space <= MAX_BODY
    && forall w :: 0 <= w < |ws| ==>
         && IsInt16(ws[w].owid) && IsInt16(ws[w].oqid)
         && forall x :: O.KeepsTo(ws[w].func, x, space) && O.KeepsTo(ws[w].func, x, HDRLEN + space)
  }

  function ResultOf(ws: seq<Setup>, space: nat, w: int, x: Message): Message
    requires 0 <= w < |ws|
  {
    O.Result(ws[w].func, x, space)
  }

  /** The frame worker w makes of a message. */
  function Work(ws: seq<Setup>, space: nat): (int, Message) -> Frame {
    (w, x) =>
      if 0 <= w < |ws| then O.FrameOf(ws[w].owid, ws[w].oqid, ResultOf(ws, space, w, x)) else Frame(Header(0, 0, 0), [])
  }

  // How far a worker is with the entry it reserved.
  datatype Stage = Bare | Headed | Complete

  // The output's entries are data and lens, by entry number.  left[w] is the entry that worker w's pointers into the
  // output were last set to, whatever they hold before that.  A worker without an entry stores through them all the
  // same, and the memory has strayed.
  datatype Mem = Mem(data: seq<seq<Byte>>, lens: seq<nat>, stage: seq<Stage>, left: seq<int>, cleared: bool,
                     wire: seq<Byte>, script: seq<Send>, strayed: bool)

  // Where the threads stand, as the stores need to know.
  datatype Seen = Seen(workers: seq<Consumer<Message>>, served: seq<seq<Message>>, claims: seq<Producer>,
                       sender: Consumer<Frame>, fell: set<int>)

  datatype Deed =
    | Touch                    // list operations and semaphores
    | PutHeader(w: int)
    | Compute(w: int)          // the call of the function
    | PutLength(w: int)
    | Hand(w: int)             // the entry is handed to the output's list
    | Rest(w: int)             // the signal
    | Send
    | Clear
    | GoHome                   // the sent entry is handed back
    | Scribble(w: int)         // the call of a worker without an output entry, and its length word

  // ---------------------------------------------------------------------------------------
  // When each is due, and whether it stays inside the entry.

  predicate Works(v: Seen, w: int, ran: bool) {
    && 0 <= w < |v.workers| && w < |v.served| && w !in v.fell
    && (if ran then v.workers[w].Ran? && v.served[w] != [] else v.workers[w].Holding?)
  }

  // Worker w has reserved an entry and done this much to it.
  predicate HasEntry(v: Seen, m: Mem, w: int, st: Stage) {
    0 <= w < |v.claims| && w < |m.stage| && v.claims[w].Reserved? && m.stage[w] == st
  }

  predicate Due(v: Seen, m: Mem, d: Deed) {
    match d
    case Touch => true
    case PutHeader(w) => Works(v, w, false) && HasEntry(v, m, w, Bare)
    case Compute(w) => Works(v, w, false) && HasEntry(v, m, w, Headed)
    case PutLength(w) => Works(v, w, true) && HasEntry(v, m, w, Headed)
    case Hand(w) => Works(v, w, true) && HasEntry(v, m, w, Complete)
    case Rest(w) => 0 <= w < |m.stage|
    case Send => v.sender.Holding?
    case Clear => v.sender.Ran? && !m.cleared
    case GoHome => v.sender.Ran? && m.cleared
    case Scribble(w) => w in v.fell && 0 <= w < |v.workers| && v.workers[w].Holding?
  }

  // Entry e exists and has room for `room` bytes, and its length is no more than it has.
  predicate Entry(m: Mem, e: int, room: nat) {
    0 <= e < |m.data| == |m.lens| && room <= |m.data[e]| && m.lens[e] <= |m.data[e]|
  }

  predicate Fits(ws: seq<Setup>, space: nat, v: Seen, m: Mem, d: Deed)
    requires Due(v, m, d)
  {
    match d
    case PutHeader(w) =>
      w < |ws| && w < |m.left| && IsInt16(ws[w].owid) && IsInt16(ws[w].oqid) && Entry(m, v.claims[w].e, HDRLEN)
    case Compute(w) => w < |ws| && Entry(m, v.claims[w].e, HDRLEN + |ResultOf(ws, space, w, v.workers[w].msg)|)
    case PutLength(w) => w < |ws| && Entry(m, v.claims[w].e, HDRLEN)
    case Send => Entry(m, v.sender.e, 0)
    case Clear => 0 <= v.sender.e < |m.lens|
    case Scribble(w) => w < |ws| && w < |m.left|
    case _ => true
  }

  /** The header with length 0; the function's result; the length; what the sends let through; a cleared length.  A
      worker without an entry is offered a whole entry's space, and stores its result, cut off where the entry ends,
      and its length word where it last had one. */
  function Store(ws: seq<Setup>, space: nat, v: Seen, m: Mem, d: Deed): Mem
    requires Due(v, m, d) && Fits(ws, space, v, m, d)
  {
    match d
    case PutHeader(w) =>
      var e := v.claims[w].e;
      m.(data := m.data[e := O.HeaderStored(m.data[e], ws[w].owid, ws[w].oqid)], lens := m.lens[e := HDRLEN],
         stage := m.stage[w := Headed], left := m.left[w := e])
    case Compute(w) =>
      var e := v.claims[w].e;
      m.(data := m.data[e := O.BodyStored(m.data[e], ResultOf(ws, space, w, v.workers[w].msg))])
    case PutLength(w) =>
      var e, flen := v.claims[w].e, |ResultOf(ws, space, w, P.Last(v.served[w]))|;
      m.(data := m.data[e := O.LengthStored(m.data[e], flen)], lens := m.lens[e := m.lens[e] + flen],
         stage := m.stage[w := Complete])
    case Rest(w) => m.(stage := m.stage[w := Bare])
    case Send =>
      var e := v.sender.e;
      var w := Writes(m.script, m.lens[e]);
      m.(wire := m.wire + m.data[e][..w.count], script := w.later, cleared := false)
    case Clear => m.(lens := m.lens[v.sender.e := 0], cleared := true)
    case Scribble(w) =>
      var e, r := m.left[w], ResultOf(ws, HDRLEN + space, w, v.workers[w].msg);
      if 0 <= e < |m.data| && HDRLEN <= |m.data[e]| then
        m.(data := m.data[e := Scribbled(m.data[e], r)], strayed := true)
      else m.(strayed := true)
    case _ => m
  }

  function Scribbled(d: seq<Byte>, r: Message): seq<Byte>
    requires HDRLEN <= |d|
  {
    O.LengthStored(O.BodyStored(d, if HDRLEN + |r| <= |d| then r else r[..|d| - HDRLEN]), |r|)
  }

  function Do(ws: seq<Setup>, space: nat, v: Seen, m: Mem, d: Deed): Option<Mem> {
    if Due(v, m, d) && Fits(ws, space, v, m, d) then Some(Store(ws, space, v, m, d)) else None
  }

  /** output_new's entries, with whatever bytes the allocator left, and nothing sent. */
  ghost predicate Started(ws: seq<Setup>, space: nat, outlen: nat, m: Mem) {
    && |m.data| == outlen && m.lens == seq(outlen, i => 0) && m.wire == [] && !m.strayed
    && m.stage == seq(|ws|, w => Bare) && |m.left| == |ws|
    && forall e :: 0 <= e < outlen ==> |m.data[e]| == HDRLEN + space
  }

  /** Entry e carries 8 + flen bytes within its capacity, and they are the frame f. */
  ghost predicate CarriesFrame(m: Mem, e: int, f: Frame) {
    && 0 <= e < |m.data| == |m.lens| && ValidFrame(f) && m.lens[e] == HDRLEN + |f.body| <= |m.data[e]|
    && m.data[e][..m.lens[e]] == EncodeFrame(f)
  }
}
