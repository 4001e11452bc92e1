// Input threads (input.c): a connection's message buffer, fed by non-blocking reads, that cuts the
// byte stream into messages and places each body in an entry of the addressed worker's queue.
module Input {
  import opened Common
  import opened Bytes
  import opened Framing
  import opened Net

  datatype QueueId = QueueId(wid: int, q: int)

  datatype Slot = Slot(queue: QueueId, e: int)

  function SlotOf(rc: FindRC<Slot>): Option<Slot> {
    if rc.Found? then Some(rc.slot) else None
  }

  // What the entry pointer holds that the lookup leaves unset on a bad queue index: null, one of the entries,
  // or something else.
  datatype Unset = Null | Points(slot: Slot) | Wild

  // By worker id the maxentrysize of each queue, that pointer, and how many bytes a body that is thrown away may
  // take on the thread's stack.
  datatype Env = Env(max: map<int, seq<nat>>, unset: Unset, stack: nat)

  // What input threads and workers change: lists, entry lengths and, by worker id, semaphores.
  datatype Lists = Lists(empty: map<QueueId, seq<int>>, full: map<QueueId, seq<int>>,
                         lens: map<Slot, nat>, signals: map<int, nat>)

  predicate Known(env: Env, id: QueueId) {
    id.wid in env.max && 0 <= id.q < |env.max[id.wid]|
  }

  ghost predicate Complete(env: Env, ls: Lists) {
    && (forall id :: Known(env, id) ==> id in ls.empty && id in ls.full)
    && (forall wid :: wid in env.max ==> wid in ls.signals)
  }

  /** The queue that header h addresses, if it takes bodies that long. */
  function Place(env: Env, h: Header): FindRC<QueueId> {
    var id := QueueId(h.wid, h.qidx);
    if h.wid !in env.max then NoWorker
    else if !Known(env, id) then BadQidx
    else if h.datalen > env.max[h.wid][h.qidx] then MsgTooBig
    else Found(id)
  }

  /** Where a message with header h can go right now. */
  function Find(env: Env, ls: Lists, h: Header): FindRC<Slot>
    requires Complete(env, ls)
  {
    match Place(env, h)
    case NoWorker => NoWorker
    case BadQidx => BadQidx
    case MsgTooBig => MsgTooBig
    case QueueFull => QueueFull
    case Found(id) => if ls.empty[id] == [] then QueueFull else Found(Slot(id, ls.empty[id][0]))
  }

  /** Taking the found entry off its list; no other answer changes anything. */
  function Unlist(ls: Lists, rc: FindRC<Slot>): Lists {
    if rc.Found? && rc.slot.queue in ls.empty && ls.empty[rc.slot.queue] != [] then
      ls.(empty := ls.empty[rc.slot.queue := ls.empty[rc.slot.queue][1..]])
    else ls
  }

  /** Releasing a complete message: its length, a push on the full list, a signal to the worker. */
  function Release(ls: Lists, slot: Option<Slot>, len: nat): Lists {
    if slot.Some? && slot.value.queue in ls.full && slot.value.queue.wid in ls.signals then
      var s := slot.value;
      ls.(full := ls.full[s.queue := [s.e] + ls.full[s.queue]], lens := ls.lens[s := len],
          signals := ls.signals[s.queue.wid := ls.signals[s.queue.wid] + 1])
    else ls
  }

  // Body bytes overwrite the data from its start.
  function Overwrite(d: seq<Byte>, got: seq<Byte>): seq<Byte> {
    if |got| <= |d| then Splice(d, 0, got) else d
  }

  /** Storing body bytes in the reserved entry; without one they are thrown away. */
  function Store(data: map<Slot, seq<Byte>>, slot: Option<Slot>, got: seq<Byte>): map<Slot, seq<Byte>> {
    if slot.Some? && slot.value in data then data[slot.value := Overwrite(data[slot.value], got)] else data
  }

  /** The workers as an input thread sees them; between two of its calls other threads change the lists. */
  class Workers {
    const env: Env
    const bufs: map<Slot, array<Byte>>       // the data of every entry
    var empty: map<QueueId, seq<int>>
    var full: map<QueueId, seq<int>>
    var lens: map<Slot, nat>
    var signals: map<int, nat>

    ghost function AllArrays(): set<array<Byte>> {
      set s | s in bufs :: bufs[s]
    }

    ghost function Data(): map<Slot, seq<Byte>>
      reads AllArrays()
    {
      map s | s in bufs :: bufs[s][..]
    }

    ghost function View(): Lists
      reads this
    {
      Lists(empty, full, lens, signals)
    }

    // The entry exists and has the size of its queue.
    ghost predicate Room(s: Slot) {
      Known(env, s.queue) && s in bufs && bufs[s].Length == env.max[s.queue.wid][s.queue.q]
    }

    ghost predicate Valid()
      reads this
    {
      && Complete(env, View())
      && (forall id, i :: Known(env, id) && 0 <= i < |empty[id]| ==> Room(Slot(id, empty[id][i])))
      && (forall s, s' :: s in bufs && s' in bufs && s != s' ==> bufs[s] != bufs[s'])
    }

    constructor (env: Env, bufs: map<Slot, array<Byte>>, empty: map<QueueId, seq<int>>)
      ensures this.env == env && this.bufs == bufs
      ensures View() == Lists(empty, map id | id in empty :: [], map[], map wid | wid in env.max :: 0)
    {
      this.env, this.bufs, this.empty := env, bufs, empty;
      this.full := map id | id in empty :: [];
      this.lens := map[];
      this.signals := map wid | wid in env.max :: 0;
    }

    /** input_findWorkerAndQueueEntry. */
    method GetQueueEntry(h: Header) returns (rc: FindRC<Slot>)
      requires Valid()
      modifies this`empty
      ensures rc == old(Find(env, View(), h)) && View() == Unlist(old(View()), rc) && Valid()
      ensures rc.NoWorker? <==> h.wid !in env.max
      ensures rc.BadQidx? <==> h.wid in env.max && !(0 <= h.qidx < |env.max[h.wid]|)
      ensures rc.MsgTooBig? <==>
                h.wid in env.max && 0 <= h.qidx < |env.max[h.wid]| && h.datalen > env.max[h.wid][h.qidx]
      ensures rc.QueueFull? <==>
                && h.wid in env.max && 0 <= h.qidx < |env.max[h.wid]| && h.datalen <= env.max[h.wid][h.qidx]
                && QueueId(h.wid, h.qidx) in old(empty) && old(empty)[QueueId(h.wid, h.qidx)] == []
      ensures rc.Found? ==>
                var id := QueueId(h.wid, h.qidx);
                && id in old(empty) && old(empty)[id] != [] && rc.slot == Slot(id, old(empty)[id][0])
                && empty == old(empty)[id := old(empty)[id][1..]]
                && Room(rc.slot) && h.datalen <= bufs[rc.slot].Length
      ensures !rc.Found? ==> empty == old(empty)
    {
      if h.wid !in env.max {
        return NoWorker;
      }
      if h.qidx < 0 || h.qidx >= |env.max[h.wid]| {
        return BadQidx;
      }
      var id := QueueId(h.wid, h.qidx);
      assert Known(env, id);
      if h.datalen > env.max[h.wid][h.qidx] {
        return MsgTooBig;
      }
      if empty[id] == [] {
        return QueueFull;
      }
      rc := Found(Slot(id, empty[id][0]));
      assert Room(rc.slot);
      empty := empty[id := empty[id][1..]];
    }

    /** worker_putBackQueueEntry: push on the full list, then signal the worker. */
    method PutBackQueueEntry(s: Slot, len: nat)
      requires Valid() && Room(s)
      modifies this`full, this`lens, this`signals
      ensures View() == Release(old(View()), Some(s), len) && Valid()
      ensures s.queue in old(full) && full == old(full)[s.queue := [s.e] + old(full)[s.queue]]
      ensures s.queue.wid in old(signals)
      ensures signals == old(signals)[s.queue.wid := old(signals)[s.queue.wid] + 1]
      ensures lens == old(lens)[s := len]
    {
      lens := lens[s := len];
      full := full[s.queue := [s.e] + full[s.queue]];
      signals := signals[s.queue.wid := signals[s.queue.wid] + 1];
    }
  }

  // ---------------------------------------------------------------------------------------
  // One call of input_serveConnection, as a function.

  // struct input_msgbuffer, and the connection's msgcnt.
  datatype Buffer = Buffer(n: nat, hdr: seq<Byte>, slot: Option<Slot>, msgcnt: nat)

  function Zeros(): (z: seq<Byte>)
    ensures |z| == HDRLEN
  {
    seq(HDRLEN, _ => 0)
  }

  const NEWBUFFER := Buffer(0, Zeros(), None, 0)

  // The code asserts n <= len once the header is there.
  predicate Sized(b: Buffer) {
    && |b.hdr| == HDRLEN
    && (b.n >= HDRLEN ==> b.n - HDRLEN <= DecodeHeader(b.hdr).datalen <= MAX_BODY)
    && (b.n < HDRLEN ==> b.slot == None)
  }

  // The header after some more of its bytes arrived; a complete header stays.
  function WithHeader(b: Buffer, got: seq<Byte>): (b': Buffer)
    requires |b.hdr| == HDRLEN && (b.n < HDRLEN ==> b.n + |got| <= HDRLEN)
    ensures |b'.hdr| == HDRLEN && b'.msgcnt == b.msgcnt && b'.slot == b.slot
  {
    if b.n < HDRLEN then b.(n := b.n + |got|, hdr := Splice(b.hdr, b.n, got)) else b
  }

  // The answer of the lookup, if these bytes complete the header.
  function Lookup(b: Buffer, got: seq<Byte>, env: Env, ls: Lists): Option<FindRC<Slot>>
    requires |b.hdr| == HDRLEN && (b.n < HDRLEN ==> b.n + |got| <= HDRLEN) && Complete(env, ls)
  {
    var b1 := WithHeader(b, got);
    if b.n < HDRLEN && b1.n == HDRLEN then Some(Find(env, ls, DecodeHeader(b1.hdr))) else None
  }

  // A connection's buffer and the lists it works on.
  datatype Snap = Snap(b: Buffer, ls: Lists)

  /** Header bytes arrive; a header they complete is looked up, and its entry reserved. */
  function HeaderStep(s: Snap, env: Env, got: seq<Byte>): (s': Snap)
    requires |s.b.hdr| == HDRLEN && (s.b.n < HDRLEN ==> s.b.n + |got| <= HDRLEN) && Complete(env, s.ls)
    ensures |s'.b.hdr| == HDRLEN
  {
    var b1 := WithHeader(s.b, got);
    match Lookup(s.b, got, env, s.ls)
    case None => Snap(b1, s.ls)
    case Some(rc) => Snap(b1.(slot := SlotOf(rc)), Unlist(s.ls, rc))
  }

  /** Body bytes arrive; a message they complete is released and counted, and the buffer starts over. */
  function BodyStep(s: Snap, count: nat): (s': Snap)
    requires |s.b.hdr| == HDRLEN <= s.b.n
    ensures |s'.b.hdr| == HDRLEN
  {
    var len := DecodeHeader(s.b.hdr).datalen;
    if s.b.n - HDRLEN + count < len then Snap(s.b.(n := s.b.n + count), s.ls)
    else Snap(Buffer(0, Zeros(), None, s.b.msgcnt + 1), Release(s.ls, s.b.slot, len))
  }

  /** The lookup left the entry pointer unset and that is not null: the code goes on with it as if it were the
      message's entry. */
  predicate Strays<T>(env: Env, rc: FindRC<T>) { rc.BadQidx? && env.unset != Null }

  // The code can read a body of which `want` bytes are missing: its length fits an int, and without an entry the
  // missing bytes fit the stack.
  predicate CanRead(env: Env, slot: Option<Slot>, len: nat, want: nat) {
    len <= MAX_BODY && (slot == None ==> want <= env.stack)
  }

  lemma BodyEnds(s: Snap, count: nat, s': Snap)
    requires |s.b.hdr| == HDRLEN <= s.b.n
    requires var len := DecodeHeader(s.b.hdr).datalen;
             && s.b.n - HDRLEN + count <= len
             && s' == if s.b.n - HDRLEN + count < len then Snap(s.b.(n := s.b.n + count), s.ls)
                      else Snap(Buffer(0, Zeros(), None, s.b.msgcnt + 1), Release(s.ls, s.b.slot, len))
    ensures s' == BodyStep(s, count)
  {
    hide DecodeHeader, Release;
  }

  // How many header and body bytes a call takes; `ok` is false where the process aborts, or goes on with an
  // unset entry pointer.
  datatype Plan = Plan(head: nat, reached: bool, body: nat, ok: bool)

  predicate PlanFits(b: Buffer, incoming: seq<Byte>, pl: Plan) {
    && |b.hdr| == HDRLEN
    && pl.head + pl.body <= |incoming|
    && (b.n < HDRLEN ==> b.n + pl.head <= HDRLEN && (pl.reached ==> b.n + pl.head == HDRLEN))
    && (b.n >= HDRLEN ==> pl.head == 0 && pl.reached)
    && (!pl.reached ==> pl.body == 0 && (pl.ok ==> b.n + pl.head < HDRLEN))
    && (pl.reached ==>
          var b1 := WithHeader(b, incoming[..pl.head]);
          b1.n - HDRLEN + pl.body <= DecodeHeader(b1.hdr).datalen <= MAX_BODY)
  }

  /** What is read when recv behaves as scripted. */
  function ServePlan(env: Env, ls: Lists, b: Buffer, script: seq<Recv>, incoming: seq<Byte>): (pl: Plan)
    requires Sized(b) && Complete(env, ls)
    ensures PlanFits(b, incoming, pl)
  {
    if b.n < HDRLEN then
      var r := Reads(script, |incoming|, HDRLEN - b.n);
      if !r.ok || b.n + r.count < HDRLEN then Plan(r.count, false, 0, r.ok)
      else
        var h := DecodeHeader(WithHeader(b, incoming[..r.count]).hdr);
        var rc := Find(env, ls, h);
        if Strays(env, rc) || !CanRead(env, SlotOf(rc), h.datalen, h.datalen) then Plan(r.count, false, 0, false)
        else
          var body := Reads(r.later, |incoming| - r.count, h.datalen);
          Plan(r.count, true, body.count, body.ok)
    else
      var len := DecodeHeader(b.hdr).datalen;
      var want := len - (b.n - HDRLEN);
      if !CanRead(env, b.slot, len, want) then Plan(0, true, 0, false)
      else
        var body := Reads(script, |incoming|, want);
        Plan(0, true, body.count, body.ok)
  }

  // The lookup gives no entry: no such worker or queue, a body too long for it, or none free.
  predicate NoEntry(env: Env, empty: map<QueueId, seq<int>>, h: Header) {
    || h.wid !in env.max || !(0 <= h.qidx < |env.max[h.wid]|) || h.datalen > env.max[h.wid][h.qidx]
    || QueueId(h.wid, h.qidx) !in empty || empty[QueueId(h.wid, h.qidx)] == []
  }

  /** A call ends the process, or goes on with an unset entry pointer, exactly if a recv fails, or the header it
      completes has a bad queue index that meets an unset pointer other than null, a length that no int holds with the
      header's 8, or a body that is thrown away and does not fit the stack; or the body it is in does not fit. */
  ghost predicate Dies(env: Env, empty: map<QueueId, seq<int>>, b: Buffer, script: seq<Recv>, incoming: seq<Byte>)
    requires |b.hdr| == 8
  {
    if b.n < 8 then
      var r := Reads(script, |incoming|, 8 - b.n);
      || !r.ok
      || (b.n + r.count == 8
          && var h := DecodeHeader(b.hdr[..b.n] + incoming[..r.count]);
             || (h.wid in env.max && !(0 <= h.qidx < |env.max[h.wid]|) && env.unset != Null)
             || h.datalen > 0x7FFF_FFF7
             || (NoEntry(env, empty, h) && h.datalen > env.stack)
             || !Reads(r.later, |incoming| - r.count, h.datalen).ok)
    else
      var missing := DecodeHeader(b.hdr).datalen - (b.n - 8);
      missing >= 0 && ((b.slot == None && missing > env.stack) || !Reads(script, |incoming|, missing).ok)
  }

  lemma PlanOkIff(env: Env, ls: Lists, b: Buffer, script: seq<Recv>, incoming: seq<Byte>)
    requires Sized(b) && Complete(env, ls)
    ensures ServePlan(env, ls, b, script, incoming).ok <==> !Dies(env, ls.empty, b, script, incoming)
  {
    hide DecodeHeader, Reads;
    if b.n < HDRLEN {
      var r := Reads(script, |incoming|, HDRLEN - b.n);
      if r.ok && b.n + r.count == HDRLEN {
        assert WithHeader(b, incoming[..r.count]).hdr == b.hdr[..b.n] + incoming[..r.count];
      }
    }
  }

  /** The effect of a call that reads according to pl. */
  function ServeStep(s: Snap, env: Env, incoming: seq<Byte>, pl: Plan): Snap
    requires PlanFits(s.b, incoming, pl) && Complete(env, s.ls)
  {
    var s1 := HeaderStep(s, env, incoming[..pl.head]);
    if pl.reached then BodyStep(s1, pl.body) else s1
  }

  // The entry, if any, that the body bytes of the call are stored in.
  function Destination(s: Snap, env: Env, incoming: seq<Byte>, pl: Plan): Option<Slot>
    requires PlanFits(s.b, incoming, pl) && Complete(env, s.ls)
  {
    if pl.reached then HeaderStep(s, env, incoming[..pl.head]).b.slot else None
  }

  // A call that starts inside a header, phase by phase: r is the header read, s1 the state after it.
  lemma PlanPhases(s: Snap, env: Env, script: seq<Recv>, incoming: seq<Byte>, r: Outcome, s1: Snap)
    requires Sized(s.b) && s.b.n < HDRLEN && Complete(env, s.ls)
    requires r == Reads(script, |incoming|, HDRLEN - s.b.n)
    requires r.ok ==> s1 == HeaderStep(s, env, incoming[..r.count])
    ensures var pl := ServePlan(env, s.ls, s.b, script, incoming);
            && pl.head == r.count
            && (!r.ok ==> !pl.ok && pl.body == 0)
            && (r.ok && s1.b.n < HDRLEN ==>
                  && pl == Plan(r.count, false, 0, true) && ServeStep(s, env, incoming, pl) == s1
                  && Destination(s, env, incoming, pl) == None)
            && (r.ok && s1.b.n == HDRLEN ==>
                  var len := DecodeHeader(s1.b.hdr).datalen;
                  var b := Reads(r.later, |incoming| - r.count, len);
                  var strays := Strays(env, Find(env, s.ls, DecodeHeader(s1.b.hdr)));
                  if strays || !CanRead(env, s1.b.slot, len, len) then !pl.ok && pl.body == 0
                  else
                    && pl == Plan(r.count, true, b.count, b.ok)
                    && ServeStep(s, env, incoming, pl) == BodyStep(s1, b.count)
                    && Destination(s, env, incoming, pl) == s1.b.slot
                    && incoming[pl.head..pl.head + pl.body] == incoming[r.count..][..b.count])
  {
    hide DecodeHeader, Find, Unlist, BodyStep, Reads;
  }

  /** What a call makes of buffer and lists s, entries d and the stream: the pure step, and the bytes it did not
      take; nothing is said of buffer, lists and entries where the plan is not ok. */
  ghost predicate CallIs(env: Env, s: Snap, d: map<Slot, seq<Byte>>, script: seq<Recv>, incoming: seq<Byte>,
                         s': Snap, d': map<Slot, seq<Byte>>, left: seq<Byte>, aborted: bool)
    requires Sized(s.b) && Complete(env, s.ls)
  {
    var pl := ServePlan(env, s.ls, s.b, script, incoming);
    && aborted == !pl.ok && left == incoming[pl.head + pl.body..]
    && (pl.ok ==>
          && s' == ServeStep(s, env, incoming, pl)
          && d' == Store(d, Destination(s, env, incoming, pl), incoming[pl.head..pl.head + pl.body]))
  }

  // A call aborts when its plan is not ok.
  lemma DiesIf(env: Env, ls: Lists, b: Buffer, script: seq<Recv>, incoming: seq<Byte>, d: map<Slot, seq<Byte>>)
    requires Sized(b) && Complete(env, ls)
    ensures forall s', d', left, aborted :: CallIs(env, Snap(b, ls), d, script, incoming, s', d', left, aborted) ==>
              (aborted <==> Dies(env, ls.empty, b, script, incoming))
  {
    hide ServePlan, Dies;
    PlanOkIff(env, ls, b, script, incoming);
  }

  // The call ended with its header read r.
  lemma EndsInHeader(env: Env, s: Snap, d: map<Slot, seq<Byte>>, script: seq<Recv>, incoming: seq<Byte>, r: Outcome,
                     s1: Snap, aborted: bool)
    requires Sized(s.b) && s.b.n < HDRLEN && Complete(env, s.ls) && r == Reads(script, |incoming|, HDRLEN - s.b.n)
    requires r.ok ==> s1 == HeaderStep(s, env, incoming[..r.count])
    requires if r.ok && s1.b.n == HDRLEN then
               var len := DecodeHeader(s1.b.hdr).datalen;
               aborted && (Strays(env, Find(env, s.ls, DecodeHeader(s1.b.hdr))) || !CanRead(env, s1.b.slot, len, len))
             else
               aborted == !r.ok
    requires r.ok ==> s1.b.n <= HDRLEN
    ensures CallIs(env, s, d, script, incoming, s1, d, incoming[r.count..], aborted)
  {
    hide DecodeHeader, Find, Unlist, BodyStep, Reads, HeaderStep, ServePlan, ServeStep, Destination;
    PlanPhases(s, env, script, incoming, r, s1);
  }

  // The call went on into the body, of which it read r2.
  lemma EndsInBody(env: Env, s: Snap, d: map<Slot, seq<Byte>>, script: seq<Recv>, incoming: seq<Byte>, r: Outcome,
                   s1: Snap, r2: Outcome, s2: Snap, d2: map<Slot, seq<Byte>>)
    requires Sized(s.b) && s.b.n < HDRLEN && Complete(env, s.ls) && r == Reads(script, |incoming|, HDRLEN - s.b.n)
    requires r.ok && s1 == HeaderStep(s, env, incoming[..r.count]) && s1.b.n == HDRLEN
    requires var len := DecodeHeader(s1.b.hdr).datalen;
             && !Strays(env, Find(env, s.ls, DecodeHeader(s1.b.hdr))) && CanRead(env, s1.b.slot, len, len)
             && r2 == Reads(r.later, |incoming| - r.count, len)
    requires d2 == Store(d, s1.b.slot, incoming[r.count..][..r2.count]) && (r2.ok ==> s2 == BodyStep(s1, r2.count))
    ensures CallIs(env, s, d, script, incoming, s2, d2, incoming[r.count..][r2.count..], !r2.ok)
  {
    hide DecodeHeader, Find, Unlist, BodyStep, Reads, HeaderStep, ServePlan, ServeStep, Destination, Store;
    PlanPhases(s, env, script, incoming, r, s1);
  }

  // The call started inside the body, of which it read r.
  lemma StartsInBody(env: Env, s: Snap, d: map<Slot, seq<Byte>>, script: seq<Recv>, incoming: seq<Byte>, r: Outcome,
                     s1: Snap, d1: map<Slot, seq<Byte>>)
    requires Sized(s.b) && s.b.n >= HDRLEN && Complete(env, s.ls)
    requires var len := DecodeHeader(s.b.hdr).datalen;
             && CanRead(env, s.b.slot, len, len - (s.b.n - HDRLEN))
             && r == Reads(script, |incoming|, len - (s.b.n - HDRLEN))
    requires d1 == Store(d, s.b.slot, incoming[..r.count]) && (r.ok ==> s1 == BodyStep(s, r.count))
    ensures CallIs(env, s, d, script, incoming, s1, d1, incoming[r.count..], !r.ok)
  {
    hide DecodeHeader, Find, Unlist, BodyStep, Reads, Store;
  }

  lemma BodyTooBig(env: Env, s: Snap, d: map<Slot, seq<Byte>>, script: seq<Recv>, incoming: seq<Byte>)
    requires Sized(s.b) && s.b.n >= HDRLEN && Complete(env, s.ls) && s.b.slot == None
    requires DecodeHeader(s.b.hdr).datalen - (s.b.n - HDRLEN) > env.stack
    ensures CallIs(env, s, d, script, incoming, s, d, incoming, true)
  {
    hide DecodeHeader, Find, Unlist, BodyStep, Reads;
  }

  class Connection {
    var n: nat
    const hdr: array<Byte>
    var slot: Option<Slot>
    var msgcnt: nat
    var aborted: bool

    ghost function Abs(): Buffer
      reads this, hdr
    {
      Buffer(n, hdr[..], slot, msgcnt)
    }

    constructor ()
      ensures Abs() == NEWBUFFER && !aborted && fresh(hdr)
    {
      n, slot, msgcnt, aborted := 0, None, 0, false;
      hdr := new Byte[HDRLEN](_ => 0);
      new;
      assert hdr[..] == Zeros();
    }

    // The entry the connection holds has room for the whole body.
    ghost predicate SlotOk(w: Workers)
      reads this, hdr
    {
      slot.Some? && hdr.Length == HDRLEN ==>
        w.Room(slot.value) && DecodeHeader(hdr[..]).datalen <= w.bufs[slot.value].Length
    }

    /** msgbuf_reset */
    method Reset()
      requires hdr.Length == HDRLEN
      modifies this`n, this`slot, hdr
      ensures n == 0 && slot == None && hdr[..] == Zeros()
    {
      forall i | 0 <= i < HDRLEN {
        hdr[i] := 0;
      }
      n := 0;
      slot := None;
    }

    // The lookup of a complete header; `strays` when it leaves the entry pointer unset and not null.
    method LookUp(w: Workers) returns (strays: bool)
      requires hdr.Length == HDRLEN && w.Valid()
      modifies this`slot, w`empty
      ensures var rc := old(Find(w.env, w.View(), DecodeHeader(hdr[..])));
              && slot == SlotOf(rc) && w.View() == Unlist(old(w.View()), rc) && strays == Strays(w.env, rc)
      ensures w.Valid() && SlotOk(w)
    {
      hide DecodeHeader, Find, Unlist, Known;
      var rc := w.GetQueueEntry(DecodeHeader(hdr[..]));
      slot := SlotOf(rc);
      strays := rc.BadQidx? && w.env.unset != Null;
    }

    // The first half: header bytes, and the lookup once they are complete.
    method ServeHeader(sock: Socket, w: Workers) returns (r: nat, ok: bool, strays: bool)
      requires Sized(Abs()) && n < HDRLEN && w.Valid() && hdr !in w.AllArrays()
      modifies this`n, this`slot, hdr, sock, w`empty
      ensures Outcome(r, sock.script, ok) == Reads(old(sock.script), |old(sock.incoming)|, HDRLEN - old(n))
      ensures sock.incoming == old(sock.incoming)[r..] && w.Valid()
      ensures ok ==> n == old(n) + r
      ensures ok ==> Snap(Abs(), w.View()) == HeaderStep(old(Snap(Abs(), w.View())), w.env, old(sock.incoming)[..r])
      ensures ok && n == HDRLEN ==> strays == Strays(w.env, Find(w.env, old(w.View()), DecodeHeader(hdr[..])))
      ensures ok ==> SlotOk(w)
      ensures w.Data() == old(w.Data())
    {
      hide DecodeHeader, Reads, Find, Unlist, Splice, Known;
      strays := false;
      r, ok := sock.Readn(hdr, n, HDRLEN - n);
      if ok {
        n := n + r;
        if n == HDRLEN {
          strays := LookUp(w);
        }
      }
    }

    // Body bytes go to the start of the entry's data, or are thrown away.
    method ReadBody(sock: Socket, w: Workers, want: nat) returns (r: nat, ok: bool)
      requires w.Valid() && (slot.Some? ==> slot.value in w.bufs && want <= w.bufs[slot.value].Length)
      modifies sock, w.AllArrays()
      ensures Outcome(r, sock.script, ok) == Reads(old(sock.script), |old(sock.incoming)|, want)
      ensures sock.incoming == old(sock.incoming)[r..] && w.Valid() && w.View() == old(w.View())
      ensures w.Data() == Store(old(w.Data()), slot, old(sock.incoming)[..r])
    {
      if slot == None {
        var tmpbuf := new Byte[want](_ => 0);
        r, ok := sock.Readn(tmpbuf, 0, want);
      } else {
        r, ok := sock.Readn(w.bufs[slot.value], 0, want);
      }
    }

    // A complete message is released to its worker, if it has an entry, and the buffer starts over.
    method Finish(w: Workers)
      requires hdr.Length == HDRLEN <= n && w.Valid() && SlotOk(w)
      modifies this`n, this`slot, this`msgcnt, hdr, w`full, w`lens, w`signals
      ensures w.Valid() && Abs() == Buffer(0, Zeros(), None, old(msgcnt) + 1)
      ensures w.View() == Release(old(w.View()), old(slot), old(n) - HDRLEN)
    {
      hide DecodeHeader;
      if slot.Some? {
        w.PutBackQueueEntry(slot.value, n - HDRLEN);
      }
      msgcnt := msgcnt + 1;
      Reset();
    }

    // r more body bytes have been read.
    method EndBody(w: Workers, r: nat)
      requires Sized(Abs()) && n >= HDRLEN && w.Valid() && SlotOk(w) && hdr !in w.AllArrays()
      requires n - HDRLEN + r <= DecodeHeader(hdr[..]).datalen
      modifies this`n, this`slot, this`msgcnt, hdr, w`full, w`lens, w`signals
      ensures w.Valid() && SlotOk(w) && w.Data() == old(w.Data())
      ensures Snap(Abs(), w.View()) == BodyStep(old(Snap(Abs(), w.View())), r)
    {
      hide DecodeHeader, Release, Known, Zeros, BodyStep, Complete, Workers.Valid, Workers.Room;
      ghost var s := Snap(Abs(), w.View());
      var len := DecodeHeader(hdr[..]).datalen;
      n := n + r;
      if n - HDRLEN == len {
        Finish(w);
      }
      BodyEnds(s, r, Snap(Abs(), w.View()));
    }

    // The second half: body bytes, and the release once they are complete.
    method ServeBody(sock: Socket, w: Workers) returns (r: nat, ok: bool)
      requires Sized(Abs()) && n >= HDRLEN && w.Valid() && SlotOk(w) && hdr !in w.AllArrays()
      modifies this`n, this`slot, this`msgcnt, hdr, sock, w`full, w`lens, w`signals, w.AllArrays()
      ensures Outcome(r, sock.script, ok) ==
                Reads(old(sock.script), |old(sock.incoming)|, DecodeHeader(old(hdr[..])).datalen - (old(n) - HDRLEN))
      ensures sock.incoming == old(sock.incoming)[r..] && w.Valid()
      ensures w.Data() == Store(old(w.Data()), old(slot), old(sock.incoming)[..r])
      ensures ok ==> Snap(Abs(), w.View()) == BodyStep(old(Snap(Abs(), w.View())), r) && SlotOk(w)
    {
      hide DecodeHeader, Reads, Store, Known, BodyStep, Complete, Workers.Valid;
      r, ok := ReadBody(sock, w, DecodeHeader(hdr[..]).datalen - (n - HDRLEN));
      assert hdr[..] == old(hdr[..]) && SlotOk(w);
      if ok {
        EndBody(w, r);
      }
    }

    // A call that starts inside a header and may go on into the body.
    method ServeNew(sock: Socket, w: Workers)
      requires Sized(Abs()) && n < HDRLEN && w.Valid() && hdr !in w.AllArrays()
      modifies this`n, this`slot, this`msgcnt, this`aborted, hdr, sock, w`empty, w`full, w`lens, w`signals,
               w.AllArrays()
      ensures CallIs(w.env, old(Snap(Abs(), w.View())), old(w.Data()), old(sock.script), old(sock.incoming),
                     Snap(Abs(), w.View()), w.Data(), sock.incoming, aborted)
      ensures !aborted ==> w.Valid() && SlotOk(w)
    {
      hide DecodeHeader, HeaderStep, BodyStep, Reads, Find, Unlist, Release, Store, Overwrite, Known, Zeros, WithHeader,
           Lookup, Splice, Strays, CallIs;
      ghost var s, d, script, incoming := Snap(Abs(), w.View()), w.Data(), sock.script, sock.incoming;
      var r, ok, strays := ServeHeader(sock, w);
      ghost var r1, s1 := Outcome(r, sock.script, ok), Snap(Abs(), w.View());
      aborted := !ok;
      if ok && n == HDRLEN {
        var len := DecodeHeader(hdr[..]).datalen;
        if strays || len > MAX_BODY || (slot == None && len > w.env.stack) {
          aborted := true;
        } else {
          r, ok := ServeBody(sock, w);
          aborted := !ok;
          EndsInBody(w.env, s, d, script, incoming, r1, s1, Outcome(r, sock.script, ok), Snap(Abs(), w.View()),
                     w.Data());
          return;
        }
      }
      EndsInHeader(w.env, s, d, script, incoming, r1, s1, aborted);
    }

    /** input_serveConnection: the pure step on every path on which the process survives and the entry pointer is
        one the lookup set, or null. */
    method Serve(sock: Socket, w: Workers)
      requires Sized(Abs()) && w.Valid() && SlotOk(w) && !aborted && hdr !in w.AllArrays()
      modifies this`n, this`slot, this`msgcnt, this`aborted, hdr, sock, w`empty, w`full, w`lens, w`signals,
               w.AllArrays()
      ensures CallIs(w.env, old(Snap(Abs(), w.View())), old(w.Data()), old(sock.script), old(sock.incoming),
                     Snap(Abs(), w.View()), w.Data(), sock.incoming, aborted)
      ensures !aborted ==> w.Valid() && SlotOk(w)
      ensures aborted <==> Dies(w.env, old(w.empty), old(Abs()), old(sock.script), old(sock.incoming))
    {
      hide DecodeHeader, BodyStep, Reads, Find, Unlist, Release, Store, Overwrite, Splice, Zeros, CallIs, Dies;
      DiesIf(w.env, w.View(), Abs(), sock.script, sock.incoming, w.Data());
      if n < HDRLEN {
        ServeNew(sock, w);
      } else {
        ghost var s, d, script, incoming := Snap(Abs(), w.View()), w.Data(), sock.script, sock.incoming;
        var len := DecodeHeader(hdr[..]).datalen;
        if slot == None && len - (n - HDRLEN) > w.env.stack {
          aborted := true;
          BodyTooBig(w.env, s, d, script, incoming);
        } else {
          var r, ok := ServeBody(sock, w);
          aborted := !ok;
          StartsInBody(w.env, s, d, script, incoming, Outcome(r, sock.script, ok), Snap(Abs(), w.View()), w.Data());
        }
      }
    }
  }
}
