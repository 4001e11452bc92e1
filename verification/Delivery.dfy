// Connections, queues and workers together: what reaches a worker's function, over whole runs.
//
// One step is one call of input_serveConnection, one wait-and-scan of a worker, or one call of its
// function with the recycling that follows.  `owner`, `fate` and the tickets record what happened;
// no step depends on them.
module Delivery {
  import opened Common
  import opened Bytes
  import opened Framing
  import opened Net
  import opened Overlay
  import opened Input
  import opened InputRuns

  // Completed message number i of connection c.
  datatype Ticket = Ticket(c: int, i: int)

  // Where an entry is.
  datatype Place = Free | Reserved(c: int) | Full(tk: Ticket) | Held(wid: int, tk: Ticket)

  // What became of a completed message.
  datatype Fate = Rejected | Pending(slot: Slot) | Done(j: int)

  datatype Conn = Conn(se: Session, open: bool, fate: seq<Fate>)

  // A call of a worker's function.
  datatype Service = Service(tk: Ticket, queue: QueueId, input: seq<Byte>)

  datatype System = System(
    ls: Lists,
    data: map<Slot, seq<Byte>>,
    conns: seq<Conn>,
    held: map<int, Slot>,        // the entry each busy worker works on
    served: seq<Service>,
    owner: map<Slot, Place>)

  datatype Action =
    | Accept
    | Read(c: int, script: seq<Recv>, incoming: seq<Byte>)
    | Close(c: int)
    | Take(wid: int, q: int)
    | Serve(wid: int)

  // ---------------------------------------------------------------------------------------
  // Steps.

  function PopEmpty(ls: Lists, s: Slot): Lists
    requires s.queue in ls.empty && ls.empty[s.queue] != []
  {
    ls.(empty := ls.empty[s.queue := ls.empty[s.queue][1..]])
  }

  function PopFull(ls: Lists, s: Slot): Lists
    requires s.queue in ls.full && ls.full[s.queue] != [] && s.queue.wid in ls.signals && ls.signals[s.queue.wid] > 0
  {
    ls.(full := ls.full[s.queue := ls.full[s.queue][1..]],
        signals := ls.signals[s.queue.wid := ls.signals[s.queue.wid] - 1])
  }

  function PushEmpty(ls: Lists, s: Slot): Lists
    requires s.queue in ls.empty
  {
    ls.(empty := ls.empty[s.queue := [s.e] + ls.empty[s.queue]], lens := ls.lens[s := 0])
  }

  ghost function AfterRead(env: Env, sys: System, c: int, call: Call, se': Session): System
    requires 0 <= c < |sys.conns| && Sized(sys.conns[c].se.b) && CallOk(env, call) && call.ls == sys.ls
  {
    var conn := sys.conns[c];
    var pl := ServePlan(env, call.ls, conn.se.b, call.script, call.incoming);
    var snap := Snap(conn.se.b, sys.ls);
    var k := |conn.se.done|;
    var ls' := ServeStep(snap, env, call.incoming, pl).ls;
    var data' := Store(sys.data, Destination(snap, env, call.incoming, pl),
                       call.incoming[pl.head..pl.head + pl.body]);
    if |se'.done| > k then
      var slot := se'.done[k].slot;
      sys.(ls := ls', data := data',
           conns := sys.conns[c := Conn(se', true, conn.fate + [if slot.Some? then Pending(slot.value) else Rejected])],
           owner := if slot.Some? then sys.owner[slot.value := Full(Ticket(c, k))] else sys.owner)
    else
      sys.(ls := ls', data := data', conns := sys.conns[c := Conn(se', true, conn.fate)],
           owner := if se'.b.slot.Some? then sys.owner[se'.b.slot.value := Reserved(c)] else sys.owner)
  }

  ghost function Step(env: Env, sys: System, act: Action): Option<System> {
    match act
    case Accept => Some(sys.(conns := sys.conns + [Conn(NEWSESSION, true, [])]))
    case Read(c, script, incoming) =>
      var call := Call(script, incoming, sys.ls, sys.data);
      if 0 <= c < |sys.conns| && sys.conns[c].open && Sized(sys.conns[c].se.b) && CallOk(env, call) then
        match Next(sys.conns[c].se, env, call)
        case None => None
        case Some(se') => Some(AfterRead(env, sys, c, call, se'))
      else None
    case Close(c) =>
      if 0 <= c < |sys.conns| && sys.conns[c].open then
        Some(sys.(conns := sys.conns[c := sys.conns[c].(open := false)]))
      else None
    case Take(wid, q) =>
      var id := QueueId(wid, q);
      if wid !in sys.held && wid in sys.ls.signals && sys.ls.signals[wid] > 0 && id in sys.ls.full
        && sys.ls.full[id] != [] then
        var s := Slot(id, sys.ls.full[id][0]);
        if s in sys.owner && sys.owner[s].Full? then
          Some(sys.(ls := PopFull(sys.ls, s), held := sys.held[wid := s],
                    owner := sys.owner[s := Held(wid, sys.owner[s].tk)]))
        else None
      else None
    case Serve(wid) =>
      if wid in sys.held && CanServe(sys, sys.held[wid]) then Some(AfterServe(sys, wid)) else None
  }

  // The entry has a length within its data, and a record of where it came from.
  predicate CanServe(sys: System, s: Slot) {
    && s in sys.owner && sys.owner[s].Held? && s in sys.ls.lens && s in sys.data && sys.ls.lens[s] <= |sys.data[s]|
    && s.queue in sys.ls.empty
    && 0 <= sys.owner[s].tk.c < |sys.conns| && 0 <= sys.owner[s].tk.i < |sys.conns[sys.owner[s].tk.c].fate|
  }

  function AfterServe(sys: System, wid: int): System
    requires wid in sys.held && CanServe(sys, sys.held[wid])
  {
    var s := sys.held[wid];
    var tk := sys.owner[s].tk;
    var conn := sys.conns[tk.c];
    sys.(ls := PushEmpty(sys.ls, s), held := sys.held - {wid},
         served := sys.served + [Service(tk, s.queue, sys.data[s][..sys.ls.lens[s]])],
         conns := sys.conns[tk.c := conn.(fate := conn.fate[tk.i := Done(|sys.served|)])],
         owner := sys.owner[s := Free])
  }

  ghost function Run(env: Env, sys: System, acts: seq<Action>): Option<System>
    decreases |acts|
  {
    if acts == [] then Some(sys)
    else
      match Step(env, sys, acts[0])
      case None => None
      case Some(sys1) => Run(env, sys1, acts[1..])
  }

  // ---------------------------------------------------------------------------------------
  // The invariant.

  /** Each list holds exactly the entries whose place is that list, once each. */
  ghost predicate Listed(env: Env, ls: Lists, owner: map<Slot, Place>)
    requires Complete(env, ls)
  {
    && (forall id :: Known(env, id) ==> Distinct(ls.empty[id]) && Distinct(ls.full[id]))
    && (forall s: Slot :: Known(env, s.queue) ==> (s.e in ls.empty[s.queue] <==> s in owner && owner[s].Free?))
    && (forall s: Slot :: Known(env, s.queue) ==> (s.e in ls.full[s.queue] <==> s in owner && owner[s].Full?))
    && (forall s :: s in owner ==> Known(env, s.queue))
  }

  // Entry s is with the connection or worker that says it has it.
  ghost predicate HolderOk(conns: seq<Conn>, held: map<int, Slot>, s: Slot, p: Place) {
    match p
    case Reserved(c) => 0 <= c < |conns| && conns[c].se.b.slot == Some(s)
    case Held(wid, _) => wid in held && held[wid] == s
    case _ => true
  }

  ghost predicate Holders(conns: seq<Conn>, held: map<int, Slot>, owner: map<Slot, Place>) {
    && (forall s :: s in owner ==> HolderOk(conns, held, s, owner[s]))
    && (forall c :: 0 <= c < |conns| && conns[c].se.b.slot.Some? ==>
          conns[c].se.b.slot.value in owner && owner[conns[c].se.b.slot.value] == Reserved(c))
    && (forall wid :: wid in held ==> held[wid] in owner && owner[held[wid]].Held? && owner[held[wid]].wid == wid)
  }

  ghost predicate Stores(env: Env, ls: Lists, data: map<Slot, seq<Byte>>, owner: map<Slot, Place>)
    requires Complete(env, ls)
  {
    forall s :: s in owner && Known(env, s.queue) ==>
      && s in data && |data[s]| == env.max[s.queue.wid][s.queue.q]
      && s in ls.lens && (owner[s].Free? ==> ls.lens[s] == 0)
  }

  // A lookup that succeeded found an entry of the addressed queue.
  ghost predicate Addressed(lookups: seq<(Header, FindRC<Slot>)>) {
    forall i :: 0 <= i < |lookups| && lookups[i].1.Found? ==>
      lookups[i].1.slot.queue == QueueId(lookups[i].0.wid, lookups[i].0.qidx)
  }

  // The entry under a connection's message holds what the connection stored in it.
  ghost predicate ConnOk(conn: Conn, data: map<Slot, seq<Byte>>) {
    && SessionOk(conn.se) && Addressed(conn.se.lookups) && |conn.fate| == |conn.se.done|
    && (conn.se.b.slot.Some? ==> conn.se.b.slot.value in data && data[conn.se.b.slot.value] == conn.se.current.data)
  }

  predicate HasTicket(p: Place, tk: Ticket) { (p.Full? || p.Held?) && p.tk == tk }

  // The message in an entry on its way: its length and its bytes.
  ghost predicate Carries(ls: Lists, data: map<Slot, seq<Byte>>, s: Slot, m: Message) {
    && m.slot == Some(s) && s in data && data[s] == m.data
    && s in ls.lens && ls.lens[s] == |Joined(m.chunks)| <= |m.data|
  }

  ghost predicate FateOk(sys: System, tk: Ticket, m: Message, fate: Fate) {
    match fate
    case Rejected => m.slot == None
    case Pending(s) => s in sys.owner && HasTicket(sys.owner[s], tk) && Carries(sys.ls, sys.data, s, m)
    case Done(j) =>
      && 0 <= j < |sys.served| && m.slot.Some? && |Joined(m.chunks)| <= |m.data|
      && sys.served[j] == Service(tk, m.slot.value.queue, m.data[..|Joined(m.chunks)|])
  }

  ghost predicate FateAt(sys: System, c: int, i: int) {
    0 <= c < |sys.conns| && 0 <= i < |sys.conns[c].fate| ==>
      i < |sys.conns[c].se.done| && FateOk(sys, Ticket(c, i), sys.conns[c].se.done[i], sys.conns[c].fate[i])
  }

  ghost predicate FatesOk(sys: System) {
    forall c, i :: FateAt(sys, c, i)
  }

  predicate HasFate(conns: seq<Conn>, tk: Ticket, fate: Fate) {
    0 <= tk.c < |conns| && 0 <= tk.i < |conns[tk.c].fate| && conns[tk.c].fate[tk.i] == fate
  }

  ghost predicate TicketsOk(sys: System) {
    && (forall s :: s in sys.owner && (sys.owner[s].Full? || sys.owner[s].Held?) ==>
         HasFate(sys.conns, sys.owner[s].tk, Pending(s)))
    && (forall j :: 0 <= j < |sys.served| ==> HasFate(sys.conns, sys.served[j].tk, Done(j)))
  }

  ghost predicate Inv(env: Env, sys: System) {
    && Complete(env, sys.ls)
    && Listed(env, sys.ls, sys.owner)
    && Holders(sys.conns, sys.held, sys.owner)
    && Stores(env, sys.ls, sys.data, sys.owner)
    && (forall c :: 0 <= c < |sys.conns| ==> ConnOk(sys.conns[c], sys.data))
    && FatesOk(sys) && TicketsOk(sys)
  }

  // ---------------------------------------------------------------------------------------
  // Moving one entry.

  lemma PopDistinct(xs: seq<int>)
    requires Distinct(xs) && xs != []
    ensures Distinct(xs[1..])
    ensures forall e :: e in xs[1..] <==> e in xs && e != xs[0]
  {
    forall e | e in xs && e != xs[0]
      ensures e in xs[1..]
    {
      var i :| 0 <= i < |xs| && xs[i] == e;
      assert xs[1..][i - 1] == e;
    }
  }

  lemma PopEmptyListed(env: Env, ls: Lists, owner: map<Slot, Place>, s: Slot, p: Place)
    requires Complete(env, ls) && Listed(env, ls, owner) && Known(env, s.queue)
    requires ls.empty[s.queue] != [] && ls.empty[s.queue][0] == s.e && (p.Reserved? || p.Held?)
    ensures s in owner && owner[s].Free?
    ensures Complete(env, PopEmpty(ls, s)) && Listed(env, PopEmpty(ls, s), owner[s := p])
  {
    PopDistinct(ls.empty[s.queue]);
    assert s.e in ls.empty[s.queue];
  }

  lemma PopFullListed(env: Env, ls: Lists, owner: map<Slot, Place>, s: Slot, p: Place)
    requires Complete(env, ls) && Listed(env, ls, owner) && Known(env, s.queue)
    requires ls.full[s.queue] != [] && ls.full[s.queue][0] == s.e && (p.Reserved? || p.Held?)
    requires ls.signals[s.queue.wid] > 0
    ensures s in owner && owner[s].Full?
    ensures Complete(env, PopFull(ls, s)) && Listed(env, PopFull(ls, s), owner[s := p])
  {
    PopDistinct(ls.full[s.queue]);
    assert s.e in ls.full[s.queue];
  }

  lemma PushEmptyListed(env: Env, ls: Lists, owner: map<Slot, Place>, s: Slot)
    requires Complete(env, ls) && Listed(env, ls, owner) && s in owner && (owner[s].Reserved? || owner[s].Held?)
    ensures Complete(env, PushEmpty(ls, s)) && Listed(env, PushEmpty(ls, s), owner[s := Free])
  {
  }

  lemma ReleaseListed(env: Env, ls: Lists, owner: map<Slot, Place>, s: Slot, len: nat, tk: Ticket)
    requires Complete(env, ls) && Listed(env, ls, owner) && s in owner && (owner[s].Reserved? || owner[s].Held?)
    ensures Complete(env, Release(ls, Some(s), len)) && Listed(env, Release(ls, Some(s), len), owner[s := Full(tk)])
  {
  }

  // ---------------------------------------------------------------------------------------
  // A call of input_serveConnection.

  // What it does to the lists and where its body bytes go.
  lemma ListsAre(se: Session, env: Env, c: Call)
    requires InSync(se.b, se.seen) && Sized(se.b) && CallOk(env, c)
    requires ServePlan(env, c.ls, se.b, c.script, c.incoming).ok
    ensures var pl, snap := ServePlan(env, c.ls, se.b, c.script, c.incoming), Snap(se.b, c.ls);
            var r := ReadingOf(env, c.ls, se.b, c.script, c.incoming);
            var x := Rest(se.seen) + (r.head + r.body);
            var newHeader := |Rest(se.seen)| < HDRLEN <= |x|;
            var rc := if newHeader then Find(env, c.ls, HeaderOf(x)) else NoWorker;
            var slot := if newHeader then SlotOf(rc) else se.b.slot;
            var ls1 := if newHeader then Unlist(c.ls, rc) else c.ls;
            && ServeStep(snap, env, c.incoming, pl).ls ==
                 (if HasFrame(x) then Release(ls1, slot, HeaderOf(x).datalen) else ls1)
            && Destination(snap, env, c.incoming, pl) == (if HasHeader(x) then slot else None)
            && c.incoming[pl.head..pl.head + pl.body] == r.body
  {
    hide DecodeHeader;
    ReadingFits(env, c.ls, se.b, se.seen, c.script, c.incoming);
  }

  // The lists after a call that reserved `taken`, worked on entry `at`, and completed a message or not.
  function ListsAfter(ls: Lists, taken: Option<Slot>, at: Option<Slot>, finished: bool, len: nat): Lists
    requires taken.Some? ==> taken.value.queue in ls.empty && ls.empty[taken.value.queue] != []
  {
    var ls1 := if taken.Some? then PopEmpty(ls, taken.value) else ls;
    if finished then Release(ls1, at, len) else ls1
  }

  // The next free entry of a queue.
  ghost predicate IsNext(env: Env, ls: Lists, s: Slot)
    requires Complete(env, ls)
  {
    Known(env, s.queue) && ls.empty[s.queue] != [] && ls.empty[s.queue][0] == s.e
  }

  lemma NextSurvives(se: Session, env: Env, c: Call)
    requires CallOk(env, c) && Sized(se.b) && Next(se, env, c).Some? && SessionOk(se)
    ensures ServePlan(env, c.ls, se.b, c.script, c.incoming).ok && InSync(se.b, se.seen) && Complete(env, c.ls)
  {
  }

  // A lookup that succeeds reserves the next free entry; no other changes the lists.
  lemma FindReserves(env: Env, c: Call, h: Header)
    requires CallOk(env, c)
    ensures var rc := Find(env, c.ls, h);
            if rc.Found? then
              IsNext(env, c.ls, rc.slot) && rc.slot in c.data && Unlist(c.ls, rc) == PopEmpty(c.ls, rc.slot)
            else Unlist(c.ls, rc) == c.ls
  {
    var id := QueueId(h.wid, h.qidx);
    if Known(env, id) && c.ls.empty[id] != [] {
      assert Slot(id, c.ls.empty[id][0]) in c.data;
    }
  }

  lemma NextAddressed(se: Session, env: Env, c: Call)
    requires SessionOk(se) && CallOk(env, c) && Sized(se.b) && Next(se, env, c).Some? && Addressed(se.lookups)
    ensures Addressed(Next(se, env, c).value.lookups)
  {
    hide DecodeHeader, Next, ServePlan, SessionOk;
    NextSurvives(se, env, c);
    NextIs(se, env, c);
  }

  // The message under way keeps the size of its entry.
  lemma MessageSizes(x: seq<Byte>, last: (Header, FindRC<Slot>), slot: Option<Slot>, m: Message)
    requires HasHeader(x) && UnderWay(x, last, slot, m)
    ensures m.slot == slot && |Joined(m.chunks)| == |x| - HDRLEN
    ensures slot.Some? ==> |m.data| == |m.before| && |Joined(m.chunks)| <= |m.data|
  {
  }

  function DataAfter(data: map<Slot, seq<Byte>>, at: Option<Slot>, m: Message): map<Slot, seq<Byte>> {
    if at.Some? then data[at.value := m.data] else data
  }

  // How a call takes session se to se' when it may reserve `taken` and works on entry `at`, whose message is then m.
  ghost predicate IsEffect(se: Session, env: Env, ls: Lists, data: map<Slot, seq<Byte>>, taken: Option<Slot>,
                           at: Option<Slot>, m: Message, se': Session)
    requires Complete(env, ls)
  {
    && (taken.Some? ==> se.b.slot == None && IsNext(env, ls, taken.value))
    && at == (if taken.Some? then taken else se.b.slot)
    && (at.Some? ==> at.value in data && |m.data| == |data[at.value]| && |Joined(m.chunks)| <= |m.data|)
    && (|se'.done| > |se.done| ==> m.slot == at && se'.done == se.done + [m] && se'.b.slot == None)
    && (|se'.done| <= |se.done| ==> se'.done == se.done && se'.b.slot == at && (at.Some? ==> se'.current == m))
  }

  // The call had the header of its message, completed in this call or before; x is what it has of the message.
  lemma EffectWithHeader(se: Session, env: Env, c: Call, newHeader: bool, x: seq<Byte>,
                         last: (Header, FindRC<Slot>), m0: Message, got: seq<Byte>, slot: Option<Slot>,
                         se': Session, ls': Lists)
    returns (taken: Option<Slot>)
    requires CallOk(env, c) && HasHeader(x) && |x| <= HDRLEN + HeaderOf(x).datalen <= HDRLEN + MAX_BODY
    requires newHeader ==> se.b.slot == None && last.1 == Find(env, c.ls, last.0)
    requires slot == (if newHeader then SlotOf(last.1) else se.b.slot)
    requires m0 == (if newHeader then Opened(se.current, Some(last.1), c.data) else se.current)
    requires UnderWay(x, last, slot, Extended(m0, got))
    requires se.b.slot.Some? ==> se.b.slot.value in c.data && c.data[se.b.slot.value] == se.current.data
    requires var ls1 := if newHeader then Unlist(c.ls, last.1) else c.ls;
             ls' == if HasFrame(x) then Release(ls1, slot, HeaderOf(x).datalen) else ls1
    requires if HasFrame(x) then se'.done == se.done + [Extended(m0, got)] && se'.b.slot == None
             else se'.done == se.done && se'.b.slot == slot && se'.current == Extended(m0, got)
    ensures taken == if newHeader then slot else None
    ensures IsEffect(se, env, c.ls, c.data, taken, slot, Extended(m0, got), se')
    ensures ls' == ListsAfter(c.ls, taken, slot, |se'.done| > |se.done|, |Joined(Extended(m0, got).chunks)|)
    ensures Store(c.data, slot, got) == DataAfter(c.data, slot, Extended(m0, got))
  {
    hide DecodeHeader, Find, Unlist, UnderWay, Joined, Release, CallOk, Splice;
    taken := if newHeader then slot else None;
    FindReserves(env, c, last.0);
    MessageSizes(x, last, slot, Extended(m0, got));
  }

  /** A call of input_serveConnection as the rest of the system sees it: it may reserve the next free
      entry, it overwrites only the entry of its message, and it may release that. */
  lemma ReadEffect(se: Session, env: Env, c: Call) returns (taken: Option<Slot>, at: Option<Slot>, m: Message)
    requires SessionOk(se) && CallOk(env, c) && Sized(se.b) && Next(se, env, c).Some?
    requires se.b.slot.Some? ==> se.b.slot.value in c.data && c.data[se.b.slot.value] == se.current.data
    ensures var pl := ServePlan(env, c.ls, se.b, c.script, c.incoming);
            var snap, se' := Snap(se.b, c.ls), Next(se, env, c).value;
            && SessionOk(se')
            && IsEffect(se, env, c.ls, c.data, taken, at, m, se')
            && ServeStep(snap, env, c.incoming, pl).ls ==
                 ListsAfter(c.ls, taken, at, |se'.done| > |se.done|, |Joined(m.chunks)|)
            && Store(c.data, Destination(snap, env, c.incoming, pl), c.incoming[pl.head..pl.head + pl.body]) ==
                 DataAfter(c.data, at, m)
  {
    hide DecodeHeader, Next, ServePlan, ServeStep, Destination, Find, Unlist, CallOk, UnderWay, SessionOk, Joined,
         Release, Store, IsNext, Splice;
    NextSurvives(se, env, c);
    NextKeeps(se, env, c);
    NextIs(se, env, c);
    ListsAre(se, env, c);
    ReadingFits(env, c.ls, se.b, se.seen, c.script, c.incoming);
    var r := ReadingOf(env, c.ls, se.b, c.script, c.incoming);
    var x := Rest(se.seen) + (r.head + r.body);
    var se' := Next(se, env, c).value;
    var newHeader := |Rest(se.seen)| < HDRLEN;
    var ls' := ServeStep(Snap(se.b, c.ls), env, c.incoming, ServePlan(env, c.ls, se.b, c.script, c.incoming)).ls;
    if HasHeader(x) {
      var last;
      last, m := UnderWayGrows(se, env, c, r);
      var m0 := if newHeader then Opened(se.current, Some(last.1), c.data) else se.current;
      at := if newHeader then SlotOf(last.1) else se.b.slot;
      taken := EffectWithHeader(se, env, c, newHeader, x, last, m0, r.body, at, se', ls');
    } else {
      taken, at, m := None, None, se.current;
      EffectWithout(se, env, c, r.body, se');
    }
  }

  lemma EffectWithout(se: Session, env: Env, c: Call, got: seq<Byte>, se': Session)
    requires Complete(env, c.ls) && se.b.slot == None && se'.b.slot == None && se'.done == se.done
    ensures IsEffect(se, env, c.ls, c.data, None, None, se.current, se')
    ensures c.ls == ListsAfter(c.ls, None, None, false, |Joined(se.current.chunks)|)
    ensures Store(c.data, None, got) == DataAfter(c.data, None, se.current)
  {
  }

  lemma ReadListed(env: Env, ls: Lists, owner: map<Slot, Place>, c: int, taken: Option<Slot>, at: Option<Slot>,
                   finished: bool, len: nat, tk: Ticket)
    requires Complete(env, ls) && Listed(env, ls, owner)
    requires taken.Some? ==> IsNext(env, ls, taken.value) && at == taken
    requires taken == None && at.Some? ==> at.value in owner && owner[at.value] == Reserved(c)
    ensures var ls' := ListsAfter(ls, taken, at, finished, len);
            var p := if finished then Full(tk) else Reserved(c);
            && Complete(env, ls') && Listed(env, ls', if at.Some? then owner[at.value := p] else owner)
    ensures at.Some? ==> at.value in owner && owner[at.value] == (if taken.Some? then Free else Reserved(c))
  {
    hide Listed;
    var ls1, owner1 := ls, owner;
    if taken.Some? {
      PopEmptyListed(env, ls, owner, taken.value, Reserved(c));
      ls1, owner1 := PopEmpty(ls, taken.value), owner[taken.value := Reserved(c)];
    }
    if at.Some? {
      assert owner1 == owner[at.value := Reserved(c)];
      if finished {
        ReleaseListed(env, ls1, owner1, at.value, len, tk);
        assert owner1[at.value := Full(tk)] == owner[at.value := Full(tk)];
      }
    }
  }

  // The entry a call works on is free or already the connection's own.
  ghost predicate Mine(conns: seq<Conn>, owner: map<Slot, Place>, c: int, at: Option<Slot>)
    requires 0 <= c < |conns|
  {
    && (at.Some? ==> at.value in owner)
    && (at.Some? && conns[c].se.b.slot == None ==> owner[at.value] == Free)
    && (conns[c].se.b.slot.Some? ==> at == conns[c].se.b.slot && owner[at.value] == Reserved(c))
  }

  lemma ReadHolders(conns: seq<Conn>, held: map<int, Slot>, owner: map<Slot, Place>, c: int, at: Option<Slot>,
                    conn: Conn, tk: Ticket)
    requires Holders(conns, held, owner) && 0 <= c < |conns| && Mine(conns, owner, c, at)
    requires conn.se.b.slot == None || conn.se.b.slot == at
    ensures var p := if conn.se.b.slot == None then Full(tk) else Reserved(c);
            Holders(conns[c := conn], held, if at.Some? then owner[at.value := p] else owner)
  {
    var p := if conn.se.b.slot == None then Full(tk) else Reserved(c);
    var conns' := conns[c := conn];
    var owner' := if at.Some? then owner[at.value := p] else owner;
    forall s | s in owner'
      ensures HolderOk(conns', held, s, owner'[s])
    {
      assert HolderOk(conns, held, s, owner[s]);
    }
  }

  lemma ReadStores(env: Env, ls: Lists, data: map<Slot, seq<Byte>>, owner: map<Slot, Place>, ls': Lists,
                   data': map<Slot, seq<Byte>>, at: Option<Slot>, p: Place)
    requires Complete(env, ls) && Complete(env, ls') && Stores(env, ls, data, owner) && !p.Free?
    requires at.Some? ==>
               at.value in owner && at.value in data && at.value in data' && |data'[at.value]| == |data[at.value]|
    requires data' == (if at.Some? then data[at.value := data'[at.value]] else data)
    requires || ls'.lens == ls.lens
             || (at.Some? && at.value in ls'.lens && ls'.lens == ls.lens[at.value := ls'.lens[at.value]])
    ensures Stores(env, ls', data', if at.Some? then owner[at.value := p] else owner)
  {
  }

  // Another connection's entry is not the one this call works on.
  lemma OthersApart(conns: seq<Conn>, held: map<int, Slot>, owner: map<Slot, Place>, c: int, at: Option<Slot>, d: int)
    requires Holders(conns, held, owner) && 0 <= c < |conns| && Mine(conns, owner, c, at) && 0 <= d < |conns| && d != c
    ensures at.Some? ==> conns[d].se.b.slot != at
  {
  }

  // The step from sys to sys' left the record of message i of connection c alone.
  ghost predicate SameRecord(sys: System, sys': System, c: int, i: int) {
    0 <= c < |sys'.conns| && 0 <= i < |sys'.conns[c].fate| ==>
      && c < |sys.conns| && i < |sys.conns[c].fate| && sys'.conns[c].fate[i] == sys.conns[c].fate[i]
      && (i < |sys.conns[c].se.done| ==>
           i < |sys'.conns[c].se.done| && sys'.conns[c].se.done[i] == sys.conns[c].se.done[i])
      && (sys.conns[c].fate[i].Pending? ==> SameEntry(sys, sys', sys.conns[c].fate[i].slot, Ticket(c, i)))
  }

  ghost predicate SameEntry(sys: System, sys': System, s: Slot, tk: Ticket) {
    s in sys.owner && HasTicket(sys.owner[s], tk) && s in sys.data && s in sys.ls.lens ==>
      && s in sys'.owner && HasTicket(sys'.owner[s], tk) && s in sys'.data && sys'.data[s] == sys.data[s]
      && s in sys'.ls.lens && sys'.ls.lens[s] == sys.ls.lens[s]
  }

  // Such a message keeps its fate.
  lemma FateStays(sys: System, sys': System, c: int, i: int)
    requires FateAt(sys, c, i) && sys.served <= sys'.served && SameRecord(sys, sys', c, i)
    ensures FateAt(sys', c, i)
  {
  }

  // The system after a call, in terms of the call's effect.
  function ReadResult(sys: System, c: int, taken: Option<Slot>, at: Option<Slot>, m: Message, se': Session): System
    requires 0 <= c < |sys.conns|
    requires taken.Some? ==> taken.value.queue in sys.ls.empty && sys.ls.empty[taken.value.queue] != []
  {
    var conn := sys.conns[c];
    var tk := Ticket(c, |conn.se.done|);
    var finished := |se'.done| > |conn.se.done|;
    System(
      ListsAfter(sys.ls, taken, at, finished, |Joined(m.chunks)|),
      DataAfter(sys.data, at, m),
      sys.conns[c := Conn(se', true, if !finished then conn.fate
                                     else conn.fate + [if at.Some? then Pending(at.value) else Rejected])],
      sys.held, sys.served,
      if at.Some? then sys.owner[at.value := if finished then Full(tk) else Reserved(c)] else sys.owner)
  }

  ghost predicate EffectOk(env: Env, sys: System, c: int, taken: Option<Slot>, at: Option<Slot>, m: Message,
                           se': Session)
    requires 0 <= c < |sys.conns| && Complete(env, sys.ls)
  {
    var se := sys.conns[c].se;
    && SessionOk(se') && Addressed(se'.lookups)
    && IsEffect(se, env, sys.ls, sys.data, taken, at, m, se')
  }

  lemma ReadIs(env: Env, sys: System, c: int, call: Call)
      returns (taken: Option<Slot>, at: Option<Slot>, m: Message)
    requires Inv(env, sys) && 0 <= c < |sys.conns| && call.ls == sys.ls && call.data == sys.data
    requires CallOk(env, call)
    requires Sized(sys.conns[c].se.b) && Next(sys.conns[c].se, env, call).Some?
    ensures EffectOk(env, sys, c, taken, at, m, Next(sys.conns[c].se, env, call).value)
    ensures AfterRead(env, sys, c, call, Next(sys.conns[c].se, env, call).value)
            == ReadResult(sys, c, taken, at, m, Next(sys.conns[c].se, env, call).value)
  {
    hide Next, ServePlan, ServeStep, Destination, CallOk, SessionOk, Joined, ListsAfter, Listed, Holders, Stores,
         FatesOk, TicketsOk, Store;
    assert ConnOk(sys.conns[c], sys.data);
    taken, at, m := ReadEffect(sys.conns[c].se, env, call);
    NextAddressed(sys.conns[c].se, env, call);
  }

  lemma ConnSlot(sys: System, c: int)
    requires Holders(sys.conns, sys.held, sys.owner) && 0 <= c < |sys.conns|
    ensures var slot := sys.conns[c].se.b.slot;
            slot.Some? ==> slot.value in sys.owner && sys.owner[slot.value] == Reserved(c)
  {
  }

  lemma NextIsThere(env: Env, ls: Lists, taken: Option<Slot>)
    requires Complete(env, ls) && (taken.Some? ==> IsNext(env, ls, taken.value))
    ensures taken.Some? ==> taken.value.queue in ls.empty && ls.empty[taken.value.queue] != []
  {
  }

  lemma OwnedKnown(env: Env, ls: Lists, owner: map<Slot, Place>, at: Option<Slot>)
    requires Complete(env, ls) && Listed(env, ls, owner) && (at.Some? ==> at.value in owner)
    ensures at.Some? ==> Known(env, at.value.queue)
  {
  }

  lemma LensAfter(env: Env, ls: Lists, taken: Option<Slot>, at: Option<Slot>, finished: bool, len: nat)
    requires Complete(env, ls) && (taken.Some? ==> IsNext(env, ls, taken.value))
    requires at.Some? ==> Known(env, at.value.queue)
    ensures ListsAfter(ls, taken, at, finished, len).lens ==
              if finished && at.Some? then ls.lens[at.value := len] else ls.lens
  {
  }

  // The fates after a call: old ones stay, and a message it completed is pending or was rejected.
  lemma ReadFates(env: Env, sys: System, c: int, taken: Option<Slot>, at: Option<Slot>, m: Message, se': Session)
    requires Inv(env, sys) && 0 <= c < |sys.conns| && EffectOk(env, sys, c, taken, at, m, se')
    requires Mine(sys.conns, sys.owner, c, at) && (at.Some? ==> Known(env, at.value.queue))
    ensures FatesOk(ReadResult(sys, c, taken, at, m, se'))
  {
    hide SessionOk, Joined, Listed, Stores, Holders, ListsAfter, Complete;
    var k := |sys.conns[c].se.done|;
    NextIsThere(env, sys.ls, taken);
    var sys' := ReadResult(sys, c, taken, at, m, se');
    LensAfter(env, sys.ls, taken, at, |se'.done| > k, |Joined(m.chunks)|);
    assert ConnOk(sys.conns[c], sys.data);
    forall d, i
      ensures FateAt(sys', d, i)
    {
      if d == c && i == k {
        assert |se'.done| > k && at.Some? ==> Carries(sys'.ls, sys'.data, at.value, m);
      } else {
        assert FateAt(sys, d, i);
        FateStays(sys, sys', d, i);
      }
    }
  }

  lemma ReadTickets(env: Env, sys: System, c: int, taken: Option<Slot>, at: Option<Slot>, m: Message, se': Session)
    requires Inv(env, sys) && 0 <= c < |sys.conns| && EffectOk(env, sys, c, taken, at, m, se')
    requires Mine(sys.conns, sys.owner, c, at)
    ensures TicketsOk(ReadResult(sys, c, taken, at, m, se'))
  {
    hide SessionOk, Joined, Listed, Stores, Holders, ListsAfter, Complete, FatesOk;
    NextIsThere(env, sys.ls, taken);
    var sys' := ReadResult(sys, c, taken, at, m, se');
    assert ConnOk(sys.conns[c], sys.data);
    forall s | s in sys'.owner && (sys'.owner[s].Full? || sys'.owner[s].Held?)
      ensures HasFate(sys'.conns, sys'.owner[s].tk, Pending(s))
    {
      if Some(s) != at {
        assert HasFate(sys.conns, sys.owner[s].tk, Pending(s));
      }
    }
    forall j | 0 <= j < |sys'.served|
      ensures HasFate(sys'.conns, sys'.served[j].tk, Done(j))
    {
      assert HasFate(sys.conns, sys.served[j].tk, Done(j));
    }
  }

  lemma ReadKeeps(env: Env, sys: System, c: int, taken: Option<Slot>, at: Option<Slot>, m: Message, se': Session)
    requires Inv(env, sys) && 0 <= c < |sys.conns| && EffectOk(env, sys, c, taken, at, m, se')
    ensures Inv(env, ReadResult(sys, c, taken, at, m, se'))
  {
    hide SessionOk, Joined, Listed, Stores, Holders;
    var conn := sys.conns[c];
    var tk := Ticket(c, |conn.se.done|);
    var finished := |se'.done| > |conn.se.done|;
    NextIsThere(env, sys.ls, taken);
    var sys' := ReadResult(sys, c, taken, at, m, se');
    assert ConnOk(conn, sys.data);
    ConnSlot(sys, c);
    ReadListed(env, sys.ls, sys.owner, c, taken, at, finished, |Joined(m.chunks)|, tk);
    OwnedKnown(env, sys.ls, sys.owner, at);
    ReadHolders(sys.conns, sys.held, sys.owner, c, at, sys'.conns[c], tk);
    LensAfter(env, sys.ls, taken, at, finished, |Joined(m.chunks)|);
    ReadStores(env, sys.ls, sys.data, sys.owner, sys'.ls, sys'.data, at, if finished then Full(tk) else Reserved(c));
    forall d | 0 <= d < |sys'.conns|
      ensures ConnOk(sys'.conns[d], sys'.data)
    {
      assert ConnOk(sys.conns[d], sys.data);
      if d != c {
        OthersApart(sys.conns, sys.held, sys.owner, c, at, d);
      }
    }
    ReadFates(env, sys, c, taken, at, m, se');
    ReadTickets(env, sys, c, taken, at, m, se');
  }

  // ---------------------------------------------------------------------------------------
  // The other steps.

  // Two systems that differ in connections' sessions in no way, and in fates only where noted.
  lemma HoldersFrame(conns: seq<Conn>, held: map<int, Slot>, owner: map<Slot, Place>, conns': seq<Conn>)
    requires Holders(conns, held, owner) && |conns| <= |conns'|
    requires forall c :: 0 <= c < |conns| ==> conns'[c].se.b.slot == conns[c].se.b.slot
    requires forall c :: |conns| <= c < |conns'| ==> conns'[c].se.b.slot == None
    ensures Holders(conns', held, owner)
  {
    forall s | s in owner
      ensures HolderOk(conns', held, s, owner[s])
    {
      assert HolderOk(conns, held, s, owner[s]);
    }
  }

  lemma AcceptKeeps(env: Env, sys: System)
    requires Inv(env, sys)
    ensures Inv(env, Step(env, sys, Accept).value)
  {
    hide SessionOk, Joined, Listed, Stores, Holders, FateOk;
    NewSessionOk();
    var sys' := Step(env, sys, Accept).value;
    assert NEWSESSION.b.slot == None;
    HoldersFrame(sys.conns, sys.held, sys.owner, sys'.conns);
    FrameKeeps(env, sys, sys');
  }

  lemma CloseKeeps(env: Env, sys: System, c: int)
    requires Inv(env, sys) && Step(env, sys, Close(c)).Some?
    ensures Inv(env, Step(env, sys, Close(c)).value)
  {
    hide SessionOk, Joined, Listed, Stores, Holders, FateOk;
    var sys' := Step(env, sys, Close(c)).value;
    HoldersFrame(sys.conns, sys.held, sys.owner, sys'.conns);
    FrameKeeps(env, sys, sys');
  }

  // A step that only adds new connections or opens and closes some.
  lemma FrameKeeps(env: Env, sys: System, sys': System)
    requires Inv(env, sys) && Holders(sys'.conns, sys'.held, sys'.owner)
    requires sys'.(conns := sys.conns) == sys && |sys.conns| <= |sys'.conns|
    requires forall c :: 0 <= c < |sys.conns| ==>
               sys'.conns[c].se == sys.conns[c].se && sys'.conns[c].fate == sys.conns[c].fate
    requires forall c :: |sys.conns| <= c < |sys'.conns| ==>
               sys'.conns[c].fate == [] && sys'.conns[c].se == NEWSESSION && SessionOk(NEWSESSION)
    ensures Inv(env, sys')
  {
    hide SessionOk, Joined, Listed, Stores, Holders;
    forall c | 0 <= c < |sys'.conns|
      ensures ConnOk(sys'.conns[c], sys'.data)
    {
      if c < |sys.conns| {
        assert ConnOk(sys.conns[c], sys.data);
      }
    }
    forall d, i
      ensures FateAt(sys', d, i)
    {
      assert FateAt(sys, d, i);
    }
    forall s | s in sys'.owner && (sys'.owner[s].Full? || sys'.owner[s].Held?)
      ensures HasFate(sys'.conns, sys'.owner[s].tk, Pending(s))
    {
      assert HasFate(sys.conns, sys.owner[s].tk, Pending(s));
    }
    forall j | 0 <= j < |sys'.served|
      ensures HasFate(sys'.conns, sys'.served[j].tk, Done(j))
    {
      assert HasFate(sys.conns, sys.served[j].tk, Done(j));
    }
  }

  lemma TakeHolders(sys: System, wid: int, s: Slot)
    requires Holders(sys.conns, sys.held, sys.owner) && wid !in sys.held && s in sys.owner && sys.owner[s].Full?
    ensures Holders(sys.conns, sys.held[wid := s], sys.owner[s := Held(wid, sys.owner[s].tk)])
  {
    var held', owner' := sys.held[wid := s], sys.owner[s := Held(wid, sys.owner[s].tk)];
    forall t | t in owner'
      ensures HolderOk(sys.conns, held', t, owner'[t])
    {
      assert HolderOk(sys.conns, sys.held, t, sys.owner[t]);
    }
  }

  // An entry that keeps its ticket keeps its message's fate.
  lemma TakeFates(sys: System, sys': System, s: Slot, p: Place)
    requires FatesOk(sys) && TicketsOk(sys) && s in sys.owner && p.Held? && HasTicket(sys.owner[s], p.tk)
    requires sys'.data == sys.data && sys'.conns == sys.conns && sys'.served == sys.served
    requires sys'.ls.lens == sys.ls.lens
    requires sys'.owner == sys.owner[s := p]
    ensures FatesOk(sys') && TicketsOk(sys')
  {
    forall d, i
      ensures FateAt(sys', d, i)
    {
      FateStays(sys, sys', d, i);
    }
    forall t | t in sys'.owner && (sys'.owner[t].Full? || sys'.owner[t].Held?)
      ensures HasFate(sys'.conns, sys'.owner[t].tk, Pending(t))
    {
      assert HasFate(sys.conns, sys.owner[t].tk, Pending(t));
    }
  }

  lemma StoresFrame(env: Env, ls: Lists, data: map<Slot, seq<Byte>>, owner: map<Slot, Place>, ls': Lists,
                    s: Slot, p: Place)
    requires Complete(env, ls) && Complete(env, ls') && Stores(env, ls, data, owner) && s in owner
    requires ls'.lens == ls.lens || ls'.lens == ls.lens[s := 0]
    requires p.Free? ==> ls'.lens == ls.lens[s := 0]
    ensures Stores(env, ls', data, owner[s := p])
  {
  }

  lemma TakeKeeps(env: Env, sys: System, wid: int, q: int)
    requires Inv(env, sys) && Step(env, sys, Take(wid, q)).Some?
    ensures Inv(env, Step(env, sys, Take(wid, q)).value)
  {
    hide SessionOk, Joined, Holders, Stores, FatesOk, TicketsOk, ConnOk;
    var sys' := Step(env, sys, Take(wid, q)).value;
    var s := Slot(QueueId(wid, q), sys.ls.full[QueueId(wid, q)][0]);
    var p := Held(wid, sys.owner[s].tk);
    PopFullListed(env, sys.ls, sys.owner, s, p);
    TakeHolders(sys, wid, s);
    StoresFrame(env, sys.ls, sys.data, sys.owner, sys'.ls, s, p);
    TakeFates(sys, sys', s, p);
  }

  /** A worker's entry always has a length within its data, so its function can always be called. */
  lemma HeldCanServe(env: Env, sys: System, wid: int)
    requires Inv(env, sys) && wid in sys.held
    ensures CanServe(sys, sys.held[wid])
    ensures var s := sys.held[wid];
            && HasFate(sys.conns, sys.owner[s].tk, Pending(s)) && sys.owner[s].wid == wid && Known(env, s.queue)
            && sys.owner[s].tk.i < |sys.conns[sys.owner[s].tk.c].se.done|
            && Carries(sys.ls, sys.data, s, sys.conns[sys.owner[s].tk.c].se.done[sys.owner[s].tk.i])
  {
    hide SessionOk, Joined;
    var s := sys.held[wid];
    var tk := sys.owner[s].tk;
    assert HasFate(sys.conns, tk, Pending(s));
    assert FateAt(sys, tk.c, tk.i);
  }

  lemma ServeHolders(sys: System, wid: int, conns': seq<Conn>)
    requires Holders(sys.conns, sys.held, sys.owner) && wid in sys.held && |conns'| == |sys.conns|
    requires forall c :: 0 <= c < |conns'| ==> conns'[c].se == sys.conns[c].se
    ensures Holders(conns', sys.held - {wid}, sys.owner[sys.held[wid] := Free])
  {
    HoldersFrame(sys.conns, sys.held, sys.owner, conns');
    var held', owner' := sys.held - {wid}, sys.owner[sys.held[wid] := Free];
    forall t | t in owner'
      ensures HolderOk(conns', held', t, owner'[t])
    {
      assert HolderOk(conns', sys.held, t, sys.owner[t]);
    }
  }

  lemma ServeFate(env: Env, sys: System, wid: int, d: int, i: int)
    requires Inv(env, sys) && wid in sys.held && CanServe(sys, sys.held[wid])
    ensures FateAt(AfterServe(sys, wid), d, i)
  {
    hide SessionOk, Joined, Holders, Stores, Listed, ConnOk;
    var s := sys.held[wid];
    var sys' := AfterServe(sys, wid);
    HeldCanServe(env, sys, wid);
    assert FateAt(sys, d, i);
    if Ticket(d, i) != sys.owner[s].tk {
      FateStays(sys, sys', d, i);
    }
  }

  lemma ServeFates(env: Env, sys: System, wid: int)
    requires Inv(env, sys) && wid in sys.held && CanServe(sys, sys.held[wid])
    ensures FatesOk(AfterServe(sys, wid))
  {
    hide Inv, FateOk, CanServe, AfterServe;
    var sys' := AfterServe(sys, wid);
    forall d, i
      ensures FateAt(sys', d, i)
    {
      ServeFate(env, sys, wid, d, i);
    }
  }

  lemma ServeTickets(env: Env, sys: System, wid: int)
    requires Inv(env, sys) && wid in sys.held && CanServe(sys, sys.held[wid])
    ensures TicketsOk(AfterServe(sys, wid))
  {
    hide SessionOk, Joined, Holders, Stores, Listed, ConnOk, FatesOk;
    var s := sys.held[wid];
    var tk := sys.owner[s].tk;
    var sys' := AfterServe(sys, wid);
    HeldCanServe(env, sys, wid);
    forall t | t in sys'.owner && (sys'.owner[t].Full? || sys'.owner[t].Held?)
      ensures HasFate(sys'.conns, sys'.owner[t].tk, Pending(t))
    {
      assert HasFate(sys.conns, sys.owner[t].tk, Pending(t));
    }
    forall j | 0 <= j < |sys'.served|
      ensures HasFate(sys'.conns, sys'.served[j].tk, Done(j))
    {
      if j < |sys.served| {
        assert HasFate(sys.conns, sys.served[j].tk, Done(j));
      }
    }
  }

  lemma ServeKeeps(env: Env, sys: System, wid: int)
    requires Inv(env, sys) && Step(env, sys, Serve(wid)).Some?
    ensures Inv(env, Step(env, sys, Serve(wid)).value)
  {
    hide SessionOk, Joined, Holders, Stores, FatesOk, TicketsOk;
    var sys' := AfterServe(sys, wid);
    var s := sys.held[wid];
    HeldCanServe(env, sys, wid);
    PushEmptyListed(env, sys.ls, sys.owner, s);
    ServeHolders(sys, wid, sys'.conns);
    StoresFrame(env, sys.ls, sys.data, sys.owner, sys'.ls, s, Free);
    ServeFates(env, sys, wid);
    ServeTickets(env, sys, wid);
    forall c | 0 <= c < |sys'.conns|
      ensures ConnOk(sys'.conns[c], sys'.data)
    {
      assert ConnOk(sys.conns[c], sys.data);
    }
  }

  /** Every step keeps the invariant. */
  lemma StepKeeps(env: Env, sys: System, act: Action)
    requires Inv(env, sys) && Step(env, sys, act).Some?
    ensures Inv(env, Step(env, sys, act).value)
  {
    hide Inv, AfterRead, ReadResult, EffectOk;
    match act
    case Accept => AcceptKeeps(env, sys);
    case Close(c) => CloseKeeps(env, sys, c);
    case Take(wid, q) => TakeKeeps(env, sys, wid, q);
    case Serve(wid) => ServeKeeps(env, sys, wid);
    case Read(c, script, incoming) =>
      var call := Call(script, incoming, sys.ls, sys.data);
      var taken, at, m := ReadIs(env, sys, c, call);
      ReadKeeps(env, sys, c, taken, at, m, Next(sys.conns[c].se, env, call).value);
  }

  lemma FreeEntriesExist(env: Env, sys: System, call: Call)
    requires Inv(env, sys) && call.ls == sys.ls && call.data == sys.data
    ensures CallOk(env, call)
  {
    forall id, i | Known(env, id) && 0 <= i < |sys.ls.empty[id]|
      ensures Slot(id, sys.ls.empty[id][i]) in sys.data
      ensures |sys.data[Slot(id, sys.ls.empty[id][i])]| == env.max[id.wid][id.q]
    {
      assert sys.ls.empty[id][i] in sys.ls.empty[id];
      assert Slot(id, sys.ls.empty[id][i]) in sys.owner;
    }
  }

  lemma ReadIsFree(env: Env, sys: System, c: int, script: seq<Recv>, incoming: seq<Byte>)
    requires Inv(env, sys) && 0 <= c < |sys.conns| && sys.conns[c].open
    ensures Sized(sys.conns[c].se.b)
    ensures Step(env, sys, Read(c, script, incoming)).Some? <==>
              ServePlan(env, sys.ls, sys.conns[c].se.b, script, incoming).ok
  {
    hide ServePlan, ServeStep, AfterRead, Listed, Holders, Stores, FatesOk, TicketsOk, CallOk;
    assert ConnOk(sys.conns[c], sys.data);
    InSyncSized(sys.conns[c].se.b, sys.conns[c].se.seen);
    FreeEntriesExist(env, sys, Call(script, incoming, sys.ls, sys.data));
  }

  lemma TakeIsFree(env: Env, sys: System, wid: int, q: int)
    requires Inv(env, sys) && Known(env, QueueId(wid, q))
    ensures Step(env, sys, Take(wid, q)).Some? <==>
              wid !in sys.held && sys.ls.signals[wid] > 0 && sys.ls.full[QueueId(wid, q)] != []
  {
    hide FatesOk, TicketsOk, Stores, ConnOk, Holders;
    var id := QueueId(wid, q);
    if sys.ls.full[id] != [] {
      assert Slot(id, sys.ls.full[id][0]).e in sys.ls.full[id];
    }
  }

  lemma HeldServes(env: Env, sys: System, wid: int)
    requires Inv(env, sys) && wid in sys.held
    ensures Step(env, sys, Serve(wid)).Some?
  {
    hide Inv, AfterServe;
    HeldCanServe(env, sys, wid);
  }

  /** No step waits for the bookkeeping: a call is possible exactly when the process survives it, a worker
      can take a full entry of its own whenever it is idle and signalled, and serve whatever it holds. */
  lemma BookkeepingNeverBlocks(env: Env, sys: System, c: int, script: seq<Recv>, incoming: seq<Byte>, wid: int,
                               q: int)
    requires Inv(env, sys) && 0 <= c < |sys.conns| && sys.conns[c].open && Known(env, QueueId(wid, q))
    ensures Sized(sys.conns[c].se.b)
    ensures Step(env, sys, Read(c, script, incoming)).Some? <==>
              ServePlan(env, sys.ls, sys.conns[c].se.b, script, incoming).ok
    ensures Step(env, sys, Take(wid, q)).Some? <==>
              wid !in sys.held && sys.ls.signals[wid] > 0 && sys.ls.full[QueueId(wid, q)] != []
    ensures Step(env, sys, Serve(wid)).Some? <==> wid in sys.held
  {
    hide ServePlan, ServeStep, AfterRead, Listed, Holders, Stores, FatesOk, TicketsOk, CanServe;
    ReadIsFree(env, sys, c, script, incoming);
    TakeIsFree(env, sys, wid, q);
    if wid in sys.held {
      HeldServes(env, sys, wid);
    }
  }

  lemma {:induction false} RunKeeps(env: Env, sys: System, acts: seq<Action>)
    requires Inv(env, sys) && Run(env, sys, acts).Some?
    ensures Inv(env, Run(env, sys, acts).value)
    decreases |acts|
  {
    hide Inv, Step;
    if acts != [] {
      StepKeeps(env, sys, acts[0]);
      RunKeeps(env, Step(env, sys, acts[0]).value, acts[1..]);
    }
  }

  // ---------------------------------------------------------------------------------------
  // Whole runs.

  /** Queues as worker_new leaves them, and nobody connected yet. */
  ghost predicate Started(env: Env, qlens: map<QueueId, nat>, sys: System) {
    && sys.conns == [] && sys.held == map[] && sys.served == []
    && (forall id :: Known(env, id) ==>
          && id in qlens && id in sys.ls.empty && id in sys.ls.full
          && sys.ls.empty[id] == seq(qlens[id], i => i) && sys.ls.full[id] == [])
    && (forall wid :: wid in env.max ==> wid in sys.ls.signals && sys.ls.signals[wid] == 0)
    && (forall s: Slot :: s in sys.owner <==> Known(env, s.queue) && s.queue in qlens && 0 <= s.e < qlens[s.queue])
    && (forall s :: s in sys.owner ==> sys.owner[s].Free?)
    && Stores(env, sys.ls, sys.data, sys.owner)
  }

  lemma StartKeeps(env: Env, qlens: map<QueueId, nat>, sys: System)
    requires Started(env, qlens, sys)
    ensures Inv(env, sys)
  {
    forall s: Slot | Known(env, s.queue)
      ensures s.e in sys.ls.empty[s.queue] <==> s in sys.owner && sys.owner[s].Free?
    {
      var xs := sys.ls.empty[s.queue];
      assert xs == seq(qlens[s.queue], i => i);
      if 0 <= s.e < qlens[s.queue] {
        assert xs[s.e] == s.e;
      }
    }
  }

  lemma RunInv(env: Env, qlens: map<QueueId, nat>, sys0: System, acts: seq<Action>)
    requires Started(env, qlens, sys0) && Run(env, sys0, acts).Some?
    ensures Inv(env, Run(env, sys0, acts).value)
  {
    hide *;
    StartKeeps(env, qlens, sys0);
    RunKeeps(env, sys0, acts);
  }

  // Frame i of connection c, what it was looked up as, and the message made of it.
  lemma MessageIsFrame(env: Env, sys: System, c: int, i: int)
    requires Inv(env, sys) && 0 <= c < |sys.conns| && 0 <= i < |sys.conns[c].se.done|
    ensures var se := sys.conns[c].se;
            && |se.done| == |Frames(se.seen)| <= |se.lookups| && |sys.conns[c].fate| == |se.done|
            && FateOk(sys, Ticket(c, i), se.done[i], sys.conns[c].fate[i])
            && var f, m := Frames(se.seen)[i], se.done[i];
            && se.lookups[i].0 == f.hdr && m.slot == SlotOf(se.lookups[i].1) && Joined(m.chunks) == f.body
            && |f.body| == f.hdr.datalen
            && (m.slot.Some? ==>
                  && m.slot.value.queue == QueueId(f.hdr.wid, f.hdr.qidx)
                  && |f.body| <= |m.data|
                  && (Busy(Overlay.Sizes(m.chunks)) <= 1 ==> m.data[..|f.body|] == f.body))
  {
    hide DecodeHeader, FateOk;
    var se := sys.conns[c].se;
    assert ConnOk(sys.conns[c], sys.data);
    var f, m := Frames(se.seen)[i], se.done[i];
    FramesValid(se.seen);
    assert FateAt(sys, c, i);
    assert MessageOk(m, se.lookups[i].1, |f.body|, f.body);
    if m.slot.Some? && Busy(Overlay.Sizes(m.chunks)) <= 1 {
      OneReadStored(m.before, m.chunks);
    }
  }

  /** Everything a worker's function is ever called on is a complete message of some connection, in the
      queue its header addresses, with its length, and with its bytes if one read brought them; and no
      message is passed to a function twice. */
  lemma ServedAreMessages(env: Env, qlens: map<QueueId, nat>, sys0: System, acts: seq<Action>, j: int)
    requires Started(env, qlens, sys0) && Run(env, sys0, acts).Some?
    requires 0 <= j < |Run(env, sys0, acts).value.served|
    ensures var sys := Run(env, sys0, acts).value;
            var sv := sys.served[j];
            && 0 <= sv.tk.c < |sys.conns|
            && 0 <= sv.tk.i < |Frames(sys.conns[sv.tk.c].se.seen)| == |sys.conns[sv.tk.c].se.done|
            && var f, m := Frames(sys.conns[sv.tk.c].se.seen)[sv.tk.i], sys.conns[sv.tk.c].se.done[sv.tk.i];
            && sv.queue == QueueId(f.hdr.wid, f.hdr.qidx) && |sv.input| == f.hdr.datalen
            && (Busy(Overlay.Sizes(m.chunks)) <= 1 ==> sv.input == f.body)
            && forall k :: 0 <= k < |sys.served| && sys.served[k].tk == sv.tk ==> k == j
  {
    hide Started, Run;
    RunInv(env, qlens, sys0, acts);
    var sys := Run(env, sys0, acts).value;
    var tk := sys.served[j].tk;
    assert HasFate(sys.conns, tk, Done(j));
    assert ConnOk(sys.conns[tk.c], sys.data);
    MessageIsFrame(env, sys, tk.c, tk.i);
    forall k | 0 <= k < |sys.served| && sys.served[k].tk == tk
      ensures k == j
    {
      assert HasFate(sys.conns, tk, Done(k));
    }
  }

  // Entry s carries message i of connection c, on its queue's full list or in its worker's hands.
  ghost predicate Waiting(sys: System, s: Slot, tk: Ticket) {
    && s in sys.owner && HasTicket(sys.owner[s], tk) && s.queue in sys.ls.full
    && (s.e in sys.ls.full[s.queue] || (exists wid :: wid in sys.held && sys.held[wid] == s))
  }

  // Message i of connection c was passed to a function.
  ghost predicate Handed(sys: System, j: int, tk: Ticket) {
    0 <= j < |sys.served| && sys.served[j].tk == tk
  }

  /** A complete message that found no entry is never served; one that did is either waiting in exactly one
      entry, of the addressed queue and with its length recorded, or was passed to a function, once. */
  lemma CompletedAreAccounted(env: Env, qlens: map<QueueId, nat>, sys0: System, acts: seq<Action>, c: int, i: int)
    requires Started(env, qlens, sys0) && Run(env, sys0, acts).Some?
    requires var sys := Run(env, sys0, acts).value;
             0 <= c < |sys.conns| && 0 <= i < |Frames(sys.conns[c].se.seen)|
    ensures var sys, tk := Run(env, sys0, acts).value, Ticket(c, i);
            var f := Frames(sys.conns[c].se.seen)[i];
            && i < |sys.conns[c].se.lookups| && sys.conns[c].se.lookups[i].0 == f.hdr
            && (sys.conns[c].se.lookups[i].1.Found? <==>
                  (exists s :: Waiting(sys, s, tk)) || (exists j :: Handed(sys, j, tk)))
            && !((exists s :: Waiting(sys, s, tk)) && (exists j :: Handed(sys, j, tk)))
            && (forall s, t :: Waiting(sys, s, tk) && Waiting(sys, t, tk) ==> s == t)
            && (forall j, k :: Handed(sys, j, tk) && Handed(sys, k, tk) ==> j == k)
            && (forall s :: Waiting(sys, s, tk) ==>
                  s.queue == QueueId(f.hdr.wid, f.hdr.qidx) && s in sys.ls.lens && sys.ls.lens[s] == f.hdr.datalen)
  {
    hide Started, Run, SessionOk;
    RunInv(env, qlens, sys0, acts);
    var sys, tk := Run(env, sys0, acts).value, Ticket(c, i);
    ConnFrames(env, sys, c);
    MessageIsFrame(env, sys, c, i);
    hide Inv;
    TicketFates(env, sys, tk);
    match sys.conns[c].fate[i]
    case Pending(s) => assert Waiting(sys, s, tk);
    case Done(j) => assert Handed(sys, j, tk);
    case Rejected =>
  }

  lemma ConnFrames(env: Env, sys: System, c: int)
    requires Inv(env, sys) && 0 <= c < |sys.conns|
    ensures |sys.conns[c].fate| == |sys.conns[c].se.done| == |Frames(sys.conns[c].se.seen)|
  {
    hide DecodeHeader;
    assert ConnOk(sys.conns[c], sys.data);
  }

  // What has a ticket has the fate that says so.
  lemma TicketFates(env: Env, sys: System, tk: Ticket)
    requires Inv(env, sys)
    ensures forall s :: s in sys.owner && HasTicket(sys.owner[s], tk) ==> HasFate(sys.conns, tk, Pending(s))
    ensures forall s :: s in sys.owner && HasTicket(sys.owner[s], tk) ==> s.queue in sys.ls.full && Waiting(sys, s, tk)
    ensures forall j :: Handed(sys, j, tk) ==> HasFate(sys.conns, tk, Done(j))
  {
    hide FatesOk, Stores, ConnOk;
    forall s | s in sys.owner && HasTicket(sys.owner[s], tk)
      ensures HasFate(sys.conns, tk, Pending(s)) && Waiting(sys, s, tk)
    {
      assert HolderOk(sys.conns, sys.held, s, sys.owner[s]);
      assert Known(env, s.queue);
    }
    forall j | Handed(sys, j, tk)
      ensures HasFate(sys.conns, tk, Done(j))
    {
      assert HasFate(sys.conns, sys.served[j].tk, Done(j));
    }
  }

  predicate ConnHas(sys: System, c: int, s: Slot) { 0 <= c < |sys.conns| && sys.conns[c].se.b.slot == Some(s) }

  predicate WorkerHas(sys: System, wid: int, s: Slot) { wid in sys.held && sys.held[wid] == s }

  /** Every entry is in exactly one place, once: a list of its queue, an open or lost connection, a worker. */
  ghost predicate OnePlace(sys: System, s: Slot) {
    && s.queue in sys.ls.empty && s.queue in sys.ls.full
    && Distinct(sys.ls.empty[s.queue]) && Distinct(sys.ls.full[s.queue])
    && (forall c, d :: ConnHas(sys, c, s) && ConnHas(sys, d, s) ==> c == d)
    && (forall w, v :: WorkerHas(sys, w, s) && WorkerHas(sys, v, s) ==> w == v)
    && var a, b := s.e in sys.ls.empty[s.queue], s.e in sys.ls.full[s.queue];
       var r, h := (exists c :: ConnHas(sys, c, s)), (exists w :: WorkerHas(sys, w, s));
       (a || b || r || h) && !(a && b) && !(r && h) && !((a || b) && (r || h))
  }

  lemma InvOnePlace(env: Env, sys: System, s: Slot)
    requires Inv(env, sys) && s in sys.owner
    ensures OnePlace(sys, s)
  {
    hide FatesOk, TicketsOk, Stores, ConnOk;
    assert Known(env, s.queue);
    assert HolderOk(sys.conns, sys.held, s, sys.owner[s]);
    match sys.owner[s]
    case Reserved(c) => assert ConnHas(sys, c, s);
    case Held(wid, _) => assert WorkerHas(sys, wid, s);
    case _ =>
  }

  lemma StepKeys(env: Env, sys: System, act: Action)
    requires Inv(env, sys) && Step(env, sys, act).Some?
    ensures Step(env, sys, act).value.owner.Keys == sys.owner.Keys
  {
    hide Inv, ReadResult, ListsAfter;
    if act.Read? {
      var call := Call(act.script, act.incoming, sys.ls, sys.data);
      var taken, at, m := ReadIs(env, sys, act.c, call);
      ReadKeys(env, sys, act.c, taken, at, m, Next(sys.conns[act.c].se, env, call).value);
    } else if act.Serve? {
      HeldCanServe(env, sys, act.wid);
    }
  }

  lemma ReadKeys(env: Env, sys: System, c: int, taken: Option<Slot>, at: Option<Slot>, m: Message, se': Session)
    requires Inv(env, sys) && 0 <= c < |sys.conns| && EffectOk(env, sys, c, taken, at, m, se')
    ensures ReadResult(sys, c, taken, at, m, se').owner.Keys == sys.owner.Keys
  {
    hide Listed, Stores, FatesOk, TicketsOk, SessionOk, Holders, Joined, ConnOk;
    ConnSlot(sys, c);
    ReadListed(env, sys.ls, sys.owner, c, taken, at, false, 0, Ticket(0, 0));
  }

  lemma {:induction false} RunKeys(env: Env, sys: System, acts: seq<Action>)
    requires Inv(env, sys) && Run(env, sys, acts).Some?
    ensures Run(env, sys, acts).value.owner.Keys == sys.owner.Keys
    decreases |acts|
  {
    hide Inv, Step;
    if acts != [] {
      StepKeys(env, sys, acts[0]);
      StepKeeps(env, sys, acts[0]);
      RunKeys(env, Step(env, sys, acts[0]).value, acts[1..]);
    }
  }

  /** No run of any connections and workers loses, duplicates or misplaces an entry. */
  lemma EntriesConserved(env: Env, qlens: map<QueueId, nat>, sys0: System, acts: seq<Action>, s: Slot)
    requires Started(env, qlens, sys0) && Run(env, sys0, acts).Some?
    requires Known(env, s.queue) && s.queue in qlens && 0 <= s.e < qlens[s.queue]
    ensures OnePlace(Run(env, sys0, acts).value, s)
  {
    hide Run, OnePlace;
    assert s in sys0.owner;
    StartKeeps(env, qlens, sys0);
    RunKeys(env, sys0, acts);
    RunInv(env, qlens, sys0, acts);
    InvOnePlace(env, Run(env, sys0, acts).value, s);
  }

  /** A free entry has length 0; one on a full list has the length of its message, within maxentrysize. */
  lemma LengthsAreRight(env: Env, qlens: map<QueueId, nat>, sys0: System, acts: seq<Action>, s: Slot)
    requires Started(env, qlens, sys0) && Run(env, sys0, acts).Some?
    requires var sys := Run(env, sys0, acts).value;
             Known(env, s.queue) && s.queue in sys.ls.empty && s.queue in sys.ls.full
    ensures var sys := Run(env, sys0, acts).value;
            && (s.e in sys.ls.empty[s.queue] ==> s in sys.ls.lens && sys.ls.lens[s] == 0)
            && (s.e in sys.ls.full[s.queue] ==>
                  && s in sys.owner && sys.owner[s].Full? && s in sys.ls.lens
                  && var tk := sys.owner[s].tk;
                  && 0 <= tk.c < |sys.conns| && 0 <= tk.i < |Frames(sys.conns[tk.c].se.seen)|
                  && sys.ls.lens[s] == Frames(sys.conns[tk.c].se.seen)[tk.i].hdr.datalen
                  && sys.ls.lens[s] <= env.max[s.queue.wid][s.queue.q])
  {
    hide Started, Run, SessionOk, Next, Joined;
    RunInv(env, qlens, sys0, acts);
    var sys := Run(env, sys0, acts).value;
    if s.e in sys.ls.full[s.queue] {
      var tk := sys.owner[s].tk;
      assert HasFate(sys.conns, tk, Pending(s));
      ConnFrames(env, sys, tk.c);
      MessageIsFrame(env, sys, tk.c, tk.i);
    }
  }

  // ---------------------------------------------------------------------------------------
  // Signals.

  /** Full entries on the first k queues of worker wid. */
  function FullOf(full: map<QueueId, seq<int>>, wid: int, k: nat): nat {
    if k == 0 then 0
    else FullOf(full, wid, k - 1) + (if QueueId(wid, k - 1) in full then |full[QueueId(wid, k - 1)]| else 0)
  }

  lemma {:induction false} FullOfUpdate(full: map<QueueId, seq<int>>, id: QueueId, xs: seq<int>, wid: int, k: nat)
    requires id in full
    ensures FullOf(full[id := xs], wid, k) ==
              FullOf(full, wid, k) + if id.wid == wid && 0 <= id.q < k then |xs| - |full[id]| else 0
  {
    if k > 0 {
      FullOfUpdate(full, id, xs, wid, k - 1);
    }
  }

  lemma {:induction false} SomeFull(full: map<QueueId, seq<int>>, wid: int, k: nat) returns (q: int)
    requires FullOf(full, wid, k) > 0
    ensures 0 <= q < k && QueueId(wid, q) in full && full[QueueId(wid, q)] != []
  {
    q := k - 1;
    if QueueId(wid, q) !in full || full[QueueId(wid, q)] == [] {
      q := SomeFull(full, wid, k - 1);
    }
  }

  ghost predicate Signalled(env: Env, ls: Lists)
    requires Complete(env, ls)
  {
    forall wid :: wid in env.max ==> ls.signals[wid] == FullOf(ls.full, wid, |env.max[wid]|)
  }

  lemma ReleaseSignals(env: Env, ls: Lists, slot: Option<Slot>, len: nat)
    requires Complete(env, ls) && Signalled(env, ls) && (slot.Some? ==> Known(env, slot.value.queue))
    ensures Complete(env, Release(ls, slot, len)) && Signalled(env, Release(ls, slot, len))
  {
    if slot.Some? {
      var s := slot.value;
      forall wid | wid in env.max
        ensures Release(ls, slot, len).signals[wid] == FullOf(Release(ls, slot, len).full, wid, |env.max[wid]|)
      {
        FullOfUpdate(ls.full, s.queue, [s.e] + ls.full[s.queue], wid, |env.max[wid]|);
      }
    }
  }

  lemma PopFullSignals(env: Env, ls: Lists, s: Slot)
    requires Complete(env, ls) && Signalled(env, ls) && Known(env, s.queue) && ls.full[s.queue] != []
    requires ls.signals[s.queue.wid] > 0
    ensures Complete(env, PopFull(ls, s)) && Signalled(env, PopFull(ls, s))
  {
    forall wid | wid in env.max
      ensures PopFull(ls, s).signals[wid] == FullOf(PopFull(ls, s).full, wid, |env.max[wid]|)
    {
      FullOfUpdate(ls.full, s.queue, ls.full[s.queue][1..], wid, |env.max[wid]|);
    }
  }

  lemma ReadSignals(env: Env, sys: System, c: int, taken: Option<Slot>, at: Option<Slot>, m: Message, se': Session)
    requires Inv(env, sys) && Signalled(env, sys.ls) && 0 <= c < |sys.conns|
    requires EffectOk(env, sys, c, taken, at, m, se')
    ensures Complete(env, ReadResult(sys, c, taken, at, m, se').ls)
    ensures Signalled(env, ReadResult(sys, c, taken, at, m, se').ls)
  {
    hide Listed, Stores, FatesOk, TicketsOk, SessionOk, Holders, Joined, ConnOk, Release;
    ConnSlot(sys, c);
    ReadListed(env, sys.ls, sys.owner, c, taken, at, false, 0, Ticket(0, 0));
    OwnedKnown(env, sys.ls, sys.owner, at);
    var ls1 := if taken.Some? then PopEmpty(sys.ls, taken.value) else sys.ls;
    assert Complete(env, ls1) && Signalled(env, ls1);
    ReleaseSignals(env, ls1, at, |Joined(m.chunks)|);
  }

  lemma StepSignals(env: Env, sys: System, act: Action)
    requires Inv(env, sys) && Signalled(env, sys.ls) && Step(env, sys, act).Some?
    ensures Complete(env, Step(env, sys, act).value.ls) && Signalled(env, Step(env, sys, act).value.ls)
  {
    hide Listed, Holders, Stores, FatesOk, TicketsOk, ConnOk, ReadResult, EffectOk, ListsAfter, PopFull, FullOf;
    match act
    case Read(c, script, incoming) =>
      var call := Call(script, incoming, sys.ls, sys.data);
      var taken, at, m := ReadIs(env, sys, c, call);
      ReadSignals(env, sys, c, taken, at, m, Next(sys.conns[c].se, env, call).value);
    case Take(wid, q) =>
      var s := Slot(QueueId(wid, q), sys.ls.full[QueueId(wid, q)][0]);
      OwnedKnown(env, sys.ls, sys.owner, Some(s));
      PopFullSignals(env, sys.ls, s);
    case _ =>
  }

  lemma {:induction false} RunSignals(env: Env, sys: System, acts: seq<Action>)
    requires Inv(env, sys) && Signalled(env, sys.ls) && Run(env, sys, acts).Some?
    ensures Inv(env, Run(env, sys, acts).value) && Signalled(env, Run(env, sys, acts).value.ls)
    decreases |acts|
  {
    hide Step, Listed, Holders, Stores, FatesOk, TicketsOk, ConnOk, Signalled;
    if acts != [] {
      StepKeeps(env, sys, acts[0]);
      StepSignals(env, sys, acts[0]);
      RunSignals(env, Step(env, sys, acts[0]).value, acts[1..]);
    }
  }

  lemma {:induction false} NoneFullOf(full: map<QueueId, seq<int>>, wid: int, k: nat)
    requires forall q :: 0 <= q < k && QueueId(wid, q) in full ==> full[QueueId(wid, q)] == []
    ensures FullOf(full, wid, k) == 0
  {
    if k > 0 {
      NoneFullOf(full, wid, k - 1);
    }
  }

  /** In every run a worker's semaphore counts exactly the full entries of its queues, so an idle worker that is
      signalled has an entry to take. */
  lemma SignalsCountEntries(env: Env, qlens: map<QueueId, nat>, sys0: System, acts: seq<Action>, wid: int)
    requires Started(env, qlens, sys0) && Run(env, sys0, acts).Some? && wid in env.max
    ensures var sys := Run(env, sys0, acts).value;
            && wid in sys.ls.signals && sys.ls.signals[wid] == FullOf(sys.ls.full, wid, |env.max[wid]|)
            && (wid !in sys.held && sys.ls.signals[wid] > 0 ==>
                 exists q :: 0 <= q < |env.max[wid]| && Step(env, sys, Take(wid, q)).Some?)
  {
    hide Run, Step, FatesOk, TicketsOk, Stores, ConnOk, Holders, Listed;
    StartKeeps(env, qlens, sys0);
    forall w | w in env.max
      ensures sys0.ls.signals[w] == FullOf(sys0.ls.full, w, |env.max[w]|)
    {
      assert forall q :: 0 <= q < |env.max[w]| ==> Known(env, QueueId(w, q));
      NoneFullOf(sys0.ls.full, w, |env.max[w]|);
    }
    RunSignals(env, sys0, acts);
    var sys := Run(env, sys0, acts).value;
    if wid !in sys.held && sys.ls.signals[wid] > 0 {
      var q := SomeFull(sys.ls.full, wid, |env.max[wid]|);
      TakeIsFree(env, sys, wid, q);
    }
  }
}
