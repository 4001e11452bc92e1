// rr_queue_scan.c: the worker's search for a full entry, while producers keep pushing.
module RoundRobin {
  import opened Common
  import opened Channel

  const QID_MIN: Qid := 0

  datatype Push<M> = Push(q: int, item: Item<M>)

  // What producers push, in order, onto full lists.
  function PushAll<M>(qs: seq<Queue<M>>, ps: seq<Push<M>>): (r: seq<Queue<M>>)
    ensures |r| == |qs|
    ensures forall j :: 0 <= j < |qs| ==> r[j].empty == qs[j].empty && |r[j].full| >= |qs[j].full|
    decreases |ps|
  {
    if ps == [] then qs
    else if !(0 <= ps[0].q < |qs|) then PushAll(qs, ps[1..])
    else
      var q := qs[ps[0].q];
      PushAll(qs[ps[0].q := q.(full := [ps[0].item] + q.full)], ps[1..])
  }

  // The items pushed onto list j, newest first.
  function Newest<M>(ps: seq<Push<M>>, j: int): seq<Item<M>> {
    if ps == [] then [] else Newest(ps[1..], j) + (if ps[0].q == j then [ps[0].item] else [])
  }

  lemma {:induction false} PushedOn<M>(qs: seq<Queue<M>>, ps: seq<Push<M>>, j: int)
    requires 0 <= j < |qs|
    ensures PushAll(qs, ps)[j].full == Newest(ps, j) + qs[j].full
    decreases |ps|
  {
    if ps != [] {
      var q := ps[0].q;
      PushedOn(if 0 <= q < |qs| then qs[q := qs[q].(full := [ps[0].item] + qs[q].full)] else qs, ps[1..], j);
    }
  }

  // at are positions of pushes onto list j.
  ghost predicate Pushes<M>(ps: seq<Push<M>>, j: int, at: seq<int>) {
    forall x :: 0 <= x < |at| ==> 0 <= at[x] < |ps| && ps[at[x]].q == j
  }

  ghost predicate Descending(at: seq<int>) { forall x, y :: 0 <= x < y < |at| ==> at[x] > at[y] }

  // Every push onto list j is among them.
  ghost predicate Covers<M>(ps: seq<Push<M>>, j: int, at: seq<int>) {
    forall i :: 0 <= i < |ps| && ps[i].q == j ==> i in at
  }

  function Shifted(at: seq<int>): (r: seq<int>)
    ensures |r| == |at| && forall x :: 0 <= x < |at| ==> r[x] == at[x] + 1
  {
    seq(|at|, x requires 0 <= x < |at| => at[x] + 1)
  }

  lemma ShiftCovers<M>(ps: seq<Push<M>>, j: int, later: seq<int>)
    requires ps != [] && Covers(ps[1..], j, later)
    ensures forall i :: 1 <= i < |ps| && ps[i].q == j ==> i in Shifted(later)
  {
    forall i | 1 <= i < |ps| && ps[i].q == j
      ensures i in Shifted(later)
    {
      assert ps[1..][i - 1].q == j;
      var x :| 0 <= x < |later| && later[x] == i - 1;
      assert Shifted(later)[x] == i;
    }
  }

  lemma {:induction false} NewestAt<M>(ps: seq<Push<M>>, j: int) returns (at: seq<int>)
    ensures Pushes(ps, j, at) && Descending(at) && Covers(ps, j, at) && |Newest(ps, j)| == |at|
    ensures forall x :: 0 <= x < |at| ==> Newest(ps, j)[x] == ps[at[x]].item
  {
    at := [];
    if ps != [] {
      var later := NewestAt(ps[1..], j);
      ShiftCovers(ps, j, later);
      at := Shifted(later) + (if ps[0].q == j then [0] else []);
    }
  }

  /** After the pushes ps, list j is the items of the pushes addressed to it, last first, and then what it held. */
  lemma PushedAre<M>(qs: seq<Queue<M>>, ps: seq<Push<M>>, j: int) returns (at: seq<int>)
    requires 0 <= j < |qs|
    ensures forall x :: 0 <= x < |at| ==> 0 <= at[x] < |ps| && ps[at[x]].q == j
    ensures forall x, y :: 0 <= x < y < |at| ==> at[x] > at[y]
    ensures forall i :: 0 <= i < |ps| && ps[i].q == j ==> i in at
    ensures var full := PushAll(qs, ps)[j].full;
            && |full| == |at| + |qs[j].full| && full[|at|..] == qs[j].full
            && forall x :: 0 <= x < |at| ==> full[x] == ps[at[x]].item
  {
    hide PushAll, Newest;
    at := NewestAt(ps, j);
    PushedOn(qs, ps, j);
  }

  // ---------------------------------------------------------------------------------------
  // What is pushed before probe number k.

  // No push of env(0)..env(k - 1) is addressed to list j.
  ghost predicate NonePushed<M>(env: nat -> seq<Push<M>>, k: nat, j: int) {
    forall i: nat, x :: i < k && 0 <= x < |env(i)| ==> env(i)[x].q != j
  }

  // Push x of env(i) is the last of env(0)..env(k - 1) addressed to list j.
  ghost predicate LastPushed<M>(env: nat -> seq<Push<M>>, k: nat, j: int, i: nat, x: int) {
    && i < k && 0 <= x < |env(i)| && env(i)[x].q == j
    && (forall y :: x < y < |env(i)| ==> env(i)[y].q != j)
    && forall l: nat, y :: i < l < k && 0 <= y < |env(l)| ==> env(l)[y].q != j
  }

  // The head of list j by then: the last push, or what was there.
  lemma {:induction false} HeadBefore<M>(qs: seq<Queue<M>>, env: nat -> seq<Push<M>>, k: nat, j: int)
    requires 0 <= j < |qs|
    ensures var full := Meanwhile(qs, env, k)[j].full;
            || (NonePushed(env, k, j) && full == qs[j].full)
            || (full != [] && exists i: nat, x :: LastPushed(env, k, j, i, x) && full[0] == env(i)[x].item)
  {
    hide PushAll, LastPushed, NonePushed;
    if k == 0 {
      NoneYet(env, j);
    } else {
      HeadBefore(qs, env, k - 1, j);
      var before, full := Meanwhile(qs, env, k - 1), Meanwhile(qs, env, k)[j].full;
      var at := PushedAre(before, env(k - 1), j);
      if at != [] {
        LastIsFirst(env(k - 1), j, at);
        LastNow(env, k, env(k - 1), j, at[0]);
      } else {
        StillLast(env, k, env(k - 1), j);
      }
    }
  }

  lemma NoneYet<M>(env: nat -> seq<Push<M>>, j: int)
    ensures NonePushed(env, 0, j)
  {
  }

  lemma LastNow<M>(env: nat -> seq<Push<M>>, k: nat, ps: seq<Push<M>>, j: int, x: int)
    requires k > 0 && ps == env(k - 1) && 0 <= x < |ps| && ps[x].q == j
    requires forall y :: x < y < |ps| ==> ps[y].q != j
    ensures LastPushed(env, k, j, k - 1, x)
  {
  }

  // Nothing more for list j.
  lemma StillLast<M>(env: nat -> seq<Push<M>>, k: nat, ps: seq<Push<M>>, j: int)
    requires k > 0 && ps == env(k - 1) && forall y :: 0 <= y < |ps| ==> ps[y].q != j
    ensures NonePushed(env, k - 1, j) ==> NonePushed(env, k, j)
    ensures forall i: nat, x :: LastPushed(env, k - 1, j, i, x) ==> LastPushed(env, k, j, i, x)
  {
  }

  lemma LastIsFirst<M>(ps: seq<Push<M>>, j: int, at: seq<int>)
    requires at != [] && (forall x :: 0 <= x < |at| ==> 0 <= at[x] < |ps| && ps[at[x]].q == j)
    requires forall x, y :: 0 <= x < y < |at| ==> at[x] > at[y]
    requires forall i :: 0 <= i < |ps| && ps[i].q == j ==> i in at
    ensures forall y :: at[0] < y < |ps| ==> ps[y].q != j
  {
  }

  /** The queues after the pushes that come before probe number k, probes taking nothing. */
  function Meanwhile<M>(qs: seq<Queue<M>>, env: nat -> seq<Push<M>>, k: nat): (r: seq<Queue<M>>)
    ensures |r| == |qs|
    ensures forall j :: 0 <= j < |qs| ==> r[j].empty == qs[j].empty && |r[j].full| >= |qs[j].full|
  {
    if k == 0 then qs else PushAll(Meanwhile(qs, env, k - 1), env(k - 1))
  }

  // The cursor after k probes from c.
  function CursorAfter(n: nat, c: int, k: nat): int {
    if k == 0 then c else NextCursor(n, CursorAfter(n, c, k - 1))
  }

  function TakeFirst<M>(qs: seq<Queue<M>>, j: int): seq<Queue<M>>
    requires 0 <= j < |qs| && qs[j].full != []
  {
    qs[j := qs[j].(full := qs[j].full[1..])]
  }

  predicate EmptyAt<M>(qs: seq<Queue<M>>, j: int) {
    0 <= j < |qs| && qs[j].full == []
  }

  // Probe number k of a scan from cursor c came upon an empty queue.
  predicate FoundNothing<M>(was: seq<Queue<M>>, env: nat -> seq<Push<M>>, c: int, k: nat) {
    EmptyAt(Meanwhile(was, env, k + 1), CursorAfter(|was|, c, k))
  }

  ghost predicate MissesBefore<M>(was: seq<Queue<M>>, env: nat -> seq<Push<M>>, c: int, probes: nat) {
    forall k :: 0 <= k < probes ==> FoundNothing(was, env, c, k)
  }

  // Every queue that was not empty at the start is still k + Ahead(cursor) probes away from c.
  ghost predicate Closer<M>(was: seq<Queue<M>>, c: int, cursor: int, k: nat) {
    forall j :: 0 <= j < |was| && was[j].full != [] ==> k + Ahead(|was|, cursor, j) == Ahead(|was|, c, j)
  }

  lemma MissGetsCloser<M>(was: seq<Queue<M>>, env: nat -> seq<Push<M>>, c: int, cursor: int, k: nat)
    requires 0 <= c < |was| && 0 <= cursor < |was| && Closer(was, c, cursor, k)
    requires EmptyAt(Meanwhile(was, env, k + 1), cursor)
    ensures Closer(was, c, NextCursor(|was|, cursor), k + 1)
  {
    hide PushAll;
  }

  // i of n in cyclic order, at most once around.
  function Around(n: nat, i: int): int { if i < n then i else i - n }

  // The queue that probe number k of a scan from c comes to was empty at the call, and nothing has been pushed on it.
  ghost predicate PassedOver<M>(was: seq<Queue<M>>, env: nat -> seq<Push<M>>, c: int, k: nat) {
    var j := Around(|was|, c + k);
    0 <= j < |was| && was[j].full == [] && NonePushed(env, k + 1, j)
  }

  /** Probe number k of a scan from c, at queue idx, is the first to find an entry there by then, and takes qe: the
      last one pushed on it so far, or else the one that was its newest at the call. */
  ghost predicate FirstFound<M>(was: seq<Queue<M>>, env: nat -> seq<Push<M>>, c: int, k: nat, idx: int, qe: Item<M>) {
    && k < |was| && idx == Around(|was|, c + k) && 0 <= idx < |was|
    && (forall l :: 0 <= l < k ==> PassedOver(was, env, c, l))
    && if NonePushed(env, k + 1, idx) then was[idx].full != [] && qe == was[idx].full[0]
       else exists i: nat, x :: LastPushed(env, k + 1, idx, i, x) && qe == env(i)[x].item
  }

  // The entry that probe number k finds.
  ghost predicate FoundAt<M>(was: seq<Queue<M>>, env: nat -> seq<Push<M>>, c: int, k: nat, idx: int, qe: Item<M>,
                             qs: seq<Queue<M>>) {
    var now := Meanwhile(was, env, k + 1);
    && idx == CursorAfter(|was|, c, k) && 0 <= idx < |now| && now[idx].full != []
    && qe == now[idx].full[0] && qs == TakeFirst(now, idx)
  }

  class Worker<M> {
    var qs: seq<Queue<M>>

    constructor (qs: seq<Queue<M>>)
      ensures this.qs == qs
    {
      this.qs := qs;
    }

    /** queue_getFullEntry, as one step: the newest full entry, and whether it was the last. */
    method GetFullEntry(qi: Qid) returns (qe: Option<Item<M>>, edge: bool)
      requires 0 <= qi as int < |qs|
      modifies this
      ensures if old(qs)[qi].full == [] then qe == None && qs == old(qs) && !edge
              else
                && qe == Some(old(qs)[qi].full[0]) && edge == (|old(qs)[qi].full| == 1)
                && qs == old(qs)[qi as int := Queue(old(qs)[qi].empty, old(qs)[qi].full[1..])]
    {
      edge := false;
      if qs[qi].full == [] {
        return None, edge;
      }
      qe := Some(qs[qi].full[0]);
      edge := |qs[qi].full| == 1;
      qs := qs[qi as int := qs[qi].(full := qs[qi].full[1..])];
    }

    // Other threads run between two probes.
    method Interfere(ps: seq<Push<M>>)
      modifies this
      ensures qs == PushAll(old(qs), ps)
    {
      qs := PushAll(qs, ps);
    }

    /** rr_queue_scanfull, storing the popped index, while env(k) is pushed before probe k.  It takes the
        first entry of the first probed queue that is not empty by then, after at most as many probes
        as lead to any queue that was not empty at the call. */
    method ScanFull(n: Qid, ss: Qid, env: nat -> seq<Push<M>>)
      returns (idx: Qid, qe: Item<M>, ss': Qid, probes: nat)
      requires n as int == |qs| && 0 <= ss < n && TotalFull(qs) > 0
      modifies this
      ensures probes >= 1 && 0 <= ss' < n && ss' as int == CursorAfter(|old(qs)|, ss as int, probes)
      ensures FoundAt(old(qs), env, ss as int, probes - 1, idx as int, qe, qs)
      ensures MissesBefore(old(qs), env, ss as int, probes - 1)
      ensures forall j :: 0 <= j < |old(qs)| && old(qs)[j].full != [] ==> probes - 1 <= Ahead(|old(qs)|, ss as int, j)
      ensures FirstFound(old(qs), env, ss as int, probes - 1, idx as int, qe)
    {
      hide PushAll, Meanwhile, FoundNothing, MissesBefore, FoundAt, TotalFull, CursorAfter, NextCursor,
           TakeFirst, FirstFound;
      var qi := ss;
      var tqe: Option<Item<M>> := None;
      ghost var was, c := qs, ss as int;
      ghost var j0 := FindFull(qs);
      idx := qi;
      probes := 0;
      ScanStarts(was, env, c);
      while tqe == None
        invariant 0 <= qi < n && qi as int == CursorAfter(|was|, c, probes)
        invariant tqe == None ==> qs == Meanwhile(was, env, probes)
        invariant if tqe == None then Closer(was, c, qi as int, probes)
                  else probes >= 1 && Closer(was, c, idx as int, probes - 1)
        invariant tqe != None ==> 0 <= idx < n && FoundAt(was, env, c, probes - 1, idx as int, tqe.value, qs)
        invariant MissesBefore(was, env, c, if tqe == None then probes else probes - 1)
        decreases if tqe == None then 1 + Ahead(|was|, qi as int, j0) else 0
      {
        idx := qi;
        Interfere(env(probes));
        ProbeOutcome(was, env, c, qi as int, probes);
        var edge;
        tqe, edge := GetFullEntry(qi);
        qi := qi + 1;
        if qi == n {
          qi := QID_MIN;
        }
        probes := probes + 1;
      }
      qe := tqe.value;
      ss' := qi;
      ScanFound(was, env, c, probes - 1, idx as int, qe, qs, j0);
    }
  }

  lemma {:induction false} CursorIsAround(n: nat, c: int, k: nat)
    requires 0 <= c < n && k <= n
    ensures k < n ==> CursorAfter(n, c, k) == Around(n, c + k)
  {
    if k > 0 {
      CursorIsAround(n, c, k - 1);
    }
  }

  // The probes of a scan, in terms of what was on the lists and what was pushed.
  lemma ScanFound<M>(was: seq<Queue<M>>, env: nat -> seq<Push<M>>, c: int, k: nat, idx: int, qe: Item<M>,
                     qs: seq<Queue<M>>, j0: int)
    requires 0 <= c < |was| && FoundAt(was, env, c, k, idx, qe, qs) && MissesBefore(was, env, c, k)
    requires 0 <= j0 < |was| && k <= Ahead(|was|, c, j0)
    ensures FirstFound(was, env, c, k, idx, qe)
  {
    hide PushAll, NonePushed, LastPushed, Meanwhile;
    CursorIsAround(|was|, c, k);
    HeadBefore(was, env, k + 1, idx);
    NotBoth(env, k + 1, idx);
    forall l | 0 <= l < k
      ensures PassedOver(was, env, c, l)
    {
      assert FoundNothing(was, env, c, l);
      CursorIsAround(|was|, c, l);
      HeadBefore(was, env, l + 1, Around(|was|, c + l));
    }
  }

  lemma NotBoth<M>(env: nat -> seq<Push<M>>, k: nat, j: int)
    ensures NonePushed(env, k, j) ==> forall i: nat, x :: !LastPushed(env, k, j, i, x)
  {
  }

  lemma ScanStarts<M>(was: seq<Queue<M>>, env: nat -> seq<Push<M>>, c: int)
    ensures CursorAfter(|was|, c, 0) == c && Meanwhile(was, env, 0) == was && Closer(was, c, c, 0)
    ensures MissesBefore(was, env, c, 0)
  {
  }

  // What probe number k, at the cursor, does to the search.
  lemma ProbeOutcome<M>(was: seq<Queue<M>>, env: nat -> seq<Push<M>>, c: int, cursor: int, k: nat)
    requires 0 <= c < |was| && 0 <= cursor < |was| && cursor == CursorAfter(|was|, c, k)
    requires Closer(was, c, cursor, k) && MissesBefore(was, env, c, k)
    ensures CursorAfter(|was|, c, k + 1) == NextCursor(|was|, cursor) == if cursor + 1 == |was| then 0 else cursor + 1
    ensures var now := Meanwhile(was, env, k + 1);
            && now == PushAll(Meanwhile(was, env, k), env(k)) && |now| == |was|
            && (now[cursor].full == [] ==>
                  && Closer(was, c, NextCursor(|was|, cursor), k + 1) && MissesBefore(was, env, c, k + 1)
                  && forall j :: 0 <= j < |was| && was[j].full != [] ==>
                       Ahead(|was|, NextCursor(|was|, cursor), j) < Ahead(|was|, cursor, j))
            && (now[cursor].full != [] ==>
                  && FoundAt(was, env, c, k, cursor, now[cursor].full[0], TakeFirst(now, cursor))
                  && TakeFirst(now, cursor) == now[cursor := Queue(now[cursor].empty, now[cursor].full[1..])])
  {
    hide PushAll;
    if Meanwhile(was, env, k + 1)[cursor].full == [] {
      MissGetsCloser(was, env, c, cursor, k);
    }
  }
}
