// worker_new (worker.c): from a list of queue descriptors to the worker's array of queues.
module WorkerLayout {
  import opened Common

  // struct queue_desc: `count` queues of qlen entries of maxentrysize bytes.
  datatype Desc = Desc(maxentrysize: nat, qlen: nat, count: Qid)

  datatype Cell = Unset | Allocated(maxentrysize: nat, qlen: nat)

  // A value stored in a qid_t.
  function Wrap(v: int): Qid {
    ((v + 0x8000) % 0x1_0000 - 0x8000) as Qid
  }

  function Positive(c: Qid): nat { if c > 0 then c as int else 0 }

  /** How many slots the loops fill for the first d descriptors; a negative count fills none. */
  function Before(qds: seq<Desc>, d: nat): nat
    requires d <= |qds|
  {
    if d == 0 then 0 else Before(qds, d - 1) + Positive(qds[d - 1].count)
  }

  /** What the first d counts add up to. */
  function Sum(qds: seq<Desc>, d: nat): int
    requires d <= |qds|
  {
    if d == 0 then 0 else Sum(qds, d - 1) + qds[d - 1].count as int
  }

  lemma {:induction false} BeforeMono(qds: seq<Desc>, d: nat, e: nat)
    requires d <= e <= |qds|
    ensures Before(qds, d) <= Before(qds, e)
    decreases e
  {
    if e > 0 {
      BeforeMono(qds, if d == e then d - 1 else d, e - 1);
    }
  }

  /** Slot k lies in the interval of descriptor d. */
  predicate InInterval(qds: seq<Desc>, d: nat, k: int)
    requires d < |qds|
  {
    Before(qds, d) <= k < Before(qds, d + 1)
  }

  /** Every slot belongs to exactly one descriptor. */
  lemma {:induction false} IntervalsPartition(qds: seq<Desc>, k: int, n: nat) returns (d: nat)
    requires n <= |qds| && 0 <= k < Before(qds, n)
    ensures d < n && InInterval(qds, d, k)
    ensures forall e :: 0 <= e < |qds| && InInterval(qds, e, k) ==> e == d
    decreases n
  {
    if k >= Before(qds, n - 1) {
      d := n - 1;
    } else {
      d := IntervalsPartition(qds, k, n - 1);
    }
    forall e | 0 <= e < |qds| && InInterval(qds, e, k)
      ensures e == d
    {
      if e < d {
        BeforeMono(qds, e + 1, d);
      } else if d < e {
        BeforeMono(qds, d + 1, e);
      }
    }
  }

  /** Slots 0..k-1 hold queues of the sizes their descriptors give and the others are not set. */
  ghost predicate Filled(qds: seq<Desc>, queues: seq<Cell>, k: int) {
    && (forall i, d :: 0 <= i < k && i < |queues| && 0 <= d < |qds| && InInterval(qds, d, i) ==>
         queues[i] == Allocated(qds[d].maxentrysize, qds[d].qlen))
    && (forall i :: k <= i < |queues| && 0 <= i ==> queues[i] == Unset)
  }

  lemma NothingFilled(qds: seq<Desc>, queues: seq<Cell>)
    requires forall i :: 0 <= i < |queues| ==> queues[i] == Unset
    ensures Filled(qds, queues, 0)
  {
  }

  lemma FillNext(qds: seq<Desc>, queues: seq<Cell>, k: nat, d: nat)
    requires d < |qds| && k < |queues| && InInterval(qds, d, k) && Filled(qds, queues, k)
    ensures Filled(qds, queues[k := Allocated(qds[d].maxentrysize, qds[d].qlen)], k + 1)
  {
    BeforeMono(qds, d + 1, |qds|);
    var e := IntervalsPartition(qds, k, |qds|);
  }

  // Slot k has the sizes of the descriptor whose interval contains it.
  lemma FilledSlot(qds: seq<Desc>, queues: seq<Cell>, k: nat, d: nat)
    requires Filled(qds, queues, |queues|) && k < |queues| && d < |qds| && Before(qds, d) <= k < Before(qds, d + 1)
    ensures queues[k] == Allocated(qds[d].maxentrysize, qds[d].qlen)
  {
    assert InInterval(qds, d, k);
  }

  lemma FilledSlots(qds: seq<Desc>, queues: seq<Cell>)
    requires Filled(qds, queues, |queues|) && Before(qds, |qds|) == |queues|
    ensures forall k, d :: 0 <= k < |queues| && 0 <= d < |qds| && Before(qds, d) <= k < Before(qds, d + 1) ==>
              && queues[k].Allocated?
              && queues[k].maxentrysize == qds[d].maxentrysize && queues[k].qlen == qds[d].qlen
  {
    hide Filled;
    forall k, d | 0 <= k < |queues| && 0 <= d < |qds| && Before(qds, d) <= k < Before(qds, d + 1)
      ensures queues[k] == Allocated(qds[d].maxentrysize, qds[d].qlen)
    {
      FilledSlot(qds, queues, k, d);
    }
  }

  // Adding in 16 bits is adding and then wrapping.
  lemma WrapAdd(a: int, c: int)
    ensures Wrap(Wrap(a) as int + c) == Wrap(a + c)
  {
  }

  /** The first loop: how many queues in all, in 16 bits. */
  method Count(qds: seq<Desc>) returns (numqs: Qid)
    requires |qds| < 0x8000
    ensures numqs == Wrap(Sum(qds, |qds|))
  {
    numqs := 0;
    var qdi: Qid := 0;
    while (qdi as int) < |qds|
      invariant 0 <= qdi as int <= |qds| && numqs == Wrap(Sum(qds, qdi as int))
    {
      WrapAdd(Sum(qds, qdi as int), qds[qdi].count as int);
      numqs := Wrap(numqs as int + qds[qdi].count as int);
      qdi := qdi + 1;
    }
  }

  /** worker_new for any counts; `ok` is false where it would store past the array or its last assertion
      fails.  Otherwise every slot is set, slot k with the sizes of the one descriptor whose interval
      contains k. */
  method New(qds: seq<Desc>) returns (queues: array<Cell>, numqs: Qid, qi: Qid, ok: bool)
    requires |qds| < 0x8000
    ensures numqs == Wrap(Sum(qds, |qds|))
    ensures ok <==> Before(qds, |qds|) == numqs as int
    ensures ok ==> queues.Length == numqs as int && qi == numqs
    ensures ok ==>
              var qs := queues[..];
              forall k, d :: 0 <= k < |qs| && 0 <= d < |qds| && Before(qds, d) <= k < Before(qds, d + 1) ==>
                && qs[k].Allocated?
                && qs[k].maxentrysize == qds[d].maxentrysize && qs[k].qlen == qds[d].qlen
  {
    hide Filled;
    numqs := Count(qds);
    queues := new Cell[if numqs < 0 then 0 else numqs](_ => Unset);
    qi := 0;
    var qdi: Qid := 0;
    NothingFilled(qds, queues[..]);
    while (qdi as int) < |qds|
      invariant 0 <= qdi as int <= |qds| && qi as int == Before(qds, qdi as int)
      invariant Filled(qds, queues[..], qi as int)
    {
      var qd := qds[qdi];
      var qdj: Qid := 0;
      BeforeMono(qds, qdi as int + 1, |qds|);
      while qdj < qd.count
        invariant 0 <= qdj as int <= Positive(qd.count) && qi as int == Before(qds, qdi as int) + qdj as int
        invariant Filled(qds, queues[..], qi as int)
      {
        if qi as int >= queues.Length {
          return queues, numqs, qi, false;
        }
        FillNext(qds, queues[..], qi as int, qdi as int);
        queues[qi] := Allocated(qd.maxentrysize, qd.qlen);
        qi := qi + 1;
        qdj := qdj + 1;
      }
      qdi := qdi + 1;
    }
    ok := numqs == qi;
    if ok {
      FilledSlots(qds, queues[..]);
    }
  }

  /** What the negative counts add up to. */
  function Negative(qds: seq<Desc>, d: nat): int
    requires d <= |qds|
  {
    Sum(qds, d) - Before(qds, d)
  }

  lemma {:induction false} NegativeIs(qds: seq<Desc>, d: nat)
    requires d <= |qds|
    ensures Negative(qds, d) <= 0
    ensures Negative(qds, d) == 0 <==> forall i :: 0 <= i < d ==> 0 <= qds[i].count
  {
    if d > 0 {
      NegativeIs(qds, d - 1);
    }
  }

  /** worker_new succeeds exactly when the positive counts fit a qid_t and the negative ones, if there are any,
      cancel out in 16 bits; in particular whenever no count is negative and the sum is at most 32767. */
  lemma SucceedsIff(qds: seq<Desc>)
    ensures Before(qds, |qds|) == Wrap(Sum(qds, |qds|)) as int
            <==> Before(qds, |qds|) < 0x8000 && Negative(qds, |qds|) % 0x1_0000 == 0
    ensures (forall i :: 0 <= i < |qds| ==> 0 <= qds[i].count) && Sum(qds, |qds|) < 0x8000 ==>
              Before(qds, |qds|) == Wrap(Sum(qds, |qds|)) as int
  {
    NegativeIs(qds, |qds|);
    WrapShift(Before(qds, |qds|), Negative(qds, |qds|));
  }

  lemma WrapShift(p: nat, n: int)
    ensures p == Wrap(p + n) as int <==> p < 0x8000 && n % 0x1_0000 == 0
  {
    var w := (p + n + 0x8000) / 0x1_0000;
    assert Wrap(p + n) as int == p + n - 0x1_0000 * w;
    if p < 0x8000 && n % 0x1_0000 == 0 {
      assert n == 0x1_0000 * (n / 0x1_0000);
    }
  }
}
