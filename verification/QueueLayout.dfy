// queue_init (queue.c) over the raw bytes of the block that holds the entries.
//
// An entry is a header of two 8-byte words, next and len, followed by maxentrysize bytes of data.
// Offsets count from the `entries` member; a stored pointer is `base` plus an offset, 0 is null.
module QueueLayout {
  import opened Bytes
  import CasQueue

  const HDR := 16

  function PointerBytes(): (n: nat)
    ensures n == 8
  {
    8
  }

  // A stored pointer or size_t.
  function Word(v: nat): (w: seq<Byte>)
    ensures |w| == 8
  {
    ToLE(v, PointerBytes())
  }

  // queue_getentryi: byte offset of entry i, one entry size at a time.
  function Off(m: nat, i: nat): nat {
    if i == 0 then 0 else Off(m, i - 1) + HDR + m
  }

  // The offset at which queue_init writes the last node.  As written it is &entries[qlen-1], which
  // steps by the bare header; the intended one is queue_getentryi(this, qlen-1).
  function LastOff(m: nat, qlen: nat, intended: bool): nat
    requires qlen >= 1
  {
    if intended then Off(m, qlen - 1) else HDR * (qlen - 1)
  }

  function BlockSize(m: nat, qlen: nat): nat { Off(m, qlen) }

  // Stored pointers fit in a word.
  predicate Addressable(base: nat, m: nat, qlen: nat) {
    1 <= base && base + BlockSize(m, qlen) < Pow256(PointerBytes())
  }

  lemma OffNext(m: nat, i: nat)
    ensures Off(m, i + 1) == Off(m, i) + HDR + m
  {
  }

  lemma {:induction false} OffMono(m: nat, i: nat, j: nat)
    requires i < j
    ensures Off(m, i) + HDR + m <= Off(m, j)
    decreases j
  {
    OffNext(m, j - 1);
    if i < j - 1 {
      OffMono(m, i, j - 1);
    }
  }

  lemma {:induction false} OffSplit(m: nat, i: nat)
    ensures Off(m, i) == HDR * i + m * i
  {
    if i > 0 {
      OffSplit(m, i - 1);
      assert m * i == m * (i - 1) + m;
    }
  }

  /** The offset is the product that queue_getentryi computes. */
  lemma {:induction false} OffIsProduct(m: nat, i: nat)
    ensures Off(m, i) == (HDR + m) * i
  {
    OffSplit(m, i);
  }

  lemma LastInside(m: nat, qlen: nat, intended: bool)
    requires qlen >= 1
    ensures LastOff(m, qlen, intended) + HDR <= BlockSize(m, qlen)
  {
    OffNext(m, qlen - 1);
    OffSplit(m, qlen - 1);
  }

  /** Entries occupy pairwise disjoint ranges inside the block that worker_new allocates. */
  lemma EntriesDisjoint(m: nat, qlen: nat, i: nat, j: nat)
    requires i < qlen && j < qlen && i != j
    ensures Off(m, i) + HDR + m <= BlockSize(m, qlen)
    ensures Off(m, i) + HDR + m <= Off(m, j) || Off(m, j) + HDR + m <= Off(m, i)
  {
    OffMono(m, i, qlen);
    if i < j {
      OffMono(m, i, j);
    } else {
      OffMono(m, j, i);
    }
  }

  // ---------------------------------------------------------------------------------------
  // What queue_init writes.

  // tmp->len = 0; tmp->next = next
  function PutNode(mem: seq<Byte>, off: nat, next: nat): (r: seq<Byte>)
    requires off + HDR <= |mem|
    ensures |r| == |mem|
  {
    Splice(Splice(mem, off + 8, Word(0)), off, Word(next))
  }

  // The first k entries, each pointing to the one after it.
  function Threaded(mem: seq<Byte>, base: nat, m: nat, k: nat): (r: seq<Byte>)
    requires Off(m, k) <= |mem|
    ensures |r| == |mem|
  {
    if k == 0 then mem else
      OffNext(m, k - 1);
      PutNode(Threaded(mem, base, m, k - 1), Off(m, k - 1), base + Off(m, k))
  }

  function InitImage(mem: seq<Byte>, base: nat, m: nat, qlen: nat, intended: bool): (r: seq<Byte>)
    requires qlen >= 1 && |mem| == BlockSize(m, qlen)
    ensures |r| == |mem|
  {
    OffNext(m, qlen - 1);
    LastInside(m, qlen, intended);
    PutNode(Threaded(mem, base, m, qlen - 1), LastOff(m, qlen, intended), 0)
  }

  // Clearing the length of a single node first changes nothing.
  lemma SingleNode(mem: seq<Byte>)
    requires HDR <= |mem|
    ensures PutNode(Splice(mem, 8, Word(0)), 0, 0) == PutNode(mem, 0, 0)
  {
  }

  class Queue {
    var empty: nat
    var full: nat
    const mem: array<Byte>
    const base: nat
    const maxentrysize: nat
    const qlen: nat

    constructor (mem: array<Byte>, base: nat, maxentrysize: nat, qlen: nat)
      ensures this.mem == mem && this.base == base && this.maxentrysize == maxentrysize && this.qlen == qlen
    {
      this.mem, this.base, this.maxentrysize, this.qlen := mem, base, maxentrysize, qlen;
    }

    method StoreWord(off: nat, v: nat)
      requires off + 8 <= mem.Length
      modifies mem
      ensures mem[..] == Splice(old(mem[..]), off, Word(v))
    {
      var w := Word(v);
      for i := 0 to 8
        invariant forall j :: 0 <= j < mem.Length ==>
          mem[j] == (if off <= j < off + i then w[j - off] else old(mem[j]))
      {
        mem[off + i] := w[i];
      }
    }

    method StoreNode(off: nat, next: nat)
      requires off + HDR <= mem.Length
      modifies mem
      ensures mem[..] == PutNode(old(mem[..]), off, next)
    {
      StoreWord(off + 8, 0);
      StoreWord(off, next);
    }

    /** queue_init; `intended` picks the address of the last node. */
    method Init(intended: bool)
      requires qlen >= 1 && mem.Length == BlockSize(maxentrysize, qlen)
      modifies this, mem
      ensures mem[..] == InitImage(old(mem[..]), base, maxentrysize, qlen, intended)
      ensures empty == base && full == 0
    {
      hide PutNode, Splice, Word;
      ghost var was := mem[..];
      OffNext(maxentrysize, 0);
      OffMono(maxentrysize, 0, qlen);
      LastInside(maxentrysize, qlen, intended);
      if qlen == 1 {
        StoreWord(8, 0);
      }
      empty := base;
      var k := 0;
      while k < qlen - 1
        invariant 0 <= k <= qlen - 1 && Off(maxentrysize, k) <= mem.Length
        invariant qlen == 1 || mem[..] == Threaded(was, base, maxentrysize, k)
        invariant qlen == 1 ==> mem[..] == Splice(was, 8, Word(0))
        invariant empty == base
      {
        OffNext(maxentrysize, k);
        OffMono(maxentrysize, k + 1, qlen);
        StoreNode(Off(maxentrysize, k), base + Off(maxentrysize, k + 1));
        k := k + 1;
      }
      StoreNode(LastOff(maxentrysize, qlen, intended), 0);
      if qlen == 1 {
        SingleNode(was);
      }
      full := 0;
    }
  }

  // ---------------------------------------------------------------------------------------
  // What a reader finds afterwards.

  function NextAt(mem: seq<Byte>, off: nat): nat
    requires off + HDR <= |mem|
  {
    FromLE(mem[off..off + 8])
  }

  function LenAt(mem: seq<Byte>, off: nat): nat
    requires off + HDR <= |mem|
  {
    FromLE(mem[off + 8..off + HDR])
  }

  // The pointer that stands for an entry number.
  function PtrTo(base: nat, m: nat, i: int): nat
    requires i >= -1
  {
    if i == -1 then 0 else base + Off(m, i)
  }

  lemma InBlock(m: nat, qlen: nat, i: nat)
    requires i < qlen
    ensures Off(m, i) + HDR <= BlockSize(m, qlen)
  {
    OffMono(m, i, qlen);
  }

  // Entry i points where the free list of the step machine has it point: 0, 1, .., qlen-1, null.
  ghost predicate LinkAt(mem: seq<Byte>, base: nat, m: nat, qlen: nat, i: nat)
    requires i < qlen && |mem| == BlockSize(m, qlen)
  {
    InBlock(m, qlen, i);
    NextAt(mem, Off(m, i)) == PtrTo(base, m, CasQueue.Init(CasQueue.Config(qlen, 0, {}, 0)).next[i])
  }

  ghost predicate LenZeroAt(mem: seq<Byte>, m: nat, qlen: nat, i: nat)
    requires i < qlen && |mem| == BlockSize(m, qlen)
  {
    InBlock(m, qlen, i);
    LenAt(mem, Off(m, i)) == 0
  }

  ghost predicate LinksThread(mem: seq<Byte>, base: nat, m: nat, qlen: nat) {
    |mem| == BlockSize(m, qlen) && forall i :: 0 <= i < qlen ==> LinkAt(mem, base, m, qlen, i)
  }

  ghost predicate LensZero(mem: seq<Byte>, m: nat, qlen: nat) {
    |mem| == BlockSize(m, qlen) && forall i :: 0 <= i < qlen ==> LenZeroAt(mem, m, qlen, i)
  }

  // Byte by byte, what the first k nodes are.
  ghost predicate NodeBytes(mem: seq<Byte>, off: nat, next: nat)
    requires off + HDR <= |mem|
  {
    && (forall b :: off <= b < off + 8 ==> mem[b] == Word(next)[b - off])
    && (forall b :: off + 8 <= b < off + HDR ==> mem[b] == 0)
  }

  // Entry i is the node of the free list that points to entry i + 1.
  ghost predicate NodeAt(mem: seq<Byte>, base: nat, m: nat, i: nat) {
    Off(m, i) + HDR <= |mem| && NodeBytes(mem, Off(m, i), base + Off(m, i + 1))
  }

  lemma ZeroWord()
    ensures forall i :: 0 <= i < 8 ==> Word(0)[i] == 0
  {
    FromToLE(0, PointerBytes());
    ZeroLE(Word(0));
  }

  lemma PutNodeBytes(mem: seq<Byte>, off: nat, next: nat)
    requires off + HDR <= |mem|
    ensures NodeBytes(PutNode(mem, off, next), off, next)
    ensures forall b :: 0 <= b < |mem| && !(off <= b < off + HDR) ==> PutNode(mem, off, next)[b] == mem[b]
  {
    ZeroWord();
  }

  lemma NodeWords(mem: seq<Byte>, off: nat, next: nat)
    requires off + HDR <= |mem| && NodeBytes(mem, off, next) && next < Pow256(PointerBytes())
    ensures NextAt(mem, off) == next && LenAt(mem, off) == 0
  {
    assert mem[off..off + 8] == Word(next);
    FromToLE(next, PointerBytes());
    ZeroLE(mem[off + 8..off + HDR]);
  }

  lemma NodeFrame(mem: seq<Byte>, mem': seq<Byte>, off: nat, next: nat)
    requires off + HDR <= |mem| == |mem'| && NodeBytes(mem, off, next)
    requires forall b :: off <= b < off + HDR ==> mem'[b] == mem[b]
    ensures NodeBytes(mem', off, next)
  {
  }

  lemma {:induction false} ThreadedBytes(mem: seq<Byte>, base: nat, m: nat, k: nat)
    requires Off(m, k) <= |mem|
    ensures forall i :: 0 <= i < k ==> NodeAt(Threaded(mem, base, m, k), base, m, i)
    ensures forall b :: Off(m, k) <= b < |mem| ==> Threaded(mem, base, m, k)[b] == mem[b]
    decreases k
  {
    hide PutNode, NodeBytes, Word, Splice;
    if k > 0 {
      OffNext(m, k - 1);
      ThreadedBytes(mem, base, m, k - 1);
      var before := Threaded(mem, base, m, k - 1);
      PutNodeBytes(before, Off(m, k - 1), base + Off(m, k));
      forall i | 0 <= i < k
        ensures NodeAt(Threaded(mem, base, m, k), base, m, i)
      {
        if i < k - 1 {
          OffMono(m, i, k - 1);
          assert NodeAt(before, base, m, i);
          NodeFrame(before, Threaded(mem, base, m, k), Off(m, i), base + Off(m, i + 1));
        }
      }
    }
  }

  // How far the last node, as written, lands short of where it belongs.
  function Shortfall(m: nat, qlen: nat): nat
    requires qlen >= 1
  {
    m * (qlen - 1)
  }

  // A node whose next word precedes the store keeps it; zeros over its len word change nothing.
  lemma ImageWords(before: seq<Byte>, img: seq<Byte>, off: nat, last: nat, next: nat)
    requires off + HDR <= |before| == |img| && last + HDR <= |img| && NodeBytes(before, off, next)
    requires off + 8 <= last && next < Pow256(PointerBytes())
    requires NodeBytes(img, last, 0)
    requires forall b :: 0 <= b < |img| && !(last <= b < last + HDR) ==> img[b] == before[b]
    ensures NextAt(img, off) == next && LenAt(img, off) == 0
  {
    ZeroWord();
    assert NodeBytes(img, off, next);
    NodeWords(img, off, next);
  }

  lemma LastWhere(m: nat, qlen: nat, intended: bool)
    requires qlen >= 1
    ensures LastOff(m, qlen, intended) + (if intended then 0 else Shortfall(m, qlen)) == Off(m, qlen - 1)
    ensures LastOff(m, qlen, intended) + HDR <= BlockSize(m, qlen)
  {
    OffSplit(m, qlen - 1);
    LastInside(m, qlen, intended);
  }

  // The image is the threaded nodes with one more node stored over them.
  lemma ImageIs(mem: seq<Byte>, base: nat, m: nat, qlen: nat, intended: bool) returns (before: seq<Byte>)
    requires qlen >= 1 && |mem| == BlockSize(m, qlen)
    ensures |before| == |mem| && LastOff(m, qlen, intended) + HDR <= |mem|
    ensures NodeBytes(InitImage(mem, base, m, qlen, intended), LastOff(m, qlen, intended), 0)
    ensures forall b :: 0 <= b < |mem| && !(LastOff(m, qlen, intended) <= b < LastOff(m, qlen, intended) + HDR) ==>
              InitImage(mem, base, m, qlen, intended)[b] == before[b]
    ensures forall i :: 0 <= i < qlen - 1 ==> NodeAt(before, base, m, i)
    ensures forall b :: Off(m, qlen - 1) <= b < |mem| ==> before[b] == mem[b]
  {
    LastInside(m, qlen, intended);
    OffNext(m, qlen - 1);
    ThreadedBytes(mem, base, m, qlen - 1);
    before := Threaded(mem, base, m, qlen - 1);
    PutNodeBytes(before, LastOff(m, qlen, intended), 0);
  }

  lemma LinkFrom(img: seq<Byte>, base: nat, m: nat, qlen: nat, i: nat)
    requires i + 1 < qlen && |img| == BlockSize(m, qlen) && Off(m, i) + HDR <= |img|
    requires NextAt(img, Off(m, i)) == base + Off(m, i + 1) && LenAt(img, Off(m, i)) == 0
    ensures LinkAt(img, base, m, qlen, i) && LenZeroAt(img, m, qlen, i)
  {
  }

  // Every node but the last keeps its next word.
  lemma ImageInner(mem: seq<Byte>, base: nat, m: nat, qlen: nat, intended: bool, i: nat)
    requires i + 1 < qlen && |mem| == BlockSize(m, qlen) && Addressable(base, m, qlen)
    requires intended || Shortfall(m, qlen) <= 8
    ensures LinkAt(InitImage(mem, base, m, qlen, intended), base, m, qlen, i)
    ensures LenZeroAt(InitImage(mem, base, m, qlen, intended), m, qlen, i)
  {
    hide InitImage, Threaded, PutNode, NodeBytes, Word, Splice, LinkAt, LenZeroAt, LastOff;
    var before := ImageIs(mem, base, m, qlen, intended);
    var img, last := InitImage(mem, base, m, qlen, intended), LastOff(m, qlen, intended);
    InBlock(m, qlen, i);
    LastWhere(m, qlen, intended);
    assert NodeAt(before, base, m, i);
    assert Off(m, i) + 8 <= last by {
      OffMono(m, i, qlen - 1);
    }
    assert base + Off(m, i + 1) < Pow256(PointerBytes()) by {
      OffMono(m, i + 1, qlen);
    }
    ImageWords(before, img, Off(m, i), last, base + Off(m, i + 1));
    LinkFrom(img, base, m, qlen, i);
  }

  lemma ImageTail(mem: seq<Byte>, base: nat, m: nat, qlen: nat, intended: bool)
    requires qlen >= 1 && |mem| == BlockSize(m, qlen)
    requires intended || Shortfall(m, qlen) <= 8
    ensures LinkAt(InitImage(mem, base, m, qlen, intended), base, m, qlen, qlen - 1)
    ensures intended || Shortfall(m, qlen) == 0 ==>
              LenZeroAt(InitImage(mem, base, m, qlen, intended), m, qlen, qlen - 1)
  {
    var before := ImageIs(mem, base, m, qlen, intended);
    InBlock(m, qlen, qlen - 1);
    LastWhere(m, qlen, intended);
    TailWords(InitImage(mem, base, m, qlen, intended), Off(m, qlen - 1), LastOff(m, qlen, intended));
  }

  lemma TailWords(img: seq<Byte>, off: nat, last: nat)
    requires off + HDR <= |img| && last + HDR <= |img| && NodeBytes(img, last, 0)
    requires last <= off <= last + 8
    ensures NextAt(img, off) == 0
    ensures last == off ==> LenAt(img, off) == 0
  {
    ZeroWord();
    ZeroLE(img[off..off + 8]);
    ZeroLE(img[off + 8..off + HDR]);
  }

  // The whole image, for any address of the last node at most 8 bytes short.
  lemma ImageLinks(mem: seq<Byte>, base: nat, m: nat, qlen: nat, intended: bool)
    requires qlen >= 1 && |mem| == BlockSize(m, qlen) && Addressable(base, m, qlen)
    requires intended || Shortfall(m, qlen) <= 8
    ensures LinksThread(InitImage(mem, base, m, qlen, intended), base, m, qlen)
    ensures intended || Shortfall(m, qlen) == 0 ==> LensZero(InitImage(mem, base, m, qlen, intended), m, qlen)
  {
    var img := InitImage(mem, base, m, qlen, intended);
    forall i | 0 <= i < qlen
      ensures LinkAt(img, base, m, qlen, i)
      ensures intended || Shortfall(m, qlen) == 0 ==> LenZeroAt(img, m, qlen, i)
    {
      if i + 1 < qlen {
        ImageInner(mem, base, m, qlen, intended, i);
      } else {
        ImageTail(mem, base, m, qlen, intended);
      }
    }
  }

  function Poison(n: nat): (p: seq<Byte>) { seq(n, _ => 255) }

  // Too far short: the word that should end the list keeps whatever the allocator left there.
  lemma GarbageTail(base: nat, m: nat, qlen: nat)
    requires qlen >= 1 && Shortfall(m, qlen) > 8
    ensures !LinksThread(InitImage(Poison(BlockSize(m, qlen)), base, m, qlen, false), base, m, qlen)
  {
    TailByte(base, m, qlen, 7);
    var img := InitImage(Poison(BlockSize(m, qlen)), base, m, qlen, false);
    var off := Off(m, qlen - 1);
    InBlock(m, qlen, qlen - 1);
    ZeroLE(img[off..off + 8]);
    assert img[off..off + 8][7] == 255;
    assert !LinkAt(img, base, m, qlen, qlen - 1);
  }

  lemma GarbageLen(base: nat, m: nat, qlen: nat)
    requires qlen >= 1 && Shortfall(m, qlen) > 0
    ensures !LensZero(InitImage(Poison(BlockSize(m, qlen)), base, m, qlen, false), m, qlen)
  {
    TailByte(base, m, qlen, 15);
    var img := InitImage(Poison(BlockSize(m, qlen)), base, m, qlen, false);
    var off := Off(m, qlen - 1);
    InBlock(m, qlen, qlen - 1);
    ZeroLE(img[off + 8..off + HDR]);
    assert img[off + 8..off + HDR][7] == 255;
    assert !LenZeroAt(img, m, qlen, qlen - 1);
  }

  // Byte b of the last entry's header is not written when the shortfall leaves it uncovered.
  lemma TailByte(base: nat, m: nat, qlen: nat, b: nat)
    requires qlen >= 1 && b < HDR && b + Shortfall(m, qlen) >= HDR
    ensures Off(m, qlen - 1) + b < BlockSize(m, qlen)
    ensures InitImage(Poison(BlockSize(m, qlen)), base, m, qlen, false)[Off(m, qlen - 1) + b] == 255
  {
    var before := ImageIs(Poison(BlockSize(m, qlen)), base, m, qlen, false);
    InBlock(m, qlen, qlen - 1);
    LastWhere(m, qlen, false);
  }

  /** With the intended address, queue_init threads every entry once, in order, with len 0. */
  lemma IntendedInitThreads(mem: seq<Byte>, base: nat, m: nat, qlen: nat)
    requires qlen >= 1 && |mem| == BlockSize(m, qlen) && Addressable(base, m, qlen)
    ensures LinksThread(InitImage(mem, base, m, qlen, true), base, m, qlen)
    ensures LensZero(InitImage(mem, base, m, qlen, true), m, qlen)
  {
    ImageLinks(mem, base, m, qlen, true);
  }

  /** As written, the free list is well formed for every initial memory exactly when the node lands at most 8 bytes
      short. */
  lemma WrittenInitLinksIff(base: nat, m: nat, qlen: nat)
    requires qlen >= 1 && Addressable(base, m, qlen)
    ensures (forall mem: seq<Byte> | |mem| == BlockSize(m, qlen) ::
               LinksThread(InitImage(mem, base, m, qlen, false), base, m, qlen))
            <==> m * (qlen - 1) <= 8
  {
    if Shortfall(m, qlen) <= 8 {
      forall mem: seq<Byte> | |mem| == BlockSize(m, qlen)
        ensures LinksThread(InitImage(mem, base, m, qlen, false), base, m, qlen)
      {
        ImageLinks(mem, base, m, qlen, false);
      }
    } else {
      GarbageTail(base, m, qlen);
    }
  }

  /** As written, all lens are zero as well exactly when there is one entry or entries carry no data. */
  lemma WrittenInitCleanIff(base: nat, m: nat, qlen: nat)
    requires qlen >= 1 && Addressable(base, m, qlen)
    ensures (forall mem: seq<Byte> | |mem| == BlockSize(m, qlen) ::
               LinksThread(InitImage(mem, base, m, qlen, false), base, m, qlen)
                 && LensZero(InitImage(mem, base, m, qlen, false), m, qlen))
            <==> qlen == 1 || m == 0
  {
    if qlen == 1 || m == 0 {
      assert Shortfall(m, qlen) == 0;
      forall mem: seq<Byte> | |mem| == BlockSize(m, qlen)
        ensures LinksThread(InitImage(mem, base, m, qlen, false), base, m, qlen)
        ensures LensZero(InitImage(mem, base, m, qlen, false), m, qlen)
      {
        ImageLinks(mem, base, m, qlen, false);
      }
    } else {
      assert m * (qlen - 1) >= 1;
      GarbageLen(base, m, qlen);
    }
  }
}
