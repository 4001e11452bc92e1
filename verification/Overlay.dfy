// A body that arrives in several reads: every read of input_serveConnection stores at the start of
// the entry's data (input.c), so later chunks overwrite earlier ones.
module Overlay {
  import opened Bytes

  predicate Fits(d: seq<Byte>, chunks: seq<seq<Byte>>) {
    forall i :: 0 <= i < |chunks| ==> |chunks[i]| <= |d|
  }

  /** The entry's data after the chunks were stored one after the other, each at offset 0. */
  function Stored(d: seq<Byte>, chunks: seq<seq<Byte>>): (r: seq<Byte>)
    requires Fits(d, chunks)
    ensures |r| == |d|
  {
    if chunks == [] then d
    else
      var k := |chunks| - 1;
      Splice(Stored(d, chunks[..k]), 0, chunks[k])
  }

  lemma StoredSnoc(d: seq<Byte>, chunks: seq<seq<Byte>>, c: seq<Byte>)
    requires Fits(d, chunks) && |c| <= |d|
    ensures Fits(d, chunks + [c]) && Stored(d, chunks + [c]) == Splice(Stored(d, chunks), 0, c)
  {
    assert (chunks + [c])[..|chunks|] == chunks;
  }

  function Joined(chunks: seq<seq<Byte>>): seq<Byte> {
    if chunks == [] then [] else Joined(chunks[..|chunks| - 1]) + chunks[|chunks| - 1]
  }

  lemma JoinedSnoc(chunks: seq<seq<Byte>>, c: seq<Byte>)
    ensures Joined(chunks + [c]) == Joined(chunks) + c
  {
    assert (chunks + [c])[..|chunks|] == chunks;
  }

  function Total(sizes: seq<nat>): nat {
    if sizes == [] then 0 else Total(sizes[..|sizes| - 1]) + sizes[|sizes| - 1]
  }

  /** How many reads brought any data. */
  function Busy(sizes: seq<nat>): nat {
    if sizes == [] then 0 else Busy(sizes[..|sizes| - 1]) + (if sizes[|sizes| - 1] > 0 then 1 else 0)
  }

  function Sizes(chunks: seq<seq<Byte>>): (r: seq<nat>)
    ensures |r| == |chunks|
    ensures forall i :: 0 <= i < |r| ==> r[i] == |chunks[i]|
  {
    seq(|chunks|, i requires 0 <= i < |chunks| => |chunks[i]|)
  }

  /** body cut into consecutive pieces of the given sizes. */
  function Cut(body: seq<Byte>, sizes: seq<nat>): (r: seq<seq<Byte>>)
    requires Total(sizes) == |body|
    ensures |r| == |sizes|
    decreases |sizes|
  {
    if sizes == [] then []
    else
      var k := |sizes| - 1;
      var m := |body| - sizes[k];
      Cut(body[..m], sizes[..k]) + [body[m..]]
  }

  lemma CutLast(body: seq<Byte>, sizes: seq<nat>)
    requires Total(sizes) == |body| && sizes != []
    ensures var k, m := |sizes| - 1, |body| - sizes[|sizes| - 1];
            && Total(sizes[..k]) == m && |Cut(body, sizes)| == k + 1
            && Cut(body, sizes)[..k] == Cut(body[..m], sizes[..k]) && Cut(body, sizes)[k] == body[m..]
  {
  }

  lemma {:induction false} CutSizes(body: seq<Byte>, sizes: seq<nat>)
    requires Total(sizes) == |body|
    ensures forall i :: 0 <= i < |sizes| ==> |Cut(body, sizes)[i]| == sizes[i] <= |body|
    ensures Joined(Cut(body, sizes)) == body
    decreases |sizes|
  {
    if sizes != [] {
      var k := |sizes| - 1;
      var m := |body| - sizes[k];
      CutSizes(body[..m], sizes[..k]);
      assert Cut(body, sizes)[..k] == Cut(body[..m], sizes[..k]);
      assert body == body[..m] + body[m..];
    }
  }

  // Nothing was read, or the first byte of the data is that of the last chunk that brought any.
  lemma {:induction false} IdleTotal(sizes: seq<nat>)
    ensures Busy(sizes) == 0 <==> Total(sizes) == 0
  {
    if sizes != [] {
      IdleTotal(sizes[..|sizes| - 1]);
    }
  }

  lemma {:induction false} IdleStored(d: seq<Byte>, chunks: seq<seq<Byte>>)
    requires Fits(d, chunks) && Busy(Sizes(chunks)) == 0
    ensures Stored(d, chunks) == d && Joined(chunks) == []
  {
    if chunks != [] {
      var k := |chunks| - 1;
      assert Sizes(chunks)[..k] == Sizes(chunks[..k]);
      IdleStored(d, chunks[..k]);
      assert chunks[k] == [];
    }
  }

  /** With at most one non-empty read the entry ends up with the body. */
  lemma {:induction false} OneReadStored(d: seq<Byte>, chunks: seq<seq<Byte>>)
    requires Fits(d, chunks) && Busy(Sizes(chunks)) <= 1
    ensures |Joined(chunks)| <= |d| && Stored(d, chunks)[..|Joined(chunks)|] == Joined(chunks)
  {
    if chunks != [] {
      var k := |chunks| - 1;
      assert Sizes(chunks)[..k] == Sizes(chunks[..k]);
      if chunks[k] == [] {
        OneReadStored(d, chunks[..k]);
        assert Joined(chunks) == Joined(chunks[..k]);
        assert Stored(d, chunks) == Stored(d, chunks[..k]);
      } else {
        IdleStored(d, chunks[..k]);
        assert Joined(chunks) == chunks[k];
      }
    }
  }

  // A one followed by zeros.
  function Marked(n: nat): seq<Byte> { seq(n, i => if i == 0 then 1 else 0) }

  // After the first byte was delivered, the next non-empty chunk of zeros overwrites it.
  lemma {:induction false} MarkStored(d: seq<Byte>, n: nat, sizes: seq<nat>)
    requires Total(sizes) == n <= |d|
    ensures Fits(d, Cut(Marked(n), sizes))
    ensures Busy(sizes) >= 2 ==> n > 0 && Stored(d, Cut(Marked(n), sizes))[0] == 0
    decreases |sizes|
  {
    hide Splice;
    CutSizes(Marked(n), sizes);
    if sizes != [] {
      var k := |sizes| - 1;
      var m := n - sizes[k];
      var chunks := Cut(Marked(n), sizes);
      CutLast(Marked(n), sizes);
      assert Marked(n)[..m] == Marked(m);
      MarkStored(d, m, sizes[..k]);
      IdleTotal(sizes[..k]);
      MarkLast(Stored(d, chunks[..k]), n, m, chunks[k], Busy(sizes[..k]));
    }
  }

  // The last chunk c, of `size` bytes cut from the mark at m, over what was stored before.
  lemma MarkLast(d: seq<Byte>, n: nat, m: nat, c: seq<Byte>, busy: nat)
    requires m <= n <= |d| && c == Marked(n)[m..] && (busy == 0 <==> m == 0) && (busy >= 2 ==> d[0] == 0)
    ensures var b := busy + (if n > m then 1 else 0);
            b >= 2 ==> n > 0 && Splice(d, 0, c)[0] == 0
  {
    if n > m > 0 {
      assert c[0] == Marked(n)[m];
    }
  }

  // The data of an entry that received `body` in reads of these sizes.
  function Received(d: seq<Byte>, sizes: seq<nat>, body: seq<Byte>): (r: seq<Byte>)
    requires Total(sizes) == |body| <= |d|
    ensures |r| == |d|
  {
    CutSizes(body, sizes);
    Stored(d, Cut(body, sizes))
  }

  ghost predicate DeliveredIntact(d: seq<Byte>, sizes: seq<nat>, body: seq<Byte>) {
    Total(sizes) == |body| <= |d| ==> Received(d, sizes, body)[..|body|] == body
  }

  /** Whatever the body, it is delivered intact exactly when at most one of its reads brought data. */
  lemma IntactIffOneRead(d: seq<Byte>, sizes: seq<nat>)
    requires Total(sizes) <= |d|
    ensures (forall body: seq<Byte> :: DeliveredIntact(d, sizes, body)) <==> Busy(sizes) <= 1
  {
    if Busy(sizes) <= 1 {
      forall body: seq<Byte>
        ensures DeliveredIntact(d, sizes, body)
      {
        if Total(sizes) == |body| {
          CutSizes(body, sizes);
          assert Sizes(Cut(body, sizes)) == sizes;
          OneReadStored(d, Cut(body, sizes));
        }
      }
    } else {
      var n := Total(sizes);
      IdleTotal(sizes);
      MarkStored(d, n, sizes);
      CutSizes(Marked(n), sizes);
      var got := Stored(d, Cut(Marked(n), sizes))[..n];
      assert got[0] == 0 && Marked(n)[0] == 1;
      assert !DeliveredIntact(d, sizes, Marked(n));
    }
  }
}
