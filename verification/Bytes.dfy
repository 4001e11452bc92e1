// Bytes and little-endian words.
module Bytes {

  type Byte = x: int | 0 <= x < 256

  function Pow256(k: nat): (r: nat)
    ensures r > 0
  {
    if k == 0 then 1 else 256 * Pow256(k - 1)
  }

  /** The k low-order bytes of v, least significant first. */
  function ToLE(v: nat, k: nat): (b: seq<Byte>)
    ensures |b| == k
  {
    if k == 0 then [] else [v % 256] + ToLE(v / 256, k - 1)
  }

  function FromLE(b: seq<Byte>): (v: nat)
    ensures v < Pow256(|b|)
  {
    if b == [] then 0 else b[0] + 256 * FromLE(b[1..])
  }

  lemma {:induction false} FromToLE(v: nat, k: nat)
    requires v < Pow256(k)
    ensures FromLE(ToLE(v, k)) == v
  {
    if k > 0 {
      FromToLE(v / 256, k - 1);
      assert ToLE(v, k)[1..] == ToLE(v / 256, k - 1);
    }
  }

  lemma {:induction false} ToFromLE(b: seq<Byte>)
    ensures ToLE(FromLE(b), |b|) == b
  {
    if b != [] {
      ToFromLE(b[1..]);
      assert FromLE(b) % 256 == b[0] && FromLE(b) / 256 == FromLE(b[1..]);
    }
  }

  // A word is zero exactly when all its bytes are.
  lemma {:induction false} ZeroLE(b: seq<Byte>)
    ensures FromLE(b) == 0 <==> forall i :: 0 <= i < |b| ==> b[i] == 0
  {
    if b != [] {
      ZeroLE(b[1..]);
      assert forall i :: 1 <= i < |b| ==> b[i] == b[1..][i - 1];
      assert (forall i :: 0 <= i < |b[1..]| ==> b[1..][i] == 0) ==> forall i :: 1 <= i < |b| ==> b[i] == 0;
      assert (forall i :: 0 <= i < |b| ==> b[i] == 0) ==> forall i :: 0 <= i < |b[1..]| ==> b[1..][i] == 0;
    }
  }

  /** s with the bytes from off on replaced by w. */
  function Splice(s: seq<Byte>, off: nat, w: seq<Byte>): (r: seq<Byte>)
    requires off + |w| <= |s|
    ensures |r| == |s|
    ensures forall i :: 0 <= i < |s| ==> r[i] == (if off <= i < off + |w| then w[i - off] else s[i])
  {
    seq(|s|, i requires 0 <= i < |s| => if off <= i < off + |w| then w[i - off] else s[i])
  }
}
