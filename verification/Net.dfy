// net_nonblocking_readn and net_writen (net.c): loops over short transfers.
module Net {
  import opened Bytes

  // What the next recv does: at most k bytes, end of stream, EAGAIN, EINTR, or another error.
  datatype Recv = Data(k: nat) | Eof | Again | Interrupted | Broken

  function Min(a: nat, b: nat): nat { if a <= b then a else b }

  // How the read loop takes it: so many bytes, leave the loop, go round again, or abort.
  datatype Taken = Bytes(d: nat) | Stop | Retry | Abort

  function Take(next: Recv, avail: nat, n: nat): Taken {
    match next
    case Data(k) =>
      var d := Min(k, Min(n, avail));
      if d == 0 then Stop else Bytes(d)
    case Eof => Stop
    case Again => Stop
    case Interrupted => Retry
    case Broken => Abort
  }

  // A read loop's result: bytes read, the recvs still to come, and whether the process survived.
  datatype Outcome = Outcome(count: nat, later: seq<Recv>, ok: bool)

  function Plus(d: nat, r: Outcome): Outcome { r.(count := d + r.count) }

  /** What reading n bytes gives when `avail` bytes are on their way and recv behaves as scripted. */
  function Reads(script: seq<Recv>, avail: nat, n: nat): (r: Outcome)
    ensures r.count <= n && r.count <= avail
    decreases |script|
  {
    if n == 0 || script == [] then Outcome(0, script, true) else
    match Take(script[0], avail, n)
    case Bytes(d) => Plus(d, Reads(script[1..], avail - d, n - d))
    case Stop => Outcome(0, script[1..], true)
    case Retry => Reads(script[1..], avail, n)
    case Abort => Outcome(0, script[1..], false)
  }

  // What the recvs of a script offer in all.
  function Offered(script: seq<Recv>): nat {
    if script == [] then 0 else (if script[0].Data? then script[0].k else 0) + Offered(script[1..])
  }

  // A recv after which the loop goes on, if it delivers anything.
  predicate GoesOn(r: Recv) { r.Interrupted? || (r.Data? && r.k > 0) }

  // What recv does on a blocking descriptor.
  ghost predicate Blocking(script: seq<Recv>) { forall i :: 0 <= i < |script| ==> GoesOn(script[i]) }

  /** On a blocking descriptor one call reads everything it asks for, however recv chops it up. */
  lemma {:induction false} BlockingReadIsWhole(script: seq<Recv>, avail: nat, n: nat)
    requires Blocking(script) && n <= avail && n <= Offered(script)
    ensures Reads(script, avail, n).count == n && Reads(script, avail, n).ok
    decreases |script|
  {
    if n > 0 {
      var d := if script[0].Data? then Min(script[0].k, n) else 0;
      BlockingReadIsWhole(script[1..], avail - d, n - d);
    }
  }

  // What a script has used when k of it are left, and its first element is used.
  lemma UsedOn<T>(script: seq<T>, k: nat)
    requires k < |script|
    ensures script[..|script| - k] == [script[0]] + script[1..][..|script| - 1 - k]
    ensures script[1..][|script| - 1 - k..] == script[|script| - k..]
  {
  }

  lemma OfferedCons(r: Recv, rs: seq<Recv>)
    ensures Offered([r] + rs) == (if r.Data? then r.k else 0) + Offered(rs) && Offered([]) == 0
  {
    assert ([r] + rs)[1..] == rs;
  }

  // One recv more.
  lemma CountOn(next: Recv, used: seq<Recv>, count: nat, avail: nat, n: nat, d: nat)
    requires d == (if next.Data? then Min(next.k, Min(n, avail)) else 0)
    requires count == Min(Offered(used), Min(n - d, avail - d))
    ensures d + count == Min(Offered([next] + used), Min(n, avail))
  {
    hide Offered;
    OfferedCons(next, used);
  }

  /** A read call uses up a prefix of the recvs, and has as many bytes as those offered, were asked for and were
      there. */
  lemma {:induction false} ReadsCount(script: seq<Recv>, avail: nat, n: nat)
    ensures var r := Reads(script, avail, n);
            && |r.later| <= |script| && r.later == script[|script| - |r.later|..]
            && r.count == Min(Offered(script[..|script| - |r.later|]), Min(n, avail))
    decreases |script|
  {
    hide Offered, Min;
    if n == 0 || script == [] {
      NothingToRead(avail, n, script);
    } else {
      var next, rest := script[0], script[1..];
      var t := Take(next, avail, n);
      if t.Bytes? || t.Retry? {
        var d := if t.Bytes? then t.d else 0;
        TakeAmount(next, avail, n);
        ReadsCount(rest, avail - d, n - d);
        var sub := Reads(rest, avail - d, n - d);
        var used := rest[..|rest| - |sub.later|];
        UsedOn(script, |sub.later|);
        CountOn(next, used, sub.count, avail, n, d);
      } else {
        assert script[..1] == [next] + [];
        StoppedCount(next, avail, n);
      }
    }
  }

  lemma NothingToRead(avail: nat, n: nat, script: seq<Recv>)
    requires n == 0 || script == []
    ensures script[..0] == [] && Min(Offered([]), Min(n, avail)) == 0
  {
  }

  lemma TakeAmount(next: Recv, avail: nat, n: nat)
    requires !Take(next, avail, n).Stop? && !Take(next, avail, n).Abort?
    ensures var t := Take(next, avail, n);
            var d := if t.Bytes? then t.d else 0;
            d == (if next.Data? then Min(next.k, Min(n, avail)) else 0) && d <= n && d <= avail && GoesOn(next)
  {
  }

  lemma StoppedCount(next: Recv, avail: nat, n: nat)
    requires Take(next, avail, n).Stop? || Take(next, avail, n).Abort?
    ensures Min(Offered([next] + []), Min(n, avail)) == 0
  {
    OfferedCons(next, []);
  }

  // Why a read call stopped after these recvs, with `left` bytes unread.
  predicate StopsRight(used: seq<Recv>, r: Outcome, avail: nat, n: nat) {
    var last := if used == [] then Interrupted else used[|used| - 1];
    && (forall i :: 0 <= i < |used| - 1 ==> GoesOn(used[i]))
    && (!r.ok <==> last.Broken?)
    && (last.Eof? || last.Again? ==> r.count < n)
    && (r.ok && r.count < n ==> last.Eof? || last.Again? || last == Data(0) || r.count == avail || r.later == [])
  }

  /** It goes on over interrupts and short reads, aborts exactly on an error, and stops short only at end of stream,
      EAGAIN, or when nothing more was there. */
  lemma {:induction false} ReadsStop(script: seq<Recv>, avail: nat, n: nat)
    ensures var r := Reads(script, avail, n);
            |r.later| <= |script| && StopsRight(script[..|script| - |r.later|], r, avail, n)
    decreases |script|
  {
    hide StopsRight, Min, GoesOn;
    if n == 0 || script == [] {
      assert script[..0] == [];
      StopsAtOnce(script, avail, n);
    } else {
      var next, rest := script[0], script[1..];
      var t := Take(next, avail, n);
      if t.Bytes? || t.Retry? {
        var d := if t.Bytes? then t.d else 0;
        TakeAmount(next, avail, n);
        ReadsStop(rest, avail - d, n - d);
        var sub := Reads(rest, avail - d, n - d);
        ReadsOn(next, rest[..|rest| - |sub.later|], sub, avail, n, d);
        UsedOn(script, |sub.later|);
      } else {
        assert script[..1] == [next];
        StopsHere(next, rest, avail, n);
      }
    }
  }

  lemma StopsAtOnce(script: seq<Recv>, avail: nat, n: nat)
    requires n == 0 || script == []
    ensures StopsRight([], Outcome(0, script, true), avail, n)
  {
  }

  lemma StopsHere(next: Recv, rest: seq<Recv>, avail: nat, n: nat)
    requires n > 0 && (Take(next, avail, n).Stop? || Take(next, avail, n).Abort?)
    ensures StopsRight([next], Outcome(0, rest, !Take(next, avail, n).Abort?), avail, n)
  {
  }

  lemma ReadsOn(next: Recv, used: seq<Recv>, sub: Outcome, avail: nat, n: nat, d: nat)
    requires GoesOn(next) && d <= n && d <= avail && n > 0 && StopsRight(used, sub, avail - d, n - d)
    ensures StopsRight([next] + used, Plus(d, sub), avail, n)
  {
  }

  class Socket {
    var incoming: seq<Byte>
    var script: seq<Recv>

    constructor (incoming: seq<Byte>, script: seq<Recv>)
      ensures this.incoming == incoming && this.script == script
    {
      this.incoming, this.script := incoming, script;
    }

    // recv of at most n bytes into buf at ptr.
    method RecvInto(buf: array<Byte>, ptr: nat, n: nat) returns (res: Taken)
      requires ptr + n <= buf.Length && script != []
      modifies this, buf
      ensures res == Take(old(script)[0], |old(incoming)|, n) && script == old(script)[1..]
      ensures var d := if res.Bytes? then res.d else 0;
              && incoming == old(incoming)[d..]
              && buf[..] == Splice(old(buf[..]), ptr, old(incoming)[..d])
    {
      res := Take(script[0], |incoming|, n);
      script := script[1..];
      if res.Bytes? {
        forall i | 0 <= i < res.d {
          buf[ptr + i] := incoming[i];
        }
        incoming := incoming[res.d..];
      }
    }

    /** net_nonblocking_readn into buf from off; `ok` is false where the code aborts. */
    method Readn(buf: array<Byte>, off: nat, n: nat) returns (r: nat, ok: bool)
      requires off + n <= buf.Length
      modifies this, buf
      ensures Outcome(r, script, ok) == Reads(old(script), |old(incoming)|, n)
      ensures incoming == old(incoming)[r..]
      ensures buf[..] == Splice(old(buf[..]), off, old(incoming)[..r])
    {
      hide Splice;
      SpliceNothing(buf[..], off);
      var nleft := n;
      ghost var was, data := incoming, buf[..];
      ok := true;
      while nleft > 0
        invariant 0 <= nleft <= n && n - nleft <= |was| && ok
        invariant incoming == was[n - nleft..]
        invariant buf[..] == Splice(data, off, was[..n - nleft])
        invariant Reads(old(script), |was|, n) == Plus(n - nleft, Reads(script, |incoming|, nleft))
        decreases |script|
      {
        if script == [] {
          break;
        }
        var res := RecvInto(buf, off + (n - nleft), nleft);
        SpliceGrows(data, off, was, n - nleft, if res.Bytes? then res.d else 0);
        match res
        case Bytes(d) => nleft := nleft - d;
        case Stop => break;
        case Retry =>
        case Abort =>
          ok := false;
          break;
      }
      r := n - nleft;
    }
  }

  lemma SpliceNothing(data: seq<Byte>, off: nat)
    requires off <= |data|
    ensures Splice(data, off, []) == data
  {
  }

  lemma SpliceGrows(data: seq<Byte>, off: nat, was: seq<Byte>, done: nat, more: nat)
    requires off + done + more <= |data| && done + more <= |was|
    ensures Splice(Splice(data, off, was[..done]), off + done, was[done..][..more]) ==
              Splice(data, off, was[..done + more])
    ensures was[done..][more..] == was[done + more..]
  {
  }

  // What the next send does.
  datatype Send = Wrote(k: nat) | SendInterrupted | SendFailed

  datatype Written = Written(count: nat, later: seq<Send>, ok: bool)

  function Writes(script: seq<Send>, n: nat): (r: Written)
    ensures r.count <= n
    ensures r.ok <==> r.count == n
    decreases |script|
  {
    if n == 0 then Written(0, script, true)
    else if script == [] then Written(n, [], true)
    else
      match script[0]
      case Wrote(k) =>
        var d := Min(k, n);
        if d == 0 then Written(0, script[1..], false)
        else
          var r := Writes(script[1..], n - d);
          r.(count := d + r.count)
      case SendInterrupted => Writes(script[1..], n)
      case SendFailed => Written(0, script[1..], false)
  }

  function Accepted(script: seq<Send>): nat {
    if script == [] then 0 else (if script[0].Wrote? then script[0].k else 0) + Accepted(script[1..])
  }

  lemma AcceptedCons(w: Send, ws: seq<Send>)
    ensures Accepted([w] + ws) == (if w.Wrote? then w.k else 0) + Accepted(ws) && Accepted([]) == 0
  {
    assert ([w] + ws)[1..] == ws;
  }

  // Why a write call ended after these sends.
  predicate EndsRight(used: seq<Send>, w: Written, n: nat) {
    var last := if used == [] then SendInterrupted else used[|used| - 1];
    && (forall i :: 0 <= i < |used| - 1 ==> used[i].SendInterrupted? || (used[i].Wrote? && used[i].k > 0))
    && (!w.ok <==> last.SendFailed? || last == Wrote(0))
    && (w.count < n ==> w.count == Accepted(used))
  }

  lemma EndsOn(next: Send, used: seq<Send>, sub: Written, n: nat, d: nat)
    requires n > 0 && d == (if next.Wrote? then Min(next.k, n) else 0) && (next.SendInterrupted? || d > 0)
    requires EndsRight(used, sub, n - d)
    ensures EndsRight([next] + used, sub.(count := d + sub.count), n)
  {
    hide Accepted;
    AcceptedCons(next, used);
  }

  lemma EndsHere(last: Send, rest: seq<Send>, n: nat)
    requires last.SendFailed? || last == Wrote(0)
    ensures EndsRight([last], Written(0, rest, false), n)
  {
    AcceptedCons(last, []);
    assert [last] == [last] + [];
  }

  /** A write call uses up a prefix of the sends, going on over interrupts and short writes; it fails exactly when the
      last of them failed or wrote nothing, and then what the others accepted is what was written. */
  lemma {:induction false} WritesExplained(script: seq<Send>, n: nat)
    ensures var w := Writes(script, n);
            |w.later| <= |script| && w.later == script[|script| - |w.later|..]
              && EndsRight(script[..|script| - |w.later|], w, n)
    decreases |script|
  {
    hide EndsRight, Accepted;
    if n == 0 || script == [] {
      assert script[..0] == [];
      AllAccepted(script, n);
    } else {
      var next, rest := script[0], script[1..];
      var d := if next.Wrote? then Min(next.k, n) else 0;
      if next.SendInterrupted? || d > 0 {
        WritesExplained(rest, n - d);
        var sub := Writes(rest, n - d);
        EndsOn(next, rest[..|rest| - |sub.later|], sub, n, d);
        UsedOn(script, |sub.later|);
      } else {
        assert script[..1] == [next];
        EndsHere(next, rest, n);
      }
    }
  }

  lemma AllAccepted(script: seq<Send>, n: nat)
    requires n == 0 || script == []
    ensures EndsRight([], Written(n, script, true), n)
  {
  }

  class Sink {
    var wire: seq<Byte>
    var script: seq<Send>

    constructor (script: seq<Send>)
      ensures wire == [] && this.script == script
    {
      wire, this.script := [], script;
    }

    /** net_writen: all n bytes in order and n, or a strict prefix of them and -1. */
    method Writen(buf: array<Byte>, n: nat) returns (rc: int)
      requires n <= buf.Length
      modifies this
      ensures var w := Writes(old(script), n);
              && wire == old(wire) + buf[..w.count] && script == w.later
              && rc == (if w.ok then n else -1)
    {
      var nleft := n;
      var ptr := 0;
      while nleft > 0
        invariant 0 <= nleft <= n && ptr == n - nleft
        invariant wire == old(wire) + buf[..ptr]
        invariant var rest := Writes(script, nleft);
          Writes(old(script), n) == rest.(count := ptr + rest.count)
        decreases nleft, |script|
      {
        var nwritten := nleft;
        if script != [] {
          var next := script[0];
          script := script[1..];
          match next
          case Wrote(k) =>
            nwritten := Min(k, nleft);
            if nwritten == 0 {
              return -1;
            }
          case SendInterrupted => nwritten := 0;
          case SendFailed => return -1;
        }
        wire := wire + buf[ptr..ptr + nwritten];
        assert buf[..ptr + nwritten] == buf[..ptr] + buf[ptr..ptr + nwritten];
        nleft := nleft - nwritten;
        ptr := ptr + nwritten;
      }
      return n;
    }
  }
}
