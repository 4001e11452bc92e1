// What holds of one consumer and its producers between any two accesses of any threads.
module CasChannelRuns {
  import opened Common
  import opened CasQueue
  import opened CasChannel
  import C = Channel
  import R = ChannelRuns

  /** Between any two accesses the entries on the full chains match the semaphore, the signals owed and the token
      in use. */
  lemma TokensAtEveryAccess<M>(su: Setup, acts: seq<Act<M>>, qs: seq<C.Queue<M>>)
    requires SetupOk(su) && OneTakerEach(su) && CasChannel.Run(su, Start(su), acts).Some?
    requires ListsAre(CasChannel.Run(su, Start(su), acts).value, qs)
    ensures var c := CasChannel.Run(su, Start(su), acts).value;
            C.TotalFull(qs) == c.sem + C.Unsignalled(c.producers) + (if c.consumer.Scanning? then 1 else 0)
  {
    hide CasChannel.Run, C.Run, OneTakerEach, ListsAre;
    var did, s := RunsAreChannelRuns(su, acts);
    ListsUnique(CasChannel.Run(su, Start(su), acts).value, qs, s.qs);
    R.TokensAccounted(C.Origin, su.qlens, |su.home|, did);
  }

  /** A consumer of one queue that has been through its wait finds the full list's head non-null at every access until
      its pop, so what the output asserts of the pop holds. */
  lemma HeadIsThere<M>(su: Setup, acts: seq<Act<M>>)
    requires SetupOk(su) && OneTakerEach(su) && |su.qlens| == 1 && CasChannel.Run(su, Start(su), acts).Some?
    requires CasChannel.Run(su, Start(su), acts).value.consumer.Scanning?
    ensures var c := CasChannel.Run(su, Start<M>(su), acts).value;
            |c.queues| == 1 && c.queues[0].full != NIL
  {
    hide CasChannel.Run, C.Run, OneTakerEach;
    var did, s := RunsAreChannelRuns(su, acts);
    R.TokensAccounted(C.Origin, su.qlens, |su.home|, did);
    var c := CasChannel.Run(su, Start<M>(su), acts).value;
    var j := C.FindFull(s.qs);
    R.InitInvariant<M>(su.qlens, |su.home|);
    R.RunInvariant(C.Origin, C.Init(su.qlens, |su.home|), did);
    assert QueueIs(c, 0, s.qs[0]);
    assert Chain(s.qs[0])[0] == s.qs[0].full[0].entry;
  }

  /** Between any two accesses each copy of each message was served, or is in an entry of a full chain, or is in the
      consumer's hand. */
  lemma ExactlyOnceAtEveryAccess<M>(su: Setup, acts: seq<Act<M>>, qs: seq<C.Queue<M>>, m: M)
    requires SetupOk(su) && OneTakerEach(su) && CasChannel.Run(su, Start(su), acts).Some?
    requires ListsAre(CasChannel.Run(su, Start(su), acts).value, qs)
    ensures var c := CasChannel.Run(su, Start(su), acts).value;
            multiset(c.accepted)[m] == multiset(c.served)[m] + C.FullCount(qs, m) + C.InHand(c.consumer, m)
  {
    hide CasChannel.Run, C.Run, OneTakerEach, ListsAre;
    var did, s := RunsAreChannelRuns(su, acts);
    ListsUnique(CasChannel.Run(su, Start(su), acts).value, qs, s.qs);
    R.ExactlyOnce(C.Origin, su.qlens, |su.home|, did, m);
  }

  /** Between any two accesses every entry is in exactly one place: a chain, a producer, the consumer, or lost with a
      connection. */
  lemma EntriesAtEveryAccess<M>(su: Setup, acts: seq<Act<M>>, qs: seq<C.Queue<M>>, q: int, e: int)
    requires SetupOk(su) && OneTakerEach(su) && CasChannel.Run(su, Start(su), acts).Some? && 0 <= q < |su.qlens|
    requires ListsAre(CasChannel.Run(su, Start(su), acts).value, qs)
    ensures var c := CasChannel.Run(su, Start(su), acts).value;
            && |qs| == |c.lost| == |su.qlens|
            && multiset(qs[q].empty)[e] + C.EntryCopies(qs[q].full, e) + C.ReservedCopies(c.producers, q, e)
               + C.At(C.ConsumerHas(c.consumer, q, e)) + multiset(c.lost[q])[e] == C.At(0 <= e < su.qlens[q])
  {
    hide CasChannel.Run, C.Run, OneTakerEach, ListsAre;
    var did, s := RunsAreChannelRuns(su, acts);
    ListsUnique(CasChannel.Run(su, Start(su), acts).value, qs, s.qs);
    R.EntriesConserved(su.qlens, |su.home|, did, q, e);
  }
}
