// Shared vocabulary.
module Common {

  datatype Option<T> = None | Some(value: T)

  // qid_t
  newtype Qid = x: int | -0x8000 <= x < 0x8000

  // QueueEntryFindRC_t, with what was found.
  datatype FindRC<T> = NoWorker | BadQidx | MsgTooBig | QueueFull | Found(slot: T)

  ghost predicate Distinct(xs: seq<int>) {
    forall i, j :: 0 <= i < j < |xs| ==> xs[i] != xs[j]
  }
}
