/** The counter behind processRecordset's `report` callback (lambda.js:85-100),
    as a function of the settlements seen so far. Each settlement is given by
    whether it carried an error; `report` logs the two cases differently but
    counts both. */
module Settlement {

  /** doneCount, and how many summary notifications `report` has started. */
  datatype Tally = Tally(doneCount: nat, notified: nat)

  /** One call of `report` on a batch of `size` records: count the settlement,
      and start the notification when the count is exactly the batch size. */
  function Step(t: Tally, size: nat, isError: bool): (r: Tally)
    ensures r.doneCount == t.doneCount + 1
    ensures t.notified <= r.notified <= t.notified + 1
    ensures r.notified > t.notified <==> r.doneCount == size
  {
    var done := t.doneCount + 1;
    Tally(done, t.notified + if done == size then 1 else 0)
  }

  /** The tally after `report` has been called once per entry of `settlements`,
      in that order, starting from doneCount = 0. */
  function Settle(size: nat, settlements: seq<bool>): (r: Tally)
    ensures r.doneCount == |settlements|
    ensures r.notified <= r.doneCount
    decreases |settlements|
  {
    if settlements == [] then Tally(0, 0)
    else Step(Settle(size, settlements[..|settlements| - 1]), size, settlements[|settlements| - 1])
  }

  /** Every settlement, failed or not, adds one to the count; the notification
      has been started once if the count has reached a non-zero batch size, and
      never otherwise: not before the last record settles, not again after it,
      and never at all for an empty batch. */
  lemma {:induction false} SettleCounts(size: nat, settlements: seq<bool>)
    ensures Settle(size, settlements).doneCount == |settlements|
    ensures Settle(size, settlements).notified == if 1 <= size <= |settlements| then 1 else 0
    decreases |settlements|
  {
    if settlements != [] {
      SettleCounts(size, settlements[..|settlements| - 1]);
    }
  }

  /** The settlement that starts the notification is the one that brings the
      count to the batch size, and only that one. */
  lemma NotifiesAtBatchSize(size: nat, settlements: seq<bool>, isError: bool)
    ensures Settle(size, settlements + [isError]).doneCount == |settlements| + 1
    ensures Settle(size, settlements + [isError]).notified
         == Settle(size, settlements).notified + if |settlements| + 1 == size then 1 else 0
  {
  }

  /** Which settlements failed makes no difference to the count or to the
      notification: errors are absorbed. */
  lemma ErrorsAreAbsorbed(size: nat, settlements: seq<bool>, others: seq<bool>)
    requires |settlements| == |others|
    ensures Settle(size, settlements) == Settle(size, others)
  {
  }
}
