/**
 * The module-level `tradesQueue` array of collector.js: the adapters push onto
 * it, and each step of `processTrades` either waits (empty queue) or detaches
 * everything with `splice(0, length)` and hands it to storage.
 */
module TradeBuffer {
  import opened Wrappers
  import opened TradeRecords

  /** How the awaited `redisClient.processTrades(batch)` call settled. */
  datatype StoreOutcome = Stored | StoreFailed

  class TradeQueue {
    /** The queue's contents, oldest first. */
    var items: seq<Entry>

    constructor ()
      ensures items == []
    {
      items := [];
    }

    /** `tradesQueue.push(entry)`. */
    method Push(entry: Entry)
      modifies this
      ensures items == old(items) + [entry]
    {
      items := items + [entry];
    }

    /** `tradesQueue.splice(0, tradesQueue.length)`: returns every entry, in order, and empties the queue. */
    method Drain() returns (batch: seq<Entry>)
      modifies this
      ensures batch == old(items)
      ensures items == []
    {
      batch := items;
      items := [];
    }

    /**
     * One pass of `processTrades`. An empty queue makes no storage call (`None`: wait
     * 100 ms and re-check) and stays as it is; otherwise the whole contents become
     * the batch given to storage and the queue is left empty. `resumes` says whether
     * the pass ends by calling `processTrades()` again: the storage call is awaited
     * with nothing to catch its failure, so a failed one ends the loop and its batch
     * stays detached.
     */
    method FlushStep(storage: StoreOutcome) returns (batch: Option<seq<Entry>>, resumes: bool)
      modifies this
      ensures old(items) == [] ==> batch == None && resumes && items == old(items)
      ensures old(items) != [] ==> batch == Some(old(items)) && items == []
      ensures old(items) != [] ==> (resumes <==> storage == Stored)
    {
      if |items| == 0 {
        batch := None;
        resumes := true;
        return;
      }
      var detached := Drain();
      batch := Some(detached);
      resumes := storage == Stored;
    }
  }
}
