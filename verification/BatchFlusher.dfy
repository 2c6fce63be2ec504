/**
 * The single-flight buffer of the batcher (services/batcher/src/batch-flusher.ts).
 *
 * `Flusher` is the value the closure holds between two awaits, with the history
 * needed to say what became of every item; the class is the closure itself.
 */
module BatchFlushing {
  import opened Common

  /**
   * pending:  items not yet detached
   * inFlight: the batch of the running handler
   * added, handled: every item ever added, and the batches handled successfully, in order
   * started, settled: handler runs so far
   */
  datatype Flusher<T> = Flusher(
    pending: seq<T>,
    inFlight: Option<seq<T>>,
    added: seq<T>,
    handled: seq<T>,
    started: nat,
    settled: nat)
  {
    function Flying(): seq<T> {
      match inFlight
      case None => []
      case Some(batch) => batch
    }

    function Add(item: T): Flusher<T> {
      this.(pending := pending + [item], added := added + [item])
    }

    function Flush(): Flusher<T> {
      if inFlight.Some? || pending == [] then this
      else this.(pending := [], inFlight := Some(pending), started := started + 1)
    }

    function Settle(ok: bool): Flusher<T> {
      if inFlight.None? then this
      else if ok then this.(inFlight := None, handled := handled + inFlight.value, settled := settled + 1)
      else this.(inFlight := None, pending := inFlight.value + pending, settled := settled + 1)
    }

    /**
     * Every added item is in exactly one of three places, in the order of arrival;
     * at most one handler runs, and never on an empty batch.
     */
    ghost predicate Conserved() {
      && handled + Flying() + pending == added
      && started == settled + (if inFlight.Some? then 1 else 0)
      && (inFlight.Some? ==> inFlight.value != [])
    }
  }

  function Empty<T>(): Flusher<T> {
    Flusher([], None, [], [], 0, 0)
  }

  datatype Op<T> = AddItem(item: T) | RequestFlush | HandlerSettles(ok: bool)

  function Apply<T>(f: Flusher<T>, op: Op<T>): Flusher<T> {
    match op
    case AddItem(x) => f.Add(x)
    case RequestFlush => f.Flush()
    case HandlerSettles(ok) => f.Settle(ok)
  }

  function RunOps<T>(f: Flusher<T>, ops: seq<Op<T>>): Flusher<T> {
    if ops == [] then f else Apply(RunOps(f, Front(ops)), Last(ops))
  }

  function ItemsAdded<T>(ops: seq<Op<T>>): seq<T> {
    if ops == [] then []
    else ItemsAdded(Front(ops)) + (if Last(ops).AddItem? then [Last(ops).item] else [])
  }

  lemma ApplyConserves<T>(f: Flusher<T>, op: Op<T>)
    requires f.Conserved()
    ensures Apply(f, op).Conserved()
    ensures f.handled <= Apply(f, op).handled
  {
    match op
    case AddItem(x) =>
      assert f.handled + f.Flying() + (f.pending + [x]) == f.handled + f.Flying() + f.pending + [x];
    case RequestFlush =>
      assert f.handled + f.pending + [] == f.handled + [] + f.pending;
    case HandlerSettles(ok) =>
      if f.inFlight.Some? {
        var b := f.inFlight.value;
        assert f.handled + b + [] + f.pending == f.handled + b + f.pending;
        assert f.handled + [] + (b + f.pending) == f.handled + b + f.pending;
      }
  }

  /** Under every interleaving of adds, flush requests and handler outcomes, nothing is lost, duplicated or reordered. */
  lemma {:induction false} RunConserves<T>(ops: seq<Op<T>>)
    ensures var f := RunOps(Empty(), ops);
      f.Conserved() && f.handled + f.Flying() + f.pending == ItemsAdded(ops)
  {
    if ops != [] {
      RunConserves(Front(ops));
      ApplyConserves(RunOps(Empty(), Front(ops)), Last(ops));
    }
  }

  /** What a flush request does: start a handler, join the running one, or nothing. */
  datatype FlushStart<T> = Started(batch: seq<T>) | Joined | NothingPending

  class BatchFlusher<T> {
    var currentBatch: seq<T>
    var flushPromise: Option<seq<T>>
    ghost var added: seq<T>
    ghost var handled: seq<T>
    ghost var started: nat
    ghost var settled: nat

    ghost function View(): Flusher<T>
      reads this
    {
      Flusher(currentBatch, flushPromise, added, handled, started, settled)
    }

    constructor ()
      ensures View() == Empty()
    {
      currentBatch, flushPromise := [], None;
      added, handled, started, settled := [], [], 0, 0;
    }

    method Add(item: T)
      modifies this
      ensures View() == old(View()).Add(item)
    {
      currentBatch := currentBatch + [item];
      added := added + [item];
    }

    method Size() returns (n: nat)
      ensures n == |View().pending|
    {
      n := |currentBatch|;
    }

    method IsFlushing() returns (b: bool)
      ensures b <==> View().inFlight.Some?
    {
      b := flushPromise.Some?;
    }

    method Flush() returns (r: FlushStart<T>)
      modifies this
      ensures View() == old(View()).Flush()
      ensures r == if old(View()).inFlight.Some? then Joined
                   else if old(View()).pending == [] then NothingPending
                   else Started(old(View()).pending)
    {
      if flushPromise.Some? {
        return Joined;
      }
      if |currentBatch| == 0 {
        return NothingPending;
      }
      var batchToPublish := currentBatch;
      currentBatch := [];
      flushPromise := Some(batchToPublish);
      started := started + 1;
      return Started(batchToPublish);
    }

    /** The catch and finally blocks around the handler, once its promise settles. */
    method Settle(ok: bool)
      requires flushPromise.Some?
      modifies this
      ensures View() == old(View()).Settle(ok)
    {
      if ok {
        handled := handled + flushPromise.value;
      } else {
        currentBatch := flushPromise.value + currentBatch;
      }
      flushPromise := None;
      settled := settled + 1;
    }
  }
}
