/** The older `BlockingQueueLoggingStrategy` of the application layer: the
    same write-then-offer path and batch flushing as the current services,
    on a plain `LinkedBlockingQueue` of records created at `init`.  The
    record factory and the logging decision of its configuration come in as
    parameters (the record's type is left open); the repository is reached
    through one batch call whose failures are counted and swallowed. */
module ApplicationStrategy {
  import opened JavaLang
  import opened JavaText
  import opened Ports
  import opened JavaQueues

  class BlockingQueueLoggingStrategy<E> {
    const storage: LogStorage<E>
    const repository: BatchSink<E>
    const metrics: Metrics
    const queueSize: int
    const threadPoolSize: int
    const jpaBatchSize: int
    /** null until `init` creates it */
    var logQueue: BoundedQueue?<E>
    var poolCreated: bool
    var workers: nat
    var shutdownHooks: nat

    /** The queue has the configured capacity, and a pool exists only once
        the queue does. */
    ghost predicate Valid()
      reads this, logQueue
    {
      (logQueue != null ==> logQueue.Valid() && logQueue.capacity == queueSize) &&
      (poolCreated ==> logQueue != null)
    }

    /** The queue once `init` has created it, as a frame. */
    function Queued(): set<BoundedQueue<E>>
      reads this
    {
      if logQueue == null then {} else {logQueue}
    }

    constructor (storage: LogStorage<E>, repository: BatchSink<E>, metrics: Metrics,
                 queueSize: int, threadPoolSize: int, jpaBatchSize: int)
      ensures Valid() && logQueue == null && !poolCreated && workers == 0 && shutdownHooks == 0
      ensures this.storage == storage && this.repository == repository && this.metrics == metrics
      ensures this.queueSize == queueSize && this.threadPoolSize == threadPoolSize && this.jpaBatchSize == jpaBatchSize
    {
      this.storage, this.repository, this.metrics := storage, repository, metrics;
      this.queueSize, this.threadPoolSize, this.jpaBatchSize := queueSize, threadPoolSize, jpaBatchSize;
      logQueue, poolCreated, workers, shutdownHooks := null, false, 0, 0;
    }

    /** `init`: storage first, then the queue with the configured capacity,
        then the pool with its workers and the shutdown hook; the JDK
        refuses a capacity or a pool size below 1. */
    method Init() returns (r: Outcome)
      requires Valid()
      modifies this`logQueue, this`poolCreated, this`workers, this`shutdownHooks, storage`initialized
      ensures Valid()
      ensures storage.initFailure.Some? ==>
        r == Thrown(storage.initFailure.value) && logQueue == old(logQueue) && poolCreated == old(poolCreated)
      ensures storage.initFailure.None? ==> storage.initialized
      ensures storage.initFailure.None? && queueSize <= 0 ==>
        r == Thrown(IllegalArgumentException("")) && logQueue == old(logQueue) && poolCreated == old(poolCreated)
      ensures storage.initFailure.None? && queueSize > 0 ==> logQueue != null && fresh(logQueue) && logQueue.items == []
      ensures storage.initFailure.None? && queueSize > 0 && threadPoolSize <= 0 ==>
        r == Thrown(IllegalArgumentException("")) && poolCreated == old(poolCreated) && workers == old(workers)
      ensures storage.initFailure.None? && queueSize > 0 && threadPoolSize > 0 ==>
        r == Done && poolCreated && workers == threadPoolSize && shutdownHooks == old(shutdownHooks) + 1
    {
      var initialized := storage.Init();
      if initialized.Thrown? {
        return initialized;
      }
      if queueSize <= 0 {
        return Thrown(IllegalArgumentException(""));
      }
      logQueue := new BoundedQueue(queueSize);
      if threadPoolSize <= 0 {
        return Thrown(IllegalArgumentException(""));
      }
      poolCreated := true;
      workers := threadPoolSize;
      shutdownHooks := shutdownHooks + 1;
      r := Done;
    }

    /** `offerToQueue`: a full queue returns at once, with no latency, drop
        or gauge recorded; otherwise one offer, which is accepted, and the
        size gauged.  Before `init` the queue is null. */
    method OfferToQueue(entry: E) returns (r: Outcome)
      requires Valid()
      modifies Queued()`items, metrics`offerLatencies, metrics`queueSizeGauge
      ensures Valid()
      ensures r == (if logQueue == null then Thrown(NullPointerException) else Done)
      ensures logQueue == null || |old(logQueue.items)| == queueSize ==>
        (logQueue != null ==> logQueue.items == old(logQueue.items)) &&
        metrics.offerLatencies == old(metrics.offerLatencies) && metrics.dropped == old(metrics.dropped) &&
        metrics.queueSizeGauge == old(metrics.queueSizeGauge)
      ensures logQueue != null && |old(logQueue.items)| < queueSize ==>
        logQueue.items == old(logQueue.items) + [entry] &&
        metrics.offerLatencies == old(metrics.offerLatencies) + 1 && metrics.dropped == old(metrics.dropped) &&
        metrics.queueSizeGauge == Some(|logQueue.items|)
    {
      if logQueue == null {
        return Thrown(NullPointerException);
      }
      if logQueue.RemainingCapacity() == 0 {
        return Done;
      }
      // with one thread at a time the offer after a non-zero remaining
      // capacity is never refused, so the drop counter is never reached
      var _ := logQueue.Offer(entry);
      metrics.RecordOfferLatency();
      metrics.GaugeQueueSize(logQueue.Size());
      r := Done;
    }

    /** `logChange`: a change the configuration does not log (`shouldLog`,
        or the exception deciding it threw) is ignored; otherwise the
        record is written to storage, a storage `IOException` is rethrown
        wrapped in a `RuntimeException` before anything is queued, and then
        the record is offered. */
    method LogChange(shouldLog: Result<bool>, entry: E) returns (r: Outcome)
      requires Valid()
      modifies storage`written, storage`writeAttempts
      modifies Queued()`items, metrics`offerLatencies, metrics`queueSizeGauge
      ensures Valid()
      ensures shouldLog.Err? ==> r == Thrown(shouldLog.error)
      ensures shouldLog == Ok(false) ==> r == Done
      ensures shouldLog != Ok(true) ==>
        storage.written == old(storage.written) && storage.writeAttempts == old(storage.writeAttempts) &&
        (logQueue != null ==> logQueue.items == old(logQueue.items)) && metrics.offerLatencies == old(metrics.offerLatencies)
      ensures shouldLog == Ok(true) ==> storage.writeAttempts == old(storage.writeAttempts) + 1
      ensures shouldLog == Ok(true) && old(storage.writeAttempts) in storage.failingWrites ==>
        r == Thrown(WrappedIO(storage.writeError)) && storage.written == old(storage.written) &&
        (logQueue != null ==> logQueue.items == old(logQueue.items)) && metrics.offerLatencies == old(metrics.offerLatencies)
      ensures shouldLog == Ok(true) && old(storage.writeAttempts) !in storage.failingWrites ==>
        storage.written == old(storage.written) + [entry] &&
        r == (if logQueue == null then Thrown(NullPointerException) else Done) &&
        (logQueue != null && |old(logQueue.items)| < queueSize ==> logQueue.items == old(logQueue.items) + [entry])
    {
      if shouldLog.Err? {
        return Thrown(shouldLog.error);
      }
      if !shouldLog.value {
        return Done;
      }
      var written := storage.Write(entry);
      if written.Thrown? {
        return Thrown(WrappedIO(written.error.message));
      }
      r := OfferToQueue(entry);
    }

    /** `saveBatch`: one repository call whose failure is counted and
        swallowed; then the configured batch size is recorded, processed
        grows by 1 for a saved batch and by 0 for a failed one, and the
        queue size is gauged. */
    method SaveBatch(toSave: seq<E>)
      requires logQueue != null && toSave != []
      modifies repository`saved, repository`attempts
      modifies metrics`saveErrors, metrics`batchSizes, metrics`batchLatencies, metrics`processed, metrics`queueSizeGauge
      ensures repository.attempts == old(repository.attempts) + 1
      ensures var saves := old(repository.attempts) !in repository.failingSaves;
        repository.saved == old(repository.saved) + (if saves then [toSave] else []) &&
        metrics.processed == old(metrics.processed) + (if saves then 1 else 0) &&
        metrics.saveErrors == old(metrics.saveErrors) + (if saves then 0 else 1)
      ensures metrics.batchSizes == old(metrics.batchSizes) + [jpaBatchSize]
      ensures metrics.batchLatencies == old(metrics.batchLatencies) + 1
      ensures metrics.queueSizeGauge == Some(|logQueue.items|)
    {
      var success := 0;
      var saved := repository.SaveBatch(toSave);
      if saved.Done? {
        success := success + 1;
      } else {
        metrics.IncrementSaveErrorCount();
      }
      metrics.RecordBatchSize(jpaBatchSize);
      metrics.RecordBatchLatency();
      metrics.IncrementProcessedCount(success);
      metrics.GaugeQueueSize(logQueue.Size());
    }

    /** `flush`: drains up to `jpaBatchSize` records from the head, saves
        them if there are any, and returns how many it drained.  A negative
        batch size is refused by the list it allocates first; before `init`
        the queue is null. */
    method Flush() returns (r: Result<nat>)
      requires Valid()
      modifies Queued()`items, repository`saved, repository`attempts
      modifies metrics`saveErrors, metrics`batchSizes, metrics`batchLatencies, metrics`processed
      modifies metrics`queueSizeGauge, metrics`flushLatencies
      ensures Valid()
      ensures jpaBatchSize < 0 ==> r == Err(IllegalArgumentException("Illegal Capacity: " + IntText(jpaBatchSize)))
      ensures jpaBatchSize >= 0 && logQueue == null ==> r == Err(NullPointerException)
      ensures r.Err? <==> jpaBatchSize < 0 || logQueue == null
      ensures r.Err? ==>
        (logQueue != null ==> logQueue.items == old(logQueue.items)) && repository.attempts == old(repository.attempts)
      ensures r.Ok? ==>
        logQueue != null && r.value == Min(jpaBatchSize, |old(logQueue.items)|) &&
        old(logQueue.items) == old(logQueue.items)[..r.value] + logQueue.items &&
        metrics.queueSizeGauge == Some(|logQueue.items|)
      ensures r.Err? || r == Ok(0) ==>
        repository.attempts == old(repository.attempts) && repository.saved == old(repository.saved) &&
        metrics.batchSizes == old(metrics.batchSizes) && metrics.flushLatencies == old(metrics.flushLatencies) &&
        metrics.processed == old(metrics.processed) && metrics.saveErrors == old(metrics.saveErrors)
      ensures r.Ok? && r.value > 0 ==>
        var saves := old(repository.attempts) !in repository.failingSaves;
        repository.attempts == old(repository.attempts) + 1 &&
        repository.saved == old(repository.saved) + (if saves then [old(logQueue.items)[..r.value]] else []) &&
        metrics.processed == old(metrics.processed) + (if saves then 1 else 0) &&
        metrics.saveErrors == old(metrics.saveErrors) + (if saves then 0 else 1) &&
        metrics.batchSizes == old(metrics.batchSizes) + [jpaBatchSize] &&
        metrics.flushLatencies == old(metrics.flushLatencies) + 1
    {
      if jpaBatchSize < 0 {
        return Err(IllegalArgumentException("Illegal Capacity: " + IntText(jpaBatchSize)));
      }
      if logQueue == null {
        return Err(NullPointerException);
      }
      var batch := logQueue.DrainTo(jpaBatchSize);
      if |batch| > 0 {
        SaveBatch(batch);
        metrics.RecordFlushLatency();
      }
      metrics.GaugeQueueSize(logQueue.Size());
      assert batch == old(logQueue.items)[..|batch|];
      r := Ok(|batch|);
    }

    /** One pass of `processLogs` in a running worker: while the queue holds
        fewer than `jpaBatchSize` records the worker only sleeps; once it
        holds enough, up to `jpaBatchSize` are drained and a non-empty drain
        is saved.  A negative batch size is refused by the list it
        allocates; that exception, like a missing queue's, escapes the loop
        and ends the worker, which is then no longer counted. */
    method ProcessLogsStep() returns (r: Result<nat>)
      requires Valid()
      modifies this`workers, Queued()`items, repository`saved, repository`attempts
      modifies metrics`saveErrors, metrics`batchSizes, metrics`batchLatencies, metrics`processed, metrics`queueSizeGauge
      ensures Valid()
      ensures r.Ok? ==> workers == old(workers)
      ensures r.Err? ==> old(workers) > 0 && workers == old(workers) - 1
      ensures old(workers) == 0 ==> r == Ok(0) && (logQueue != null ==> logQueue.items == old(logQueue.items))
      ensures old(workers) > 0 && logQueue == null ==> r == Err(NullPointerException)
      ensures old(workers) > 0 && logQueue != null && jpaBatchSize < 0 ==>
        r == Err(IllegalArgumentException("Illegal Capacity: " + IntText(jpaBatchSize))) && logQueue.items == old(logQueue.items)
      ensures logQueue != null && |old(logQueue.items)| < jpaBatchSize ==>
        r == Ok(0) && logQueue.items == old(logQueue.items) && repository.attempts == old(repository.attempts)
      ensures r.Ok? && r.value > 0 ==>
        var saves := old(repository.attempts) !in repository.failingSaves;
        logQueue != null && |old(logQueue.items)| >= jpaBatchSize && r.value == Min(jpaBatchSize, |old(logQueue.items)|) &&
        old(logQueue.items) == old(logQueue.items)[..r.value] + logQueue.items &&
        repository.attempts == old(repository.attempts) + 1 && metrics.batchSizes == old(metrics.batchSizes) + [jpaBatchSize] &&
        repository.saved == old(repository.saved) + (if saves then [old(logQueue.items)[..r.value]] else []) &&
        metrics.processed == old(metrics.processed) + (if saves then 1 else 0) &&
        metrics.saveErrors == old(metrics.saveErrors) + (if saves then 0 else 1) &&
        metrics.queueSizeGauge == Some(|logQueue.items|)
      ensures r.Err? || (r.Ok? && r.value == 0) ==>
        (logQueue != null ==> logQueue.items == old(logQueue.items)) &&
        repository.attempts == old(repository.attempts) && repository.saved == old(repository.saved) &&
        metrics.batchSizes == old(metrics.batchSizes) && metrics.processed == old(metrics.processed) &&
        metrics.saveErrors == old(metrics.saveErrors)
    {
      if workers == 0 {
        return Ok(0);
      }
      if logQueue == null {
        workers := workers - 1;
        return Err(NullPointerException);
      }
      if logQueue.Size() < jpaBatchSize {
        return Ok(0);
      }
      if jpaBatchSize < 0 {
        workers := workers - 1;
        return Err(IllegalArgumentException("Illegal Capacity: " + IntText(jpaBatchSize)));
      }
      var batch := logQueue.DrainTo(jpaBatchSize);
      if |batch| > 0 {
        SaveBatch(batch);
      }
      assert batch == old(logQueue.items)[..|batch|];
      r := Ok(|batch|);
    }

    /** `shutdown`: stops the pool (before `init` it is null), then one
        `flush`, then storage close, then the flushed count is added to the
        shutdown counter; a failing flush skips the last two. */
    method Shutdown() returns (r: Outcome)
      requires Valid()
      modifies this`workers, Queued()`items, repository`saved, repository`attempts, storage`closed
      modifies metrics`saveErrors, metrics`batchSizes, metrics`batchLatencies, metrics`processed
      modifies metrics`queueSizeGauge, metrics`flushLatencies, metrics`shutdownFlushed
      ensures Valid()
      ensures !poolCreated ==>
        r == Thrown(NullPointerException) && workers == old(workers) && storage.closed == old(storage.closed) &&
        repository.attempts == old(repository.attempts)
      ensures poolCreated ==> workers == 0
      ensures poolCreated && jpaBatchSize < 0 ==>
        r.Thrown? && storage.closed == old(storage.closed) && metrics.shutdownFlushed == old(metrics.shutdownFlushed)
      ensures poolCreated && jpaBatchSize >= 0 ==>
        var n := Min(jpaBatchSize, |old(logQueue.items)|);
        r == Done && storage.closed && metrics.shutdownFlushed == old(metrics.shutdownFlushed) + n &&
        old(logQueue.items) == old(logQueue.items)[..n] + logQueue.items &&
        repository.attempts == old(repository.attempts) + (if n > 0 then 1 else 0)
    {
      if !poolCreated {
        return Thrown(NullPointerException);
      }
      workers := 0;
      var flushed := Flush();
      if flushed.Err? {
        return Thrown(flushed.error);
      }
      storage.Close();
      metrics.IncrementShutdownFlushedCount(flushed.value);
      r := Done;
    }
  }
}
