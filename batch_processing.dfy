/** The batch side of the pipeline (`BatchProcessingService`): workers that
    take batches off the queue and hand them to batch persistence, the
    flushes run at shutdown, and the metrics they record.  One pass of a
    worker's loop is one step. */
module BatchProcessing {
  import opened JavaLang
  import opened JavaText
  import opened LogEntries
  import opened Ports
  import opened QueueAdapters
  import opened LogEntryMappers

  /** the most flush rounds `finalFlush` runs */
  const MaxFlushRounds: nat := 5

  /** One more flush round drains what is left, up to the limit. */
  lemma RoundStep(len: nat, rounds: nat, limit: nat, total: nat)
    requires total == Min(len, rounds * limit)
    ensures total + Min(limit, len - total) == Min(len, (rounds + 1) * limit)
  {
    assert (rounds + 1) * limit == rounds * limit + limit;
  }

  /** Draining `n` more rows moves them from the front of the rest to the
      end of what was drained. */
  lemma MoveFront(drained: seq<LogEntryJpo>, rest: seq<LogEntryJpo>, n: nat)
    requires n <= |rest|
    ensures drained + rest == (drained + rest[..n]) + rest[n..]
  {
    assert rest == rest[..n] + rest[n..];
  }

  lemma SplitAt(s: seq<LogEntryJpo>, front: seq<LogEntryJpo>, back: seq<LogEntryJpo>)
    requires s == front + back
    ensures s[..|front|] == front && s[|front|..] == back
  {
  }

  /** Rounds that drained everything stay within the bound of five rounds. */
  lemma RoundsCoverAll(len: nat, rounds: nat, limit: nat)
    requires rounds <= MaxFlushRounds && Min(len, rounds * limit) == len
    ensures Min(len, MaxFlushRounds * limit) == len
  {
    assert rounds * limit <= MaxFlushRounds * limit by {
      assert MaxFlushRounds * limit == rounds * limit + (MaxFlushRounds - rounds) * limit;
    }
  }

  class BatchProcessingService {
    const queue: BlockingQueueAdapter
    const sink: BatchSink<LogEntry>
    const metrics: Metrics
    /** `loggingProperties.getJpaBatchSize()` */
    const jpaBatchSize: int
    /** `loggingProperties.getStrategy().getThreadPoolSize()` */
    const threadPoolSize: int
    /** whether `init` created the worker pool */
    var poolCreated: bool
    /** how many workers are running */
    var workers: nat
    /** how many JVM shutdown hooks `init` registered */
    var shutdownHooks: nat

    constructor (queue: BlockingQueueAdapter, sink: BatchSink<LogEntry>, metrics: Metrics, jpaBatchSize: int, threadPoolSize: int)
      ensures this.queue == queue && this.sink == sink && this.metrics == metrics
      ensures this.jpaBatchSize == jpaBatchSize && this.threadPoolSize == threadPoolSize
      ensures !poolCreated && workers == 0 && shutdownHooks == 0
    {
      this.queue, this.sink, this.metrics := queue, sink, metrics;
      this.jpaBatchSize, this.threadPoolSize := jpaBatchSize, threadPoolSize;
      poolCreated, workers, shutdownHooks := false, 0, 0;
    }

    /** Whether the next save the sink receives goes through. */
    predicate NextSaveSucceeds(batch: seq<LogEntry>)
      reads sink
    {
      batch == [] || sink.attempts !in sink.failingSaves
    }

    /** `init`: a pool of `threadPoolSize` workers (a size below 1 is rejected
        by the pool factory), each running `processLogs`, and a shutdown hook. */
    method Init() returns (r: Outcome)
      modifies this`poolCreated, this`workers, this`shutdownHooks
      ensures threadPoolSize <= 0 ==>
        r == Thrown(IllegalArgumentException("")) &&
        poolCreated == old(poolCreated) && workers == old(workers) && shutdownHooks == old(shutdownHooks)
      ensures threadPoolSize > 0 ==> r == Done && poolCreated && workers == threadPoolSize && shutdownHooks == old(shutdownHooks) + 1
    {
      if threadPoolSize <= 0 {
        return Thrown(IllegalArgumentException(""));
      }
      poolCreated := true;
      workers := threadPoolSize;
      shutdownHooks := shutdownHooks + 1;
      r := Done;
    }

    /** `saveBatch`: one call to batch persistence whose failure is counted
        and swallowed; then the configured batch size (not the size of this
        batch) is recorded, processed grows by 1 for a saved batch and by 0
        for a failed one, and the queue size is gauged. */
    method SaveBatch(toSave: seq<LogEntry>)
      requires queue.logQueue.Some?
      modifies sink`saved, sink`attempts
      modifies metrics`saveErrors, metrics`batchSizes, metrics`batchLatencies, metrics`processed, metrics`queueSizeGauge
      ensures toSave != [] ==> sink.attempts == old(sink.attempts) + 1
      ensures toSave == [] ==> sink.attempts == old(sink.attempts)
      ensures sink.saved == old(sink.saved) + (if old(NextSaveSucceeds(toSave)) && toSave != [] then [toSave] else [])
      ensures metrics.processed == old(metrics.processed) + (if old(NextSaveSucceeds(toSave)) then 1 else 0)
      ensures metrics.saveErrors == old(metrics.saveErrors) + (if old(NextSaveSucceeds(toSave)) then 0 else 1)
      ensures metrics.batchSizes == old(metrics.batchSizes) + [jpaBatchSize]
      ensures metrics.batchLatencies == old(metrics.batchLatencies) + 1
      ensures metrics.queueSizeGauge == Some(|queue.logQueue.value|)
    {
      var success := 0;
      var batchCount := jpaBatchSize;
      var outcome := sink.SaveBatch(toSave);
      if outcome.Done? {
        success := success + 1;
      } else {
        metrics.IncrementSaveErrorCount();
      }
      metrics.RecordBatchSize(batchCount);
      metrics.RecordBatchLatency();
      metrics.IncrementProcessedCount(success);
      metrics.GaugeQueueSize(queue.Size().value);
    }

    /** The part of `flush` that runs when rows were drained: the batch is
        saved as `saveBatch` does and the flush latency recorded. */
    method SaveFlushed(toSave: seq<LogEntry>)
      requires queue.logQueue.Some? && toSave != []
      modifies sink`saved, sink`attempts
      modifies metrics`saveErrors, metrics`batchSizes, metrics`batchLatencies, metrics`processed, metrics`queueSizeGauge
      modifies metrics`flushLatencies
      ensures sink.attempts == old(sink.attempts) + 1
      ensures sink.saved == old(sink.saved) + (if old(sink.attempts) !in sink.failingSaves then [toSave] else [])
      ensures metrics.processed == old(metrics.processed) + (if old(sink.attempts) !in sink.failingSaves then 1 else 0)
      ensures metrics.saveErrors == old(metrics.saveErrors) + (if old(sink.attempts) !in sink.failingSaves then 0 else 1)
      ensures metrics.batchSizes == old(metrics.batchSizes) + [jpaBatchSize]
      ensures metrics.flushLatencies == old(metrics.flushLatencies) + 1
    {
      SaveBatch(toSave);
      metrics.RecordFlushLatency();
    }

    /** `flush`: one drain of at most `jpaBatchSize` records; a non-empty
        batch is saved and its latency recorded; the queue size is gauged and
        the number drained returned.  Records of a failed save are not put
        back, and neither are the rows of a drain that fails to read one of
        them back. */
    method Flush() returns (r: Result<nat>, ghost batch: seq<LogEntry>)
      requires queue.Valid()
      modifies queue`logQueue, queue`removed, sink`saved, sink`attempts
      modifies metrics`saveErrors, metrics`batchSizes, metrics`batchLatencies, metrics`processed, metrics`queueSizeGauge
      modifies metrics`flushLatencies
      ensures queue.Valid()
      ensures old(queue.logQueue).None? || jpaBatchSize < 0 ==> r.Err? && queue.logQueue == old(queue.logQueue)
      ensures old(queue.logQueue).None? && jpaBatchSize >= 0 ==> r == Err(NullPointerException)
      ensures r.Err? && old(queue.logQueue).Some? && jpaBatchSize >= 0 ==>
        var q := old(queue.logQueue).value;
        var n := Min(jpaBatchSize, |q|);
        queue.logQueue == Some(q[n..]) && queue.removed == old(queue.removed) + q[..n]
      ensures r.Err? ==> sink.saved == old(sink.saved) && sink.attempts == old(sink.attempts)
      ensures r.Err? ==> metrics.batchSizes == old(metrics.batchSizes) && metrics.flushLatencies == old(metrics.flushLatencies)
      ensures r.Err? ==> metrics.processed == old(metrics.processed) && metrics.saveErrors == old(metrics.saveErrors)
      ensures r.Ok? ==> old(queue.logQueue).Some? && 0 <= jpaBatchSize
      ensures r.Ok? ==>
        var q := old(queue.logQueue).value;
        r.value == Min(jpaBatchSize, |q|) && queue.logQueue == Some(q[r.value..]) &&
        queue.removed == old(queue.removed) + q[..r.value] && ReadsBackAs(q[..r.value], batch)
      ensures r.Ok? ==> metrics.queueSizeGauge == Some(|queue.logQueue.value|)
      ensures r.Ok? && r.value == 0 ==>
        sink.saved == old(sink.saved) && sink.attempts == old(sink.attempts) &&
        metrics.batchSizes == old(metrics.batchSizes) && metrics.processed == old(metrics.processed) &&
        metrics.saveErrors == old(metrics.saveErrors) && metrics.flushLatencies == old(metrics.flushLatencies)
      ensures r.Ok? && r.value > 0 ==>
        var saves := old(sink.attempts) !in sink.failingSaves;
        sink.attempts == old(sink.attempts) + 1 && metrics.batchSizes == old(metrics.batchSizes) + [jpaBatchSize] &&
        metrics.flushLatencies == old(metrics.flushLatencies) + 1 &&
        sink.saved == old(sink.saved) + (if saves then [batch] else []) &&
        metrics.processed == old(metrics.processed) + (if saves then 1 else 0) &&
        metrics.saveErrors == old(metrics.saveErrors) + (if saves then 0 else 1)
      ensures sink.attempts - old(sink.attempts) == |metrics.batchSizes| - |old(metrics.batchSizes)| ==
              (metrics.processed - old(metrics.processed)) + (metrics.saveErrors - old(metrics.saveErrors)) <= 1
    {
      ghost var q := queue.logQueue;
      var drain := queue.DrainTo([], jpaBatchSize);
      if drain.Err? {
        return Err(drain.error), [];
      }
      var drained := drain.value.count;
      batch := drain.value.batch;
      ghost var read := ToDomainAll(q.value[..drained]);
      assert batch == read.value;
      ToDomainAllReadsBackAs(q.value[..drained], batch);
      if drained > 0 {
        SaveFlushed(drain.value.batch);
      }
      metrics.GaugeQueueSize(queue.Size().value);
      r := Ok(drained);
    }

    /** The most one flush drains: `jpaBatchSize`, or nothing when it is
        negative (the drain then throws). */
    function FlushLimit(): nat {
      if jpaBatchSize < 0 then 0 else jpaBatchSize
    }

    /** One round of `finalFlush`'s loop: a flush, seen as the loop sees it,
        the rows it removes from the front of the queue and the one save
        attempt it makes at most, recorded once as processed or failed. */
    method FlushRound() returns (r: Result<nat>)
      requires queue.Valid()
      modifies queue`logQueue, queue`removed, sink`saved, sink`attempts
      modifies metrics`saveErrors, metrics`batchSizes, metrics`batchLatencies, metrics`processed, metrics`queueSizeGauge
      modifies metrics`flushLatencies
      ensures queue.Valid()
      ensures r.Ok? ==>
        old(queue.logQueue).Some? && r.value == Min(FlushLimit(), |old(queue.logQueue).value|) &&
        queue.logQueue == Some(old(queue.logQueue).value[r.value..]) &&
        queue.removed == old(queue.removed) + old(queue.logQueue).value[..r.value]
      ensures old(sink.attempts) <= sink.attempts <= old(sink.attempts) + 1
      ensures sink.attempts - old(sink.attempts) == |metrics.batchSizes| - |old(metrics.batchSizes)| ==
              (metrics.processed - old(metrics.processed)) + (metrics.saveErrors - old(metrics.saveErrors))
    {
      var flushed, _ := Flush();
      r := flushed;
    }

    /** `finalFlush`: flush rounds while the queue is not empty, at most five,
        stopping after a round that drained nothing; the total drained is
        returned.  A size or flush that throws ends it with that exception. */
    method FinalFlush() returns (r: Result<nat>)
      requires queue.Valid()
      modifies queue`logQueue, queue`removed, sink`saved, sink`attempts
      modifies metrics`saveErrors, metrics`batchSizes, metrics`batchLatencies, metrics`processed, metrics`queueSizeGauge
      modifies metrics`flushLatencies
      ensures queue.Valid()
      ensures old(queue.logQueue).None? ==> r == Err(NullPointerException)
      ensures old(queue.logQueue) == Some([]) ==> r == Ok(0) && sink.attempts == old(sink.attempts)
      ensures r.Ok? ==> old(queue.logQueue).Some? && r.value <= |old(queue.logQueue).value|
      ensures r.Ok? ==>
        var q := old(queue.logQueue).value;
        r.value == Min(|q|, MaxFlushRounds * FlushLimit()) &&
        queue.logQueue == Some(q[r.value..]) && queue.removed == old(queue.removed) + q[..r.value]
      ensures sink.attempts <= old(sink.attempts) + MaxFlushRounds
      ensures |metrics.batchSizes| - |old(metrics.batchSizes)| == sink.attempts - old(sink.attempts)
      ensures (metrics.processed - old(metrics.processed)) + (metrics.saveErrors - old(metrics.saveErrors)) ==
              sink.attempts - old(sink.attempts)
    {
      var totalFlushed := 0;
      var flushRound := 0;
      var size := queue.Size();
      if size.Err? {
        return Err(size.error);
      }
      ghost var q0 := queue.logQueue.value;
      ghost var drained: seq<LogEntryJpo> := [];
      while size.value > 0 && flushRound < MaxFlushRounds
        invariant queue.Valid()
        invariant 0 <= flushRound <= MaxFlushRounds && totalFlushed == |drained|
        invariant queue.logQueue.Some? && q0 == drained + queue.logQueue.value
        invariant queue.removed == old(queue.removed) + drained
        invariant size == Ok(|queue.logQueue.value|)
        invariant totalFlushed == Min(|q0|, flushRound * FlushLimit())
        invariant q0 == [] ==> flushRound == 0
        invariant flushRound == 0 ==> sink.attempts == old(sink.attempts)
        invariant old(sink.attempts) <= sink.attempts <= old(sink.attempts) + flushRound
        invariant |metrics.batchSizes| - |old(metrics.batchSizes)| == sink.attempts - old(sink.attempts)
        invariant (metrics.processed - old(metrics.processed)) + (metrics.saveErrors - old(metrics.saveErrors)) ==
                  sink.attempts - old(sink.attempts)
        decreases MaxFlushRounds - flushRound
      {
        ghost var rest := queue.logQueue.value;
        var flushed := FlushRound();
        if flushed.Err? {
          return Err(flushed.error);
        }
        RoundStep(|q0|, flushRound, FlushLimit(), totalFlushed);
        MoveFront(drained, rest, flushed.value);
        drained := drained + rest[..flushed.value];
        totalFlushed := totalFlushed + flushed.value;
        flushRound := flushRound + 1;
        if flushed.value == 0 {
          assert FlushLimit() == 0;
          break;
        }
        size := queue.Size();
      }
      if size.value == 0 {
        RoundsCoverAll(|q0|, flushRound, FlushLimit());
      }
      SplitAt(q0, drained, queue.logQueue.value);
      r := Ok(totalFlushed);
    }

    /** `shutdown`: the pool is stopped (its workers end, at the latest when
        `shutdownNow` interrupts them), then exactly one flush runs and its
        count is added to the shutdown-flushed counter.  Without a pool the
        first call dereferences null. */
    method Shutdown() returns (r: Outcome)
      requires queue.Valid()
      modifies this`workers, queue`logQueue, queue`removed, sink`saved, sink`attempts
      modifies metrics`saveErrors, metrics`batchSizes, metrics`batchLatencies, metrics`processed, metrics`queueSizeGauge
      modifies metrics`flushLatencies, metrics`shutdownFlushed
      ensures queue.Valid()
      ensures !poolCreated ==>
        r == Thrown(NullPointerException) && workers == old(workers) &&
        queue.logQueue == old(queue.logQueue) && sink.attempts == old(sink.attempts)
      ensures poolCreated ==> workers == 0
      ensures poolCreated && old(queue.logQueue).None? && jpaBatchSize >= 0 ==> r == Thrown(NullPointerException)
      ensures r.Done? ==>
        old(queue.logQueue).Some? && 0 <= jpaBatchSize &&
        var n := Min(jpaBatchSize, |old(queue.logQueue).value|);
        metrics.shutdownFlushed == old(metrics.shutdownFlushed) + n &&
        queue.logQueue == Some(old(queue.logQueue).value[n..]) && sink.attempts == old(sink.attempts) + (if n > 0 then 1 else 0)
      ensures r.Thrown? ==> metrics.shutdownFlushed == old(metrics.shutdownFlushed)
    {
      if !poolCreated {
        return Thrown(NullPointerException);
      }
      workers := 0;
      var flushed, _ := Flush();
      if flushed.Err? {
        return Thrown(flushed.error);
      }
      metrics.IncrementShutdownFlushedCount(flushed.value);
      r := Done;
    }

    /** The work of one pass of `processLogs` once the queue holds a whole
        batch: at most `jpaBatchSize` records are drained and a non-empty
        drain is saved as `saveBatch` does.  A negative batch size is refused
        by the list it allocates, and the rows of a drain that fails to read
        one of them back have left the queue. */
    method DrainAndSave() returns (r: Result<nat>, ghost batch: seq<LogEntry>)
      requires queue.Valid() && queue.logQueue.Some?
      modifies queue`logQueue, queue`removed, sink`saved, sink`attempts
      modifies metrics`saveErrors, metrics`batchSizes, metrics`batchLatencies, metrics`processed, metrics`queueSizeGauge
      ensures queue.Valid()
      ensures jpaBatchSize < 0 ==>
        r == Err(IllegalArgumentException("Illegal Capacity: " + IntText(jpaBatchSize))) &&
        queue.logQueue == old(queue.logQueue) && queue.removed == old(queue.removed)
      ensures var q := old(queue.logQueue).value;
        var n := Min(jpaBatchSize, |q|);
        jpaBatchSize >= 0 ==> queue.logQueue == Some(q[n..]) && queue.removed == old(queue.removed) + q[..n]
      ensures r.Err? || (r.Ok? && r.value == 0) ==>
        sink.saved == old(sink.saved) && sink.attempts == old(sink.attempts) &&
        metrics.batchSizes == old(metrics.batchSizes) && metrics.processed == old(metrics.processed) &&
        metrics.saveErrors == old(metrics.saveErrors)
      ensures r.Ok? ==> jpaBatchSize >= 0 && r.value == Min(jpaBatchSize, |old(queue.logQueue).value|)
      ensures r.Ok? && r.value > 0 ==>
        var q := old(queue.logQueue).value;
        var saves := old(sink.attempts) !in sink.failingSaves;
        ReadsBackAs(q[..r.value], batch) &&
        sink.attempts == old(sink.attempts) + 1 && metrics.batchSizes == old(metrics.batchSizes) + [jpaBatchSize] &&
        sink.saved == old(sink.saved) + (if saves then [batch] else []) &&
        metrics.processed == old(metrics.processed) + (if saves then 1 else 0) &&
        metrics.saveErrors == old(metrics.saveErrors) + (if saves then 0 else 1) &&
        metrics.queueSizeGauge == Some(|queue.logQueue.value|)
    {
      ghost var q := queue.logQueue;
      var drain := queue.DrainTo([], jpaBatchSize);
      if drain.Err? {
        return Err(drain.error), [];
      }
      var drained := drain.value.count;
      batch := drain.value.batch;
      ghost var read := ToDomainAll(q.value[..drained]);
      assert batch == read.value;
      ToDomainAllReadsBackAs(q.value[..drained], batch);
      if drained > 0 {
        SaveBatch(drain.value.batch);
      }
      r := Ok(drained);
    }

    /** One pass of `processLogs` in a running worker: while the queue holds
        fewer than `jpaBatchSize` records the worker keeps sleeping; otherwise
        it drains at most `jpaBatchSize` and saves the batch when it is not
        empty.  An exception other than an interrupt escapes the loop and
        ends the worker, which is then no longer counted. */
    method ProcessLogsStep() returns (r: Result<nat>, ghost batch: seq<LogEntry>)
      requires queue.Valid()
      modifies this`workers, queue`logQueue, queue`removed, sink`saved, sink`attempts
      modifies metrics`saveErrors, metrics`batchSizes, metrics`batchLatencies, metrics`processed, metrics`queueSizeGauge
      ensures queue.Valid()
      ensures r.Ok? ==> workers == old(workers)
      ensures r.Err? ==> old(workers) > 0 && workers == old(workers) - 1
      ensures old(workers) == 0 ==> r == Ok(0) && queue.logQueue == old(queue.logQueue) && sink.attempts == old(sink.attempts)
      ensures old(workers) > 0 && old(queue.logQueue).None? ==>
        r == Err(NullPointerException) && queue.logQueue == old(queue.logQueue) && queue.removed == old(queue.removed)
      ensures old(workers) > 0 && old(queue.logQueue).Some? && jpaBatchSize < 0 ==>
        r == Err(IllegalArgumentException("Illegal Capacity: " + IntText(jpaBatchSize))) &&
        queue.logQueue == old(queue.logQueue) && queue.removed == old(queue.removed)
      ensures r.Err? && old(queue.logQueue).Some? && jpaBatchSize >= 0 ==>
        var q := old(queue.logQueue).value;
        var n := Min(jpaBatchSize, |q|);
        queue.logQueue == Some(q[n..]) && queue.removed == old(queue.removed) + q[..n]
      ensures r.Err? || (r.Ok? && r.value == 0) ==>
        sink.saved == old(sink.saved) && sink.attempts == old(sink.attempts) &&
        metrics.batchSizes == old(metrics.batchSizes) && metrics.processed == old(metrics.processed) &&
        metrics.saveErrors == old(metrics.saveErrors)
      ensures r.Ok? && r.value == 0 ==> queue.logQueue == old(queue.logQueue) && queue.removed == old(queue.removed)
      ensures old(queue.logQueue).Some? && |old(queue.logQueue).value| < jpaBatchSize ==>
        r == Ok(0) && queue.logQueue == old(queue.logQueue)
      ensures r.Ok? && r.value > 0 ==> old(queue.logQueue).Some? && |old(queue.logQueue).value| >= jpaBatchSize
      ensures r.Ok? && r.value > 0 ==>
        var q := old(queue.logQueue).value;
        var saves := old(sink.attempts) !in sink.failingSaves;
        r.value == Min(jpaBatchSize, |q|) && queue.logQueue == Some(q[r.value..]) &&
        queue.removed == old(queue.removed) + q[..r.value] && ReadsBackAs(q[..r.value], batch) &&
        sink.attempts == old(sink.attempts) + 1 && metrics.batchSizes == old(metrics.batchSizes) + [jpaBatchSize] &&
        sink.saved == old(sink.saved) + (if saves then [batch] else []) &&
        metrics.processed == old(metrics.processed) + (if saves then 1 else 0) &&
        metrics.saveErrors == old(metrics.saveErrors) + (if saves then 0 else 1) &&
        metrics.queueSizeGauge == Some(|queue.logQueue.value|)
    {
      if workers == 0 {
        return Ok(0), [];
      }
      var size := queue.Size();
      if size.Err? {
        workers := workers - 1;
        return Err(size.error), [];
      }
      if size.value < jpaBatchSize {
        return Ok(0), [];
      }
      ghost var q := queue.logQueue.value;
      r, batch := DrainAndSave();
      if r.Err? {
        workers := workers - 1;
      } else if r.value == 0 {
        assert q[0..] == q;
      }
    }
  }
}
