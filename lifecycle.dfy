/** `LoggingSmartLifecycle`: the `running` flag that Spring's lifecycle
    drives, the ordered start of storage, queue and batch processing, and the
    ordered stop that swallows the first failure and skips what follows it.
    Clock and interrupts are parameters: how many sleeps fit before the
    deadline, and at which sleep an interrupt arrives. */
module Lifecycle {
  import opened JavaLang
  import opened LogEntries
  import opened Ports
  import opened QueueAdapters
  import opened BatchProcessing

  /** The calls the lifecycle makes, as they are recorded in its trace. */
  datatype Step =
    | InitStorage | InitQueue | InitBatch
    | ShutdownBatch | ShutdownQueue | Await | RunFinalFlush | CloseStorage | ShutdownMetrics
    | RunCallback

  /** The order in which `gracefulShutdown` calls its steps. */
  const ShutdownOrder: seq<Step> := [ShutdownBatch, ShutdownQueue, Await, RunFinalFlush, CloseStorage, ShutdownMetrics]

  /** The order in which `start` calls its steps. */
  const StartOrder: seq<Step> := [InitStorage, InitQueue, InitBatch]

  /** What the clock and the interrupt flag do during a stop: the brief wait
      of the queue's shutdown may be interrupted, `awaitTermination` has
      room for `sleepsUntilDeadline` sleeps of 100 ms before its deadline and
      may be interrupted during one of them. */
  datatype StopTiming = StopTiming(briefInterruptAt: Option<nat>, sleepsUntilDeadline: nat, awaitInterruptAt: Option<nat>)

  /** The first three steps followed by the next `m` are the first `3 + m`. */
  lemma OrderSplits(before: seq<Step>, m: nat)
    requires m == 1 || m == 3
    ensures before + ShutdownOrder[..3] + ShutdownOrder[3..3 + m] == before + ShutdownOrder[..3 + m]
  {
    assert ShutdownOrder[..3 + m] == ShutdownOrder[..3] + ShutdownOrder[3..3 + m];
  }

  class LoggingSmartLifecycle {
    const storage: LogStorage<LogEntry>
    const queue: BlockingQueueAdapter
    const metrics: Metrics
    const batch: BatchProcessingService
    var running: bool
    /** every step called so far, in call order */
    ghost var trace: seq<Step>

    /** The batch service works on the same queue and metrics, and the
        queue keeps its own invariant. */
    ghost predicate Valid()
      reads this, queue
    {
      batch.queue == queue && batch.metrics == metrics && queue.Valid()
    }

    constructor (storage: LogStorage<LogEntry>, queue: BlockingQueueAdapter, metrics: Metrics, batch: BatchProcessingService)
      requires batch.queue == queue && batch.metrics == metrics && queue.Valid()
      ensures Valid() && !running && trace == []
      ensures this.storage == storage && this.queue == queue && this.metrics == metrics && this.batch == batch
    {
      this.storage, this.queue, this.metrics, this.batch := storage, queue, metrics, batch;
      running := false;
      trace := [];
    }

    function IsRunning(): (r: bool)
      reads this
      ensures r == running
    {
      running
    }

    /** `start`: nothing while running; otherwise storage, queue and batch
        processing are initialised in that order, the first failure ends the
        start and is rethrown wrapped in a `LoggingException` coded
        `FAILED_INIT_LOGGING_INFRA`, and `running` is set only after all
        three succeeded. */
    method Start() returns (r: Outcome)
      requires Valid()
      modifies this`running, this`trace, storage`initialized, queue`logQueue, queue`removed
      modifies batch`poolCreated, batch`workers, batch`shutdownHooks
      ensures Valid()
      ensures old(running) ==>
        r == Done && running && trace == old(trace) &&
        storage.initialized == old(storage.initialized) && queue.logQueue == old(queue.logQueue) &&
        batch.poolCreated == old(batch.poolCreated)
      ensures !old(running) && storage.initFailure.Some? ==>
        r == Thrown(LoggingException(FAILED_INIT_LOGGING_INFRA, CauseOf(storage.initFailure.value))) &&
        trace == old(trace) + StartOrder[..1] && queue.logQueue == old(queue.logQueue) && batch.poolCreated == old(batch.poolCreated)
      ensures !old(running) && storage.initFailure.None? && queue.queueSize <= 0 ==>
        r == Thrown(LoggingException(FAILED_INIT_LOGGING_INFRA, CausedByOther)) &&
        trace == old(trace) + StartOrder[..2] && storage.initialized &&
        queue.logQueue == old(queue.logQueue) && batch.poolCreated == old(batch.poolCreated)
      ensures !old(running) && storage.initFailure.None? && queue.queueSize > 0 && batch.threadPoolSize <= 0 ==>
        r == Thrown(LoggingException(FAILED_INIT_LOGGING_INFRA, CausedByOther)) &&
        trace == old(trace) + StartOrder && storage.initialized && queue.logQueue == Some([]) &&
        batch.poolCreated == old(batch.poolCreated)
      ensures !old(running) && storage.initFailure.None? && queue.queueSize > 0 && batch.threadPoolSize > 0 ==>
        r == Done && trace == old(trace) + StartOrder &&
        storage.initialized && queue.logQueue == Some([]) && batch.poolCreated && batch.workers == batch.threadPoolSize
      ensures running <==> old(running) || r.Done?
    {
      if running {
        return Done;
      }
      trace := trace + [InitStorage];
      var outcome := storage.Init();
      if outcome.Thrown? {
        return Thrown(LoggingException(FAILED_INIT_LOGGING_INFRA, CauseOf(outcome.error)));
      }
      trace := trace + [InitQueue];
      outcome := queue.Init();
      if outcome.Thrown? {
        return Thrown(LoggingException(FAILED_INIT_LOGGING_INFRA, CauseOf(outcome.error)));
      }
      trace := trace + [InitBatch];
      outcome := batch.Init();
      if outcome.Thrown? {
        return Thrown(LoggingException(FAILED_INIT_LOGGING_INFRA, CauseOf(outcome.error)));
      }
      running := true;
      r := Done;
    }

    /** `awaitTermination`: sleeps while the queue is not empty and the
        deadline has not passed; an interrupt ends the wait with false.
        Nothing drains the queue in between, so the answer is whether it was
        empty; a null queue throws at the first `size()`. */
    method AwaitTermination(timing: StopTiming) returns (r: Result<bool>)
      ensures queue.logQueue.None? ==> r == Err(NullPointerException)
      ensures queue.logQueue.Some? ==> r == Ok(|queue.logQueue.value| == 0)
    {
      var sleeps := 0;
      var first := queue.Size();
      if first.Err? {
        return Err(first.error);
      }
      var size := first.value;
      while size > 0 && sleeps < timing.sleepsUntilDeadline
        invariant size == |queue.logQueue.value|
        decreases timing.sleepsUntilDeadline - sleeps
      {
        if timing.awaitInterruptAt == Some(sleeps) {
          return Ok(false);
        }
        sleeps := sleeps + 1;
        size := queue.Size().value;
      }
      r := Ok(queue.Size().value == 0);
    }

    /** `gracefulShutdown`: batch shutdown, queue shutdown, the wait, the
        final flush, storage close and metrics shutdown, in that order; the
        first step that throws ends it, the exception is logged and not
        passed on, and the later steps do not run.  `reached` is the number
        of steps called. */
    method GracefulShutdown(timing: StopTiming) returns (ghost reached: nat)
      requires Valid()
      modifies this`trace, batch`workers, queue`logQueue, queue`removed, queue`shutdown, queue`warnings
      modifies batch.sink`saved, batch.sink`attempts, storage`closed
      modifies metrics`saveErrors, metrics`batchSizes, metrics`batchLatencies, metrics`processed, metrics`queueSizeGauge
      modifies metrics`flushLatencies, metrics`shutdownFlushed, metrics`isShutdown
      ensures Valid()
      ensures 1 <= reached <= |ShutdownOrder| && trace == old(trace) + ShutdownOrder[..reached]
      ensures !batch.poolCreated ==> reached == 1
      ensures batch.poolCreated ==> batch.workers == 0
      ensures storage.closed <==> old(storage.closed) || reached >= 5
      ensures metrics.isShutdown <==> old(metrics.isShutdown) || reached == 6
      ensures !old(queue.shutdown) ==> reached <= 3
    {
      // before the k-th call the trace holds the first k steps of the order
      ghost var before := trace;
      trace, reached := before + ShutdownOrder[..1], 1;
      var outcome := batch.Shutdown();
      if outcome.Thrown? {
        return;
      }
      trace, reached := before + ShutdownOrder[..2], 2;
      outcome := queue.Shutdown(timing.briefInterruptAt);
      if outcome.Thrown? {
        return;
      }
      trace, reached := before + ShutdownOrder[..3], 3;
      var drained := AwaitTermination(timing);
      if drained.Err? {
        return;
      }
      var completed := FinishShutdown();
      reached := if completed then 6 else 4;
      OrderSplits(before, reached - 3);
    }

    /** The steps of `gracefulShutdown` once the wait has returned: the
        final flush, then storage close and metrics shutdown unless the
        flush threw; `completed` says whether they ran. */
    method FinishShutdown() returns (ghost completed: bool)
      requires Valid()
      modifies this`trace, queue`logQueue, queue`removed, batch.sink`saved, batch.sink`attempts, storage`closed
      modifies metrics`saveErrors, metrics`batchSizes, metrics`batchLatencies, metrics`processed, metrics`queueSizeGauge
      modifies metrics`flushLatencies, metrics`isShutdown
      ensures Valid()
      ensures !completed ==>
        trace == old(trace) + ShutdownOrder[3..4] &&
        storage.closed == old(storage.closed) && metrics.isShutdown == old(metrics.isShutdown)
      ensures completed ==> trace == old(trace) + ShutdownOrder[3..] && storage.closed && metrics.isShutdown
    {
      ghost var before := trace;
      trace := before + ShutdownOrder[3..4];
      var flushed := batch.FinalFlush();
      if flushed.Err? {
        return false;
      }
      trace := before + ShutdownOrder[3..5];
      storage.Close();
      trace := before + ShutdownOrder[3..];
      metrics.Shutdown();
      completed := true;
    }

    /** `stop`: nothing unless running; otherwise the graceful shutdown runs
        and `running` is false afterwards, whatever it met. */
    method Stop(timing: StopTiming)
      requires Valid()
      modifies this`running, this`trace, batch`workers, queue`logQueue, queue`removed, queue`shutdown, queue`warnings
      modifies batch.sink`saved, batch.sink`attempts, storage`closed
      modifies metrics`saveErrors, metrics`batchSizes, metrics`batchLatencies, metrics`processed, metrics`queueSizeGauge
      modifies metrics`flushLatencies, metrics`shutdownFlushed, metrics`isShutdown
      ensures Valid() && !running
      ensures !old(running) ==> trace == old(trace) && queue.logQueue == old(queue.logQueue) && storage.closed == old(storage.closed)
      ensures old(running) ==>
        |old(trace)| < |trace| <= |old(trace)| + |ShutdownOrder| && trace == old(trace) + ShutdownOrder[..|trace| - |old(trace)|]
    {
      if !running {
        return;
      }
      var _ := GracefulShutdown(timing);
      running := false;
    }

    /** `stop(callback)`: the callback runs once `stop` has returned. */
    method StopWithCallback(timing: StopTiming)
      requires Valid()
      modifies this`running, this`trace, batch`workers, queue`logQueue, queue`removed, queue`shutdown, queue`warnings
      modifies batch.sink`saved, batch.sink`attempts, storage`closed
      modifies metrics`saveErrors, metrics`batchSizes, metrics`batchLatencies, metrics`processed, metrics`queueSizeGauge
      modifies metrics`flushLatencies, metrics`shutdownFlushed, metrics`isShutdown
      ensures Valid() && !running
      ensures |trace| > |old(trace)| && trace[|trace| - 1] == RunCallback
      ensures !old(running) ==> trace == old(trace) + [RunCallback]
    {
      Stop(timing);
      trace := trace + [RunCallback];
    }
  }
}
