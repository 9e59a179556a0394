/** The output ports of the pipeline as the services see them.  Metrics are
    plain counters and gauges; batch persistence and log storage record what
    they accepted and fail when their failure schedule says so, the n-th call
    (counting from 0) failing when n is among its failing calls. */
module Ports {
  import opened JavaLang

  /** `MetricsPort`.  Latencies are measured with the clock, so only the
      number of recordings is kept. */
  class Metrics {
    var offerLatencies: nat
    var dropped: nat
    /** the last value passed to `gaugeQueueSize`, if any */
    var queueSizeGauge: Option<int>
    var batchLatencies: nat
    /** every value passed to `recordBatchSize`, in order */
    var batchSizes: seq<int>
    var processed: int
    var saveErrors: nat
    var flushLatencies: nat
    var shutdownFlushed: int
    var isShutdown: bool

    constructor ()
      ensures offerLatencies == 0 && dropped == 0 && queueSizeGauge == None && batchLatencies == 0
      ensures batchSizes == [] && processed == 0 && saveErrors == 0 && flushLatencies == 0
      ensures shutdownFlushed == 0 && !isShutdown
    {
      offerLatencies, dropped, queueSizeGauge, batchLatencies := 0, 0, None, 0;
      batchSizes, processed, saveErrors, flushLatencies := [], 0, 0, 0;
      shutdownFlushed, isShutdown := 0, false;
    }

    method RecordOfferLatency()
      modifies this`offerLatencies
      ensures offerLatencies == old(offerLatencies) + 1
    {
      offerLatencies := offerLatencies + 1;
    }

    method IncrementDroppedCount()
      modifies this`dropped
      ensures dropped == old(dropped) + 1
    {
      dropped := dropped + 1;
    }

    method GaugeQueueSize(currentSize: int)
      modifies this`queueSizeGauge
      ensures queueSizeGauge == Some(currentSize)
    {
      queueSizeGauge := Some(currentSize);
    }

    method RecordBatchLatency()
      modifies this`batchLatencies
      ensures batchLatencies == old(batchLatencies) + 1
    {
      batchLatencies := batchLatencies + 1;
    }

    method RecordBatchSize(size: int)
      modifies this`batchSizes
      ensures batchSizes == old(batchSizes) + [size]
    {
      batchSizes := batchSizes + [size];
    }

    method IncrementProcessedCount(count: int)
      modifies this`processed
      ensures processed == old(processed) + count
    {
      processed := processed + count;
    }

    method IncrementSaveErrorCount()
      modifies this`saveErrors
      ensures saveErrors == old(saveErrors) + 1
    {
      saveErrors := saveErrors + 1;
    }

    method RecordFlushLatency()
      modifies this`flushLatencies
      ensures flushLatencies == old(flushLatencies) + 1
    {
      flushLatencies := flushLatencies + 1;
    }

    method IncrementShutdownFlushedCount(count: int)
      modifies this`shutdownFlushed
      ensures shutdownFlushed == old(shutdownFlushed) + count
    {
      shutdownFlushed := shutdownFlushed + count;
    }

    method Shutdown()
      modifies this`isShutdown
      ensures isShutdown
    {
      isShutdown := true;
    }
  }

  /** A repository that stores a batch at a time.  `BatchPersistencePort` as
      implemented by `BatchPersistenceAdapter` ignores an empty batch; any
      other batch goes to the repository, whose failure is passed on to the
      caller.  The older pipelines' `saveAll` is only ever called with a
      non-empty batch. */
  class BatchSink<E> {
    /** the batches the repository stored, in call order */
    var saved: seq<seq<E>>
    /** how many batches reached the repository */
    var attempts: nat
    /** which saves fail, and with what */
    const failingSaves: set<nat>
    const saveError: Exception

    constructor (failingSaves: set<nat>, saveError: Exception)
      ensures saved == [] && attempts == 0 && this.failingSaves == failingSaves && this.saveError == saveError
    {
      saved, attempts := [], 0;
      this.failingSaves, this.saveError := failingSaves, saveError;
    }

    method SaveBatch(batch: seq<E>) returns (r: Outcome)
      modifies this`saved, this`attempts
      ensures batch == [] ==> r == Done && saved == old(saved) && attempts == old(attempts)
      ensures batch != [] ==> attempts == old(attempts) + 1
      ensures batch != [] && old(attempts) in failingSaves ==> r == Thrown(saveError) && saved == old(saved)
      ensures batch != [] && old(attempts) !in failingSaves ==> r == Done && saved == old(saved) + [batch]
    {
      if batch == [] {
        return Done;
      }
      var fails := attempts in failingSaves;
      attempts := attempts + 1;
      if fails {
        r := Thrown(saveError);
      } else {
        saved := saved + [batch];
        r := Done;
      }
    }
  }

  /** The older `LogEntryRepository.batchInsert`: one row per call, each
      of which may throw. */
  class RowSink<E> {
    /** the rows stored, in call order */
    var inserted: seq<E>
    /** how many rows were attempted */
    var attempts: nat
    /** which calls fail, and with what */
    const failingInserts: set<nat>
    const insertError: Exception

    constructor (failingInserts: set<nat>, insertError: Exception)
      ensures inserted == [] && attempts == 0 && this.failingInserts == failingInserts && this.insertError == insertError
    {
      inserted, attempts := [], 0;
      this.failingInserts, this.insertError := failingInserts, insertError;
    }

    method Insert(row: E) returns (r: Outcome)
      modifies this`inserted, this`attempts
      ensures attempts == old(attempts) + 1
      ensures old(attempts) in failingInserts ==> r == Thrown(insertError) && inserted == old(inserted)
      ensures old(attempts) !in failingInserts ==> r == Done && inserted == old(inserted) + [row]
    {
      var fails := attempts in failingInserts;
      attempts := attempts + 1;
      if fails {
        r := Thrown(insertError);
      } else {
        inserted := inserted + [row];
        r := Done;
      }
    }
  }

  /** `JdbcTemplate.batchUpdate(sql, batchArgs)`: one statement run over a
      list of parameter rows; a failing call throws. */
  class JdbcBatch<R> {
    /** the row lists executed, in call order */
    var batches: seq<seq<R>>
    /** how many calls were made */
    var calls: nat
    /** which calls fail, and with what */
    const failingCalls: set<nat>
    const callError: Exception

    constructor (failingCalls: set<nat>, callError: Exception)
      ensures batches == [] && calls == 0 && this.failingCalls == failingCalls && this.callError == callError
    {
      batches, calls := [], 0;
      this.failingCalls, this.callError := failingCalls, callError;
    }

    method BatchUpdate(rows: seq<R>) returns (r: Outcome)
      modifies this`batches, this`calls
      ensures calls == old(calls) + 1
      ensures old(calls) in failingCalls ==> r == Thrown(callError) && batches == old(batches)
      ensures old(calls) !in failingCalls ==> r == Done && batches == old(batches) + [rows]
    {
      var fails := calls in failingCalls;
      calls := calls + 1;
      if fails {
        r := Thrown(callError);
      } else {
        batches := batches + [rows];
        r := Done;
      }
    }
  }

  /** `LogStoragePort`: `init` may throw, a failing `write` throws an
      `IOException`, and `close` does not throw. */
  class LogStorage<E> {
    /** the records written, in order */
    var written: seq<E>
    var writeAttempts: nat
    var initialized: bool
    var closed: bool
    const initFailure: Option<Exception>
    /** which writes fail, and the message of their `IOException` */
    const failingWrites: set<nat>
    const writeError: string

    constructor (initFailure: Option<Exception>, failingWrites: set<nat>, writeError: string)
      ensures written == [] && writeAttempts == 0 && !initialized && !closed
      ensures this.initFailure == initFailure && this.failingWrites == failingWrites && this.writeError == writeError
    {
      written, writeAttempts, initialized, closed := [], 0, false, false;
      this.initFailure, this.failingWrites, this.writeError := initFailure, failingWrites, writeError;
    }

    method Init() returns (r: Outcome)
      modifies this`initialized
      ensures initFailure.Some? ==> r == Thrown(initFailure.value) && initialized == old(initialized)
      ensures initFailure.None? ==> r == Done && initialized
    {
      if initFailure.Some? {
        r := Thrown(initFailure.value);
      } else {
        initialized := true;
        r := Done;
      }
    }

    method Write(entry: E) returns (r: Outcome)
      modifies this`written, this`writeAttempts
      ensures writeAttempts == old(writeAttempts) + 1
      ensures old(writeAttempts) in failingWrites ==> r == Thrown(IOException(writeError)) && written == old(written)
      ensures old(writeAttempts) !in failingWrites ==> r == Done && written == old(written) + [entry]
    {
      var fails := writeAttempts in failingWrites;
      writeAttempts := writeAttempts + 1;
      if fails {
        r := Thrown(IOException(writeError));
      } else {
        written := written + [entry];
        r := Done;
      }
    }

    method Close()
      modifies this`closed
      ensures closed
    {
      closed := true;
    }
  }
}
