/** The oldest `BlockingQueueLoggingStrategy`: a fixed queue of 100000
    records, workers that move polled records into a batch queue, and
    batches of 10 stored row by row, each row's failure swallowed.  The
    record the factory builds comes in as a parameter (its type is left
    open); the logging decision is the shared `EntityLoggingCondition`. */
module CoreStrategy {
  import opened JavaLang
  import opened Entities
  import opened LoggingConfig
  import opened Ports
  import opened JavaQueues

  /** `new LinkedBlockingQueue<>(100000)` */
  const QueueCapacity: nat := 100000
  /** the batch size fixed by the constructor */
  const BatchSize: nat := 10
  /** `Executors.newFixedThreadPool(5)`, one `processLogs` per thread */
  const PoolSize: nat := 5

  /** The rows of `rows` whose insert succeeds when the first of them is
      insert call number `start`, in order. */
  function Surviving<E>(rows: seq<E>, start: nat, failing: set<nat>): (r: seq<E>)
    ensures |r| <= |rows|
    decreases |rows|
  {
    if rows == [] then []
    else (if start in failing then [] else [rows[0]]) + Surviving(rows[1..], start + 1, failing)
  }

  /** One more row is kept exactly when its own call does not fail. */
  lemma {:induction false} SurvivingAppend<E>(rows: seq<E>, x: E, start: nat, failing: set<nat>)
    ensures Surviving(rows + [x], start, failing) ==
      Surviving(rows, start, failing) + (if start + |rows| in failing then [] else [x])
    decreases |rows|
  {
    if rows == [] {
      assert [x][1..] == [];
    } else {
      assert (rows + [x])[1..] == rows[1..] + [x];
      SurvivingAppend(rows[1..], x, start + 1, failing);
    }
  }

  /** Without failing calls every row is stored. */
  lemma {:induction false} SurvivingWithoutFailures<E>(rows: seq<E>, start: nat, failing: set<nat>)
    requires forall k :: start <= k < start + |rows| ==> k !in failing
    ensures Surviving(rows, start, failing) == rows
    decreases |rows|
  {
    if rows != [] {
      SurvivingWithoutFailures(rows[1..], start + 1, failing);
      assert [rows[0]] + rows[1..] == rows;
    }
  }

  /** A single failing call loses its own row and no other: the rows before
      and after it are still stored, in order. */
  lemma {:induction false} OneFailureLosesOneRow<E>(rows: seq<E>, start: nat, i: nat)
    requires i < |rows|
    ensures Surviving(rows, start, {start + i}) == rows[..i] + rows[i + 1..]
    decreases |rows|
  {
    var tail := rows[1..];
    if i == 0 {
      SurvivingWithoutFailures(tail, start + 1, {start});
      assert Surviving(rows, start, {start}) == Surviving(tail, start + 1, {start});
      assert rows[..0] + rows[1..] == tail;
    } else {
      assert start + i == (start + 1) + (i - 1);
      OneFailureLosesOneRow(tail, start + 1, i - 1);
      assert Surviving(rows, start, {start + i}) == [rows[0]] + Surviving(tail, start + 1, {start + i});
      assert tail[..i - 1] + tail[i..] == rows[1..i] + rows[i + 1..];
      assert [rows[0]] + rows[1..i] == rows[..i];
    }
  }

  class BlockingQueueLoggingStrategy<E> {
    const logQueue: BoundedQueue<E>
    const batchQueue: LinkedQueue<E>
    const repository: RowSink<E>
    const loggingCondition: EntityLoggingCondition
    /** the `processLogs` loops still running */
    var workers: nat
    var shutdownHooks: nat

    /** The queue has its fixed capacity, and between calls the batch queue
        never holds a whole batch: the worker that completes one flushes it. */
    ghost predicate Valid()
      reads this, logQueue, batchQueue
    {
      logQueue.Valid() && logQueue.capacity == QueueCapacity && |batchQueue.items| < BatchSize
    }

    /** The constructor creates both queues, starts the pool's workers and
        registers the shutdown hook. */
    constructor (repository: RowSink<E>, loggingCondition: EntityLoggingCondition)
      ensures Valid() && fresh(logQueue) && fresh(batchQueue)
      ensures logQueue.items == [] && batchQueue.items == [] && workers == PoolSize && shutdownHooks == 1
      ensures this.repository == repository && this.loggingCondition == loggingCondition
    {
      this.repository, this.loggingCondition := repository, loggingCondition;
      logQueue := new BoundedQueue(QueueCapacity);
      batchQueue := new LinkedQueue();
      workers, shutdownHooks := PoolSize, 1;
    }

    /** `loggingCondition.shouldLogChanges(oldEntity != null ? oldEntity :
        newEntity)`: a null entity is dereferenced unless logging is off. */
    function ShouldLog(oldEntity: Option<Entity>, newEntity: Option<Entity>): (r: Result<bool>)
      reads loggingCondition.statics
      ensures !loggingCondition.statics.enableGlobalLogging ==> r == Ok(false)
      ensures loggingCondition.statics.enableGlobalLogging && Subject(oldEntity, newEntity).None? ==> r == Err(NullPointerException)
      ensures Subject(oldEntity, newEntity).Some? ==> r == Ok(loggingCondition.ShouldLogChanges(Subject(oldEntity, newEntity).value.cls))
    {
      if !loggingCondition.statics.enableGlobalLogging then Ok(false)
      else
        match Subject(oldEntity, newEntity)
        case None => Err(NullPointerException)
        case Some(e) => Ok(loggingCondition.ShouldLogChanges(e.cls))
    }

    /** `offerToQueue`: a full queue takes nothing and keeps its head; any
        other queue takes the record at its tail. */
    method OfferToQueue(entry: E)
      requires Valid()
      modifies logQueue`items
      ensures Valid()
      ensures logQueue.items == old(logQueue.items) + (if |old(logQueue.items)| < QueueCapacity then [entry] else [])
    {
      if logQueue.RemainingCapacity() == 0 {
        return;
      }
      var _ := logQueue.Offer(entry);
    }

    /** `logChange`: a change the condition does not log queues nothing;
        otherwise the record built for it is offered. */
    method LogChange(oldEntity: Option<Entity>, newEntity: Option<Entity>, entry: E) returns (r: Outcome)
      requires Valid()
      modifies logQueue`items
      ensures Valid()
      ensures ShouldLog(oldEntity, newEntity).Err? ==> r == Thrown(ShouldLog(oldEntity, newEntity).error)
      ensures ShouldLog(oldEntity, newEntity).Ok? ==> r == Done
      ensures ShouldLog(oldEntity, newEntity) != Ok(true) ==> logQueue.items == old(logQueue.items)
      ensures ShouldLog(oldEntity, newEntity) == Ok(true) ==>
        logQueue.items == old(logQueue.items) + (if |old(logQueue.items)| < QueueCapacity then [entry] else [])
    {
      var log := ShouldLog(oldEntity, newEntity);
      if log.Err? {
        return Thrown(log.error);
      }
      if !log.value {
        return Done;
      }
      OfferToQueue(entry);
      r := Done;
    }

    /** `saveBatch`: every row is attempted, in order; a row whose insert
        throws is lost and the loop goes on with the next. */
    method SaveBatch(toSave: seq<E>)
      modifies repository`inserted, repository`attempts
      ensures repository.attempts == old(repository.attempts) + |toSave|
      ensures repository.inserted == old(repository.inserted) + Surviving(toSave, old(repository.attempts), repository.failingInserts)
    {
      for i := 0 to |toSave|
        invariant repository.attempts == old(repository.attempts) + i
        invariant repository.inserted ==
          old(repository.inserted) + Surviving(toSave[..i], old(repository.attempts), repository.failingInserts)
      {
        SurvivingAppend(toSave[..i], toSave[i], old(repository.attempts), repository.failingInserts);
        assert toSave[..i + 1] == toSave[..i] + [toSave[i]];
        var _ := repository.Insert(toSave[i]);
      }
      assert toSave[..|toSave|] == toSave;
    }

    /** `flushBatch`: the first `min(10, size)` records leave the batch
        queue, in order, and are saved row by row; an empty batch queue
        reaches no repository method. */
    method FlushBatch()
      modifies batchQueue`items, repository`inserted, repository`attempts
      ensures var n := Min(BatchSize, |old(batchQueue.items)|);
        old(batchQueue.items) == old(batchQueue.items)[..n] + batchQueue.items &&
        repository.attempts == old(repository.attempts) + n &&
        repository.inserted ==
          old(repository.inserted) + Surviving(old(batchQueue.items)[..n], old(repository.attempts), repository.failingInserts)
    {
      var toSave := CollectUpTo(batchQueue, BatchSize);
      assert toSave == old(batchQueue.items)[..|toSave|];
      if toSave != [] {
        SaveBatch(toSave);
      }
    }

    /** `processLogEntry`: nothing for null; otherwise the record joins the
        batch queue, and the batch is flushed as soon as it is whole. */
    method ProcessLogEntry(entry: Option<E>)
      requires Valid()
      modifies batchQueue`items, repository`inserted, repository`attempts
      ensures Valid()
      ensures entry.None? || |old(batchQueue.items)| + 1 < BatchSize ==>
        repository.attempts == old(repository.attempts) && repository.inserted == old(repository.inserted)
      ensures entry.None? ==> batchQueue.items == old(batchQueue.items)
      ensures entry.Some? && |old(batchQueue.items)| + 1 < BatchSize ==> batchQueue.items == old(batchQueue.items) + [entry.value]
      ensures entry.Some? && |old(batchQueue.items)| + 1 == BatchSize ==>
        batchQueue.items == [] && repository.attempts == old(repository.attempts) + BatchSize &&
        repository.inserted ==
          old(repository.inserted) + Surviving(old(batchQueue.items) + [entry.value], old(repository.attempts), repository.failingInserts)
    {
      if entry.None? {
        return;
      }
      batchQueue.Add(entry.value);
      ghost var whole := batchQueue.items;
      if batchQueue.Size() >= BatchSize {
        assert whole[..BatchSize] == whole;
        FlushBatch();
      }
    }

    /** One pass of a running worker's `processLogs` loop: a timed poll,
        which finds nothing in an empty queue, and the polled record
        processed.  A stopped pool runs no pass. */
    method ProcessLogsStep() returns (polled: Option<E>)
      requires Valid()
      modifies logQueue`items, batchQueue`items, repository`inserted, repository`attempts
      ensures Valid()
      ensures workers == 0 ==>
        polled == None && logQueue.items == old(logQueue.items) && batchQueue.items == old(batchQueue.items)
      ensures workers > 0 && old(logQueue.items) == [] ==> polled == None && logQueue.items == []
      ensures workers > 0 && old(logQueue.items) != [] ==>
        polled == Some(old(logQueue.items)[0]) && logQueue.items == old(logQueue.items)[1..]
      ensures polled.None? ==>
        batchQueue.items == old(batchQueue.items) && repository.attempts == old(repository.attempts) &&
        repository.inserted == old(repository.inserted)
      ensures polled.Some? && |old(batchQueue.items)| + 1 < BatchSize ==> batchQueue.items == old(batchQueue.items) + [polled.value]
      ensures polled.Some? && |old(batchQueue.items)| + 1 == BatchSize ==>
        batchQueue.items == [] &&
        repository.inserted ==
          old(repository.inserted) + Surviving(old(batchQueue.items) + [polled.value], old(repository.attempts), repository.failingInserts)
    {
      if workers == 0 {
        return None;
      }
      polled := logQueue.Poll();
      ProcessLogEntry(polled);
    }

    /** `flush`, the scheduled job: one `flushBatch`. */
    method Flush()
      requires Valid()
      modifies batchQueue`items, repository`inserted, repository`attempts
      ensures Valid()
      ensures old(batchQueue.items) == [] ==> repository.attempts == old(repository.attempts)
      ensures batchQueue.items == [] && repository.attempts == old(repository.attempts) + |old(batchQueue.items)|
      ensures repository.inserted ==
        old(repository.inserted) + Surviving(old(batchQueue.items), old(repository.attempts), repository.failingInserts)
    {
      assert old(batchQueue.items)[..|batchQueue.items|] == batchQueue.items;
      FlushBatch();
    }

    /** `shutdown`: the pool is stopped, then exactly one `flush` stores
        what the batch queue still holds.  Records left in the main queue
        stay there. */
    method Shutdown()
      requires Valid()
      modifies this`workers, batchQueue`items, repository`inserted, repository`attempts
      ensures Valid() && workers == 0
      ensures batchQueue.items == [] && repository.attempts == old(repository.attempts) + |old(batchQueue.items)|
      ensures repository.inserted ==
        old(repository.inserted) + Surviving(old(batchQueue.items), old(repository.attempts), repository.failingInserts)
      ensures logQueue.items == old(logQueue.items)
    {
      workers := 0;
      Flush();
    }
  }
}
