/** The `EntityChangeLogger` of the change-tracker package, the first
    version of the pipeline: records are offered to a queue of 100000,
    workers move them into a batch queue, and batches of up to 1000 go to
    the repository's `saveAll` in one call.  The record that `logChange`
    builds (or the exception building it threw) comes in as a parameter;
    its type is left open.  There are no metrics. */
module TrackerChangeLogger {
  import opened JavaLang
  import opened Ports
  import opened JavaQueues

  /** `new LinkedBlockingQueue<>(100000)` */
  const QueueCapacity: nat := 100000
  /** the field `batchSize` */
  const BatchSize: nat := 1000
  /** `Executors.newFixedThreadPool(5)`, one `processLogs` per thread */
  const PoolSize: nat := 5

  class EntityChangeLogger<E> {
    const logQueue: BoundedQueue<E>
    const batchQueue: LinkedQueue<E>
    const repository: BatchSink<E>
    /** the `processLogs` loops still running */
    var workers: nat
    var shutdownHooks: nat

    /** The queue has its fixed capacity, and between calls the batch queue
        never holds a whole batch: the worker that completes one flushes it,
        and the flush takes the batch out even when saving it fails. */
    ghost predicate Valid()
      reads this, logQueue, batchQueue
    {
      logQueue.Valid() && logQueue.capacity == QueueCapacity && |batchQueue.items| < BatchSize
    }

    /** The constructor creates both queues, starts the pool's workers and
        registers the shutdown hook. */
    constructor (repository: BatchSink<E>)
      ensures Valid() && fresh(logQueue) && fresh(batchQueue)
      ensures logQueue.items == [] && batchQueue.items == [] && workers == PoolSize && shutdownHooks == 1
      ensures this.repository == repository
    {
      this.repository := repository;
      logQueue := new BoundedQueue(QueueCapacity);
      batchQueue := new LinkedQueue();
      workers, shutdownHooks := PoolSize, 1;
    }

    /** `logChange` once the record is built: a record a full queue refuses
        is skipped without an exception, and an exception building it is
        caught and not passed on. */
    method LogChange(entry: Result<E>)
      requires Valid()
      modifies logQueue`items
      ensures Valid()
      ensures entry.Err? ==> logQueue.items == old(logQueue.items)
      ensures entry.Ok? ==>
        logQueue.items == old(logQueue.items) + (if |old(logQueue.items)| < QueueCapacity then [entry.value] else [])
    {
      if entry.Ok? {
        // a record the full queue refuses is only reported
        var _ := logQueue.Offer(entry.value);
      }
    }

    /** `flushBatch`: the first `min(1000, size)` records leave the batch
        queue, in order, and reach `saveAll` in one call; an empty batch
        queue makes no call.  A failing `saveAll` is passed on, and the
        records it was given are gone from the batch queue. */
    method FlushBatch() returns (r: Outcome)
      modifies batchQueue`items, repository`saved, repository`attempts
      ensures var n := Min(BatchSize, |old(batchQueue.items)|);
        old(batchQueue.items) == old(batchQueue.items)[..n] + batchQueue.items &&
        (n == 0 ==> r == Done && repository.attempts == old(repository.attempts) && repository.saved == old(repository.saved)) &&
        (n > 0 ==> repository.attempts == old(repository.attempts) + 1) &&
        (n > 0 && old(repository.attempts) in repository.failingSaves ==>
          r == Thrown(repository.saveError) && repository.saved == old(repository.saved)) &&
        (n > 0 && old(repository.attempts) !in repository.failingSaves ==>
          r == Done && repository.saved == old(repository.saved) + [old(batchQueue.items)[..n]])
    {
      var toSave := CollectUpTo(batchQueue, BatchSize);
      assert toSave == old(batchQueue.items)[..|toSave|];
      r := Done;
      if toSave != [] {
        r := repository.SaveBatch(toSave);
      }
    }

    /** One pass of a running worker's `processLogs` loop: a timed poll,
        which finds nothing in an empty queue; a polled record joins the
        batch queue, and a whole batch is flushed.  A failing flush escapes
        the loop, which then ends: that worker is gone. */
    method ProcessLogsStep() returns (polled: Option<E>, r: Outcome)
      requires Valid()
      modifies this`workers, logQueue`items, batchQueue`items, repository`saved, repository`attempts
      ensures Valid()
      ensures old(workers) == 0 ==>
        polled == None && r == Done && workers == 0 && logQueue.items == old(logQueue.items) &&
        batchQueue.items == old(batchQueue.items)
      ensures old(workers) > 0 && old(logQueue.items) == [] ==> polled == None && logQueue.items == []
      ensures old(workers) > 0 && old(logQueue.items) != [] ==>
        polled == Some(old(logQueue.items)[0]) && logQueue.items == old(logQueue.items)[1..]
      ensures polled.None? || |old(batchQueue.items)| + 1 < BatchSize ==>
        r == Done && workers == old(workers) &&
        repository.attempts == old(repository.attempts) && repository.saved == old(repository.saved)
      ensures polled.None? ==> batchQueue.items == old(batchQueue.items)
      ensures polled.Some? && |old(batchQueue.items)| + 1 < BatchSize ==> batchQueue.items == old(batchQueue.items) + [polled.value]
      ensures polled.Some? && |old(batchQueue.items)| + 1 == BatchSize ==>
        batchQueue.items == [] && repository.attempts == old(repository.attempts) + 1 &&
        (old(repository.attempts) in repository.failingSaves ==>
          r == Thrown(repository.saveError) && workers == old(workers) - 1 && repository.saved == old(repository.saved)) &&
        (old(repository.attempts) !in repository.failingSaves ==>
          r == Done && workers == old(workers) &&
          repository.saved == old(repository.saved) + [old(batchQueue.items) + [polled.value]])
    {
      if workers == 0 {
        return None, Done;
      }
      polled := logQueue.Poll();
      r := Done;
      if polled.Some? {
        batchQueue.Add(polled.value);
        ghost var whole := batchQueue.items;
        if batchQueue.Size() >= BatchSize {
          assert whole[..BatchSize] == whole;
          r := FlushBatch();
          if r.Thrown? {
            workers := workers - 1;
          }
        }
      }
    }

    /** `scheduledFlush`: one `flushBatch`, which empties the batch queue,
        its failure passed on to the scheduler. */
    method ScheduledFlush() returns (r: Outcome)
      requires Valid()
      modifies batchQueue`items, repository`saved, repository`attempts
      ensures Valid() && batchQueue.items == []
      ensures old(batchQueue.items) == [] ==>
        r == Done && repository.attempts == old(repository.attempts) && repository.saved == old(repository.saved)
      ensures old(batchQueue.items) != [] ==>
        repository.attempts == old(repository.attempts) + 1 &&
        (r.Done? <==> old(repository.attempts) !in repository.failingSaves) &&
        repository.saved == old(repository.saved) + (if r.Done? then [old(batchQueue.items)] else [])
    {
      assert old(batchQueue.items)[..|batchQueue.items|] == batchQueue.items;
      r := FlushBatch();
    }

    /** `shutdown`: the pool is stopped, then exactly one `scheduledFlush`
        stores the rest of the batch queue.  Records left in the main queue
        stay there. */
    method Shutdown() returns (r: Outcome)
      requires Valid()
      modifies this`workers, batchQueue`items, repository`saved, repository`attempts
      ensures Valid() && workers == 0 && batchQueue.items == [] && logQueue.items == old(logQueue.items)
      ensures repository.attempts == old(repository.attempts) + (if old(batchQueue.items) == [] then 0 else 1)
      ensures old(batchQueue.items) == [] ==> r == Done && repository.saved == old(repository.saved)
      ensures old(batchQueue.items) != [] ==>
        (r.Done? <==> old(repository.attempts) !in repository.failingSaves) &&
        repository.saved == old(repository.saved) + (if r.Done? then [old(batchQueue.items)] else [])
    {
      workers := 0;
      r := ScheduledFlush();
    }
  }
}
