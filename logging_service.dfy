/** `LoggingService`: the entry point that turns one entity change into a
    change record, writes it to log storage and offers it to the queue.  The
    change tracker that computes the changed fields, the clock, the random
    id and the host lookup are outside the model and come in as parameters. */
module LoggingServices {
  import opened JavaLang
  import opened JavaObject
  import opened JavaTime
  import opened Operations
  import opened Entities
  import opened EntityIdentifiers
  import opened ChangeSets
  import opened LogEntryIds
  import opened LogEntries
  import opened LogEntryMappers
  import opened LoggingConfig
  import opened Ports
  import opened QueueAdapters

  /** What `LogEntry.create` takes from its surroundings: the random id, the
      clock for the record and for its context, the thread name and the
      host lookup. */
  datatype Environment = Environment(random: Uuid, now: Instant, threadName: string, hostLookup: Option<string>, contextNow: Instant)

  /** `createLogEntry`: the identifier of the old entity when there is one and
      of the new entity otherwise, the change set built from the tracked
      changes, and the operation; the first failure among them is thrown. */
  function CreateLogEntry(oldEntity: Option<Entity>, newEntity: Option<Entity>, operation: Option<Operation>,
                          changes: map<string, Obj>, env: Environment): (r: Result<LogEntry>)
    ensures FromEntity(Subject(oldEntity, newEntity)).Err? ==> r == Err(FromEntity(Subject(oldEntity, newEntity)).error)
    ensures FromEntity(Subject(oldEntity, newEntity)).Ok? && From(Some(changes)).Err? ==> r == Err(From(Some(changes)).error)
    ensures r.Ok? <==> FromEntity(Subject(oldEntity, newEntity)).Ok? && From(Some(changes)).Ok? && operation.Some?
    ensures r.Ok? ==>
      r.value.entityIdentifier == FromEntity(Subject(oldEntity, newEntity)).value &&
      r.value.changeSet == From(Some(changes)).value && Some(r.value.operation) == operation
    ensures r.Ok? ==> r.value.id == Some(Generate(env.random)) && r.value.recordedAt == Some(env.now)
  {
    var entityIdentifier :- FromEntity(Subject(oldEntity, newEntity));
    var changeSet :- From(Some(changes));
    Create(Some(entityIdentifier), Some(changeSet), operation, env.random, env.now, env.threadName, env.hostLookup, env.contextNow)
  }

  /** The new entity plays no part in the record once there is an old one. */
  lemma OldEntityDescribesTheChange(oldEntity: Entity, new1: Option<Entity>, new2: Option<Entity>, operation: Option<Operation>,
                                    changes: map<string, Obj>, env: Environment)
    ensures CreateLogEntry(Some(oldEntity), new1, operation, changes, env) == CreateLogEntry(Some(oldEntity), new2, operation, changes, env)
    ensures CreateLogEntry(Some(oldEntity), new1, operation, changes, env).Ok? ==>
      CreateLogEntry(Some(oldEntity), new1, operation, changes, env).value.entityIdentifier == FromEntity(Some(oldEntity)).value
  {
  }

  /** A deletion (no new entity) and a creation (no old entity) are each
      described by the entity that is there. */
  lemma PresentEntityDescribesTheChange(e: Entity, operation: Option<Operation>, changes: map<string, Obj>, env: Environment)
    ensures CreateLogEntry(Some(e), None, operation, changes, env) == CreateLogEntry(None, Some(e), operation, changes, env)
    ensures CreateLogEntry(None, None, operation, changes, env) == Err(NullPointerException)
  {
  }

  class LoggingService {
    const storage: LogStorage<LogEntry>
    const queue: BlockingQueueAdapter
    const metrics: Metrics
    const properties: EntityLoggingProperties

    constructor (storage: LogStorage<LogEntry>, queue: BlockingQueueAdapter, metrics: Metrics, properties: EntityLoggingProperties)
      ensures this.storage == storage && this.queue == queue && this.metrics == metrics && this.properties == properties
    {
      this.storage, this.queue, this.metrics, this.properties := storage, queue, metrics, properties;
    }

    /** `shouldLogChanges(oldEntity != null ? oldEntity : newEntity)`: a null
        entity is dereferenced unless logging is disabled. */
    function ShouldLog(oldEntity: Option<Entity>, newEntity: Option<Entity>): (r: Result<bool>)
      ensures !properties.enabled ==> r == Ok(false)
      ensures properties.enabled && Subject(oldEntity, newEntity).None? ==> r == Err(NullPointerException)
      ensures Subject(oldEntity, newEntity).Some? ==> r == Ok(ShouldLogChanges(properties, Subject(oldEntity, newEntity).value.cls))
    {
      if !properties.enabled then Ok(false)
      else
        match Subject(oldEntity, newEntity)
        case None => Err(NullPointerException)
        case Some(e) => Ok(ShouldLogChanges(properties, e.cls))
    }

    /** `offerToQueue`: nothing at all when the queue has no room left; else
        one offer whose latency is recorded, a drop counted exactly when the
        offer is refused, and the queue size gauged.  A null queue throws at
        the capacity check. */
    method OfferToQueue(entry: LogEntry) returns (r: Outcome)
      requires queue.Valid()
      modifies queue`logQueue, queue`accepted, metrics`offerLatencies, metrics`dropped, metrics`queueSizeGauge
      ensures queue.Valid()
      ensures old(queue.logQueue).None? || |old(queue.logQueue).value| == queue.queueSize ==>
        queue.logQueue == old(queue.logQueue) && metrics.offerLatencies == old(metrics.offerLatencies) &&
        metrics.dropped == old(metrics.dropped) && metrics.queueSizeGauge == old(metrics.queueSizeGauge)
      ensures r == (if old(queue.logQueue).None? then Thrown(NullPointerException) else Done)
      ensures old(queue.logQueue).Some? && |old(queue.logQueue).value| < queue.queueSize ==>
        var accepted := !queue.shutdown && ToEntity(entry).Ok?;
        queue.logQueue == Some(old(queue.logQueue).value + (if accepted then [ToEntity(entry).value] else [])) &&
        metrics.offerLatencies == old(metrics.offerLatencies) + 1 &&
        metrics.dropped == old(metrics.dropped) + (if accepted then 0 else 1) &&
        metrics.queueSizeGauge == Some(|queue.logQueue.value|)
    {
      var capacity := queue.RemainingCapacity();
      if capacity.Err? {
        return Thrown(capacity.error);
      }
      if capacity.value == 0 {
        return Done;
      }
      ghost var q := queue.logQueue.value;
      var offered := queue.Offer(entry);
      assert q + [] == q;
      metrics.RecordOfferLatency();
      if !offered {
        metrics.IncrementDroppedCount();
      }
      metrics.GaugeQueueSize(queue.Size().value);
      r := Done;
    }

    /** The tail of `logChange` once the record exists: the storage write,
        whose `IOException` is rethrown wrapped in a `RuntimeException`
        before anything is offered, then the offer to the queue. */
    method WriteAndOffer(entry: LogEntry) returns (r: Outcome)
      requires queue.Valid()
      modifies storage`written, storage`writeAttempts
      modifies queue`logQueue, queue`accepted, metrics`offerLatencies, metrics`dropped, metrics`queueSizeGauge
      ensures queue.Valid()
      ensures storage.writeAttempts == old(storage.writeAttempts) + 1
      ensures old(storage.writeAttempts) in storage.failingWrites ==>
        r == Thrown(WrappedIO(storage.writeError)) && storage.written == old(storage.written) &&
        queue.logQueue == old(queue.logQueue) && metrics.dropped == old(metrics.dropped) &&
        metrics.offerLatencies == old(metrics.offerLatencies)
      ensures old(storage.writeAttempts) !in storage.failingWrites ==>
        storage.written == old(storage.written) + [entry] &&
        r == (if old(queue.logQueue).None? then Thrown(NullPointerException) else Done) &&
        (old(queue.logQueue).Some? && |old(queue.logQueue).value| < queue.queueSize ==>
          metrics.offerLatencies == old(metrics.offerLatencies) + 1 &&
          (queue.logQueue != old(queue.logQueue) <==> !queue.shutdown && ToEntity(entry).Ok?))
    {
      var written := storage.Write(entry);
      if written.Thrown? {
        return Thrown(WrappedIO(written.error.message));
      }
      ghost var q := queue.logQueue;
      r := OfferToQueue(entry);
      if q.Some? && |q.value| < queue.queueSize {
        assert q.value + [] == q.value;
        assert |queue.logQueue.value| == |q.value| + (if !queue.shutdown && ToEntity(entry).Ok? then 1 else 0);
      }
    }

    /** `logChange`: a change the configuration does not log is ignored;
        otherwise the record is created, written to storage and offered to
        the queue; a failure creating it is thrown before anything is
        written. */
    method LogChange(oldEntity: Option<Entity>, newEntity: Option<Entity>, operation: Option<Operation>,
                     changes: map<string, Obj>, env: Environment) returns (r: Outcome, ghost entry: Option<LogEntry>)
      requires queue.Valid()
      modifies storage`written, storage`writeAttempts
      modifies queue`logQueue, queue`accepted, metrics`offerLatencies, metrics`dropped, metrics`queueSizeGauge
      ensures queue.Valid()
      ensures entry.Some? <==> ShouldLog(oldEntity, newEntity) == Ok(true) && CreateLogEntry(oldEntity, newEntity, operation, changes, env).Ok?
      ensures entry.Some? ==> Ok(entry.value) == CreateLogEntry(oldEntity, newEntity, operation, changes, env)
      ensures ShouldLog(oldEntity, newEntity).Err? ==> r == Thrown(ShouldLog(oldEntity, newEntity).error)
      ensures ShouldLog(oldEntity, newEntity) == Ok(false) ==> r == Done
      ensures ShouldLog(oldEntity, newEntity) == Ok(true) && CreateLogEntry(oldEntity, newEntity, operation, changes, env).Err? ==>
        r == Thrown(CreateLogEntry(oldEntity, newEntity, operation, changes, env).error)
      ensures entry.None? ==>
        storage.written == old(storage.written) && storage.writeAttempts == old(storage.writeAttempts) &&
        queue.logQueue == old(queue.logQueue) && metrics.dropped == old(metrics.dropped) &&
        metrics.offerLatencies == old(metrics.offerLatencies)
      ensures entry.Some? ==> storage.writeAttempts == old(storage.writeAttempts) + 1
      ensures entry.Some? && old(storage.writeAttempts) in storage.failingWrites ==>
        r == Thrown(WrappedIO(storage.writeError)) && storage.written == old(storage.written) &&
        queue.logQueue == old(queue.logQueue) && metrics.dropped == old(metrics.dropped) &&
        metrics.offerLatencies == old(metrics.offerLatencies)
      ensures entry.Some? && old(storage.writeAttempts) !in storage.failingWrites ==>
        storage.written == old(storage.written) + [entry.value] &&
        r == (if old(queue.logQueue).None? then Thrown(NullPointerException) else Done) &&
        (old(queue.logQueue).Some? && |old(queue.logQueue).value| < queue.queueSize ==>
          metrics.offerLatencies == old(metrics.offerLatencies) + 1 &&
          (queue.logQueue != old(queue.logQueue) <==> !queue.shutdown && ToEntity(entry.value).Ok?))
    {
      var log := ShouldLog(oldEntity, newEntity);
      if log.Err? {
        return Thrown(log.error), None;
      }
      if !log.value {
        return Done, None;
      }
      var created := CreateLogEntry(oldEntity, newEntity, operation, changes, env);
      if created.Err? {
        return Thrown(created.error), None;
      }
      entry := Some(created.value);
      r := WriteAndOffer(created.value);
    }
  }
}
