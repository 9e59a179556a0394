/** The bounded in-memory queue between the entity listener and the batch
    workers (`BlockingQueueAdapter`).  The queue holds persistence rows:
    `offer` maps a record to its row, `drainTo` maps rows back to records. */
module QueueAdapters {
  import opened JavaLang
  import opened JavaText
  import opened Operations
  import opened ChangeSets
  import opened LogEntries
  import opened LogEntryMappers

  /** how many one-second waits `awaitBriefCompletion` makes at most */
  const BriefWaitSeconds: nat := 5
  /** how many dropped rows the shutdown report lists one by one */
  const DetailedDropLimit: nat := 10

  /** One warning of the report written when shutdown drops rows. */
  datatype DropWarning =
    | DroppedTotal(count: nat)
    | DroppedEntry(entityName: Option<string>, operation: Option<Operation>)
    | MoreDropped(count: nat)

  /** `logRemainingData`: the number dropped, the name and operation of the
      first ten, and how many more there were when there were more than ten. */
  function DropReport(remaining: seq<LogEntryJpo>): (w: seq<DropWarning>)
    ensures |w| == 1 + Min(DetailedDropLimit, |remaining|) + (if |remaining| > DetailedDropLimit then 1 else 0)
    ensures w[0] == DroppedTotal(|remaining|)
    ensures forall i :: 0 <= i < Min(DetailedDropLimit, |remaining|) ==>
      w[1 + i] == DroppedEntry(remaining[i].entityName, remaining[i].operation)
    ensures |remaining| > DetailedDropLimit ==> w[|w| - 1] == MoreDropped(|remaining| - DetailedDropLimit)
    ensures |remaining| <= DetailedDropLimit ==> forall i :: 0 <= i < |w| ==> !w[i].MoreDropped?
  {
    var shown := Min(DetailedDropLimit, |remaining|);
    [DroppedTotal(|remaining|)] +
    seq(shown, i requires 0 <= i < shown => DroppedEntry(remaining[i].entityName, remaining[i].operation)) +
    (if |remaining| > DetailedDropLimit then [MoreDropped(|remaining| - DetailedDropLimit)] else [])
  }

  /** Collecting a stream of results into a list: every value in order, or
      the first failure. */
  function Collect(rs: seq<Result<LogEntry>>): (r: Result<seq<LogEntry>>)
    ensures r.Ok? <==> forall i :: 0 <= i < |rs| ==> rs[i].Ok?
    ensures r.Ok? ==> |r.value| == |rs| && forall i :: 0 <= i < |rs| ==> Ok(r.value[i]) == rs[i]
  {
    if rs == [] then Ok([])
    else
      var head :- rs[0];
      var tail :- Collect(rs[1..]);
      assert forall i :: 1 <= i < |rs| ==> rs[i] == rs[1..][i - 1];
      Ok([head] + tail)
  }

  /** `rows.stream().map(toDomain).toList()`; what it yields is stated by
      `ToDomainAllReads`. */
  function ToDomainAll(rows: seq<LogEntryJpo>): Result<seq<LogEntry>> {
    Collect(seq(|rows|, i requires 0 <= i < |rows| => ToDomain(rows[i])))
  }

  /** Every row read back in order; the first row that cannot be read back
      throws. */
  lemma ToDomainAllReads(rows: seq<LogEntryJpo>)
    ensures ToDomainAll(rows).Ok? <==> forall i :: 0 <= i < |rows| ==> ToDomain(rows[i]).Ok?
    ensures ToDomainAll(rows).Ok? ==>
      |ToDomainAll(rows).value| == |rows| && forall i :: 0 <= i < |rows| ==> Ok(ToDomainAll(rows).value[i]) == ToDomain(rows[i])
  {
    var read := seq(|rows|, i requires 0 <= i < |rows| => ToDomain(rows[i]));
    assert forall i :: 0 <= i < |rows| ==> read[i] == ToDomain(rows[i]);
    assert ToDomainAll(rows) == Collect(read);
  }

  /** Each row reads back as the record at the same place. */
  predicate ReadsBackAs(rows: seq<LogEntryJpo>, es: seq<LogEntry>) {
    |rows| == |es| && forall i {:trigger ToDomain(rows[i])} :: 0 <= i < |rows| ==> ToDomain(rows[i]) == Ok(es[i])
  }

  /** Reading all rows back succeeds exactly with the records each row reads
      back as. */
  lemma ToDomainAllReadsBackAs(rows: seq<LogEntryJpo>, es: seq<LogEntry>)
    ensures ToDomainAll(rows) == Ok(es) <==> ReadsBackAs(rows, es)
  {
    ToDomainAllReads(rows);
    if ReadsBackAs(rows, es) {
      assert ToDomainAll(rows).value == es;
    }
  }

  /** A drain that succeeded: the caller's batch with the drained records
      appended, and how many rows left the queue. */
  datatype Drained = Drained(batch: seq<LogEntry>, count: nat)

  function Appended(batch: seq<LogEntry>, read: Result<seq<LogEntry>>, count: nat): (r: Result<Drained>)
    ensures r.Ok? <==> read.Ok?
    ensures r.Ok? ==> r.value.batch == batch + read.value && r.value.count == count
  {
    match read
    case Ok(es) => Ok(Drained(batch + es, count))
    case Err(e) => Err(e)
  }

  /** Records the mapper can carry through a row come back out of the queue
      as the records that were offered: equal by id, and field by field apart
      from the change set, which is reloaded from its stored map. */
  lemma DrainedAreOffered(es: seq<LogEntry>, rows: seq<LogEntryJpo>)
    requires |rows| == |es|
    requires forall i :: 0 <= i < |es| ==> Storable(es[i]) && ToEntity(es[i]) == Ok(rows[i])
    ensures ToDomainAll(rows).Ok?
    ensures forall i :: 0 <= i < |es| ==> ToDomainAll(rows).value[i] == es[i].(changeSet := Reloaded(es[i].changeSet))
    ensures forall i :: 0 <= i < |es| ==> SameEntry(ToDomainAll(rows).value[i], es[i])
  {
    ToDomainAllReads(rows);
    forall i | 0 <= i < |es| ensures ToDomain(rows[i]) == Ok(es[i].(changeSet := Reloaded(es[i].changeSet))) {
      OfferedReadsBack(es[i], rows[i]);
    }
  }

  lemma OfferedReadsBack(e: LogEntry, row: LogEntryJpo)
    requires Storable(e) && ToEntity(e) == Ok(row)
    ensures ToDomain(row) == Ok(e.(changeSet := Reloaded(e.changeSet)))
  {
    RoundTrip(e);
  }

  class BlockingQueueAdapter {
    /** `loggingProperties.getStrategy().getQueueSize()`, the capacity */
    const queueSize: int
    /** `logQueue`: null before `init` and after shutdown clears it */
    var logQueue: Option<seq<LogEntryJpo>>
    var shutdown: bool
    /** the warnings written when shutdown dropped rows */
    var warnings: seq<DropWarning>
    /** every row the queue accepted, and every row that left it: drained,
        dropped at shutdown, or thrown away by a later `init` */
    ghost var accepted: seq<LogEntryJpo>
    ghost var removed: seq<LogEntryJpo>

    /** The held rows are the accepted rows that have not left, oldest first,
        and never more than the capacity. */
    ghost predicate Valid()
      reads this
    {
      match logQueue
      case None => removed == accepted
      case Some(q) => |q| <= queueSize && removed + q == accepted
    }

    constructor (queueSize: int)
      ensures Valid() && this.queueSize == queueSize
      ensures logQueue.None? && !shutdown && warnings == [] && accepted == []
    {
      this.queueSize := queueSize;
      logQueue, shutdown, warnings := None, false, [];
      accepted, removed := [], [];
    }

    /** `size`: dereferences the queue. */
    function Size(): (r: Result<int>)
      reads this
      ensures r.Err? <==> logQueue.None?
      ensures r.Err? ==> r.error == NullPointerException
      ensures r.Ok? ==> r.value == |logQueue.value|
      ensures Valid() && r.Ok? ==> 0 <= r.value <= queueSize
    {
      match logQueue
      case None => Err(NullPointerException)
      case Some(q) => Ok(|q|)
    }

    /** `remainingCapacity`: dereferences the queue. */
    function RemainingCapacity(): (r: Result<int>)
      reads this
      ensures r.Err? <==> logQueue.None?
      ensures r.Err? ==> r.error == NullPointerException
      ensures r.Ok? ==> r.value + Size().value == queueSize
      ensures Valid() && r.Ok? ==> 0 <= r.value <= queueSize
      ensures Valid() && r.Ok? ==> (r.value == 0 <==> |logQueue.value| == queueSize)
    {
      match logQueue
      case None => Err(NullPointerException)
      case Some(q) => Ok(queueSize - |q|)
    }

    /** `init`: a new empty queue of the configured capacity replaces the old
        one, whose rows are lost; a capacity below 1 is rejected by the queue's
        constructor.  The shutdown flag is left as it is. */
    method Init() returns (r: Outcome)
      requires Valid()
      modifies this`logQueue, this`removed
      ensures Valid()
      ensures queueSize <= 0 ==> r == Thrown(IllegalArgumentException("")) && logQueue == old(logQueue) && removed == old(removed)
      ensures queueSize > 0 ==> r == Done && logQueue == Some([])
      ensures queueSize > 0 ==> removed == old(removed) + old(logQueue).GetOr([])
    {
      if queueSize <= 0 {
        return Thrown(IllegalArgumentException(""));
      }
      removed := removed + logQueue.GetOr([]);
      logQueue := Some([]);
      r := Done;
    }

    /** `offer`: refused after shutdown; a record the mapper cannot turn into
        a row, or a queue that is not there, is caught and refused; a full
        queue refuses; otherwise the row joins the tail. */
    method Offer(entry: LogEntry) returns (offered: bool)
      requires Valid()
      modifies this`logQueue, this`accepted
      ensures Valid()
      ensures offered <==> !shutdown && old(logQueue).Some? && ToEntity(entry).Ok? && |old(logQueue).value| < queueSize
      ensures offered ==> logQueue == Some(old(logQueue).value + [ToEntity(entry).value])
      ensures offered ==> accepted == old(accepted) + [ToEntity(entry).value]
      ensures !offered ==> logQueue == old(logQueue) && accepted == old(accepted)
    {
      if shutdown {
        return false;
      }
      var row := ToEntity(entry);
      if row.Err? || logQueue.None? || |logQueue.value| >= queueSize {
        return false;
      }
      logQueue := Some(logQueue.value + [row.value]);
      accepted := accepted + [row.value];
      offered := true;
    }

    /** `drainTo`: a negative maximum is rejected when the row list is
        allocated, before the queue is touched; then up to `maxElements` rows
        leave the head of the queue and are read back into records appended
        to the batch.  A row that cannot be read back throws, and the rows
        drained with it are lost. */
    method DrainTo(batch: seq<LogEntry>, maxElements: int) returns (r: Result<Drained>)
      requires Valid()
      modifies this`logQueue, this`removed
      ensures Valid()
      ensures maxElements < 0 ==>
        r == Err(IllegalArgumentException("Illegal Capacity: " + IntText(maxElements))) &&
        logQueue == old(logQueue) && removed == old(removed)
      ensures maxElements >= 0 && old(logQueue).None? ==>
        r == Err(NullPointerException) && logQueue == old(logQueue) && removed == old(removed)
      ensures maxElements >= 0 && old(logQueue).Some? ==>
        var q := old(logQueue).value;
        var n := Min(maxElements, |q|);
        logQueue == Some(q[n..]) && removed == old(removed) + q[..n] && r == Appended(batch, ToDomainAll(q[..n]), n)
    {
      if maxElements < 0 {
        return Err(IllegalArgumentException("Illegal Capacity: " + IntText(maxElements)));
      }
      if logQueue.None? {
        return Err(NullPointerException);
      }
      var q := logQueue.value;
      var n := Min(maxElements, |q|);
      logQueue := Some(q[n..]);
      removed := removed + q[..n];
      assert removed + q[n..] == old(removed) + q;
      r := Appended(batch, ToDomainAll(q[..n]), n);
    }

    /** `awaitBriefCompletion`: up to five one-second waits while the queue is
        not empty; an interrupt during the i-th wait (counting from 0) ends
        the waiting.  Nothing drains the queue meanwhile, so the waits only
        pass time; the result is the number of waits begun. */
    method AwaitBriefCompletion(interruptedAt: Option<nat>) returns (waits: nat)
      requires logQueue.Some?
      ensures |logQueue.value| == 0 ==> waits == 0
      ensures |logQueue.value| > 0 && interruptedAt.Some? && interruptedAt.value < BriefWaitSeconds ==>
        waits == interruptedAt.value + 1
      ensures |logQueue.value| > 0 && (interruptedAt.None? || interruptedAt.value >= BriefWaitSeconds) ==>
        waits == BriefWaitSeconds
    {
      var i := 0;
      waits := 0;
      while i < BriefWaitSeconds
        invariant 0 <= i <= BriefWaitSeconds && waits == i
        invariant |logQueue.value| == 0 ==> i == 0
        invariant interruptedAt.Some? ==> interruptedAt.value >= i
      {
        if |logQueue.value| == 0 {
          return;
        }
        waits := waits + 1;
        if interruptedAt == Some(i) {
          return;
        }
        i := i + 1;
      }
    }

    /** `handleRemainingData` with `logRemainingData`: when rows are left,
        they are all drained and dropped, and reported. */
    method HandleRemainingData()
      requires Valid() && logQueue.Some?
      modifies this`logQueue, this`removed, this`warnings
      ensures Valid() && logQueue == Some([])
      ensures removed == old(removed) + old(logQueue).value
      ensures old(logQueue).value == [] ==> warnings == old(warnings)
      ensures old(logQueue).value != [] ==> warnings == old(warnings) + DropReport(old(logQueue).value)
    {
      var remaining := logQueue.value;
      if remaining == [] {
        return;
      }
      logQueue := Some([]);
      removed := removed + remaining;
      warnings := warnings + DropReport(remaining);
    }

    /** `clearQueue`: empties and nulls the queue when it is there. */
    method ClearQueue()
      requires Valid()
      modifies this`logQueue, this`removed
      ensures Valid() && logQueue.None?
      ensures removed == old(removed) + old(logQueue).GetOr([])
    {
      if logQueue.Some? {
        removed := removed + logQueue.value;
        logQueue := None;
      }
    }

    /** `shutdown`: a second call returns at once.  The first call reads the
        size for its opening log line (which dereferences the queue), sets the
        flag, waits briefly, drops and reports every row left, and nulls the
        queue. */
    method Shutdown(interruptedAt: Option<nat>) returns (r: Outcome)
      requires Valid()
      modifies this`shutdown, this`logQueue, this`removed, this`warnings
      ensures Valid()
      ensures old(shutdown) ==>
        r == Done && shutdown && logQueue == old(logQueue) && removed == old(removed) && warnings == old(warnings)
      ensures !old(shutdown) && old(logQueue).None? ==>
        r == Thrown(NullPointerException) && !shutdown && logQueue.None? && removed == old(removed) && warnings == old(warnings)
      ensures !old(shutdown) && old(logQueue).Some? ==>
        r == Done && shutdown && logQueue.None? && removed == old(removed) + old(logQueue).value
      ensures !old(shutdown) && old(logQueue).Some? ==>
        warnings == old(warnings) + (if old(logQueue).value == [] then [] else DropReport(old(logQueue).value))
    {
      if shutdown {
        return Done;
      }
      var size := Size();
      if size.Err? {
        return Thrown(size.error);
      }
      shutdown := true;
      var _ := AwaitBriefCompletion(interruptedAt);
      HandleRemainingData();
      ClearQueue();
      r := Done;
    }
  }
}
