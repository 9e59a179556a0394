/** The core layer's `LogEntryRepository`: the same chunked JDBC batch
    insert as the newer repository, over the core `LogEntry` and a
    six-column insert, where every row gets a freshly generated id and a
    missing creation time is read from the clock.  The JSON encoder, the
    JDBC template, the random ids and the clock are parameters. */
module CoreLogRepositories {
  import opened JavaLang
  import opened JavaText
  import opened JavaTime
  import opened JavaObject
  import opened Operations
  import opened Json
  import opened LogEntryIds
  import opened Ports
  import opened Chunking
  import opened JdbcRows

  /** The core `LogEntry`: every field may be null; the changes are a map of
      strings. */
  datatype CoreLogEntry = CoreLogEntry(
    id: Option<Uuid>,
    entityName: Option<string>,
    entityId: Option<string>,
    changes: Option<map<string, string>>,
    operation: Option<Operation>,
    createdAt: Option<LocalDateTime>)

  /** The column list of the insert in `saveBatch`, in order. */
  const InsertColumns: seq<Column> := [
    Column("id", Some("uuid")), Column("entity_name", None), Column("entity_id", None),
    Column("operation", None), Column("changes", Some("jsonb")), Column("created_at", None)]

  /** The insert of `saveBatch`, once the text block is resolved: the
      columns of `InsertColumns` in order, one placeholder each. */
  const InsertSql: string :=
    "INSERT INTO log_entries (" + ColumnNames(InsertColumns) + ")\n" +
    "VALUES (" + Placeholders(InsertColumns) + ")\n"

  /** The message of the `RuntimeException` a failing `batchUpdate` is
      wrapped in. */
  const BatchFailureMessage: string := "로그 엔트리 배치 저장 실패"

  /** The changes as the JSON library sees them. */
  function ChangesObject(changes: Option<map<string, string>>): Option<map<string, Obj>> {
    if changes.None? then None else Some(map k | k in changes.value :: Str(changes.value[k]))
  }

  /** `convertToObjectArray`: the row for one record, with `random` as the
      id `UUID.randomUUID()` gives it and `now` as the creation time when
      the record has none; null when serialising the changes fails or the
      operation is null. */
  function ConvertToObjectArray(e: CoreLogEntry, encode: Encoder, random: Uuid, now: LocalDateTime): (r: Option<seq<Param>>)
    ensures r.Some? <==> Converts(e, encode)
    ensures r.Some? ==> |r.value| == |InsertColumns|
    ensures r.Some? ==> r.value[0] == UuidParam(Some(random))
    ensures r.Some? ==> r.value[5] == TimestampParam(if e.createdAt.Some? then e.createdAt.value else now)
  {
    var changesJson := EncodeNullable(ChangesObject(e.changes), encode);
    var createdAt := if e.createdAt.Some? then e.createdAt.value else now;
    if changesJson.JsonError? || e.operation.None? then None
    else Some([UuidParam(Some(random)), TextParam(e.entityName), TextParam(e.entityId),
               TextParam(Some(Name(e.operation.value))), TextParam(Some(changesJson.text)), TimestampParam(createdAt)])
  }

  /** The value a row sends for the column of that name, read from the
      record field by field. */
  function ParamFor(e: CoreLogEntry, column: string, encode: Encoder, random: Uuid, now: LocalDateTime): Option<Param>
    requires Converts(e, encode)
  {
    if column == "id" then Some(UuidParam(Some(random)))
    else if column == "entity_name" then Some(TextParam(e.entityName))
    else if column == "entity_id" then Some(TextParam(e.entityId))
    else if column == "operation" then Some(TextParam(Some(Name(e.operation.value))))
    else if column == "changes" then Some(TextParam(Some(EncodeNullable(ChangesObject(e.changes), encode).text)))
    else if column == "created_at" then Some(TimestampParam(if e.createdAt.Some? then e.createdAt.value else now))
    else None
  }

  /** The parameter at each position is the one for the column at that
      position of the insert; the id sent is never the record's own. */
  lemma ParamsFollowInsertColumns(e: CoreLogEntry, encode: Encoder, random: Uuid, now: LocalDateTime)
    requires ConvertToObjectArray(e, encode, random, now).Some?
    ensures var p := ConvertToObjectArray(e, encode, random, now).value;
      forall i :: 0 <= i < |p| ==> Some(p[i]) == ParamFor(e, InsertColumns[i].name, encode, random, now)
    ensures var p := ConvertToObjectArray(e, encode, random, now).value;
      forall i :: 0 <= i < |p| ==> (InsertColumns[i].cast == Some("uuid") <==> p[i].UuidParam?)
    ensures e.id.Some? && e.id.value != random ==> ConvertToObjectArray(e, encode, random, now).value[0] != UuidParam(e.id)
  {
    var p := ConvertToObjectArray(e, encode, random, now).value;
    forall i | 0 <= i < |p|
      ensures Some(p[i]) == ParamFor(e, InsertColumns[i].name, encode, random, now)
      ensures InsertColumns[i].cast == Some("uuid") <==> p[i].UuidParam?
    {
      if i == 0 {
      } else if i == 1 {
      } else if i == 2 {
      } else if i == 3 {
      } else if i == 4 {
      } else {
      }
    }
  }

  /** Whether a record yields a row: its changes serialise and it has an
      operation. */
  predicate Converts(e: CoreLogEntry, encode: Encoder) {
    EncodeNullable(ChangesObject(e.changes), encode).Json? && e.operation.Some?
  }

  /** `.map(convertToObjectArray).filter(nonNull)` over records converted
      from the `start`-th conversion of the repository on: the rows that
      convert, in order.  The `k`-th conversion draws the UUID `random(k)`
      and reads the clock as `now(k)`. */
  function Rows(entries: seq<CoreLogEntry>, start: nat, encode: Encoder, random: nat -> Uuid, now: nat -> LocalDateTime): (rows: seq<seq<Param>>)
    ensures |rows| <= |entries|
    ensures forall k :: 0 <= k < |rows| ==> |rows[k]| == |InsertColumns|
    decreases |entries|
  {
    if entries == [] then []
    else
      var head := ConvertToObjectArray(entries[0], encode, random(start), now(start));
      (if head.Some? then [head.value] else []) + Rows(entries[1..], start + 1, encode, random, now)
  }

  /** The conversions, counted from `start`, whose records yield a row:
      strictly increasing and within the conversions of this batch. */
  function ConvertedPositions(entries: seq<CoreLogEntry>, start: nat, encode: Encoder): (ps: seq<nat>)
    ensures forall i :: 0 <= i < |ps| ==> start <= ps[i] < start + |entries|
    ensures forall i, j :: 0 <= i < j < |ps| ==> ps[i] < ps[j]
    decreases |entries|
  {
    if entries == [] then []
    else (if Converts(entries[0], encode) then [start] else []) + ConvertedPositions(entries[1..], start + 1, encode)
  }

  /** The row at index `i` comes from the conversion at position
      `ConvertedPositions(...)[i]` and carries that conversion's UUID. */
  lemma {:induction false} RowIds(entries: seq<CoreLogEntry>, start: nat, encode: Encoder, random: nat -> Uuid, now: nat -> LocalDateTime)
    ensures |Rows(entries, start, encode, random, now)| == |ConvertedPositions(entries, start, encode)|
    ensures forall i :: 0 <= i < |Rows(entries, start, encode, random, now)| ==>
      Rows(entries, start, encode, random, now)[i][0] == UuidParam(Some(random(ConvertedPositions(entries, start, encode)[i])))
    decreases |entries|
  {
    if entries != [] {
      RowIds(entries[1..], start + 1, encode, random, now);
    }
  }

  /** When the UUID source never repeats a value, the rows of one batch
      carry pairwise distinct ids, and none of them is an id drawn outside
      this batch's conversions, so no two batches share an id. */
  lemma {:induction false} RowIdsDistinct(entries: seq<CoreLogEntry>, start: nat, encode: Encoder, random: nat -> Uuid, now: nat -> LocalDateTime)
    requires forall a: nat, b: nat :: a != b ==> random(a) != random(b)
    ensures var rows := Rows(entries, start, encode, random, now);
      forall i, j :: 0 <= i < j < |rows| ==> rows[i][0] != rows[j][0]
    ensures var rows := Rows(entries, start, encode, random, now);
      forall i, k: nat :: 0 <= i < |rows| && (k < start || start + |entries| <= k) ==> rows[i][0] != UuidParam(Some(random(k)))
  {
    RowIds(entries, start, encode, random, now);
  }

  /** Converting a batch piecewise: the rows of its two parts, the second
      part's conversions numbered after the first part's. */
  lemma {:induction false} RowsAppend(a: seq<CoreLogEntry>, b: seq<CoreLogEntry>, start: nat,
                                      encode: Encoder, random: nat -> Uuid, now: nat -> LocalDateTime)
    ensures Rows(a + b, start, encode, random, now) == Rows(a, start, encode, random, now) + Rows(b, start + |a|, encode, random, now)
    decreases |a|
  {
    if a == [] {
      assert a + b == b;
    } else {
      assert (a + b)[1..] == a[1..] + b;
      RowsAppend(a[1..], b, start + 1, encode, random, now);
    }
  }

  /** The rows of a longer prefix of `s`: those of the shorter one, then
      those of the records between. */
  lemma {:induction false} RowsOfPrefixes(s: seq<CoreLogEntry>, p: nat, e: nat, start: nat,
                       encode: Encoder, random: nat -> Uuid, now: nat -> LocalDateTime)
    requires p <= e <= |s|
    ensures Rows(s[..e], start, encode, random, now) == Rows(s[..p], start, encode, random, now) + Rows(s[p..e], start + p, encode, random, now)
  {
    var front, back := s[..p], s[p..e];
    assert front + back == s[..e];
    RowsAppend(front, back, start, encode, random, now);
  }

  /** The rows sent so far, once the rows of the next chunk follow them. */
  lemma {:induction false} SentAfterChunk(s: seq<CoreLogEntry>, p: nat, e: nat, start: nat,
                       encode: Encoder, random: nat -> Uuid, now: nat -> LocalDateTime,
                       sent0: seq<seq<Param>>, before: seq<seq<Param>>, after: seq<seq<Param>>)
    requires p <= e <= |s|
    requires before == sent0 + Rows(s[..p], start, encode, random, now)
    requires after == before + Rows(s[p..e], start + p, encode, random, now)
    ensures after == sent0 + Rows(s[..e], start, encode, random, now)
  {
    RowsOfPrefixes(s, p, e, start, encode, random, now);
  }

  /** A record without an operation, or whose changes do not serialise,
      yields no row; the records after it keep their ids. */
  lemma RowsDropFailures(a: seq<CoreLogEntry>, bad: CoreLogEntry, b: seq<CoreLogEntry>,
                         encode: Encoder, random: nat -> Uuid, now: nat -> LocalDateTime)
    requires bad.operation.None? || EncodeNullable(ChangesObject(bad.changes), encode).JsonError?
    ensures Rows(a + [bad] + b, 0, encode, random, now) ==
      Rows(a, 0, encode, random, now) + Rows(b, |a| + 1, encode, random, now)
  {
    RowsAppend(a + [bad], b, 0, encode, random, now);
    RowsAppend(a, [bad], 0, encode, random, now);
    assert Rows([bad], |a|, encode, random, now) == [];
  }

  /** When every record converts there is one row per record, in order,
      the record at position `i` sent with the id `random(start + i)` and
      with its own creation time or else the clock's reading `now(start + i)`. */
  lemma {:induction false} RowsOfConvertible(entries: seq<CoreLogEntry>, start: nat,
                                             encode: Encoder, random: nat -> Uuid, now: nat -> LocalDateTime)
    requires forall i :: 0 <= i < |entries| ==> ConvertToObjectArray(entries[i], encode, random(start + i), now(start + i)).Some?
    ensures |Rows(entries, start, encode, random, now)| == |entries|
    ensures forall i :: 0 <= i < |entries| ==>
      Rows(entries, start, encode, random, now)[i] == ConvertToObjectArray(entries[i], encode, random(start + i), now(start + i)).value
    ensures forall i :: 0 <= i < |entries| ==>
      Rows(entries, start, encode, random, now)[i][0] == UuidParam(Some(random(start + i)))
    decreases |entries|
  {
    if entries != [] {
      forall i | 0 <= i < |entries[1..]|
        ensures ConvertToObjectArray(entries[1..][i], encode, random(start + 1 + i), now(start + 1 + i)).Some?
      {
        assert entries[1..][i] == entries[i + 1];
      }
      RowsOfConvertible(entries[1..], start + 1, encode, random, now);
      var rows := Rows(entries, start, encode, random, now);
      forall i | 0 <= i < |entries|
        ensures rows[i] == ConvertToObjectArray(entries[i], encode, random(start + i), now(start + i)).value
      {
        if i > 0 {
          assert entries[1..][i - 1] == entries[i];
        }
      }
    }
  }

  class LogEntryRepository {
    const jdbc: JdbcBatch<seq<Param>>
    const encode: Encoder
    /** `UUID.randomUUID()` at each conversion, counted over the
        repository's life */
    const random: nat -> Uuid
    /** `LocalDateTime.now()` at each conversion */
    const now: nat -> LocalDateTime
    /** how many records `convertToObjectArray` has been applied to */
    var converted: nat
    /** the chunks `saveBatchWithChunking` has handed to `saveBatch` */
    ghost var chunksSaved: seq<seq<CoreLogEntry>>

    constructor (jdbc: JdbcBatch<seq<Param>>, encode: Encoder, random: nat -> Uuid, now: nat -> LocalDateTime)
      ensures this.jdbc == jdbc && this.encode == encode && this.random == random && this.now == now
      ensures converted == 0 && chunksSaved == []
    {
      this.jdbc, this.encode, this.random, this.now := jdbc, encode, random, now;
      converted, chunksSaved := 0, [];
    }

    /** `saveBatch`: nothing for a null or empty list; rows that do not
        convert are left out; the rest go to one `batchUpdate`, none when no
        row is left, and a failing call is rethrown wrapped in a
        `RuntimeException`.  Every record of the list is converted, so the
        next call draws new ids and new clock readings. */
    method SaveBatch(toSave: Option<seq<CoreLogEntry>>) returns (r: Outcome)
      modifies this`converted, jdbc`batches, jdbc`calls
      ensures converted == old(converted) + (if toSave.Some? then |toSave.value| else 0)
      ensures toSave.None? || Rows(toSave.value, old(converted), encode, random, now) == [] ==>
        r == Done && jdbc.batches == old(jdbc.batches) && jdbc.calls == old(jdbc.calls)
      ensures toSave.Some? && Rows(toSave.value, old(converted), encode, random, now) != [] ==>
        jdbc.calls == old(jdbc.calls) + 1 &&
        (old(jdbc.calls) in jdbc.failingCalls ==>
          r == Thrown(RuntimeException(BatchFailureMessage, CauseOf(jdbc.callError))) && jdbc.batches == old(jdbc.batches)) &&
        (old(jdbc.calls) !in jdbc.failingCalls ==>
          r == Done && jdbc.batches == old(jdbc.batches) + [Rows(toSave.value, old(converted), encode, random, now)])
    {
      if toSave.None? || toSave.value == [] {
        return Done;
      }
      var batchArgs := Rows(toSave.value, converted, encode, random, now);
      converted := converted + |toSave.value|;
      if batchArgs != [] {
        var updated := jdbc.BatchUpdate(batchArgs);
        if updated.Thrown? {
          return Thrown(RuntimeException(BatchFailureMessage, CauseOf(updated.error)));
        }
      }
      r := Done;
    }

    /** `saveBatch` on one chunk, as the chunking loop sees it: the chunk's
        records are converted, it throws only the wrapped JDBC failure, and
        when it returns the rows sent are the chunk's rows. */
    method SaveChunk(chunk: seq<CoreLogEntry>) returns (r: Outcome)
      modifies this`converted, jdbc`batches, jdbc`calls
      ensures converted == old(converted) + |chunk|
      ensures r.Thrown? ==> r.error == RuntimeException(BatchFailureMessage, CauseOf(jdbc.callError))
      ensures r.Done? ==> Flatten(jdbc.batches) == Flatten(old(jdbc.batches)) + Rows(chunk, old(converted), encode, random, now)
    {
      r := SaveBatch(Some(chunk));
      if r.Done? && Rows(chunk, old(converted), encode, random, now) != [] {
        FlattenSnoc(old(jdbc.batches), Rows(chunk, old(converted), encode, random, now));
      }
    }

    /** `saveBatchWithChunking`: nothing for a null or empty list; for a
        positive size, `saveBatch` on the chunks of the list in order until
        one throws, and `processedCount` ends at the list's size.  A run that
        finishes has sent exactly the rows of the whole list, converted one
        after another, and so with ids that are all new.  A size of 0 saves
        the empty chunk forever; a negative size is refused by
        `subList(0, chunkSize)`. */
    method SaveBatchWithChunking(toSave: Option<seq<CoreLogEntry>>, chunkSize: int)
      returns (r: ChunkedRun, processedCount: nat, ghost chunkCount: nat)
      modifies this`converted, this`chunksSaved, jdbc`batches, jdbc`calls
      ensures toSave.None? || toSave.value == [] ==>
        r == Finished && processedCount == 0 && chunksSaved == old(chunksSaved) && jdbc.calls == old(jdbc.calls) &&
        converted == old(converted)
      ensures toSave.Some? && toSave.value != [] && chunkSize == 0 ==>
        r == Diverges && jdbc.calls == old(jdbc.calls) && jdbc.batches == old(jdbc.batches)
      ensures toSave.Some? && toSave.value != [] && chunkSize < 0 ==>
        r == Failed(IllegalArgumentException("fromIndex(0) > toIndex(" + IntText(chunkSize) + ")")) &&
        chunksSaved == old(chunksSaved) && jdbc.calls == old(jdbc.calls) && jdbc.batches == old(jdbc.batches) &&
        converted == old(converted)
      ensures toSave.Some? && toSave.value != [] && chunkSize > 0 ==>
        var chunks := Chunks(toSave.value, chunkSize);
        0 < chunkCount <= |chunks| && chunksSaved == old(chunksSaved) + chunks[..chunkCount] &&
        r != Diverges && (chunkCount < |chunks| ==> r.Failed?) && (r == Finished ==> chunkCount == |chunks|) &&
        (r == Finished ==>
           processedCount == |toSave.value| && converted == old(converted) + |toSave.value| &&
           Flatten(jdbc.batches) == Flatten(old(jdbc.batches)) + Rows(toSave.value, old(converted), encode, random, now))
    {
      if toSave.None? || toSave.value == [] {
        return Finished, 0, 0;
      }
      if chunkSize == 0 {
        return Diverges, 0, 0;
      }
      if chunkSize < 0 {
        return Failed(IllegalArgumentException("fromIndex(0) > toIndex(" + IntText(chunkSize) + ")")), 0, 0;
      }
      r, processedCount, chunkCount := SaveChunks(toSave.value, chunkSize);
    }

    /** One pass of the chunking loop from index `i`: the chunk
        `[i, min(i + chunkSize, n))` is the next of the list's chunks, is
        recorded as handed over, and goes to `saveBatch`. */
    method SaveChunkAt(s: seq<CoreLogEntry>, chunkSize: nat, i: nat, ghost chunks: seq<seq<CoreLogEntry>>, ghost chunkCount: nat)
      returns (saved: Outcome, endIndex: nat)
      requires chunkSize > 0 && i < |s| && chunkCount <= |chunks| && chunks[chunkCount..] == Chunks(s[i..], chunkSize)
      modifies this`converted, this`chunksSaved, jdbc`batches, jdbc`calls
      ensures endIndex == Min(i + chunkSize, |s|)
      ensures chunkCount < |chunks| && chunks[chunkCount + 1..] == Chunks(s[endIndex..], chunkSize)
      ensures chunksSaved == old(chunksSaved) + [s[i..endIndex]] && chunks[..chunkCount + 1] == chunks[..chunkCount] + [s[i..endIndex]]
      ensures converted == old(converted) + (endIndex - i)
      ensures saved.Thrown? ==> saved.error == RuntimeException(BatchFailureMessage, CauseOf(jdbc.callError))
      ensures saved.Done? ==>
                Flatten(jdbc.batches) == Flatten(old(jdbc.batches)) + Rows(s[i..endIndex], old(converted), encode, random, now)
    {
      endIndex := Min(i + chunkSize, |s|);
      var chunk := s[i..endIndex];
      ChunkAdvance(s, chunkSize, chunks, chunkCount, i);
      chunksSaved := chunksSaved + [chunk];
      saved := SaveChunk(chunk);
    }

    /** The loop of `saveBatchWithChunking` for a positive size and a
        non-empty list: after `chunkCount` calls the first `chunkCount`
        chunks have been handed over, `processedCount` counts the records of
        those that returned, and the rows sent are theirs. */
    method SaveChunks(s: seq<CoreLogEntry>, chunkSize: nat) returns (r: ChunkedRun, processedCount: nat, ghost chunkCount: nat)
      requires chunkSize > 0 && s != []
      modifies this`converted, this`chunksSaved, jdbc`batches, jdbc`calls
      ensures 0 < chunkCount <= |Chunks(s, chunkSize)|
      ensures chunksSaved == old(chunksSaved) + Chunks(s, chunkSize)[..chunkCount]
      ensures r != Diverges && (chunkCount < |Chunks(s, chunkSize)| ==> r.Failed?)
      ensures r == Finished ==> chunkCount == |Chunks(s, chunkSize)| && processedCount == |s|
      ensures r == Finished ==>
                converted == old(converted) + |s| &&
                Flatten(jdbc.batches) == Flatten(old(jdbc.batches)) + Rows(s, old(converted), encode, random, now)
    {
      var totalSize := |s|;
      ghost var chunks := Chunks(s, chunkSize);
      ghost var sent0, converted0 := Flatten(jdbc.batches), converted;
      var i := 0;
      processedCount, chunkCount := 0, 0;
      while i < totalSize
        invariant processedCount == Min(i, totalSize)
        invariant chunkCount <= |chunks| && chunks[chunkCount..] == Chunks(s[processedCount..], chunkSize)
        invariant chunksSaved == old(chunksSaved) + chunks[..chunkCount]
        invariant i > 0 ==> chunkCount > 0
        invariant converted == converted0 + processedCount
        invariant Flatten(jdbc.batches) == sent0 + Rows(s[..processedCount], converted0, encode, random, now)
        decreases totalSize - i
      {
        assert i == processedCount;
        ghost var sentBefore := Flatten(jdbc.batches);
        var saved, endIndex := SaveChunkAt(s, chunkSize, i, chunks, chunkCount);
        chunkCount := chunkCount + 1;
        if saved.Thrown? {
          return Failed(saved.error), processedCount, chunkCount;
        }
        SentAfterChunk(s, processedCount, endIndex, converted0, encode, random, now, sent0, sentBefore, Flatten(jdbc.batches));
        processedCount := endIndex;
        i := i + chunkSize;
      }
      assert s[processedCount..] == [];
      assert s[..processedCount] == s;
      r := Finished;
    }
  }
}
