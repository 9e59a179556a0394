/** `LogEntryRepositoryImpl`'s JDBC path: records are mapped to rows, each
    row becomes the seven parameters of `LogEntrySql.INSERT`, rows whose
    conversion fails are left out, and one `batchUpdate` runs the rest.
    `saveBatchWithChunking` calls `saveBatch` on consecutive chunks.  The
    JSON encoder and the JDBC template are parameters. */
module LogEntryRepositories {
  import opened JavaLang
  import opened JavaText
  import opened JavaTime
  import opened JavaObject
  import opened Operations
  import opened Json
  import opened LogEntryIds
  import opened LogEntries
  import opened LogEntryMappers
  import opened Ports
  import opened Chunking
  import opened JdbcRows

  /** The column list of `LogEntrySql.INSERT`, in order. */
  const InsertColumns: seq<Column> := [
    Column("id", Some("uuid")), Column("entity_name", None), Column("entity_id", None),
    Column("changes", Some("jsonb")), Column("operation", None), Column("recorded_at", None),
    Column("context", Some("jsonb"))]

  /** The message of the `RuntimeException` a failing `batchUpdate` is
      wrapped in. */
  const BatchFailureMessage: string := "로그 엔트리 배치 저장 실패"

  /** `LogEntrySql.INSERT`: the columns of `InsertColumns` in order, with
      one placeholder each carrying that column's cast. */
  const InsertSql: string :=
    "INSERT INTO log_entries (" + ColumnNames(InsertColumns) + ") \n" +
    "                VALUES (" + Placeholders(InsertColumns) + ")\n"

  /** `convertToObjectArray`: the parameters in the order of the `Object[]`
      it builds, or null when serialising the changes or the context
      fails, or when the operation or the instant is null. */
  function ConvertToObjectArray(j: LogEntryJpo, encode: Encoder): (r: Option<seq<Param>>)
    ensures r.Some? <==>
      EncodeNullable(j.changes, encode).Json? && EncodeNullable(j.context, encode).Json? &&
      j.operation.Some? && j.recordedAt.Some?
    ensures r.Some? ==> |r.value| == |InsertColumns|
  {
    var changesJson := EncodeNullable(j.changes, encode);
    var contextJson := EncodeNullable(j.context, encode);
    if changesJson.JsonError? || contextJson.JsonError? || j.operation.None? || j.recordedAt.None? then None
    else Some([UuidParam(j.id), TextParam(j.entityName), TextParam(j.entityId), TextParam(Some(changesJson.text)),
               TextParam(Some(Name(j.operation.value))), TimestampParam(j.recordedAt.value), TextParam(Some(contextJson.text))])
  }

  /** The value a row sends for the column of that name, read from the
      record field by field. */
  function ParamFor(j: LogEntryJpo, column: string, encode: Encoder): Option<Param>
    requires EncodeNullable(j.changes, encode).Json? && EncodeNullable(j.context, encode).Json?
    requires j.operation.Some? && j.recordedAt.Some?
  {
    if column == "id" then Some(UuidParam(j.id))
    else if column == "entity_name" then Some(TextParam(j.entityName))
    else if column == "entity_id" then Some(TextParam(j.entityId))
    else if column == "changes" then Some(TextParam(Some(EncodeNullable(j.changes, encode).text)))
    else if column == "operation" then Some(TextParam(Some(Name(j.operation.value))))
    else if column == "recorded_at" then Some(TimestampParam(j.recordedAt.value))
    else if column == "context" then Some(TextParam(Some(EncodeNullable(j.context, encode).text)))
    else None
  }

  /** The parameter at each position is the one for the column at that
      position of the insert, and the `uuid` and `jsonb` placeholders get
      the id and the two JSON texts. */
  lemma ParamsFollowInsertColumns(j: LogEntryJpo, encode: Encoder)
    requires ConvertToObjectArray(j, encode).Some?
    ensures var p := ConvertToObjectArray(j, encode).value;
      forall i :: 0 <= i < |p| ==> Some(p[i]) == ParamFor(j, InsertColumns[i].name, encode)
    ensures var p := ConvertToObjectArray(j, encode).value;
      forall i :: 0 <= i < |p| ==> (InsertColumns[i].cast == Some("uuid") <==> p[i].UuidParam?)
    ensures var p := ConvertToObjectArray(j, encode).value;
      p[3].text == Some(EncodeNullable(j.changes, encode).text) && p[6].text == Some(EncodeNullable(j.context, encode).text) &&
      InsertColumns[3].cast == InsertColumns[6].cast == Some("jsonb")
  {
    var p := ConvertToObjectArray(j, encode).value;
    forall i | 0 <= i < |p|
      ensures Some(p[i]) == ParamFor(j, InsertColumns[i].name, encode)
      ensures InsertColumns[i].cast == Some("uuid") <==> p[i].UuidParam?
    {
      if i == 0 {
      } else if i == 1 {
      } else if i == 2 {
      } else if i == 3 {
      } else if i == 4 {
      } else if i == 5 {
      } else {
      }
    }
  }

  /** `toSave.stream().map(toEntity)`: the first record that cannot be
      mapped throws, out of the stream and past the conversion's catch. */
  function MapAll(entries: seq<LogEntry>): (r: Result<seq<LogEntryJpo>>)
    ensures r.Ok? <==> forall i :: 0 <= i < |entries| ==> ToEntity(entries[i]).Ok?
    ensures r.Ok? ==> |r.value| == |entries| && forall i :: 0 <= i < |entries| ==> r.value[i] == ToEntity(entries[i]).value
    ensures r.Err? ==> r.error == NullPointerException
    decreases |entries|
  {
    if entries == [] then Ok([])
    else
      var head :- ToEntity(entries[0]);
      var tail :- MapAll(entries[1..]);
      Ok([head] + tail)
  }

  /** `.map(convertToObjectArray).filter(nonNull)`: the rows that convert,
      in order. */
  function Rows(jpos: seq<LogEntryJpo>, encode: Encoder): (rows: seq<seq<Param>>)
    ensures |rows| <= |jpos|
    ensures forall k :: 0 <= k < |rows| ==> |rows[k]| == |InsertColumns|
    decreases |jpos|
  {
    if jpos == [] then []
    else
      var head := ConvertToObjectArray(jpos[0], encode);
      (if head.Some? then [head.value] else []) + Rows(jpos[1..], encode)
  }

  /** When every record converts, every one becomes a row, in order. */
  lemma {:induction false} RowsOfConvertible(jpos: seq<LogEntryJpo>, encode: Encoder)
    requires forall i :: 0 <= i < |jpos| ==> ConvertToObjectArray(jpos[i], encode).Some?
    ensures |Rows(jpos, encode)| == |jpos|
    ensures forall i :: 0 <= i < |jpos| ==> Rows(jpos, encode)[i] == ConvertToObjectArray(jpos[i], encode).value
    decreases |jpos|
  {
    if jpos != [] {
      RowsOfConvertible(jpos[1..], encode);
      var rows := Rows(jpos, encode);
      forall i | 0 <= i < |jpos|
        ensures rows[i] == ConvertToObjectArray(jpos[i], encode).value
      {
        if i > 0 {
          assert jpos[1..][i - 1] == jpos[i];
        }
      }
    }
  }

  /** A record that does not convert is dropped and the others stay. */
  lemma {:induction false} RowsDropFailures(a: seq<LogEntryJpo>, bad: LogEntryJpo, b: seq<LogEntryJpo>, encode: Encoder)
    requires ConvertToObjectArray(bad, encode).None?
    ensures Rows(a + [bad] + b, encode) == Rows(a + b, encode)
    decreases |a|
  {
    if a == [] {
      assert a + [bad] + b == [bad] + b && a + b == b;
      assert ([bad] + b)[1..] == b;
    } else {
      assert (a + [bad] + b)[1..] == a[1..] + [bad] + b;
      assert (a + b)[1..] == a[1..] + b;
      RowsDropFailures(a[1..], bad, b, encode);
    }
  }

  /** Mapping a list piecewise: it maps exactly when both parts map, to
      the first part's records followed by the second's. */
  lemma {:induction false} MapAllAppend(a: seq<LogEntry>, b: seq<LogEntry>)
    ensures MapAll(a + b).Ok? <==> MapAll(a).Ok? && MapAll(b).Ok?
    ensures MapAll(a + b).Ok? ==> MapAll(a + b).value == MapAll(a).value + MapAll(b).value
    decreases |a|
  {
    if a == [] {
      assert a + b == b;
    } else {
      assert (a + b)[0] == a[0] && (a + b)[1..] == a[1..] + b;
      MapAllAppend(a[1..], b);
    }
  }

  /** Converting records piecewise: the rows of the first part, then those
      of the second. */
  lemma {:induction false} RowsAppend(a: seq<LogEntryJpo>, b: seq<LogEntryJpo>, encode: Encoder)
    ensures Rows(a + b, encode) == Rows(a, encode) + Rows(b, encode)
    decreases |a|
  {
    if a == [] {
      assert a + b == b;
    } else {
      assert (a + b)[0] == a[0] && (a + b)[1..] == a[1..] + b;
      RowsAppend(a[1..], b, encode);
    }
  }

  /** The rows of two lists that both map: those of the first list's
      records, then those of the second's. */
  lemma RowsOfMappedAppend(done: seq<LogEntry>, chunk: seq<LogEntry>, encode: Encoder)
    requires MapAll(done).Ok? && MapAll(chunk).Ok?
    ensures MapAll(done + chunk).Ok?
    ensures Rows(MapAll(done + chunk).value, encode) == Rows(MapAll(done).value, encode) + Rows(MapAll(chunk).value, encode)
  {
    MapAllAppend(done, chunk);
    RowsAppend(MapAll(done).value, MapAll(chunk).value, encode);
  }

  /** The rows sent so far, once the next chunk has mapped and its rows
      follow them: those of the records so far and the chunk together. */
  lemma SentAfterChunk(done: seq<LogEntry>, chunk: seq<LogEntry>, encode: Encoder,
                       sent0: seq<seq<Param>>, before: seq<seq<Param>>, after: seq<seq<Param>>)
    requires MapAll(done).Ok? && before == sent0 + Rows(MapAll(done).value, encode)
    requires MapAll(chunk).Ok? && after == before + Rows(MapAll(chunk).value, encode)
    ensures MapAll(done + chunk).Ok? && after == sent0 + Rows(MapAll(done + chunk).value, encode)
  {
    RowsOfMappedAppend(done, chunk, encode);
    ConcatAssoc(sent0, Rows(MapAll(done).value, encode), Rows(MapAll(chunk).value, encode));
  }

  /** The same, with the records so far and the chunk read as two
      consecutive slices of one list. */
  lemma SentThrough(s: seq<LogEntry>, p: nat, e: nat, encode: Encoder,
                    sent0: seq<seq<Param>>, before: seq<seq<Param>>, after: seq<seq<Param>>)
    requires p <= e <= |s|
    requires MapAll(s[..p]).Ok? && before == sent0 + Rows(MapAll(s[..p]).value, encode)
    requires MapAll(s[p..e]).Ok? && after == before + Rows(MapAll(s[p..e]).value, encode)
    ensures MapAll(s[..e]).Ok? && after == sent0 + Rows(MapAll(s[..e]).value, encode)
  {
    SlicesJoin(s, p, e);
    SentAfterChunk(s[..p], s[p..e], encode, sent0, before, after);
  }

  /** Two consecutive slices from the start make the longer prefix. */
  lemma SlicesJoin<T>(s: seq<T>, p: nat, e: nat)
    requires p <= e <= |s|
    ensures s[..p] + s[p..e] == s[..e]
  {
  }

  /** Cut at its end, a list is all prefix and no rest. */
  lemma WholeSlices<T>(s: seq<T>, n: nat)
    requires n == |s|
    ensures s[..n] == s && s[n..] == []
  {
  }

  /** Appending in two steps is appending the two parts at once. */
  lemma ConcatAssoc<T>(a: seq<T>, b: seq<T>, c: seq<T>)
    ensures a + b + c == a + (b + c)
  {
  }

  class LogEntryRepositoryImpl {
    const jdbc: JdbcBatch<seq<Param>>
    const encode: Encoder
    /** the chunks `saveBatchWithChunking` has handed to `saveBatch` */
    ghost var chunksSaved: seq<seq<LogEntry>>

    constructor (jdbc: JdbcBatch<seq<Param>>, encode: Encoder)
      ensures this.jdbc == jdbc && this.encode == encode && chunksSaved == []
    {
      this.jdbc, this.encode := jdbc, encode;
      chunksSaved := [];
    }

    /** `saveBatch`: nothing for a null or empty list; a record that cannot
        be mapped throws; rows that do not convert are left out; the rest
        go to one `batchUpdate`, none when no row is left, and a failing
        call is rethrown wrapped in a `RuntimeException`. */
    method SaveBatch(toSave: Option<seq<LogEntry>>) returns (r: Outcome)
      modifies jdbc`batches, jdbc`calls
      ensures toSave.None? || toSave.value == [] ==> r == Done
      ensures toSave.Some? && MapAll(toSave.value).Err? ==> r == Thrown(NullPointerException)
      ensures toSave.None? || MapAll(toSave.value).Err? || Rows(MapAll(toSave.value).value, encode) == [] ==>
        jdbc.batches == old(jdbc.batches) && jdbc.calls == old(jdbc.calls)
      ensures toSave.Some? && MapAll(toSave.value).Ok? && Rows(MapAll(toSave.value).value, encode) != [] ==>
        jdbc.calls == old(jdbc.calls) + 1 &&
        (old(jdbc.calls) in jdbc.failingCalls ==>
          r == Thrown(RuntimeException(BatchFailureMessage, CauseOf(jdbc.callError))) && jdbc.batches == old(jdbc.batches)) &&
        (old(jdbc.calls) !in jdbc.failingCalls ==>
          r == Done && jdbc.batches == old(jdbc.batches) + [Rows(MapAll(toSave.value).value, encode)])
      ensures toSave.Some? && MapAll(toSave.value).Ok? && Rows(MapAll(toSave.value).value, encode) == [] ==> r == Done
    {
      if toSave.None? || toSave.value == [] {
        return Done;
      }
      var jpos := MapAll(toSave.value);
      if jpos.Err? {
        return Thrown(jpos.error);
      }
      var batchArgs := Rows(jpos.value, encode);
      if batchArgs != [] {
        var updated := jdbc.BatchUpdate(batchArgs);
        if updated.Thrown? {
          return Thrown(RuntimeException(BatchFailureMessage, CauseOf(updated.error)));
        }
      }
      r := Done;
    }

    /** `saveBatch` on one chunk, as the chunking loop sees it: it throws
        the mapping's `NullPointerException` or the wrapped JDBC failure and
        then sends nothing; when it returns, every record of the chunk has
        mapped and the rows sent are the chunk's converted rows. */
    method SaveChunk(chunk: seq<LogEntry>) returns (r: Outcome)
      modifies jdbc`batches, jdbc`calls
      ensures r.Thrown? ==> r.error == NullPointerException || r.error == RuntimeException(BatchFailureMessage, CauseOf(jdbc.callError))
      ensures r.Thrown? ==> jdbc.batches == old(jdbc.batches)
      ensures r.Done? ==>
        MapAll(chunk).Ok? && Flatten(jdbc.batches) == Flatten(old(jdbc.batches)) + Rows(MapAll(chunk).value, encode)
    {
      r := SaveBatch(Some(chunk));
      if r.Done? && Rows(MapAll(chunk).value, encode) != [] {
        FlattenSnoc(old(jdbc.batches), Rows(MapAll(chunk).value, encode));
      }
    }

    /** `saveBatchWithChunking`: nothing for a null or empty list; for a
        positive size, `saveBatch` on the chunks of the list in order until
        one throws, and `processedCount` ends at the list's size.  A run that
        finishes has mapped every record and sent exactly the converted rows
        of the whole list, in order.  A size of 0 saves the empty chunk
        forever; a negative size is refused by `subList(0, chunkSize)`. */
    method SaveBatchWithChunking(toSave: Option<seq<LogEntry>>, chunkSize: int)
      returns (r: ChunkedRun, processedCount: nat, ghost chunkCount: nat)
      modifies this`chunksSaved, jdbc`batches, jdbc`calls
      ensures toSave.None? || toSave.value == [] ==>
        r == Finished && processedCount == 0 && chunksSaved == old(chunksSaved) && jdbc.calls == old(jdbc.calls) &&
        jdbc.batches == old(jdbc.batches)
      ensures toSave.Some? && toSave.value != [] && chunkSize == 0 ==>
        r == Diverges && jdbc.calls == old(jdbc.calls) && jdbc.batches == old(jdbc.batches)
      ensures toSave.Some? && toSave.value != [] && chunkSize < 0 ==>
        r == Failed(IllegalArgumentException("fromIndex(0) > toIndex(" + IntText(chunkSize) + ")")) &&
        chunksSaved == old(chunksSaved) && jdbc.calls == old(jdbc.calls) && jdbc.batches == old(jdbc.batches)
      ensures toSave.Some? && toSave.value != [] && chunkSize > 0 ==>
        var chunks := Chunks(toSave.value, chunkSize);
        0 < chunkCount <= |chunks| && chunksSaved == old(chunksSaved) + chunks[..chunkCount] &&
        r != Diverges && (chunkCount < |chunks| ==> r.Failed?) && (r == Finished ==> chunkCount == |chunks|) &&
        (r == Finished ==>
           processedCount == |toSave.value| && MapAll(toSave.value).Ok? &&
           Flatten(jdbc.batches) == Flatten(old(jdbc.batches)) + Rows(MapAll(toSave.value).value, encode))
    {
      if toSave.None? || toSave.value == [] {
        return Finished, 0, 0;
      }
      if chunkSize == 0 {
        return Diverges, 0, 0;
      }
      if chunkSize < 0 {
        return Failed(IllegalArgumentException("fromIndex(0) > toIndex(" + IntText(chunkSize) + ")")), 0, 0;
      }
      r, processedCount, chunkCount := SaveChunks(toSave.value, chunkSize);
    }

    /** One pass of the chunking loop from index `i`: the chunk
        `[i, min(i + chunkSize, n))` is the next of the list's chunks, is
        recorded as handed over, and goes to `saveBatch`. */
    method SaveChunkAt(s: seq<LogEntry>, chunkSize: nat, i: nat, ghost chunks: seq<seq<LogEntry>>, ghost chunkCount: nat)
      returns (saved: Outcome, endIndex: nat)
      requires chunkSize > 0 && i < |s| && chunkCount <= |chunks| && chunks[chunkCount..] == Chunks(s[i..], chunkSize)
      modifies this`chunksSaved, jdbc`batches, jdbc`calls
      ensures endIndex == Min(i + chunkSize, |s|)
      ensures chunkCount < |chunks| && chunks[chunkCount + 1..] == Chunks(s[endIndex..], chunkSize)
      ensures chunksSaved == old(chunksSaved) + [s[i..endIndex]] && chunks[..chunkCount + 1] == chunks[..chunkCount] + [s[i..endIndex]]
      ensures saved.Thrown? ==> saved.error == NullPointerException || saved.error == RuntimeException(BatchFailureMessage, CauseOf(jdbc.callError))
      ensures saved.Done? ==>
        MapAll(s[i..endIndex]).Ok? && Flatten(jdbc.batches) == Flatten(old(jdbc.batches)) + Rows(MapAll(s[i..endIndex]).value, encode)
    {
      endIndex := Min(i + chunkSize, |s|);
      var chunk := s[i..endIndex];
      ChunkAdvance(s, chunkSize, chunks, chunkCount, i);
      chunksSaved := chunksSaved + [chunk];
      saved := SaveChunk(chunk);
    }

    /** The loop of `saveBatchWithChunking` for a positive size and a
        non-empty list: after `chunkCount` calls the first `chunkCount`
        chunks have been handed over, `processedCount` counts the records
        of those that returned, and the rows sent are theirs. */
    method SaveChunks(s: seq<LogEntry>, chunkSize: nat) returns (r: ChunkedRun, processedCount: nat, ghost chunkCount: nat)
      requires chunkSize > 0 && s != []
      modifies this`chunksSaved, jdbc`batches, jdbc`calls
      ensures 0 < chunkCount <= |Chunks(s, chunkSize)|
      ensures chunksSaved == old(chunksSaved) + Chunks(s, chunkSize)[..chunkCount]
      ensures r != Diverges && (chunkCount < |Chunks(s, chunkSize)| ==> r.Failed?)
      ensures r == Finished ==> chunkCount == |Chunks(s, chunkSize)| && processedCount == |s|
      ensures r == Finished ==>
                MapAll(s).Ok? && Flatten(jdbc.batches) == Flatten(old(jdbc.batches)) + Rows(MapAll(s).value, encode)
    {
      var totalSize := |s|;
      ghost var chunks := Chunks(s, chunkSize);
      ghost var sent0 := Flatten(jdbc.batches);
      var i := 0;
      processedCount, chunkCount := 0, 0;
      assert s[..0] == [];
      while i < totalSize
        invariant processedCount == Min(i, totalSize)
        invariant chunkCount <= |chunks| && chunks[chunkCount..] == Chunks(s[processedCount..], chunkSize)
        invariant chunksSaved == old(chunksSaved) + chunks[..chunkCount]
        invariant i > 0 ==> chunkCount > 0
        invariant MapAll(s[..processedCount]).Ok?
        invariant Flatten(jdbc.batches) == sent0 + Rows(MapAll(s[..processedCount]).value, encode)
        decreases totalSize - i
      {
        assert i == processedCount;
        ghost var sentBefore := Flatten(jdbc.batches);
        var saved, endIndex := SaveChunkAt(s, chunkSize, i, chunks, chunkCount);
        chunkCount := chunkCount + 1;
        if saved.Thrown? {
          return Failed(saved.error), processedCount, chunkCount;
        }
        SentThrough(s, processedCount, endIndex, encode, sent0, sentBefore, Flatten(jdbc.batches));
        processedCount := endIndex;
        i := i + chunkSize;
      }
      WholeSlices(s, processedCount);
      r := Finished;
    }
  }
}
