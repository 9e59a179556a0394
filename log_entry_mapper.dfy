/** The persistence row of a change record and the mapper between it and the
    domain record. */
module LogEntryMappers {
  import opened JavaLang
  import opened JavaObject
  import opened JavaTime
  import opened Operations
  import opened ChangeSets
  import opened ContextDatas
  import opened EntityIdentifiers
  import opened LogEntryIds
  import opened SubmissionContexts
  import opened LogEntries

  /** The `log_entries` row; every column may be null in a row read back. */
  datatype LogEntryJpo = LogEntryJpo(
    id: Option<Uuid>,
    entityName: Option<string>,
    entityId: Option<string>,
    changes: Option<map<string, Obj>>,
    operation: Option<Operation>,
    recordedAt: Option<Instant>,
    context: Option<map<string, Obj>>)

  /** `toEntity`: a record without id or context cannot be written (the
      getters are dereferenced); otherwise id value, name, entity id,
      operation and instant are copied, and the change set and context are
      flattened by their `toMap`. */
  function ToEntity(e: LogEntry): (r: Result<LogEntryJpo>)
    ensures r.Err? <==> e.id.None? || e.context.None?
    ensures r.Err? ==> r.error == NullPointerException
    ensures r.Ok? ==> (r.value.id == Some(GetValue(e.id.value)) &&
      r.value.entityName == Some(e.entityIdentifier.entityName) && r.value.entityId == Some(e.entityIdentifier.entityId) &&
      r.value.operation == Some(e.operation) && r.value.recordedAt == e.recordedAt)
    ensures r.Ok? ==> (r.value.changes == Some(ChangeSets.ToMap(e.changeSet)) &&
      r.value.context == Some(SubmissionContexts.ToMap(e.context.value)))
  {
    if e.id.None? || e.context.None? then Err(NullPointerException)
    else Ok(LogEntryJpo(Some(GetValue(e.id.value)), Some(e.entityIdentifier.entityName), Some(e.entityIdentifier.entityId),
                        Some(ChangeSets.ToMap(e.changeSet)), Some(e.operation), e.recordedAt,
                        Some(SubmissionContexts.ToMap(e.context.value))))
  }

  /** `SubmissionContext.from(entity.getContext())`: a null map is
      dereferenced. */
  function ContextFrom(context: Option<map<string, Obj>>): (r: Result<SubmissionContext>)
    ensures context.None? ==> r == Err(NullPointerException)
    ensures context.Some? ==> r == SubmissionContexts.From(context.value)
  {
    match context
    case None => Err(NullPointerException)
    case Some(m) => SubmissionContexts.From(m)
  }

  /** `LogEntry.create` applied to already evaluated arguments: the first
      argument that threw decides the exception. */
  function Assemble(id: Result<LogEntryId>, ei: Result<EntityIdentifier>, cs: Result<ChangeSet>,
                    ctx: Result<SubmissionContext>, operation: Option<Operation>, recordedAt: Option<Instant>): (r: Result<LogEntry>)
    ensures id.Err? ==> r == Err(id.error)
    ensures id.Ok? && ei.Err? ==> r == Err(ei.error)
    ensures r.Ok? <==> id.Ok? && ei.Ok? && cs.Ok? && ctx.Ok? && operation.Some?
    ensures r.Ok? ==> (r.value.id == Some(id.value) && r.value.entityIdentifier == ei.value &&
      r.value.changeSet == cs.value && r.value.context == Some(ctx.value) &&
      Some(r.value.operation) == operation && r.value.recordedAt == recordedAt)
  {
    var i :- id;
    var e :- ei;
    var c :- cs;
    var x :- ctx;
    CreateWith(Some(i), Some(e), Some(c), operation, recordedAt, Some(x))
  }

  /** `toDomain`: the arguments of `LogEntry.create` are built left to right
      and the first failure propagates. */
  function ToDomain(j: LogEntryJpo): Result<LogEntry> {
    Assemble(LogEntryIds.Of(j.id), EntityIdentifiers.Of(j.entityName, j.entityId), ChangeSets.From(j.changes),
             ContextFrom(j.context), j.operation, j.recordedAt)
  }

  /** What `toDomain` reads from a row: a null id or an invalid name or id
      throws first; a record read back carries the row's id, name, entity
      id, operation and instant, the change set `from` builds of the stored
      changes, and the context `from` builds of the stored context. */
  lemma ToDomainReads(j: LogEntryJpo)
    ensures j.id.None? ==> ToDomain(j) == Err(NullPointerException)
    ensures j.id.Some? && EntityIdentifiers.Of(j.entityName, j.entityId).Err? ==>
      ToDomain(j) == Err(EntityIdentifiers.Of(j.entityName, j.entityId).error)
    ensures ToDomain(j).Ok? ==> (j.id.Some? && ToDomain(j).value.id == Some(LogEntryId(j.id.value)) &&
      Some(ToDomain(j).value.entityIdentifier.entityName) == j.entityName &&
      Some(ToDomain(j).value.entityIdentifier.entityId) == j.entityId &&
      Some(ToDomain(j).value.operation) == j.operation && ToDomain(j).value.recordedAt == j.recordedAt)
    ensures ToDomain(j).Ok? ==> ChangeSets.From(j.changes) == Ok(ToDomain(j).value.changeSet)
    ensures ToDomain(j).Ok? ==> (j.context.Some? && ToDomain(j).value.context.Some? &&
      SubmissionContexts.From(j.context.value) == Ok(ToDomain(j).value.context.value))
  {
    var id := LogEntryIds.Of(j.id);
    var ei := EntityIdentifiers.Of(j.entityName, j.entityId);
    var ctx := ContextFrom(j.context);
    var r := ToDomain(j);
    assert r == Assemble(id, ei, ChangeSets.From(j.changes), ctx, j.operation, j.recordedAt);
    if r.Ok? {
      assert id.Ok? && ei.Ok? && ctx.Ok?;
      assert j.id.Some? && j.context.Some?;
      assert r.value.id == Some(id.value);
      assert r.value.entityIdentifier == ei.value;
      assert r.value.context == Some(ctx.value);
    }
  }

  /** A record the mapper can carry through a row: it has an id and a
      context, a valid identifier, at most 100 changes, a context whose
      additional data holds no null and no system key, and no stored change
      whose text holds the " -> " separator. */
  predicate Storable(e: LogEntry) {
    e.id.Some? && e.context.Some? &&
    EntityIdentifiers.Valid(e.entityIdentifier) &&
    |e.changeSet.changes| <= MaxChanges &&
    (forall k :: k in e.changeSet.changes ==> !JavaText.Contains(JavaObject.ToString(ChangeData(e.changeSet.changes[k])), " -> ")) &&
    SubmissionContexts.Wf(e.context.value) &&
    (forall k :: k in e.context.value.additionalData.data ==> !IsSystemField(k))
  }

  /** `toDomain(toEntity(e))` is the same record (by id, and field by field
      except the changes), with the same number of changes; each change comes
      back CREATED with the text of its stored map as its new value. */
  lemma RoundTrip(e: LogEntry)
    requires Storable(e)
    ensures ToEntity(e).Ok?
    ensures ToDomain(ToEntity(e).value) == Ok(e.(changeSet := Reloaded(e.changeSet)))
    ensures SameEntry(ToDomain(ToEntity(e).value).value, e)
    ensures GetChangeCount(ToDomain(ToEntity(e).value).value.changeSet) == GetChangeCount(e.changeSet)
  {
    var j := ToEntity(e).value;
    OfAcceptsExactlyValid(e.entityIdentifier);
    ChangeSets.FromToMap(e.changeSet);
    SubmissionContexts.FromToMap(e.context.value);
    assert |Reloaded(e.changeSet).changes.Keys| == |e.changeSet.changes.Keys|;
  }

  /** A row with a blank entity name or id, or a context without
      `submittedAt`, cannot be read back. */
  lemma ToDomainRejects(j: LogEntryJpo)
    requires j.id.Some?
    ensures IsBlank(j.entityName) || IsBlank(j.entityId) ==> ToDomain(j).Err? && ToDomain(j).error.IllegalArgumentException?
    ensures (!IsBlank(j.entityName) && !IsBlank(j.entityId) && ChangeSets.From(j.changes).Ok? &&
             j.context.Some? && "submittedAt" !in j.context.value) ==> ToDomain(j).Err?
  {
  }
}
