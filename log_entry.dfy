/** The change record: which entity changed, how, when, where from, and the
    changed fields.  Two records are the same record exactly when their ids
    are equal. */
module LogEntries {
  import opened JavaLang
  import opened JavaObject
  import opened JavaTime
  import opened Operations
  import FieldChanges
  import opened ChangeSets
  import opened EntityIdentifiers
  import opened LogEntryIds
  import opened SubmissionContexts

  /** The 6-argument factory does not check `id`, `recordedAt` or `context`,
      so each may be null; the other three are checked by every factory. */
  datatype LogEntry = LogEntry(
    id: Option<LogEntryId>,
    entityIdentifier: EntityIdentifier,
    changeSet: ChangeSet,
    operation: Operation,
    recordedAt: Option<Instant>,
    context: Option<SubmissionContext>)

  /** `equals`/`hashCode`, generated over the id alone. */
  predicate SameEntry(a: LogEntry, b: LogEntry) { a.id == b.id }

  /** `validateBusinessRules`: the identifier, change set and operation must
      be non-null.  The checks for an UPDATE without changes and for an
      oversize change set are commented out in the source and reject
      nothing. */
  function ValidateBusinessRules(entityIdentifier: Option<EntityIdentifier>, changeSet: Option<ChangeSet>,
                                 operation: Option<Operation>): (r: Outcome)
    ensures r == Done <==> entityIdentifier.Some? && changeSet.Some? && operation.Some?
    ensures r.Thrown? ==> r.error == NullPointerException
  {
    if entityIdentifier.None? || changeSet.None? || operation.None? then Thrown(NullPointerException)
    else Done
  }

  /** The six-argument `LogEntry.create`: after validation every argument is
      kept as given. */
  function CreateWith(id: Option<LogEntryId>, entityIdentifier: Option<EntityIdentifier>, changeSet: Option<ChangeSet>,
                      operation: Option<Operation>, recordedAt: Option<Instant>, context: Option<SubmissionContext>): (r: Result<LogEntry>)
    ensures r.Ok? <==> ValidateBusinessRules(entityIdentifier, changeSet, operation) == Done
    ensures r.Err? ==> r.error == NullPointerException
    ensures r.Ok? ==> r.value.id == id && r.value.recordedAt == recordedAt && r.value.context == context
    ensures r.Ok? ==> Some(r.value.entityIdentifier) == entityIdentifier && Some(r.value.changeSet) == changeSet &&
                      Some(r.value.operation) == operation
  {
    match ValidateBusinessRules(entityIdentifier, changeSet, operation)
    case Thrown(e) => Err(e)
    case Done => Ok(LogEntry(id, entityIdentifier.value, changeSet.value, operation.value, recordedAt, context))
  }

  /** The three-argument `LogEntry.create`, given what it draws from its
      environment: the random UUID of the new id, the clock reading for
      `recordedAt`, and the thread name, host lookup and (second) clock
      reading for `SubmissionContext.current()`. */
  function Create(entityIdentifier: Option<EntityIdentifier>, changeSet: Option<ChangeSet>, operation: Option<Operation>,
                  random: Uuid, now: Instant, threadName: string, hostLookup: Option<string>, contextNow: Instant): (r: Result<LogEntry>)
    ensures r.Ok? <==> entityIdentifier.Some? && changeSet.Some? && operation.Some?
    ensures r.Err? ==> r.error == NullPointerException
    ensures r.Ok? ==> r.value.id == Some(Generate(random)) && r.value.recordedAt == Some(now)
    ensures r.Ok? ==> r.value.context == Some(Current(threadName, hostLookup, contextNow))
    ensures r.Ok? ==> Some(r.value.entityIdentifier) == entityIdentifier && Some(r.value.changeSet) == changeSet &&
                      Some(r.value.operation) == operation
  {
    CreateWith(Some(Generate(random)), entityIdentifier, changeSet, operation, Some(now),
               Some(Current(threadName, hostLookup, contextNow)))
  }

  /** The disabled rules really are disabled: an UPDATE without changes and
      a change set over the limit are both accepted. */
  lemma CreateAcceptsWhatTheDisabledRulesWouldReject(ei: EntityIdentifier, cs: ChangeSet, id: Option<LogEntryId>,
                                                     at: Option<Instant>, ctx: Option<SubmissionContext>)
    requires ExceedsMaximumSize(cs)
    ensures CreateWith(id, Some(ei), Some(ChangeSets.Empty()), Some(UPDATE), at, ctx).Ok?
    ensures CreateWith(id, Some(ei), Some(cs), Some(CREATE), at, ctx).Ok?
    ensures CreateWith(id, Some(ei), Some(cs), None, at, ctx) == Err(NullPointerException)
  {
  }

  /** `isSignificantChange`, by operation. */
  predicate IsSignificantChange(e: LogEntry) {
    match e.operation
    case CREATE => HasAnyChanges(e.changeSet)
    case UPDATE => HasBusinessImpactingChanges(e.changeSet)
    case DELETE => true
  }

  /** A significant UPDATE carries a field change that is significant on its
      own; a significant CREATE carries some change; a DELETE is always
      significant. */
  lemma SignificantRecordHasSignificantField(e: LogEntry)
    ensures e.operation == DELETE ==> IsSignificantChange(e)
    ensures e.operation == CREATE ==> (IsSignificantChange(e) <==> GetChangeCount(e.changeSet) > 0)
    ensures e.operation == UPDATE && IsSignificantChange(e) ==>
      exists k :: k in e.changeSet.changes && FieldChanges.IsSignificantChange(e.changeSet.changes[k])
  {
    CountAndPresence(e.changeSet);
    if e.operation == UPDATE && IsSignificantChange(e) {
      var k :| k in e.changeSet.changes && FieldChanges.IsBusinessImpacting(e.changeSet.changes[k]);
      FieldChanges.BusinessImpactingIsSignificant(e.changeSet.changes[k]);
    }
  }

  /** `requiresHighPriorityProcessing` */
  predicate RequiresHighPriorityProcessing(e: LogEntry) {
    ContainsCriticalFields(e.changeSet) || e.operation == DELETE
  }

  /** High-priority processing is needed exactly for a high-priority
      operation or a record touching password, email or status. */
  lemma HighPriorityIff(e: LogEntry)
    ensures RequiresHighPriorityProcessing(e) <==>
      IsHighPriority(e.operation) || "password" in e.changeSet.changes || "email" in e.changeSet.changes || "status" in e.changeSet.changes
  {
    HighPriorityIsDelete(e.operation);
    CriticalFieldsIff(e.changeSet);
  }

  /** `enrichWithContext`: an empty context gives the record back; otherwise
      a new record that differs only in its change set, enriched. */
  function EnrichWithContext(e: LogEntry, additionalContext: map<string, Obj>): (r: LogEntry)
    ensures additionalContext == map[] ==> r == e
    ensures additionalContext != map[] ==> r.changeSet == ChangeSets.EnrichWith(e.changeSet, additionalContext)
    ensures r == e.(changeSet := r.changeSet) && SameEntry(r, e)
  {
    if additionalContext == map[] then e
    else e.(changeSet := ChangeSets.EnrichWith(e.changeSet, additionalContext))
  }

  /** The shortcut for an empty context changes nothing: enriching always
      yields the record with its change set enriched. */
  lemma EnrichWithContextIsUniform(e: LogEntry, additionalContext: map<string, Obj>)
    ensures EnrichWithContext(e, additionalContext) == e.(changeSet := ChangeSets.EnrichWith(e.changeSet, additionalContext))
  {
    if additionalContext == map[] {
      assert ContextChanges(additionalContext) == map[];
      assert ChangeSets.EnrichWith(e.changeSet, additionalContext).changes == e.changeSet.changes;
    }
  }

  /** Context never decides priority: the "ctx_" keys are never critical, and
      the existing keys stay. */
  lemma EnrichKeepsPriority(e: LogEntry, additionalContext: map<string, Obj>)
    ensures RequiresHighPriorityProcessing(EnrichWithContext(e, additionalContext)) == RequiresHighPriorityProcessing(e)
  {
    var r := EnrichWithContext(e, additionalContext);
    EnrichWithContextIsUniform(e, additionalContext);
    assert r.changeSet.changes == e.changeSet.changes + ContextChanges(additionalContext);
    CriticalFieldsIff(e.changeSet);
    CriticalFieldsIff(r.changeSet);
    NoCriticalContextKey(additionalContext, "password");
    NoCriticalContextKey(additionalContext, "email");
    NoCriticalContextKey(additionalContext, "status");
  }

  lemma NoCriticalContextKey(additionalContext: map<string, Obj>, f: string)
    requires f in CriticalFields
    ensures f !in ContextChanges(additionalContext)
  {
    forall g | g in ContextKeys(additionalContext) ensures |g| >= 4 && g[0] == 'c' {
      var k :| k in additionalContext && g == "ctx_" + k;
    }
    assert f in ContextChanges(additionalContext) ==> f in ContextKeys(additionalContext);
  }

  /** Records within this many whole minutes of each other may be grouped. */
  const GroupingWindowMinutes: nat := 5

  /** `canBeGroupedWith`: the conditions are evaluated left to right, so a
      different identifier or operation answers false before the instants
      are read; a null instant then makes `Duration.between` throw. */
  function CanBeGroupedWith(a: LogEntry, b: LogEntry): (r: Result<bool>)
    ensures a.entityIdentifier != b.entityIdentifier || a.operation != b.operation ==> r == Ok(false)
    ensures a.entityIdentifier == b.entityIdentifier && a.operation == b.operation ==>
      (r.Err? <==> a.recordedAt.None? || b.recordedAt.None?)
    ensures r.Err? ==> r.error == NullPointerException
    ensures r == Ok(true) <==>
      a.entityIdentifier == b.entityIdentifier && a.operation == b.operation &&
      a.recordedAt.Some? && b.recordedAt.Some? &&
      WholeMinutesBetween(a.recordedAt.value, b.recordedAt.value) < GroupingWindowMinutes
  {
    if a.entityIdentifier != b.entityIdentifier || a.operation != b.operation then Ok(false)
    else if a.recordedAt.None? || b.recordedAt.None? then Err(NullPointerException)
    else Ok(WholeMinutesBetween(a.recordedAt.value, b.recordedAt.value) < GroupingWindowMinutes)
  }

  /** Grouping is symmetric, and for two records with their instants set it
      means: same entity, same operation, less than five minutes apart. */
  lemma GroupingSymmetricAndWindowed(a: LogEntry, b: LogEntry)
    ensures CanBeGroupedWith(a, b) == CanBeGroupedWith(b, a)
    ensures a.recordedAt.Some? && b.recordedAt.Some? ==>
      (CanBeGroupedWith(a, b) == Ok(true) <==>
        a.entityIdentifier == b.entityIdentifier && a.operation == b.operation &&
        Abs(b.recordedAt.value - a.recordedAt.value) < GroupingWindowMinutes * NanosPerMinute)
  {
    if a.recordedAt.Some? && b.recordedAt.Some? {
      WholeMinutesBelow(a.recordedAt.value, b.recordedAt.value, GroupingWindowMinutes);
      WholeMinutesBelow(b.recordedAt.value, a.recordedAt.value, GroupingWindowMinutes);
    }
  }

  /** Grouping is not transitive: records 0, 4 and 8 minutes in chain
      pairwise, yet the first and the last are too far apart. */
  lemma GroupingIsNotTransitive(e: LogEntry)
    requires e.recordedAt == Some(0)
    ensures var b := e.(recordedAt := Some(4 * NanosPerMinute));
            var c := e.(recordedAt := Some(8 * NanosPerMinute));
            CanBeGroupedWith(e, b) == Ok(true) && CanBeGroupedWith(b, c) == Ok(true) && CanBeGroupedWith(e, c) == Ok(false)
  {
  }

  /** Record identity: an equivalence that ignores every field but the id. */
  lemma SameEntryIsIdentity(a: LogEntry, b: LogEntry, c: LogEntry)
    ensures SameEntry(a, a)
    ensures SameEntry(a, b) ==> SameEntry(b, a)
    ensures SameEntry(a, b) && SameEntry(b, c) ==> SameEntry(a, c)
    ensures SameEntry(a, a.(entityIdentifier := b.entityIdentifier, changeSet := b.changeSet, operation := b.operation,
                           recordedAt := b.recordedAt, context := b.context))
  {
  }
}
