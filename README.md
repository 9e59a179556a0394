# Concurrent entity change logger, modelled in Dafny

The logger records every insert, update and delete of an application entity
as a change record (`LogEntry`): which entity changed (`EntityIdentifier`),
how (`Operation`), which fields changed (`ChangeSet` of `FieldChange`s), where
and when it was submitted (`SubmissionContext`, `ContextData`), under a
`LogEntryId`. A record first goes to a write-ahead log on disk, and then to
a bounded in-memory queue. Worker threads drain the queue in batches into
the database.

This project models that core and proves properties of it:

- **The current pipeline.**
  - `LoggingService.logChange` decides whether the entity is logged. It then
    builds the record, writes it to log storage and offers it to the queue.
  - `BlockingQueueAdapter` is the bounded FIFO queue of persistence rows. It
    has a shutdown flag, and shutdown sets the queue to null.
  - `BatchProcessingService` has the worker step, `flush`, `finalFlush`,
    `saveBatch` and `shutdown`.
  - `LoggingSmartLifecycle` starts and stops those parts in order. Its stop
    swallows failures.
- **The output ports.** Metrics, batch persistence and log storage are
  classes. They count their calls, keep what they accepted, and fail on the
  calls their failure schedule names.
- **The write-ahead log (`DiskLogWriter`).** The file system is a map from
  path to bytes. It covers:
  - appending a record and a newline;
  - the position counter, which is kept apart from the channel's own
    position;
  - rewriting the checkpoint file and the backup copy after every write;
  - detecting corruption and recovering from the backup on a failed write;
  - the lock, and `close`, which never throws.
- **The value objects and their rules.**
  - `FieldChange`: classification, significance and formatting.
  - `ChangeSet`: the 100-entry limit, the critical fields and
    `enrichWith`. Also `toMap`, and `from` with its parsing of the trackers'
    `"old -> new"` text.
  - `ContextData`: the filter and the merge.
  - `SubmissionContext`: the map round trip.
  - `Operation`: the aliases and the priorities.
  - `LogEntry`: equality by id, significance, priority and grouping.
  - `EntityIdentifier`: validation and the `@Id` field search.
  - `LogEntryId`: the wrapped UUID.
  - `Checkpoint`: position and timestamp.
- **The converters.**
  - `LogEntryMapper` converts between records and rows. Its round trip is
    proved, together with what the round trip loses.
  - The two JSON attribute converters. The context converter sanitises
    keys, truncates by a size budget, falls back on encode failures and
    recovers a legacy `key=value` layout.
- **The JDBC repositories.** Both repositories share the chunking loop of
  `saveBatchWithChunking`. The model also covers building the insert
  parameters of each row, which drops rows that fail to convert.
- **The configuration.** `EntityLoggingProperties` has `shouldLogChanges`,
  `validate` and its defaults. The legacy `EntityLoggingCondition` holds
  its settings in static state.
- **The change tracker helpers.** `formatChange`, `isValueChanged`,
  `shouldSkipField` and `getFieldValue`.
- **The three earlier pipelines.**
  - the application-layer `BlockingQueueLoggingStrategy`;
  - the core `BlockingQueueLoggingStrategy`, which saves record by record
    from a batch queue;
  - the two `EntityChangeLogger`s (core service and change tracker), which
    move polled records into a batch queue and save batches of 1000.

Where the source changes state, the model is imperative. Such parts are
classes with `modifies` clauses, and their loops carry invariants:
- the queues;
- the services and the lifecycle;
- the disk writer;
- the chunking loop;
- the truncation and sanitisation loops;
- the batch-collection loops.

Where the source is pure, the model uses datatypes, functions and lemmas.
Java values are a small datatype (`JavaObject.Obj`), so `Objects.equals` and
`toString` are explicit. `Objects.equals` is the datatype's equality, except
that two maps compare their entry order too (see "Left out"). Exceptions are the `Err` side of a `Result`, or the
`Thrown` side of an `Outcome`.

Values that the source takes from its environment come in as parameters:
- the JSON library, as an encoder and a decoder;
- the clock;
- generated UUIDs;
- the host name;
- the iteration order of a `HashMap`;
- the record factory and the change tracker of the older pipelines;
- the operating system's lock table;
- deadlines and interrupts, counted in sleeps.

Library behaviour the core relies on gets small modules of its own:
`JavaLang`, `JavaText`, `JavaObject`, `JavaTime`, `JavaQueues` and `Json`.
They model only what the logger uses.

All paths in the table below are relative to the repository root.

## Model

| member | source | states |
|---|---|---|
| FieldChanges.DetermineChangeType | src/main/java/com/pandaterry/concurrent_entity_change_logger/entity_change_logging/domain/vo/FieldChange.java:55-63 | null to non-null is CREATED, non-null to null is DELETED, and every other pair (null to null included) is MODIFIED, each as an if-and-only-if; never CONTEXTUAL |
| FieldChanges.Of | src/main/java/com/pandaterry/concurrent_entity_change_logger/entity_change_logging/domain/vo/FieldChange.java:23-26 | keeps the field name and both values and classifies the pair by `DetermineChangeType` |
| FieldChanges.OfNullable | src/main/java/com/pandaterry/concurrent_entity_change_logger/entity_change_logging/domain/vo/FieldChange.java:16-26 | a null field name is refused with a `NullPointerException`, exactly then; otherwise the change is `Of` |
| FieldChanges.Contextual | src/main/java/com/pandaterry/concurrent_entity_change_logger/entity_change_logging/domain/vo/FieldChange.java:28-30 | a context value has no old value and is CONTEXTUAL |
| FieldChanges.IsSignificantChange | src/main/java/com/pandaterry/concurrent_entity_change_logger/entity_change_logging/domain/vo/FieldChange.java:38-44 | the rule for each change type, as `SignificanceByType` and `OfSignificance` state |
| FieldChanges.IsBusinessImpacting | src/main/java/com/pandaterry/concurrent_entity_change_logger/entity_change_logging/domain/vo/FieldChange.java:32-36 | a modification whose values differ, as `BusinessImpactingIsSignificant` states |
| FieldChanges.SignificanceByType | src/main/java/com/pandaterry/concurrent_entity_change_logger/entity_change_logging/domain/vo/FieldChange.java:38-44 | creations and deletions are significant, a modification is significant exactly when the values differ, context never is |
| FieldChanges.BusinessImpactingIsSignificant | src/main/java/com/pandaterry/concurrent_entity_change_logger/entity_change_logging/domain/vo/FieldChange.java:32-44 | every business-impacting change is a significant modification |
| FieldChanges.OfSignificance | src/main/java/com/pandaterry/concurrent_entity_change_logger/entity_change_logging/domain/vo/FieldChange.java:23-44 | a change built by `of` is significant exactly when its two values differ |
| FieldChanges.FormatValue | src/main/java/com/pandaterry/concurrent_entity_change_logger/entity_change_logging/domain/vo/FieldChange.java:65-73 | null renders as "null"; a string of more than 50 chars becomes exactly 50: its first 47 and "..."; shorter strings unchanged; anything else its `toString` |
| FieldChanges.FormattedChange | src/main/java/com/pandaterry/concurrent_entity_change_logger/entity_change_logging/domain/vo/FieldChange.java:46-53 | the four layouts "+ new", "- old", "old → new", "ctx: new", one per change type |
| FieldChanges.FieldChangeTextStartsWithName | src/main/java/com/pandaterry/concurrent_entity_change_logger/entity_change_logging/domain/vo/FieldChange.java:90-93 | the rendering of a change begins with its field name and ": " |
| LogEntryIds.Of | src/main/java/com/pandaterry/concurrent_entity_change_logger/entity_change_logging/domain/vo/LogEntryId.java:12-22 | a null UUID is refused with `NullPointerException`, exactly then; otherwise the id wraps that UUID |
| LogEntryIds.Generate | src/main/java/com/pandaterry/concurrent_entity_change_logger/entity_change_logging/domain/vo/LogEntryId.java:16-18 | the generated id holds the random UUID it was given |
| LogEntryIds.OfGetValueInverse | src/main/java/com/pandaterry/concurrent_entity_change_logger/entity_change_logging/domain/vo/LogEntryId.java:20-37 | `of` and `getValue` are inverse; two ids are equal exactly when their UUIDs are and exactly when their texts are |
| Checkpoints.Of | src/main/java/com/pandaterry/concurrent_entity_change_logger/entity_change_logging/domain/vo/Checkpoint.java:14-16 | keeps the position and the (possibly null) timestamp |
| Checkpoints.Current | src/main/java/com/pandaterry/concurrent_entity_change_logger/entity_change_logging/domain/vo/Checkpoint.java:18-20 | stamps the position with the clock, so a checkpoint at a non-negative position is valid |
| Checkpoints.IsOlderThan | src/main/java/com/pandaterry/concurrent_entity_change_logger/entity_change_logging/domain/vo/Checkpoint.java:26-28 | a null timestamp on either side throws `NullPointerException`, exactly then; otherwise true exactly when the checkpoint's time is strictly earlier |
| Checkpoints.IsOlderThanStrict | src/main/java/com/pandaterry/concurrent_entity_change_logger/entity_change_logging/domain/vo/Checkpoint.java:26-28 | no checkpoint is older than its own time; being older is transitive and asymmetric |
| Checkpoints.IsValid | src/main/java/com/pandaterry/concurrent_entity_change_logger/entity_change_logging/domain/vo/Checkpoint.java:22-24 | a non-negative position with a time, as `ValidityOfFactories` states |
| Checkpoints.ValidityOfFactories | src/main/java/com/pandaterry/concurrent_entity_change_logger/entity_change_logging/domain/vo/Checkpoint.java:14-24 | `current` is valid exactly for a non-negative position; `of` with a null time never is, with a time exactly for a non-negative position |
| EntityIdentifiers.ValidateParameters | src/main/java/com/pandaterry/concurrent_entity_change_logger/entity_change_logging/domain/vo/EntityIdentifier.java:44-51 | passes exactly when neither name nor id is null or blank; a blank name is reported first, with its own message, then a blank id |
| EntityIdentifiers.Of | src/main/java/com/pandaterry/concurrent_entity_change_logger/entity_change_logging/domain/vo/EntityIdentifier.java:18-21 | succeeds exactly when validation passes, with the error validation raised otherwise; the identifier built is valid |
| EntityIdentifiers.OfAcceptsExactlyValid | src/main/java/com/pandaterry/concurrent_entity_change_logger/entity_change_logging/domain/vo/EntityIdentifier.java:18-51 | `of` gives back an identifier exactly when it is valid, and rejects a null name or id |
| EntityIdentifiers.IsSameEntity | src/main/java/com/pandaterry/concurrent_entity_change_logger/entity_change_logging/domain/vo/EntityIdentifier.java:36-38 | equal name and id, as `SameEntityProperties` states |
| EntityIdentifiers.SameEntityProperties | src/main/java/com/pandaterry/concurrent_entity_change_logger/entity_change_logging/domain/vo/EntityIdentifier.java:36-42 | same entity means equal name and id, implies same type, and both relations are symmetric |
| EntityIdentifiers.ToString | src/main/java/com/pandaterry/concurrent_entity_change_logger/entity_change_logging/domain/vo/EntityIdentifier.java:92-95 | the text is the name, '[', the id and ']', and nothing else |
| EntityIdentifiers.ToStringIsNotInjective | src/main/java/com/pandaterry/concurrent_entity_change_logger/entity_change_logging/domain/vo/EntityIdentifier.java:92-95 | two different identifiers can render as the same text, so the text does not identify the entity |
| EntityIdentifiers.FirstIdField | src/main/java/com/pandaterry/concurrent_entity_change_logger/entity_change_logging/domain/vo/EntityIdentifier.java:57-58 | the index of the first declared field carrying `@Id`, none exactly when no field carries it |
| EntityIdentifiers.ExtractEntityId | src/main/java/com/pandaterry/concurrent_entity_change_logger/entity_change_logging/domain/vo/EntityIdentifier.java:53-70 | fails with the "must have @Id" message naming the class exactly when no declared field has `@Id`; otherwise the first such field's value as text, "null" for null |
| EntityIdentifiers.ExtractIgnoresSuperclass | src/main/java/com/pandaterry/concurrent_entity_change_logger/entity_change_logging/domain/vo/EntityIdentifier.java:55-57 | only declared fields are searched: changing the superclass changes nothing |
| EntityIdentifiers.NullIdIsText | src/main/java/com/pandaterry/concurrent_entity_change_logger/entity_change_logging/domain/vo/EntityIdentifier.java:62 | a null id becomes the text "null", which passes validation as a real id |
| EntityIdentifiers.FromEntity | src/main/java/com/pandaterry/concurrent_entity_change_logger/entity_change_logging/domain/vo/EntityIdentifier.java:23-30 | a null entity throws `NullPointerException`; a missing `@Id` field passes its error on; otherwise `of` on the simple class name and the extracted id |
| ContextDatas.Copy | src/main/java/com/pandaterry/concurrent_entity_change_logger/entity_change_logging/domain/vo/ContextData.java:13-15 | `Map.copyOf` rejects a null value with `NullPointerException`, exactly then; otherwise the copy holds the same entries and so has no null value |
| ContextDatas.Empty | src/main/java/com/pandaterry/concurrent_entity_change_logger/entity_change_logging/domain/vo/ContextData.java:17-19 | the empty context is well formed and empty |
| ContextDatas.Of | src/main/java/com/pandaterry/concurrent_entity_change_logger/entity_change_logging/domain/vo/ContextData.java:21-24 | a null map throws `NullPointerException`; otherwise succeeds exactly when no value is null, keeping the entries |
| ContextDatas.IsSystemField | src/main/java/com/pandaterry/concurrent_entity_change_logger/entity_change_logging/domain/vo/ContextData.java:52-54 | threadName, hostname or submittedAt, as `SystemFieldsAreTheThree` states |
| ContextDatas.SystemFieldsAreTheThree | src/main/java/com/pandaterry/concurrent_entity_change_logger/entity_change_logging/domain/vo/ContextData.java:52-54 | a key is a system field exactly when it is threadName, hostname or submittedAt |
| ContextDatas.From | src/main/java/com/pandaterry/concurrent_entity_change_logger/entity_change_logging/domain/vo/ContextData.java:26-32 | keeps exactly the non-system keys with their values; fails with `NullPointerException` exactly when one of the kept values is null |
| ContextDatas.FromDropsAddedSystemKeys | src/main/java/com/pandaterry/concurrent_entity_change_logger/entity_change_logging/domain/vo/ContextData.java:26-32 | `from` of a context's entries plus any system entries gives back that context |
| ContextDatas.IsEmpty | src/main/java/com/pandaterry/concurrent_entity_change_logger/entity_change_logging/domain/vo/ContextData.java:44-46 | no entries, as `IsEmptyIffNoEntries` states |
| ContextDatas.IsEmptyIffNoEntries | src/main/java/com/pandaterry/concurrent_entity_change_logger/entity_change_logging/domain/vo/ContextData.java:44-46 | a context is empty exactly when it has no entries |
| ContextDatas.MergeWith | src/main/java/com/pandaterry/concurrent_entity_change_logger/entity_change_logging/domain/vo/ContextData.java:34-42 | merging with an empty context returns the receiver; otherwise the keys are the union, the other side's values win and the rest keep the receiver's |
| ContextDatas.MergeIsUnion | src/main/java/com/pandaterry/concurrent_entity_change_logger/entity_change_logging/domain/vo/ContextData.java:34-42 | the merged entries are the receiver's overridden by the other's |
| ContextDatas.MergeWithEmpty | src/main/java/com/pandaterry/concurrent_entity_change_logger/entity_change_logging/domain/vo/ContextData.java:17-42 | the empty context is a unit of merging on both sides |
| SubmissionContexts.Current | src/main/java/com/pandaterry/concurrent_entity_change_logger/entity_change_logging/domain/vo/SubmissionContext.java:27-34 | the current thread, the host from the lookup or "unknown" when it fails, the clock's instant and an empty context |
| SubmissionContexts.CastToString | src/main/java/com/pandaterry/concurrent_entity_change_logger/entity_change_logging/domain/vo/SubmissionContext.java:38-40 | the `(String)` cast: null stays null, a string passes, anything else throws `ClassCastException`, exactly then |
| SubmissionContexts.ParseSubmittedAt | src/main/java/com/pandaterry/concurrent_entity_change_logger/entity_change_logging/domain/vo/SubmissionContext.java:40 | `Instant.parse` throws `NullPointerException` on null and `DateTimeParseException` on unreadable text, and reads the instant otherwise |
| SubmissionContexts.From | src/main/java/com/pandaterry/concurrent_entity_change_logger/entity_change_logging/domain/vo/SubmissionContext.java:36-43 | the three system keys are cast and parsed in order with their errors passed on; the additional data is the non-system entries |
| SubmissionContexts.ToMap | src/main/java/com/pandaterry/concurrent_entity_change_logger/entity_change_logging/domain/vo/SubmissionContext.java:50-57 | the additional entries plus the three system keys, whose values overwrite same-named entries; the instant as its text |
| SubmissionContexts.FromToMap | src/main/java/com/pandaterry/concurrent_entity_change_logger/entity_change_logging/domain/vo/SubmissionContext.java:36-57 | round trip: `from(toMap(c))` gives back `c` when its additional data has no system key |
| SubmissionContexts.ToMapOverwritesSystemKeys | src/main/java/com/pandaterry/concurrent_entity_change_logger/entity_change_logging/domain/vo/SubmissionContext.java:51-54 | an additional entry named like a system field is hidden by the real field in `toMap` |
| SubmissionContexts.EnrichWith | src/main/java/com/pandaterry/concurrent_entity_change_logger/entity_change_logging/domain/vo/SubmissionContext.java:45-48 | thread, host and instant are kept; the additional data is merged with the new context, its values winning |
| SubmissionContexts.EnrichWithEmpty | src/main/java/com/pandaterry/concurrent_entity_change_logger/entity_change_logging/domain/vo/SubmissionContext.java:45-48 | enriching with the empty context changes nothing |
| ChangeSets.Empty | src/main/java/com/pandaterry/concurrent_entity_change_logger/entity_change_logging/domain/vo/ChangeSet.java:18-20 | the empty set has no changes and a count of zero |
| ChangeSets.Of | src/main/java/com/pandaterry/concurrent_entity_change_logger/entity_change_logging/domain/vo/ChangeSet.java:22-28 | a null map throws `NullPointerException`; more than 100 changes throw `IllegalArgumentException`, exactly then; otherwise the set holds exactly the given changes and is within the limit |
| ChangeSets.HasAnyChanges | src/main/java/com/pandaterry/concurrent_entity_change_logger/entity_change_logging/domain/vo/ChangeSet.java:30-32 | true exactly when the set holds a change, as `CountAndPresence` states |
| ChangeSets.GetChangeCount | src/main/java/com/pandaterry/concurrent_entity_change_logger/entity_change_logging/domain/vo/ChangeSet.java:55-57 | the number of changed fields, as `CountAndPresence` states |
| ChangeSets.CountAndPresence | src/main/java/com/pandaterry/concurrent_entity_change_logger/entity_change_logging/domain/vo/ChangeSet.java:30-57 | a set has changes exactly when its count is positive; the count is the number of changed fields |
| ChangeSets.ContainsCriticalFields | src/main/java/com/pandaterry/concurrent_entity_change_logger/entity_change_logging/domain/vo/ChangeSet.java:39-42 | true exactly when password, email or status is a changed field, as `CriticalFieldsIff` states |
| ChangeSets.CriticalFieldsIff | src/main/java/com/pandaterry/concurrent_entity_change_logger/entity_change_logging/domain/vo/ChangeSet.java:39-42 | critical exactly when password, email or status is among the changed fields |
| ChangeSets.EnrichWith | src/main/java/com/pandaterry/concurrent_entity_change_logger/entity_change_logging/domain/vo/ChangeSet.java:48-53 | adds one CONTEXTUAL change per context key, keeps the others and bypasses the 100-change limit, as `EnrichWithContents` and `EnrichWithBypassesLimit` state |
| ChangeSets.EnrichWithContents | src/main/java/com/pandaterry/concurrent_entity_change_logger/entity_change_logging/domain/vo/ChangeSet.java:48-53 | one CONTEXTUAL change per context key under "ctx_" + key, every other change kept, and no other key added |
| ChangeSets.EnrichWithBypassesLimit | src/main/java/com/pandaterry/concurrent_entity_change_logger/entity_change_logging/domain/vo/ChangeSet.java:48-53 | enriching a set already at 100 changes with a new context key gives a set over the limit that `of` would have refused |
| ChangeSets.ToMap | src/main/java/com/pandaterry/concurrent_entity_change_logger/entity_change_logging/domain/vo/ChangeSet.java:63-78 | one map per changed field with the name, both simplified values and the type's name, as `ToMapShape` and `ChangeDataFields` state; `FromToMap` reads it back |
| ChangeSets.ToMapShape | src/main/java/com/pandaterry/concurrent_entity_change_logger/entity_change_logging/domain/vo/ChangeSet.java:63-78 | `toMap` keeps the key set, and each stored map holds the field name, both values simplified and the change type's name |
| ChangeSets.ChangeDataFields | src/main/java/com/pandaterry/concurrent_entity_change_logger/entity_change_logging/domain/vo/ChangeSet.java:67-72 | the four entries of one stored change read back under their names |
| ChangeSets.NullableText | src/main/java/com/pandaterry/concurrent_entity_change_logger/entity_change_logging/domain/vo/ChangeSet.java:159-161 | the text "null" reads as the null reference, exactly then; any other text as itself |
| ChangeSets.ExtractSimpleValue | src/main/java/com/pandaterry/concurrent_entity_change_logger/entity_change_logging/domain/vo/ChangeSet.java:80-97 | null, plain values and rendered change maps treated as `ExtractSimpleValueSpec` states |
| ChangeSets.ExtractSimpleValueSpec | src/main/java/com/pandaterry/concurrent_entity_change_logger/entity_change_logging/domain/vo/ChangeSet.java:80-97 | null stays null; a value whose text is not brace-wrapped is returned as it is; the text of a change map rendered with "newValue" first reads back as the trimmed text of that new value, "null" as null, when that text holds no comma |
| ChangeSets.RenderedChangeReadsBack | src/main/java/com/pandaterry/concurrent_entity_change_logger/entity_change_logging/domain/vo/ChangeSet.java:91-93 | a brace-wrapped text starting with "newValue=" is parsed to the new value's trimmed text when that text holds no comma |
| ChangeSets.NewValueAfterBrace | src/main/java/com/pandaterry/concurrent_entity_change_logger/entity_change_logging/domain/vo/ChangeSet.java:102 | in such a text "newValue=" first occurs right after the brace, so the new value starts at index 10 |
| ChangeSets.FirstCommaAfter | src/main/java/com/pandaterry/concurrent_entity_change_logger/entity_change_logging/domain/vo/ChangeSet.java:103 | the value is cut at the comma that ends the new value's comma-free text |
| ChangeSets.ParseFieldChangeString | src/main/java/com/pandaterry/concurrent_entity_change_logger/entity_change_logging/domain/vo/ChangeSet.java:99-111 | the trimmed text after the first "newValue=" up to the next comma, or the whole text without a comma, as `ParseFieldChangeStringSpec` states |
| ChangeSets.ParseFieldChangeStringSpec | src/main/java/com/pandaterry/concurrent_entity_change_logger/entity_change_logging/domain/vo/ChangeSet.java:99-111 | the value read is the trimmed text between the first "newValue=" and the first comma after it ("null" read as null); with no comma the whole text is returned |
| ChangeSets.ParseSimpleChange | src/main/java/com/pandaterry/concurrent_entity_change_logger/entity_change_logging/domain/vo/ChangeSet.java:172-182 | no change exactly for empty text or "null"; otherwise a CREATED change to that text |
| ChangeSets.ParseUpdateChange | src/main/java/com/pandaterry/concurrent_entity_change_logger/entity_change_logging/domain/vo/ChangeSet.java:149-169 | whatever it returns is a significant change of the named field |
| ChangeSets.From | src/main/java/com/pandaterry/concurrent_entity_change_logger/entity_change_logging/domain/vo/ChangeSet.java:113-129 | the empty set for null or empty input, otherwise exactly the significant converted entries, as `FromProperties`, `ProcessedIs` and `FromDrops` state |
| ChangeSets.FromProperties | src/main/java/com/pandaterry/concurrent_entity_change_logger/entity_change_logging/domain/vo/ChangeSet.java:113-128 | null or empty input gives the empty set; every kept change is significant, carries its own key as field name and comes from a non-null raw value; every convertible entry is kept; it fails with `IllegalArgumentException` exactly when more than 100 entries are kept |
| ChangeSets.ConvertToFieldChange | src/main/java/com/pandaterry/concurrent_entity_change_logger/entity_change_logging/domain/vo/ChangeSet.java:131-147 | no change for null; "a -> b" text as an update and other text as a simple value, named by its key, as `FieldNameOfConverted`, `ConvertOfSimpleText` and `ConvertInvertsFormattedText` state |
| ChangeSets.FieldNameOfConverted | src/main/java/com/pandaterry/concurrent_entity_change_logger/entity_change_logging/domain/vo/ChangeSet.java:131-146 | a converted change comes from a non-null value and carries the field name it was converted under |
| ChangeSets.FromDrops | src/main/java/com/pandaterry/concurrent_entity_change_logger/entity_change_logging/domain/vo/ChangeSet.java:131-176 | null values, empty or "null" simple values, and updates whose two sides read back equal are always dropped |
| ChangeSets.ConvertedIsSignificant | src/main/java/com/pandaterry/concurrent_entity_change_logger/entity_change_logging/domain/vo/ChangeSet.java:120-125 | everything the conversion produces passes the significance filter |
| ChangeSets.FirstSeparatorAfterOldSide | src/main/java/com/pandaterry/concurrent_entity_change_logger/entity_change_logging/domain/vo/ChangeSet.java:150 | in "a -> b" the first " -> " starts right after `a` when "a ->" holds none |
| ChangeSets.SplitFormattedUpdate | src/main/java/com/pandaterry/concurrent_entity_change_logger/entity_change_logging/domain/vo/ChangeSet.java:150 | `split(" -> ", 2)` of "a -> b" gives exactly `a` and `b` under the same condition |
| ChangeSets.ConvertInvertsFormattedText | src/main/java/com/pandaterry/concurrent_entity_change_logger/entity_change_logging/domain/vo/ChangeSet.java:131-169 | "a -> b" with clean sides converts back to the change from `a` to `b`, and to no change when both read back equal |
| ChangeSets.ConvertInvertsFormatChange | src/main/java/com/pandaterry/concurrent_entity_change_logger/entity_change_logging/domain/vo/ChangeSet.java:149-169 | inverse of the update trackers' rendering: `formatChange(old, new)` converts back to the change between the two sides' readings, or to none when they read back equal |
| ChangeSets.SideTextReadsBack | src/main/java/com/pandaterry/concurrent_entity_change_logger/entity_change_logging/domain/vo/ChangeSet.java:159-161 | a side reads back as the value's own text (null as null) exactly when the value is null or does not render as "null" |
| ChangeSets.EmptyOldSideIsNotInverted | src/main/java/com/pandaterry/concurrent_entity_change_logger/entity_change_logging/domain/vo/ChangeSet.java:136-146 | an empty old value is lost: " -> x" is trimmed to "-> x" and read as a creation of "-> x" |
| ChangeSets.ConvertOfSimpleText | src/main/java/com/pandaterry/concurrent_entity_change_logger/entity_change_logging/domain/vo/ChangeSet.java:136-145 | a value whose trimmed text has no separator is read as a simple value |
| ChangeSets.LeadingSpaceTrimmed | src/main/java/com/pandaterry/concurrent_entity_change_logger/entity_change_logging/domain/vo/ChangeSet.java:136 | trimming " -> x" removes the space the separator starts with |
| ChangeSets.ArrowWithoutSpaceIsNoSeparator | src/main/java/com/pandaterry/concurrent_entity_change_logger/entity_change_logging/domain/vo/ChangeSet.java:139 | "-> x" holds no " -> " |
| ChangeSets.ArrowEndedOldSideIsNotInverted | src/main/java/com/pandaterry/concurrent_entity_change_logger/entity_change_logging/domain/vo/ChangeSet.java:150-157 | an old value ending in " ->" is split at the wrong separator: "a -> -> b" reads back as from "a" to "-> b" |
| ChangeSets.FromToMap | src/main/java/com/pandaterry/concurrent_entity_change_logger/entity_change_logging/domain/vo/ChangeSet.java:63-128 | storing through `toMap` and reading back through `from` keeps the fields but not the changes: each comes back as a CREATED change to its stored map's text |
| ChangeSets.ReloadedShape | src/main/java/com/pandaterry/concurrent_entity_change_logger/entity_change_logging/domain/vo/ChangeSet.java:113-128 | the reloaded set has the same fields, all CREATED |
| ChangeSets.ProcessedToMap | src/main/java/com/pandaterry/concurrent_entity_change_logger/entity_change_logging/domain/vo/ChangeSet.java:118-125 | every stored change map is kept by `from`'s conversion, as the creation of its text |
| ChangeSets.ProcessedIs | src/main/java/com/pandaterry/concurrent_entity_change_logger/entity_change_logging/domain/vo/ChangeSet.java:118-125 | the changes `from` collects are exactly those of a map of converted, kept entries with the same keys |
| ChangeSets.ProcessedKeys | src/main/java/com/pandaterry/concurrent_entity_change_logger/entity_change_logging/domain/vo/ChangeSet.java:118-125 | when every entry is kept, `from` keeps every key |
| ChangeSets.StoredChangeReadsBack | src/main/java/com/pandaterry/concurrent_entity_change_logger/entity_change_logging/domain/vo/ChangeSet.java:131-146 | one stored change map is read back as the creation of its text, and kept |
| ChangeTracking.GetFieldValue | src/main/java/com/pandaterry/concurrent_entity_change_logger/core/application/tracker/AbstractChangeTracker.java:9-15 | the field's value when it can be read, null when reading raises `IllegalAccessException` |
| ChangeTracking.UnreadableLooksLikeNull | src/main/java/com/pandaterry/concurrent_entity_change_logger/core/application/tracker/AbstractChangeTracker.java:9-15 | a field that cannot be read is indistinguishable from a readable field holding null |
| ChangeTracking.IsValueChanged | src/main/java/com/pandaterry/concurrent_entity_change_logger/core/application/tracker/AbstractChangeTracker.java:28-30 | the values differ under `Objects.equals`, as `ValueChangedProperties` states |
| ChangeTracking.ValueChangedProperties | src/main/java/com/pandaterry/concurrent_entity_change_logger/core/application/tracker/AbstractChangeTracker.java:28-30 | equal values (two nulls among them) are no change, exactly one null side always is, and the relation is symmetric |
| ChangeTracking.FormatChange | src/main/java/com/pandaterry/concurrent_entity_change_logger/core/application/tracker/AbstractChangeTracker.java:22-26 | the old side's text, " -> ", the new side's text, as `FormatChangeLayout` states |
| ChangeTracking.FormatChangeLayout | src/main/java/com/pandaterry/concurrent_entity_change_logger/core/application/tracker/AbstractChangeTracker.java:22-26 | the rendering is the old side's text, " -> ", the new side's text, with "null" for null |
| Operations.IsHigherThan | src/main/java/com/pandaterry/concurrent_entity_change_logger/entity_change_logging/domain/Operation.java:72-74 | a strict total order of the levels, as `IsHigherThanStrictOrder` states |
| Operations.IsHigherThanStrictOrder | src/main/java/com/pandaterry/concurrent_entity_change_logger/entity_change_logging/domain/Operation.java:57-74 | `isHigherThan` is a strict total order with HIGH above NORMAL above LOW |
| Operations.FindAlias | src/main/java/com/pandaterry/concurrent_entity_change_logger/entity_change_logging/domain/Operation.java:36-43 | the operation found matches the alias and is the first match in declaration order; when none matches the scan ends in "Unknown operation alias: " + alias |
| Operations.EntityRequirements | src/main/java/com/pandaterry/concurrent_entity_change_logger/entity_change_logging/domain/Operation.java:20-26 | UPDATE and DELETE need the old entity, CREATE and UPDATE the new one, only UPDATE needs both, and every operation needs one |
| Operations.HighPriorityIsDelete | src/main/java/com/pandaterry/concurrent_entity_change_logger/entity_change_logging/domain/Operation.java:6-30 | high priority exactly for DELETE |
| Operations.AliasesDisjoint | src/main/java/com/pandaterry/concurrent_entity_change_logger/entity_change_logging/domain/Operation.java:6-8 | no alias names two operations |
| Operations.MatchesAlias | src/main/java/com/pandaterry/concurrent_entity_change_logger/entity_change_logging/domain/Operation.java:32-34 | the upper-cased argument is one of the aliases, as `MatchesAliasIgnoresCase` states |
| Operations.MatchesAliasIgnoresCase | src/main/java/com/pandaterry/concurrent_entity_change_logger/entity_change_logging/domain/Operation.java:32-34 | matching an alias does not depend on the case of the argument |
| Operations.FromAlias | src/main/java/com/pandaterry/concurrent_entity_change_logger/entity_change_logging/domain/Operation.java:36-43 | the operation whose aliases hold the upper-cased argument, or the unknown-alias error, as `FindAlias` and `FromAliasIff` state |
| Operations.FromAliasIff | src/main/java/com/pandaterry/concurrent_entity_change_logger/entity_change_logging/domain/Operation.java:36-43 | `fromAlias` yields an operation exactly when the upper-cased alias is one of its aliases, and fails exactly when it is nobody's |
| LogEntries.ValidateBusinessRules | src/main/java/com/pandaterry/concurrent_entity_change_logger/entity_change_logging/domain/model/LogEntry.java:103-117 | passes exactly when identifier, change set and operation are all non-null, and throws `NullPointerException` otherwise; the commented-out checks reject nothing |
| LogEntries.CreateWith | src/main/java/com/pandaterry/concurrent_entity_change_logger/entity_change_logging/domain/model/LogEntry.java:53-70 | succeeds exactly when validation passes, and then keeps all six arguments as given |
| LogEntries.Create | src/main/java/com/pandaterry/concurrent_entity_change_logger/entity_change_logging/domain/model/LogEntry.java:38-51 | succeeds exactly when the three arguments are non-null; the record gets a generated id, the clock's instant and the current submission context |
| LogEntries.CreateAcceptsWhatTheDisabledRulesWouldReject | src/main/java/com/pandaterry/concurrent_entity_change_logger/entity_change_logging/domain/model/LogEntry.java:110-116 | an UPDATE without changes and an oversize change set are both accepted; only a null argument is refused |
| LogEntries.IsSignificantChange | src/main/java/com/pandaterry/concurrent_entity_change_logger/entity_change_logging/domain/model/LogEntry.java:73-79 | significance per operation, as `SignificantRecordHasSignificantField` states |
| LogEntries.SignificantRecordHasSignificantField | src/main/java/com/pandaterry/concurrent_entity_change_logger/entity_change_logging/domain/model/LogEntry.java:73-79 | a DELETE is always significant, a CREATE exactly when it has changes, and a significant UPDATE holds a significant field change |
| LogEntries.RequiresHighPriorityProcessing | src/main/java/com/pandaterry/concurrent_entity_change_logger/entity_change_logging/domain/model/LogEntry.java:81-84 | a high-priority operation or a critical field, as `HighPriorityIff` states |
| LogEntries.HighPriorityIff | src/main/java/com/pandaterry/concurrent_entity_change_logger/entity_change_logging/domain/model/LogEntry.java:81-84 | high-priority processing exactly for a high-priority operation or a change to password, email or status |
| LogEntries.EnrichWithContext | src/main/java/com/pandaterry/concurrent_entity_change_logger/entity_change_logging/domain/model/LogEntry.java:86-94 | an empty context returns the record itself; otherwise only the change set changes, enriched, and the record keeps its identity |
| LogEntries.EnrichWithContextIsUniform | src/main/java/com/pandaterry/concurrent_entity_change_logger/entity_change_logging/domain/model/LogEntry.java:86-94 | the shortcut for an empty context agrees with enriching by it |
| LogEntries.EnrichKeepsPriority | src/main/java/com/pandaterry/concurrent_entity_change_logger/entity_change_logging/domain/model/LogEntry.java:81-94 | enriching with context never changes whether a record needs high-priority processing |
| LogEntries.NoCriticalContextKey | src/main/java/com/pandaterry/concurrent_entity_change_logger/entity_change_logging/domain/model/LogEntry.java:81-91 | a "ctx_" key is never a critical field |
| LogEntries.CanBeGroupedWith | src/main/java/com/pandaterry/concurrent_entity_change_logger/entity_change_logging/domain/model/LogEntry.java:96-101 | false for a different entity or operation; otherwise a null instant throws `NullPointerException`; true exactly for the same entity and operation less than five whole minutes apart |
| LogEntries.GroupingSymmetricAndWindowed | src/main/java/com/pandaterry/concurrent_entity_change_logger/entity_change_logging/domain/model/LogEntry.java:96-101 | grouping is symmetric, and for set instants means less than five minutes apart |
| LogEntries.GroupingIsNotTransitive | src/main/java/com/pandaterry/concurrent_entity_change_logger/entity_change_logging/domain/model/LogEntry.java:96-101 | records at 0, 4 and 8 minutes group pairwise in a chain but not end to end |
| LogEntries.SameEntryIsIdentity | src/main/java/com/pandaterry/concurrent_entity_change_logger/entity_change_logging/domain/model/LogEntry.java:16-20 | record equality is an equivalence on the id alone: records that differ in every other field are equal |
| Operations.FromAliasExamples | src/main/java/com/pandaterry/concurrent_entity_change_logger/entity_change_logging/domain/Operation.java:36-43 | aliases match ignoring case (`insert` and `Save` are CREATE, `merge` is UPDATE, `REMOVE` is DELETE) and an unknown alias such as `upsert` is refused |
| LogEntryMappers.ToEntity | src/main/java/com/pandaterry/concurrent_entity_change_logger/entity_change_logging/adapter/out/persistence/mapper/LogEntryMapper.java:27-38 | a record without id or context throws `NullPointerException`, exactly then; otherwise the row carries the id's UUID, the identifier's name and id, the change set's and the context's `toMap`, the instant and the operation |
| LogEntryMappers.ContextFrom | src/main/java/com/pandaterry/concurrent_entity_change_logger/entity_change_logging/adapter/out/persistence/mapper/LogEntryMapper.java:23 | a null context map throws `NullPointerException`; otherwise `SubmissionContext.from` of it |
| LogEntryMappers.Assemble | src/main/java/com/pandaterry/concurrent_entity_change_logger/entity_change_logging/adapter/out/persistence/mapper/LogEntryMapper.java:16-25 | the arguments of `create` are evaluated in order, so the first failing one decides the error; the record is built exactly when all succeed and the operation is present |
| LogEntryMappers.ToDomain | src/main/java/com/pandaterry/concurrent_entity_change_logger/entity_change_logging/adapter/out/persistence/mapper/LogEntryMapper.java:16-25 | the row's fields read back, with the errors in the source's order, as `ToDomainReads`, `ToDomainRejects` and `RoundTrip` state |
| LogEntryMappers.ToDomainReads | src/main/java/com/pandaterry/concurrent_entity_change_logger/entity_change_logging/adapter/out/persistence/mapper/LogEntryMapper.java:16-25 | a row without id throws `NullPointerException`, a blank name or id throws the identifier's error; a record read back carries the row's id, name, id text, operation, instant, and the change set and context `from` reads |
| LogEntryMappers.RoundTrip | src/main/java/com/pandaterry/concurrent_entity_change_logger/entity_change_logging/adapter/out/persistence/mapper/LogEntryMapper.java:15-38 | `toDomain(toEntity(e))` is the same record by id and field by field except the changes, which keep their fields and count but come back as creations of their stored text |
| LogEntryMappers.ToDomainRejects | src/main/java/com/pandaterry/concurrent_entity_change_logger/entity_change_logging/adapter/out/persistence/mapper/LogEntryMapper.java:19-23 | a row with a blank entity name or id, or a context without `submittedAt`, cannot be read back |
| QueueAdapters.DropReport | src/main/java/com/pandaterry/concurrent_entity_change_logger/entity_change_logging/adapter/out/queue/BlockingQueueAdapter.java:131-146 | the total first, then the entity name and operation of the first ten rows, then the number beyond ten when there are more |
| QueueAdapters.Collect | src/main/java/com/pandaterry/concurrent_entity_change_logger/entity_change_logging/adapter/out/queue/BlockingQueueAdapter.java:81-82 | reading back succeeds exactly when every row does, with one record per row in order |
| QueueAdapters.ToDomainAll | src/main/java/com/pandaterry/concurrent_entity_change_logger/entity_change_logging/adapter/out/queue/BlockingQueueAdapter.java:81-82 | every row read back in order, or the first failure, as `ToDomainAllReads` and `ToDomainAllReadsBackAs` state |
| QueueAdapters.ToDomainAllReads | src/main/java/com/pandaterry/concurrent_entity_change_logger/entity_change_logging/adapter/out/queue/BlockingQueueAdapter.java:81-82 | all rows read back in order, one record per row, and fail when any row fails |
| QueueAdapters.ToDomainAllReadsBackAs | src/main/java/com/pandaterry/concurrent_entity_change_logger/entity_change_logging/adapter/out/queue/BlockingQueueAdapter.java:81-82 | reading all rows succeeds with `es` exactly when each row reads back as the record at its place |
| QueueAdapters.Appended | src/main/java/com/pandaterry/concurrent_entity_change_logger/entity_change_logging/adapter/out/queue/BlockingQueueAdapter.java:83-85 | the drained records are appended after the batch's own, and the count is the number of rows drained |
| QueueAdapters.DrainedAreOffered | src/main/java/com/pandaterry/concurrent_entity_change_logger/entity_change_logging/adapter/out/queue/BlockingQueueAdapter.java:68-83 | drained records are `toDomain(toEntity(e))` of the offered ones: equal to them by id, field by field except the changes |
| QueueAdapters.OfferedReadsBack | src/main/java/com/pandaterry/concurrent_entity_change_logger/entity_change_logging/adapter/out/queue/BlockingQueueAdapter.java:68-83 | one offered record, read back from its row |
| QueueAdapters.BlockingQueueAdapter.constructor | src/main/java/com/pandaterry/concurrent_entity_change_logger/entity_change_logging/adapter/out/queue/BlockingQueueAdapter.java:22-28 | no queue before `init`, not shut down, nothing held |
| QueueAdapters.BlockingQueueAdapter.Size | src/main/java/com/pandaterry/concurrent_entity_change_logger/entity_change_logging/adapter/out/queue/BlockingQueueAdapter.java:93-96 | the number of rows held; a null queue throws `NullPointerException` |
| QueueAdapters.BlockingQueueAdapter.RemainingCapacity | src/main/java/com/pandaterry/concurrent_entity_change_logger/entity_change_logging/adapter/out/queue/BlockingQueueAdapter.java:88-91 | capacity minus size, zero exactly when full; a null queue throws `NullPointerException` |
| QueueAdapters.BlockingQueueAdapter.Init | src/main/java/com/pandaterry/concurrent_entity_change_logger/entity_change_logging/adapter/out/queue/BlockingQueueAdapter.java:30-35 | a fresh empty queue of the configured capacity replaces the old one, whose rows are lost; a capacity below 1 is refused by the queue |
| QueueAdapters.BlockingQueueAdapter.Offer | src/main/java/com/pandaterry/concurrent_entity_change_logger/entity_change_logging/adapter/out/queue/BlockingQueueAdapter.java:60-74 | accepted exactly when not shut down, the queue exists, the mapper succeeds and there is room; then the row joins the tail; a refusal leaves the queue untouched |
| QueueAdapters.BlockingQueueAdapter.DrainTo | src/main/java/com/pandaterry/concurrent_entity_change_logger/entity_change_logging/adapter/out/queue/BlockingQueueAdapter.java:76-86 | a negative maximum is refused before the queue is touched; otherwise exactly min(max, size) rows leave the head in order, are read back, appended after the batch, and counted; the queue keeps the rest |
| QueueAdapters.BlockingQueueAdapter.AwaitBriefCompletion | src/main/java/com/pandaterry/concurrent_entity_change_logger/entity_change_logging/adapter/out/queue/BlockingQueueAdapter.java:98-119 | no wait on an empty queue; otherwise five one-second waits, or up to and including the interrupted one |
| QueueAdapters.BlockingQueueAdapter.HandleRemainingData | src/main/java/com/pandaterry/concurrent_entity_change_logger/entity_change_logging/adapter/out/queue/BlockingQueueAdapter.java:121-146 | every remaining row is drained and dropped, and the drop report is written when any was left |
| QueueAdapters.BlockingQueueAdapter.ClearQueue | src/main/java/com/pandaterry/concurrent_entity_change_logger/entity_change_logging/adapter/out/queue/BlockingQueueAdapter.java:148-153 | the queue is emptied and becomes null |
| QueueAdapters.BlockingQueueAdapter.Shutdown | src/main/java/com/pandaterry/concurrent_entity_change_logger/entity_change_logging/adapter/out/queue/BlockingQueueAdapter.java:37-58 | a second call returns at once; before `init` the opening size read throws `NullPointerException`; otherwise the flag is set, every row is dropped and reported, and the queue becomes null |
| BatchProcessing.RoundStep | src/main/java/com/pandaterry/concurrent_entity_change_logger/entity_change_logging/application/service/BatchProcessingService.java:105-108 | after one more round the total drained is min(queue length, rounds × limit) |
| BatchProcessing.RoundsCoverAll | src/main/java/com/pandaterry/concurrent_entity_change_logger/entity_change_logging/application/service/BatchProcessingService.java:105 | once the rounds so far drained everything, five rounds' worth covers the whole queue |
| BatchProcessing.BatchProcessingService.constructor | src/main/java/com/pandaterry/concurrent_entity_change_logger/entity_change_logging/application/service/BatchProcessingService.java:19-28 | no pool, no workers, no shutdown hook yet |
| BatchProcessing.BatchProcessingService.Init | src/main/java/com/pandaterry/concurrent_entity_change_logger/entity_change_logging/application/service/BatchProcessingService.java:30-40 | a pool of the configured size with one worker per thread and one shutdown hook; a size below 1 is refused by the pool factory |
| BatchProcessing.BatchProcessingService.SaveBatch | src/main/java/com/pandaterry/concurrent_entity_change_logger/entity_change_logging/application/service/BatchProcessingService.java:63-80 | one save call whose failure is counted and swallowed; processed grows by 1 per saved batch and 0 per failed one; the recorded batch size is the configured one; the queue size is gauged |
| BatchProcessing.BatchProcessingService.SaveFlushed | src/main/java/com/pandaterry/concurrent_entity_change_logger/entity_change_logging/application/service/BatchProcessingService.java:87-92 | a drained batch is saved as `saveBatch` does and the flush latency recorded |
| BatchProcessing.BatchProcessingService.Flush | src/main/java/com/pandaterry/concurrent_entity_change_logger/entity_change_logging/application/service/BatchProcessingService.java:82-96 | drains exactly min(jpaBatchSize, size) records from the head and returns that count; an empty drain makes no save and records nothing; a non-empty drain is saved once as exactly the records read back from the drained rows, counted as processed when saved and as a save error when not, and its records are not put back; a null queue or a negative batch size throws with the queue untouched; a row that fails to read back throws after the drained rows have left the queue, with nothing saved or counted |
| BatchProcessing.BatchProcessingService.FlushRound | src/main/java/com/pandaterry/concurrent_entity_change_logger/entity_change_logging/application/service/BatchProcessingService.java:106 | one round of `finalFlush`: the rows it drains from the front, and at most one save attempt, counted once as processed or failed |
| BatchProcessing.BatchProcessingService.FinalFlush | src/main/java/com/pandaterry/concurrent_entity_change_logger/entity_change_logging/application/service/BatchProcessingService.java:98-117 | at most five flush rounds while the queue is not empty, stopping after a round that drains nothing; the total is min(size, 5 × jpaBatchSize), those rows leave the head, and every save attempt is counted once |
| BatchProcessing.BatchProcessingService.Shutdown | src/main/java/com/pandaterry/concurrent_entity_change_logger/entity_change_logging/application/service/BatchProcessingService.java:119-131 | the workers stop, then exactly one flush runs and its count is added to the shutdown-flushed counter; without a pool the first call dereferences null |
| BatchProcessing.BatchProcessingService.DrainAndSave | src/main/java/com/pandaterry/concurrent_entity_change_logger/entity_change_logging/application/service/BatchProcessingService.java:51-56 | min(jpaBatchSize, size) rows leave the head and are recorded as removed; a non-empty drain is saved once as the records they read back as, counted as processed or as a save error; a negative batch size throws with the queue untouched; a read-back failure throws after the rows have left, saving and counting nothing |
| BatchProcessing.BatchProcessingService.ProcessLogsStep | src/main/java/com/pandaterry/concurrent_entity_change_logger/entity_change_logging/application/service/BatchProcessingService.java:42-61 | a worker drains only when the queue holds at least jpaBatchSize records, takes at most that many from the head (recorded as removed), saves a non-empty drain as exactly the records read back from it, and counts it as processed or as a save error; a pass that drains nothing changes nothing; a null queue, a negative batch size or a row that fails to read back throws, the last after its rows have left the queue, and any such exception ends that worker, which is no longer counted |
| Ports.Metrics.IncrementProcessedCount | src/main/java/com/pandaterry/concurrent_entity_change_logger/entity_change_logging/application/port/output/MetricsPort.java:14 | the processed counter grows by the count given |
| Ports.Metrics.IncrementShutdownFlushedCount | src/main/java/com/pandaterry/concurrent_entity_change_logger/entity_change_logging/application/port/output/MetricsPort.java:20 | the shutdown-flushed counter grows by the count given |
| Ports.Metrics.RecordBatchSize | src/main/java/com/pandaterry/concurrent_entity_change_logger/entity_change_logging/application/port/output/MetricsPort.java:12 | each recorded batch size is kept, in order |
| Ports.Metrics.GaugeQueueSize | src/main/java/com/pandaterry/concurrent_entity_change_logger/entity_change_logging/application/port/output/MetricsPort.java:8 | the gauge holds the last size set |
| Ports.BatchSink.SaveBatch | src/main/java/com/pandaterry/concurrent_entity_change_logger/entity_change_logging/adapter/out/persistence/batch/BatchPersistenceAdapter.java:20-40 | an empty batch is ignored; any other batch reaches the repository once, and is stored or its failure passed on to the caller |
| Ports.RowSink.Insert | src/main/java/com/pandaterry/concurrent_entity_change_logger/core/repository/LogEntryRepository.java:13-18 | one insert per call, stored or thrown |
| Ports.LogStorage.Write | src/main/java/com/pandaterry/concurrent_entity_change_logger/entity_change_logging/application/port/output/LogStoragePort.java:8 | a write either appends the record or throws `IOException` and appends nothing |
| Ports.LogStorage.Init | src/main/java/com/pandaterry/concurrent_entity_change_logger/entity_change_logging/application/port/output/LogStoragePort.java:9 | initialises the storage or throws |
| Ports.LogStorage.Close | src/main/java/com/pandaterry/concurrent_entity_change_logger/entity_change_logging/application/port/output/LogStoragePort.java:10 | closing never throws |
| Ports.Metrics.RecordOfferLatency | src/main/java/com/pandaterry/concurrent_entity_change_logger/entity_change_logging/application/port/output/MetricsPort.java:4 | one more offer latency is recorded |
| Ports.Metrics.IncrementDroppedCount | src/main/java/com/pandaterry/concurrent_entity_change_logger/entity_change_logging/application/port/output/MetricsPort.java:6 | the dropped counter grows by one |
| Ports.Metrics.RecordBatchLatency | src/main/java/com/pandaterry/concurrent_entity_change_logger/entity_change_logging/application/port/output/MetricsPort.java:10 | one more batch latency is recorded |
| Ports.Metrics.IncrementSaveErrorCount | src/main/java/com/pandaterry/concurrent_entity_change_logger/entity_change_logging/application/port/output/MetricsPort.java:16 | the save-error counter grows by one |
| Ports.Metrics.RecordFlushLatency | src/main/java/com/pandaterry/concurrent_entity_change_logger/entity_change_logging/application/port/output/MetricsPort.java:18 | one more flush latency is recorded |
| Ports.Metrics.Shutdown | src/main/java/com/pandaterry/concurrent_entity_change_logger/entity_change_logging/application/port/output/MetricsPort.java:22 | the metrics are shut down; the counters are kept |
| Ports.JdbcBatch.BatchUpdate | src/main/java/com/pandaterry/concurrent_entity_change_logger/entity_change_logging/adapter/out/persistence/repository/LogEntryRepositoryImpl.java:61 | one call per batch: the rows are stored as given, or the call throws and stores nothing |
| Lifecycle.OrderSplits | src/main/java/com/pandaterry/concurrent_entity_change_logger/entity_change_logging/adapter/out/lifecycle/LoggingSmartLifecycle.java:66-80 | the first three shutdown steps followed by the next one or three are a prefix of the shutdown order |
| Lifecycle.LoggingSmartLifecycle.constructor | src/main/java/com/pandaterry/concurrent_entity_change_logger/entity_change_logging/adapter/out/lifecycle/LoggingSmartLifecycle.java:18-26 | a new lifecycle is not running and has called nothing |
| Lifecycle.LoggingSmartLifecycle.IsRunning | src/main/java/com/pandaterry/concurrent_entity_change_logger/entity_change_logging/adapter/out/lifecycle/LoggingSmartLifecycle.java:101-104 | reports whether the infrastructure was started and not stopped |
| Lifecycle.LoggingSmartLifecycle.Start | src/main/java/com/pandaterry/concurrent_entity_change_logger/entity_change_logging/adapter/out/lifecycle/LoggingSmartLifecycle.java:29-46 | does nothing while running; otherwise initialises storage, queue and batch service in that order, stops at the first failure and rethrows it wrapped as `FAILED_INIT_LOGGING_INFRA` with the cause; running afterwards exactly when it was running or every init succeeded |
| Lifecycle.LoggingSmartLifecycle.AwaitTermination | src/main/java/com/pandaterry/concurrent_entity_change_logger/entity_change_logging/adapter/out/lifecycle/LoggingSmartLifecycle.java:86-99 | a queue already cleared by its shutdown makes the wait throw a null-pointer exception; otherwise the answer is whether the queue is now empty |
| Lifecycle.LoggingSmartLifecycle.GracefulShutdown | src/main/java/com/pandaterry/concurrent_entity_change_logger/entity_change_logging/adapter/out/lifecycle/LoggingSmartLifecycle.java:65-84 | calls a prefix of batch shutdown, queue shutdown, wait, final flush, storage close, metrics shutdown, ending at the first step that throws and swallowing it; storage is closed only if close was reached, metrics shut down only if every step ran; when the queue adapter was open before, its shutdown clears the queue so the wait throws and the last three steps never run |
| Lifecycle.LoggingSmartLifecycle.FinishShutdown | src/main/java/com/pandaterry/concurrent_entity_change_logger/entity_change_logging/adapter/out/lifecycle/LoggingSmartLifecycle.java:73-79 | the final flush runs; storage close and metrics shutdown follow only when it did not throw |
| Lifecycle.LoggingSmartLifecycle.Stop | src/main/java/com/pandaterry/concurrent_entity_change_logger/entity_change_logging/adapter/out/lifecycle/LoggingSmartLifecycle.java:48-57 | nothing when not running; otherwise a non-empty prefix of the shutdown order runs; never running afterwards |
| Lifecycle.LoggingSmartLifecycle.StopWithCallback | src/main/java/com/pandaterry/concurrent_entity_change_logger/entity_change_logging/adapter/out/lifecycle/LoggingSmartLifecycle.java:59-63 | the callback runs last, after `stop`, and always runs |
| LoggingServices.CreateLogEntry | src/main/java/com/pandaterry/concurrent_entity_change_logger/entity_change_logging/application/service/LoggingService.java:43-52 | the record describes the old entity when there is one and the new one otherwise, carries the change set of the tracked changes and the operation; fails exactly when the identifier, the change set or the record's operation check fails, with the first of those errors |
| LoggingServices.OldEntityDescribesTheChange | src/main/java/com/pandaterry/concurrent_entity_change_logger/entity_change_logging/application/service/LoggingService.java:46-48 | once an old entity is given the new entity does not affect the record, whose identifier is the old entity's |
| LoggingServices.PresentEntityDescribesTheChange | src/main/java/com/pandaterry/concurrent_entity_change_logger/entity_change_logging/application/service/LoggingService.java:46-48 | a deletion and a creation of the same entity get the same record; with neither entity the identifier lookup throws a null-pointer exception |
| LoggingServices.LoggingService.constructor | src/main/java/com/pandaterry/concurrent_entity_change_logger/entity_change_logging/application/service/LoggingService.java:18-25 | the service keeps the storage, queue, metrics and properties it is given |
| LoggingServices.LoggingService.ShouldLog | src/main/java/com/pandaterry/concurrent_entity_change_logger/entity_change_logging/application/service/LoggingService.java:28 | disabled logging never logs; otherwise a missing entity throws a null-pointer exception and a present one is decided by the configuration for its class |
| LoggingServices.LoggingService.OfferToQueue | src/main/java/com/pandaterry/concurrent_entity_change_logger/entity_change_logging/application/service/LoggingService.java:54-70 | a full queue is left untouched with no metric; otherwise one offer, its latency recorded, a drop counted exactly when the offer was refused and the queue size gauged; a cleared queue throws |
| LoggingServices.LoggingService.WriteAndOffer | src/main/java/com/pandaterry/concurrent_entity_change_logger/entity_change_logging/application/service/LoggingService.java:34-40 | a failing storage write is rethrown wrapped and nothing is offered; a successful one stores the record, then it is offered to the queue |
| LoggingServices.LoggingService.LogChange | src/main/java/com/pandaterry/concurrent_entity_change_logger/entity_change_logging/application/service/LoggingService.java:27-41 | a change the configuration does not log is ignored with nothing written; a record is created exactly when the change is logged and creation succeeds; a creation error is thrown before the write; then write, then offer, as above |
| ApplicationStrategy.BlockingQueueLoggingStrategy.constructor | src/main/java/com/pandaterry/concurrent_entity_change_logger/core/application/strategy/BlockingQueueLoggingStrategy.java:33-46 | a new strategy has no queue, no pool and no shutdown hook yet, and keeps the configured sizes |
| ApplicationStrategy.BlockingQueueLoggingStrategy.Init | src/main/java/com/pandaterry/concurrent_entity_change_logger/core/application/strategy/BlockingQueueLoggingStrategy.java:48-58 | storage is initialised first and its failure stops everything; a queue capacity or pool size below 1 is refused by the JDK; otherwise an empty queue of the configured capacity, one worker per pool thread and one shutdown hook |
| ApplicationStrategy.BlockingQueueLoggingStrategy.OfferToQueue | src/main/java/com/pandaterry/concurrent_entity_change_logger/core/application/strategy/BlockingQueueLoggingStrategy.java:74-87 | before `init` a null-pointer exception; a full queue records nothing; otherwise the record is appended at the tail, its latency recorded, no drop counted and the new size gauged |
| ApplicationStrategy.BlockingQueueLoggingStrategy.LogChange | src/main/java/com/pandaterry/concurrent_entity_change_logger/core/application/strategy/BlockingQueueLoggingStrategy.java:60-72 | a change not logged, or whose decision threw, writes and queues nothing; otherwise the storage write, whose `IOException` is rethrown wrapped before anything is queued, then the offer |
| ApplicationStrategy.BlockingQueueLoggingStrategy.SaveBatch | src/main/java/com/pandaterry/concurrent_entity_change_logger/core/application/strategy/BlockingQueueLoggingStrategy.java:115-131 | exactly one repository call; a saved batch counts one processed, a failed one counts one save error and is swallowed; the configured batch size and a latency are recorded and the queue size gauged |
| ApplicationStrategy.BlockingQueueLoggingStrategy.Flush | src/main/java/com/pandaterry/concurrent_entity_change_logger/core/application/strategy/BlockingQueueLoggingStrategy.java:133-150 | fails exactly when the batch size is negative or the queue is null; otherwise the first min(batch size, queue length) records leave the head in order, a non-empty batch is saved once as exactly those records, with its flush latency recorded, counted as processed when saved and as a save error when not, and the count drained is returned; a failing or empty flush saves and counts nothing |
| ApplicationStrategy.BlockingQueueLoggingStrategy.ProcessLogsStep | src/main/java/com/pandaterry/concurrent_entity_change_logger/core/application/strategy/BlockingQueueLoggingStrategy.java:93-113 | a worker with fewer records queued than one batch only waits and saves nothing; otherwise it drains up to one batch from the head and saves exactly those records when non-empty, counting the batch as processed when saved and as a save error when not; a pass that drains nothing, or throws, saves and counts nothing and leaves the queue; an exception other than an interrupt ends that worker, which is no longer counted |
| ApplicationStrategy.BlockingQueueLoggingStrategy.Shutdown | src/main/java/com/pandaterry/concurrent_entity_change_logger/core/application/strategy/BlockingQueueLoggingStrategy.java:152-165 | before `init` a null-pointer exception; otherwise the pool stops, one flush runs, storage closes and the shutdown counter grows by exactly the records flushed; a failing flush skips the close |
| JavaQueues.CollectUpTo | src/main/java/com/pandaterry/concurrent_entity_change_logger/core/strategy/BlockingQueueLoggingStrategy.java:154-164 | polls the batch queue until it is empty or one batch is collected: the records taken are the first min(batch size, length) in order, and the queue keeps the rest |
| CoreStrategy.Surviving | src/main/java/com/pandaterry/concurrent_entity_change_logger/core/strategy/BlockingQueueLoggingStrategy.java:167-179 | the rows whose insert does not throw, in order, never more than were given |
| CoreStrategy.SurvivingAppend | src/main/java/com/pandaterry/concurrent_entity_change_logger/core/strategy/BlockingQueueLoggingStrategy.java:168-178 | one more row is stored exactly when its own insert call does not fail |
| CoreStrategy.SurvivingWithoutFailures | src/main/java/com/pandaterry/concurrent_entity_change_logger/core/strategy/BlockingQueueLoggingStrategy.java:168-178 | when no insert call fails every row is stored, in order |
| CoreStrategy.OneFailureLosesOneRow | src/main/java/com/pandaterry/concurrent_entity_change_logger/core/strategy/BlockingQueueLoggingStrategy.java:168-178 | a single failing insert loses only its own row; the rows before and after it are stored in order |
| CoreStrategy.BlockingQueueLoggingStrategy.constructor | src/main/java/com/pandaterry/concurrent_entity_change_logger/core/strategy/BlockingQueueLoggingStrategy.java:37-56 | both queues start empty, the main queue holds at most 100000, five workers run and one shutdown hook is registered |
| CoreStrategy.BlockingQueueLoggingStrategy.ShouldLog | src/main/java/com/pandaterry/concurrent_entity_change_logger/core/strategy/BlockingQueueLoggingStrategy.java:61 | global logging off never logs; otherwise a missing entity throws a null-pointer exception and a present one is decided by the condition for its class |
| CoreStrategy.BlockingQueueLoggingStrategy.OfferToQueue | src/main/java/com/pandaterry/concurrent_entity_change_logger/core/strategy/BlockingQueueLoggingStrategy.java:111-115 | a full queue takes nothing; otherwise the record joins the tail |
| CoreStrategy.BlockingQueueLoggingStrategy.LogChange | src/main/java/com/pandaterry/concurrent_entity_change_logger/core/strategy/BlockingQueueLoggingStrategy.java:60-66 | a change not logged leaves the queue as it was; a logged one is offered; only a failing decision throws |
| CoreStrategy.BlockingQueueLoggingStrategy.SaveBatch | src/main/java/com/pandaterry/concurrent_entity_change_logger/core/strategy/BlockingQueueLoggingStrategy.java:166-179 | one insert call per row, in order; the stored rows are exactly those whose call does not fail, every failure swallowed |
| CoreStrategy.BlockingQueueLoggingStrategy.FlushBatch | src/main/java/com/pandaterry/concurrent_entity_change_logger/core/strategy/BlockingQueueLoggingStrategy.java:145-152 | the first min(10, length) records leave the batch queue in order and are inserted row by row; an empty batch queue reaches no insert |
| CoreStrategy.BlockingQueueLoggingStrategy.ProcessLogEntry | src/main/java/com/pandaterry/concurrent_entity_change_logger/core/strategy/BlockingQueueLoggingStrategy.java:134-143 | nothing for a null record; otherwise it joins the batch queue, and a complete batch of 10 is inserted and leaves the queue, so the batch queue never holds a whole batch between calls |
| CoreStrategy.BlockingQueueLoggingStrategy.ProcessLogsStep | src/main/java/com/pandaterry/concurrent_entity_change_logger/core/strategy/BlockingQueueLoggingStrategy.java:117-132 | a running worker polls the head of the main queue, nothing from an empty one, and processes the polled record; a stopped pool does nothing |
| CoreStrategy.BlockingQueueLoggingStrategy.Flush | src/main/java/com/pandaterry/concurrent_entity_change_logger/core/strategy/BlockingQueueLoggingStrategy.java:181-185 | the whole batch queue, which holds fewer than one batch, is inserted row by row and emptied |
| CoreStrategy.BlockingQueueLoggingStrategy.Shutdown | src/main/java/com/pandaterry/concurrent_entity_change_logger/core/strategy/BlockingQueueLoggingStrategy.java:187-198 | the workers stop and one flush stores the batch queue; records still in the main queue stay there |
| CoreChangeLogger.EntityChangeMetrics.constructor | src/main/java/com/pandaterry/concurrent_entity_change_logger/monitoring/service/EntityChangeMetrics.java:25-52 | all counters start at zero |
| CoreChangeLogger.EntityChangeMetrics.RecordProcessedLog | src/main/java/com/pandaterry/concurrent_entity_change_logger/monitoring/service/EntityChangeMetrics.java:54-56 | the processed-log counter grows by one |
| CoreChangeLogger.EntityChangeMetrics.RecordError | src/main/java/com/pandaterry/concurrent_entity_change_logger/monitoring/service/EntityChangeMetrics.java:58-60 | the error counter grows by one |
| CoreChangeLogger.EntityChangeMetrics.StopProcessingTimer | src/main/java/com/pandaterry/concurrent_entity_change_logger/monitoring/service/EntityChangeMetrics.java:66-68 | one more processing-time sample is stopped |
| CoreChangeLogger.EntityChangeLogger.constructor | src/main/java/com/pandaterry/concurrent_entity_change_logger/core/service/EntityChangeLogger.java:43-67 | both queues start empty, the main queue holds at most 100000, five workers run and one shutdown hook is registered |
| CoreChangeLogger.EntityChangeLogger.LogChange | src/main/java/com/pandaterry/concurrent_entity_change_logger/core/service/EntityChangeLogger.java:69-92 | a built record joins the queue when there is room and is otherwise skipped, counted as processed either way; a failure building it is counted as an error, queues nothing and is not passed on; the timer stops in every case |
| CoreChangeLogger.EntityChangeLogger.FlushBatch | src/main/java/com/pandaterry/concurrent_entity_change_logger/core/service/EntityChangeLogger.java:110-123 | the first min(1000, length) records leave the batch queue in order and reach one `saveAll`, or no call when none are there; a failing save is passed on and its records are gone |
| CoreChangeLogger.EntityChangeLogger.ProcessLogsStep | src/main/java/com/pandaterry/concurrent_entity_change_logger/core/service/EntityChangeLogger.java:94-108 | a running worker polls the head; a polled record joins the batch queue and a complete batch of 1000 is saved in one call and leaves the queue; a failing save ends that worker |
| CoreChangeLogger.EntityChangeLogger.ScheduledFlush | src/main/java/com/pandaterry/concurrent_entity_change_logger/core/service/EntityChangeLogger.java:125-128 | the batch queue is emptied; a non-empty one is saved in one call, which succeeds exactly when the repository's call does |
| CoreChangeLogger.EntityChangeLogger.Shutdown | src/main/java/com/pandaterry/concurrent_entity_change_logger/core/service/EntityChangeLogger.java:130-140 | the workers stop and one scheduled flush stores the batch queue; records still in the main queue stay there |
| TrackerChangeLogger.EntityChangeLogger.constructor | src/main/java/com/pandaterry/concurrent_entity_change_tracker/service/EntityChangeLogger.java:36-45 | both queues start empty, the main queue holds at most 100000, five workers run and one shutdown hook is registered |
| TrackerChangeLogger.EntityChangeLogger.LogChange | src/main/java/com/pandaterry/concurrent_entity_change_tracker/service/EntityChangeLogger.java:47-65 | a built record joins the queue when there is room and is otherwise skipped; a failure building it queues nothing and is not passed on |
| TrackerChangeLogger.EntityChangeLogger.FlushBatch | src/main/java/com/pandaterry/concurrent_entity_change_tracker/service/EntityChangeLogger.java:83-96 | the first min(1000, length) records leave the batch queue in order and reach one `saveAll`, or no call when none are there; a failing save is passed on and its records are gone |
| TrackerChangeLogger.EntityChangeLogger.ProcessLogsStep | src/main/java/com/pandaterry/concurrent_entity_change_tracker/service/EntityChangeLogger.java:67-81 | a running worker polls the head; a polled record joins the batch queue and a complete batch of 1000 is saved in one call and leaves the queue; a failing save ends that worker |
| TrackerChangeLogger.EntityChangeLogger.ScheduledFlush | src/main/java/com/pandaterry/concurrent_entity_change_tracker/service/EntityChangeLogger.java:98-101 | the batch queue is emptied; a non-empty one is saved in one call, which succeeds exactly when the repository's call does |
| TrackerChangeLogger.EntityChangeLogger.Shutdown | src/main/java/com/pandaterry/concurrent_entity_change_tracker/service/EntityChangeLogger.java:103-113 | the workers stop and one scheduled flush stores the batch queue; records still in the main queue stay there |
| Chunking.Chunks | src/main/java/com/pandaterry/concurrent_entity_change_logger/entity_change_logging/adapter/out/persistence/repository/LogEntryRepositoryImpl.java:89-92 | the consecutive sublists the chunking loop hands over; none exactly for an empty list |
| Chunking.ChunksPartition | src/main/java/com/pandaterry/concurrent_entity_change_logger/entity_change_logging/adapter/out/persistence/repository/LogEntryRepositoryImpl.java:86-97 | the chunks, put back together, are the whole list, none is empty, none is longer than the chunk size, and all but the last have exactly the chunk size |
| Chunking.ChunksStep | src/main/java/com/pandaterry/concurrent_entity_change_logger/entity_change_logging/adapter/out/persistence/repository/LogEntryRepositoryImpl.java:89-91 | the chunk starting at position i ends at min(i + chunk size, size), and the rest of the chunks start there |
| Chunking.ChunkAdvance | src/main/java/com/pandaterry/concurrent_entity_change_logger/entity_change_logging/adapter/out/persistence/repository/LogEntryRepositoryImpl.java:89-91 | after k chunks handed over from position p, the next one is the sublist from p to min(p + chunk size, size) |
| LogEntryRepositories.ConvertToObjectArray | src/main/java/com/pandaterry/concurrent_entity_change_logger/entity_change_logging/adapter/out/persistence/repository/LogEntryRepositoryImpl.java:102-121 | a row exists exactly when the changes and the context serialise and the operation and the instant are present; it has one parameter per insert column |
| LogEntryRepositories.ParamsFollowInsertColumns | src/main/java/com/pandaterry/concurrent_entity_change_logger/shared/constant/LogEntrySql.java:4-7 | each parameter is the record's value for the insert column at the same position; only the id meets the `uuid` cast, and the two `jsonb` columns get the changes and context JSON |
| LogEntryRepositories.MapAll | src/main/java/com/pandaterry/concurrent_entity_change_logger/entity_change_logging/adapter/out/persistence/repository/LogEntryRepositoryImpl.java:53-54 | every record maps, in order, or a null-pointer exception escapes when one cannot |
| LogEntryRepositories.Rows | src/main/java/com/pandaterry/concurrent_entity_change_logger/entity_change_logging/adapter/out/persistence/repository/LogEntryRepositoryImpl.java:55-57 | at most one row per record, each with one parameter per insert column |
| LogEntryRepositories.RowsOfConvertible | src/main/java/com/pandaterry/concurrent_entity_change_logger/entity_change_logging/adapter/out/persistence/repository/LogEntryRepositoryImpl.java:53-57 | when every record converts, there is one row per record, in order |
| LogEntryRepositories.RowsDropFailures | src/main/java/com/pandaterry/concurrent_entity_change_logger/entity_change_logging/adapter/out/persistence/repository/LogEntryRepositoryImpl.java:55-57 | a record that does not convert is left out and the other rows stay in order |
| LogEntryRepositories.LogEntryRepositoryImpl.constructor | src/main/java/com/pandaterry/concurrent_entity_change_logger/entity_change_logging/adapter/out/persistence/repository/LogEntryRepositoryImpl.java:23-32 | the repository keeps its JDBC template and encoder and has saved no chunks |
| LogEntryRepositories.LogEntryRepositoryImpl.SaveBatch | src/main/java/com/pandaterry/concurrent_entity_change_logger/entity_change_logging/adapter/out/persistence/repository/LogEntryRepositoryImpl.java:46-78 | nothing for a null or empty list; a record that cannot be mapped throws; no call when no row converts; otherwise one `batchUpdate` of exactly the converted rows, its failure rethrown wrapped with the fixed message |
| LogEntryRepositories.MapAllAppend | src/main/java/com/pandaterry/concurrent_entity_change_logger/entity_change_logging/adapter/out/persistence/repository/LogEntryRepositoryImpl.java:53-54 | a list made of two parts maps exactly when both parts map, to the first part's records followed by the second's |
| LogEntryRepositories.RowsAppend | src/main/java/com/pandaterry/concurrent_entity_change_logger/entity_change_logging/adapter/out/persistence/repository/LogEntryRepositoryImpl.java:55-57 | the rows of two consecutive parts of a mapped list are the first part's rows followed by the second's |
| LogEntryRepositories.LogEntryRepositoryImpl.SaveChunk | src/main/java/com/pandaterry/concurrent_entity_change_logger/entity_change_logging/adapter/out/persistence/repository/LogEntryRepositoryImpl.java:93 | one chunk's save throws only the mapping's null-pointer exception or the wrapped JDBC failure, and then sends nothing; when it returns, every record of the chunk has mapped and the rows sent are exactly the chunk's converted rows |
| LogEntryRepositories.LogEntryRepositoryImpl.SaveBatchWithChunking | src/main/java/com/pandaterry/concurrent_entity_change_logger/entity_change_logging/adapter/out/persistence/repository/LogEntryRepositoryImpl.java:80-100 | nothing is saved or sent for a null or empty list; size 0 never ends; a negative size fails at the first `subList`; a positive size hands over the chunks in order until one save throws; a run that finishes has handed over every chunk, counted every record, mapped every record, and sent exactly the converted rows of the whole list, in order |
| LogEntryRepositories.LogEntryRepositoryImpl.SaveChunkAt | src/main/java/com/pandaterry/concurrent_entity_change_logger/entity_change_logging/adapter/out/persistence/repository/LogEntryRepositoryImpl.java:89-93 | one pass of the loop: the chunk from `i` to `min(i + chunkSize, n)` is the next chunk of the list and is handed over; unless the save throws, that chunk has mapped and its converted rows are sent |
| LogEntryRepositories.LogEntryRepositoryImpl.SaveChunks | src/main/java/com/pandaterry/concurrent_entity_change_logger/entity_change_logging/adapter/out/persistence/repository/LogEntryRepositoryImpl.java:86-97 | the loop hands over a non-empty prefix of the chunks in order; stopping early means a save threw; finishing means every chunk was handed over and every record counted, the whole list maps, and the rows sent are its converted rows in order |
| CoreLogRepositories.ConvertToObjectArray | src/main/java/com/pandaterry/concurrent_entity_change_logger/core/infrastructure/persistence/LogEntryRepository.java:119-137 | a row exists exactly when the changes serialise and the operation is present; it has one parameter per insert column, the UUID drawn for this conversion, and the record's creation time or else the clock's reading |
| CoreLogRepositories.ParamsFollowInsertColumns | src/main/java/com/pandaterry/concurrent_entity_change_logger/core/infrastructure/persistence/LogEntryRepository.java:66-69 | each parameter is the record's value for the insert column at the same position; only the id meets the `uuid` cast; the id sent is the fresh one, never the record's own |
| CoreLogRepositories.Rows | src/main/java/com/pandaterry/concurrent_entity_change_logger/core/infrastructure/persistence/LogEntryRepository.java:71-74 | at most one row per record, each with one parameter per insert column |
| CoreLogRepositories.ConvertedPositions | src/main/java/com/pandaterry/concurrent_entity_change_logger/core/infrastructure/persistence/LogEntryRepository.java:71-74 | the conversions whose records give a row, strictly increasing and inside the batch's own conversions |
| CoreLogRepositories.RowIds | src/main/java/com/pandaterry/concurrent_entity_change_logger/core/infrastructure/persistence/LogEntryRepository.java:71-74 | the i-th row carries the UUID drawn by the conversion of the i-th converting record |
| CoreLogRepositories.RowIdsDistinct | src/main/java/com/pandaterry/concurrent_entity_change_logger/core/infrastructure/persistence/LogEntryRepository.java:122-126 | with a UUID source that never repeats, the rows of a batch have pairwise distinct ids, none of them drawn outside that batch's conversions |
| CoreLogRepositories.RowsAppend | src/main/java/com/pandaterry/concurrent_entity_change_logger/core/infrastructure/persistence/LogEntryRepository.java:71-74 | a batch converts piece by piece, the second part's conversions numbered after the first part's, so each record keeps its UUID draw |
| CoreLogRepositories.RowsDropFailures | src/main/java/com/pandaterry/concurrent_entity_change_logger/core/infrastructure/persistence/LogEntryRepository.java:71-74 | a record without an operation or whose changes do not serialise gives no row; the records after it keep their positions |
| CoreLogRepositories.RowsOfConvertible | src/main/java/com/pandaterry/concurrent_entity_change_logger/core/infrastructure/persistence/LogEntryRepository.java:71-74 | when every record converts, one row per record in order, each with the UUID and clock reading of its own conversion |
| CoreLogRepositories.LogEntryRepository.constructor | src/main/java/com/pandaterry/concurrent_entity_change_logger/core/infrastructure/persistence/LogEntryRepository.java:22-29 | the repository keeps its JDBC template, encoder, UUID source and clock, has converted no record and saved no chunks |
| CoreLogRepositories.LogEntryRepository.SaveBatch | src/main/java/com/pandaterry/concurrent_entity_change_logger/core/infrastructure/persistence/LogEntryRepository.java:59-95 | nothing for a null or empty list or when no row converts; otherwise one `batchUpdate` of exactly the converted rows, its failure rethrown wrapped with the fixed message; every record of the list uses up one UUID draw and clock reading, so later calls draw new ones |
| CoreLogRepositories.LogEntryRepository.SaveChunk | src/main/java/com/pandaterry/concurrent_entity_change_logger/core/infrastructure/persistence/LogEntryRepository.java:110 | one chunk's save uses one draw per record, throws only the wrapped JDBC failure, and on return has sent exactly the chunk's rows |
| CoreLogRepositories.LogEntryRepository.SaveBatchWithChunking | src/main/java/com/pandaterry/concurrent_entity_change_logger/core/infrastructure/persistence/LogEntryRepository.java:97-117 | nothing for a null or empty list; size 0 never ends; a negative size fails at the first `subList`; a positive size hands over the chunks in order until one save throws; a run that finishes has handed over every chunk, counted every record, and sent exactly the rows of the whole list converted one after another, so by `RowIdsDistinct` no two rows share an id |
| CoreLogRepositories.LogEntryRepository.SaveChunkAt | src/main/java/com/pandaterry/concurrent_entity_change_logger/core/infrastructure/persistence/LogEntryRepository.java:104-110 | one pass of the loop: the chunk from `i` to `min(i + chunkSize, n)` is the next chunk of the list, is handed over, and its rows are sent unless the save throws |
| CoreLogRepositories.LogEntryRepository.SaveChunks | src/main/java/com/pandaterry/concurrent_entity_change_logger/core/infrastructure/persistence/LogEntryRepository.java:103-116 | the loop hands over a non-empty prefix of the chunks in order; stopping early means a save threw; finishing means every chunk was handed over, every record counted, and the rows sent are those of the whole list in conversion order |
| ChangeSetJson.ConvertToFieldChanges | src/main/java/com/pandaterry/concurrent_entity_change_logger/entity_change_logging/adapter/out/persistence/converter/ChangeSetJsonConverter.java:79-105 | every decoded entry becomes a change named by its key, none dropped, its type recomputed from its old and new value |
| ChangeSetJson.ConvertToEntityAttribute | src/main/java/com/pandaterry/concurrent_entity_change_logger/entity_change_logging/adapter/out/persistence/converter/ChangeSetJsonConverter.java:55-77 | the stored changes, or the empty set for blank, undecodable or oversized input, as `DecodeProperties`, `LoadDecoded` and `RoundTrip` state |
| ChangeSetJson.DecodeProperties | src/main/java/com/pandaterry/concurrent_entity_change_logger/entity_change_logging/adapter/out/persistence/converter/ChangeSetJsonConverter.java:54-77 | loading never exceeds the size limit; blank text, text that does not decode and a map of more than 100 entries all give the empty set, and otherwise one change per decoded entry |
| ChangeSetJson.Restored | src/main/java/com/pandaterry/concurrent_entity_change_logger/entity_change_logging/adapter/out/persistence/converter/ChangeSetJsonConverter.java:79-97 | reading back keeps exactly the stored keys |
| ChangeSetJson.ReadBackOfStored | src/main/java/com/pandaterry/concurrent_entity_change_logger/entity_change_logging/adapter/out/persistence/converter/ChangeSetJsonConverter.java:84-97 | the map `toMap` writes reads back as each change restored from its stored old and new value |
| ChangeSetJson.RoundTrip | src/main/java/com/pandaterry/concurrent_entity_change_logger/entity_change_logging/adapter/out/persistence/converter/ChangeSetJsonConverter.java:31-77 | with a JSON library that reads back what it writes, storing a set and loading it gives every change back, keyed as before, with its simplified values and recomputed type |
| ChangeSetJson.LoadDecoded | src/main/java/com/pandaterry/concurrent_entity_change_logger/entity_change_logging/adapter/out/persistence/converter/ChangeSetJsonConverter.java:55-64 | a text that decodes to a map within the size limit loads as that map's changes |
| ChangeSetJson.PlainIsRestored | src/main/java/com/pandaterry/concurrent_entity_change_logger/entity_change_logging/adapter/out/persistence/converter/ChangeSetJsonConverter.java:31-77 | a set whose changes are keyed by their own names, with simple values and the type those imply, survives storage unchanged |
| ChangeSetJson.ContextualComesBackAsCreation | src/main/java/com/pandaterry/concurrent_entity_change_logger/entity_change_logging/adapter/out/persistence/converter/ChangeSetJsonConverter.java:93-97 | a contextual change comes back as a creation (or a modification when its value reads back as null), named by its key |
| ChangeSetJson.ConvertToDatabaseColumn | src/main/java/com/pandaterry/concurrent_entity_change_logger/entity_change_logging/adapter/out/persistence/converter/ChangeSetJsonConverter.java:32-53 | the JSON of `toMap`, or the metadata fallback when encoding fails, as `RoundTrip`, `FallbackMapSize` and `FallbackReadsBackAsChanges` state |
| ChangeSetJson.FallbackMapSize | src/main/java/com/pandaterry/concurrent_entity_change_logger/entity_change_logging/adapter/out/persistence/converter/ChangeSetJsonConverter.java:107-114 | the metadata fallback holds at most four entries, within the size limit |
| ChangeSetJson.FallbackReadsBackAsChanges | src/main/java/com/pandaterry/concurrent_entity_change_logger/entity_change_logging/adapter/out/persistence/converter/ChangeSetJsonConverter.java:107-120 | a stored fallback loads as one change per metadata entry, the change count coming back as the creation of a field `_change_count`, so the recovery path never sees it |
| ContextJson.Sanitized | src/main/java/com/pandaterry/concurrent_entity_change_logger/entity_change_logging/adapter/out/persistence/converter/ContextJsonConverter.java:125-152 | keeps exactly the entries whose lower-cased key contains none of the five dangerous patterns, with their values |
| ContextJson.SanitizeContextData | src/main/java/com/pandaterry/concurrent_entity_change_logger/entity_change_logging/adapter/out/persistence/converter/ContextJsonConverter.java:125-152 | the loop removes exactly the dangerous entries, whatever the iteration order, and counts each removal once |
| ContextJson.PasswordFieldIsDangerous | src/main/java/com/pandaterry/concurrent_entity_change_logger/entity_change_logging/adapter/out/persistence/converter/ContextJsonConverter.java:129-138 | a camel-case key holding `Password` is removed |
| ContextJson.UpperCaseKeyIsDangerous | src/main/java/com/pandaterry/concurrent_entity_change_logger/entity_change_logging/adapter/out/persistence/converter/ContextJsonConverter.java:135-138 | matching ignores case: `API_KEY` is removed |
| ContextJson.KeyInsideAWordIsDangerous | src/main/java/com/pandaterry/concurrent_entity_change_logger/entity_change_logging/adapter/out/persistence/converter/ContextJsonConverter.java:137-138 | matching is by substring, so a key such as `monkey` is removed too |
| ContextJson.IsDangerousField | src/main/java/com/pandaterry/concurrent_entity_change_logger/entity_change_logging/adapter/out/persistence/converter/ContextJsonConverter.java:128-145 | the lower-cased key contains one of the five patterns, as `LowerCaseAt` and `Sanitized` state |
| ContextJson.LowerCaseAt | src/main/java/com/pandaterry/concurrent_entity_change_logger/entity_change_logging/adapter/out/persistence/converter/ContextJsonConverter.java:135-138 | a key whose lower-cased text holds a pattern at some position is dangerous |
| ContextJson.Parsed | src/main/java/com/pandaterry/concurrent_entity_change_logger/entity_change_logging/adapter/out/persistence/converter/ContextJsonConverter.java:208-213 | each piece is parsed on its own, in order |
| ContextJson.Fill | src/main/java/com/pandaterry/concurrent_entity_change_logger/entity_change_logging/adapter/out/persistence/converter/ContextJsonConverter.java:205-213 | the legacy map holds only text values |
| ContextJson.FillStep | src/main/java/com/pandaterry/concurrent_entity_change_logger/entity_change_logging/adapter/out/persistence/converter/ContextJsonConverter.java:208-213 | a piece without `=` leaves the map as it was; a pair puts its trimmed value under its trimmed key |
| ContextJson.FillKeys | src/main/java/com/pandaterry/concurrent_entity_change_logger/entity_change_logging/adapter/out/persistence/converter/ContextJsonConverter.java:208-213 | a key is present exactly when some piece is a pair with that key |
| ContextJson.LaterDuplicateWins | src/main/java/com/pandaterry/concurrent_entity_change_logger/entity_change_logging/adapter/out/persistence/converter/ContextJsonConverter.java:211 | the last pair with a given key decides its value |
| ContextJson.NoPairsNoEntries | src/main/java/com/pandaterry/concurrent_entity_change_logger/entity_change_logging/adapter/out/persistence/converter/ContextJsonConverter.java:210-215 | the parsed map is empty exactly when no piece holds `=` |
| ContextJson.FillPairs | src/main/java/com/pandaterry/concurrent_entity_change_logger/entity_change_logging/adapter/out/persistence/converter/ContextJsonConverter.java:205-213 | the loop over the pieces builds exactly the map the pairs describe |
| ContextJson.ParseSimpleKeyValueFormat | src/main/java/com/pandaterry/concurrent_entity_change_logger/entity_change_logging/adapter/out/persistence/converter/ContextJsonConverter.java:204-221 | the context holds exactly the pairs of the comma-separated pieces, later keys winning, and is well formed |
| ContextJson.Recovered | src/main/java/com/pandaterry/concurrent_entity_change_logger/entity_change_logging/adapter/out/persistence/converter/ContextJsonConverter.java:182-202 | text without `=` or with `{` recovers as the empty context; the result is always well formed |
| ContextJson.HandleContextConversionFailure | src/main/java/com/pandaterry/concurrent_entity_change_logger/entity_change_logging/adapter/out/persistence/converter/ContextJsonConverter.java:182-202 | legacy pairs when the text has `=`, no `{` and at least one pair; the empty context otherwise |
| ContextJson.RecoveryIsNotSanitised | src/main/java/com/pandaterry/concurrent_entity_change_logger/entity_change_logging/adapter/out/persistence/converter/ContextJsonConverter.java:188-192 | a legacy pair with a dangerous key survives recovery, since recovery skips sanitisation |
| ContextJson.ConvertToEntityAttribute | src/main/java/com/pandaterry/concurrent_entity_change_logger/entity_change_logging/adapter/out/persistence/converter/ContextJsonConverter.java:59-82 | blank text is the empty context; a decoded map comes back sanitised; text that does not decode, or a decoded map with a null value, goes to recovery |
| ContextJson.DecodedHasNoDangerousKey | src/main/java/com/pandaterry/concurrent_entity_change_logger/entity_change_logging/adapter/out/persistence/converter/ContextJsonConverter.java:69 | a sanitised map has no dangerous key, and sanitising again changes nothing |
| ContextJson.SystemInfo | src/main/java/com/pandaterry/concurrent_entity_change_logger/entity_change_logging/adapter/out/persistence/converter/ContextJsonConverter.java:162-170 | exactly the entries whose key starts with `thread` or `host`, each as its text |
| ContextJson.FallbackKeepsSystemInfo | src/main/java/com/pandaterry/concurrent_entity_change_logger/entity_change_logging/adapter/out/persistence/converter/ContextJsonConverter.java:154-174 | the fallback keeps every `thread` and `host` entry as text, and holds nothing else besides its metadata |
| ContextJson.FallbackMetadata | src/main/java/com/pandaterry/concurrent_entity_change_logger/entity_change_logging/adapter/out/persistence/converter/ContextJsonConverter.java:156-159 | the message, field count and timestamp are never overwritten by a context entry |
| ContextJson.MetaKeysAreNotSystemInfo | src/main/java/com/pandaterry/concurrent_entity_change_logger/entity_change_logging/adapter/out/persistence/converter/ContextJsonConverter.java:163 | a key starting with `_` never starts with `thread` or `host` |
| ContextJson.ConvertToDatabaseColumn | src/main/java/com/pandaterry/concurrent_entity_change_logger/entity_change_logging/adapter/out/persistence/converter/ContextJsonConverter.java:31-57 | a null or empty context stores `{}`; its JSON is stored when within 10000 characters and truncated when longer; an encoding failure stores the fallback |
| ContextTruncation.PriorityEntries | src/main/java/com/pandaterry/concurrent_entity_change_logger/entity_change_logging/adapter/out/persistence/converter/ContextJsonConverter.java:89-95 | exactly the priority fields the context holds, with their values |
| ContextTruncation.Admit | src/main/java/com/pandaterry/concurrent_entity_change_logger/entity_change_logging/adapter/out/persistence/converter/ContextJsonConverter.java:100-108 | the entry loop of `truncateContextData` on values, as `AdmitKeeps` and `AdmitBudget` state and `AdmitEntries` computes |
| ContextTruncation.AdmitKeeps | src/main/java/com/pandaterry/concurrent_entity_change_logger/entity_change_logging/adapter/out/persistence/converter/ContextJsonConverter.java:100-108 | the entry loop keeps every entry already kept, and each entry it adds comes from the data with its own JSON strictly shorter than the budget |
| ContextTruncation.AdmitBudget | src/main/java/com/pandaterry/concurrent_entity_change_logger/entity_change_logging/adapter/out/persistence/converter/ContextJsonConverter.java:100-108 | the budget only shrinks, stays as it was when nothing is added, and stays positive once something is |
| ContextTruncation.Marked | src/main/java/com/pandaterry/concurrent_entity_change_logger/entity_change_logging/adapter/out/persistence/converter/ContextJsonConverter.java:111-112 | the markers are put last: `_truncated` is true, `_original_field_count` is the original size, and every other kept entry is unchanged |
| ContextTruncation.TruncatedFromKeeps | src/main/java/com/pandaterry/concurrent_entity_change_logger/entity_change_logging/adapter/out/persistence/converter/ContextJsonConverter.java:86-112 | truncation keeps the entries it starts from, marks the result, and takes every other entry from the data within the budget left after them |
| ContextTruncation.PriorityFieldsAreNotMarks | src/main/java/com/pandaterry/concurrent_entity_change_logger/entity_change_logging/adapter/out/persistence/converter/ContextJsonConverter.java:89 | no priority field is one of the two marker keys |
| ContextTruncation.TruncationKeepsPriority | src/main/java/com/pandaterry/concurrent_entity_change_logger/entity_change_logging/adapter/out/persistence/converter/ContextJsonConverter.java:84-112 | a truncated context keeps every priority field it had, is marked truncated with the original field count, and takes every other entry from the data unchanged |
| ContextTruncation.TruncationRespectsBudget | src/main/java/com/pandaterry/concurrent_entity_change_logger/entity_change_logging/adapter/out/persistence/converter/ContextJsonConverter.java:98-106 | an ordinary entry whose own JSON is not shorter than what the priority fields leave of the 10000-character budget is left out |
| ContextTruncation.AdmitEntries | src/main/java/com/pandaterry/concurrent_entity_change_logger/entity_change_logging/adapter/out/persistence/converter/ContextJsonConverter.java:100-108 | the entry loop over the data's iteration order computes the admission, stopping when an encoding fails |
| ContextTruncation.TruncatedAfter | src/main/java/com/pandaterry/concurrent_entity_change_logger/entity_change_logging/adapter/out/persistence/converter/ContextJsonConverter.java:98-112 | once the priority fields encode, the result is the admitted entries marked, or nothing when an entry's encoding fails |
| ContextTruncation.TruncateContextData | src/main/java/com/pandaterry/concurrent_entity_change_logger/entity_change_logging/adapter/out/persistence/converter/ContextJsonConverter.java:84-123 | returns the JSON of the truncated map, or `{}` when any encoding fails |
| Json.BlankOrEmptyCases | src/main/java/com/pandaterry/concurrent_entity_change_logger/entity_change_logging/adapter/out/persistence/converter/ContextJsonConverter.java:223-225 | null, empty, blank and exactly `null` count as blank; ` null` and any text starting with `{` do not |
| DiskLogWriters.CorruptedPath | src/main/java/com/pandaterry/concurrent_entity_change_logger/core/infrastructure/storage/DiskLogWriter.java:108-109 | the damaged copy lies in the log directory under a name starting `corrupted-` |
| DiskLogWriters.CorruptedPathIsFresh | src/main/java/com/pandaterry/concurrent_entity_change_logger/core/infrastructure/storage/DiskLogWriter.java:109-113 | the damaged copy never lands on the log or on its backup |
| DiskLogWriters.WriteAt | src/main/java/com/pandaterry/concurrent_entity_change_logger/core/infrastructure/storage/DiskLogWriter.java:75-76 | the written bytes sit at the channel position and the file grows only when they run past its end |
| DiskLogWriters.WriteAtEnd | src/main/java/com/pandaterry/concurrent_entity_change_logger/core/infrastructure/storage/DiskLogWriter.java:75-79 | writing at the end of the file appends |
| DiskLogWriters.WriteAtStart | src/main/java/com/pandaterry/concurrent_entity_change_logger/core/infrastructure/storage/DiskLogWriter.java:48-62 | a reopened writer writes from position 0, overwriting the first bytes of an existing log, which then differs from what it held |
| DiskLogWriters.SavedCheckpointReadsBack | src/main/java/com/pandaterry/concurrent_entity_change_logger/core/infrastructure/storage/DiskLogWriter.java:123-140 | a checkpoint written by `saveCheckpoint` loads back as the saved counter without an error, whatever the counter was, so rewriting the checkpoint repairs an unreadable one |
| DiskLogWriters.DiskLogWriter.constructor | src/main/java/com/pandaterry/concurrent_entity_change_logger/core/infrastructure/storage/DiskLogWriter.java:36-41 | a new writer has the counter at 0 and nothing opened or locked |
| DiskLogWriters.DiskLogWriter.IsFileCorrupted | src/main/java/com/pandaterry/concurrent_entity_change_logger/core/infrastructure/storage/DiskLogWriter.java:92-100 | before `init` a null-pointer exception; a closed file counts as corrupted; an open one is corrupted exactly when the log is shorter than the counter or its length cannot be read; never for a writer appending at the end |
| DiskLogWriters.DiskLogWriter.Init | src/main/java/com/pandaterry/concurrent_entity_change_logger/core/infrastructure/storage/DiskLogWriter.java:43-66 | creates a missing log and opens it; a lock held in this JVM throws a runtime exception and one held by another process an `IOException`; otherwise the lock is taken, output starts at channel position 0 and the counter is loaded from the checkpoint, and a checkpoint file that cannot be parsed makes `init` throw the parser's `IOException` with the counter left as it was; only an empty log with the counter at 0 is then appended to |
| DiskLogWriters.DiskLogWriter.LoadCheckpoint | src/main/java/com/pandaterry/concurrent_entity_change_logger/core/infrastructure/storage/DiskLogWriter.java:134-140 | the counter takes the stored position when the checkpoint exists and is left alone otherwise; it throws exactly when the file cannot be parsed, with the parser's message |
| DiskLogWriters.DiskLogWriter.Close | src/main/java/com/pandaterry/concurrent_entity_change_logger/core/infrastructure/storage/DiskLogWriter.java:142-160 | the lock is released and whatever was opened is closed; closing never throws |
| DiskLogWriters.DiskLogWriter.SaveCheckpoint | src/main/java/com/pandaterry/concurrent_entity_change_logger/core/infrastructure/storage/DiskLogWriter.java:123-132 | the checkpoint holds the counter and the time, then the log is copied over the backup; a failing step leaves the later one undone |
| DiskLogWriters.DiskLogWriter.AppendRecord | src/main/java/com/pandaterry/concurrent_entity_change_logger/core/infrastructure/storage/DiskLogWriter.java:70-82 | the record and a newline are written at the channel position, the counter advances by their length, and the checkpoint and backup follow; each failure is reported and what follows it undone |
| DiskLogWriters.DiskLogWriter.RecoverFromBackup | src/main/java/com/pandaterry/concurrent_entity_change_logger/core/infrastructure/storage/DiskLogWriter.java:102-121 | without a backup it throws the "no backup" error; a missing log or an existing `corrupted-<stamp>.log` makes the move throw, each leaving everything as it was; otherwise the damaged log moves to `corrupted-<stamp>.log`, the backup is copied over the log, and the writer closes and reopens, taking the lock and reloading the counter (throwing the parser's error when the checkpoint cannot be read), or, when the lock is held elsewhere, ending closed, unlocked, with the counter unchanged and the lock error thrown |
| DiskLogWriters.DiskLogWriter.OnWriteFailure | src/main/java/com/pandaterry/concurrent_entity_change_logger/core/infrastructure/storage/DiskLogWriter.java:83-89 | always throws, as `CatchBlock` spells out case by case: the corruption check's own exception; the original failure with nothing changed when the file looks sound; each recovery failure with its own exception; or, after recovery, the original failure, the lock error when re-opening finds the lock held, or the parser's error when the checkpoint cannot be read |
| DiskLogWriters.DiskLogWriter.Write | src/main/java/com/pandaterry/concurrent_entity_change_logger/core/infrastructure/storage/DiskLogWriter.java:68-90 | succeeds exactly when nothing fails and output is open; then the record and a newline are written, the counter advances by their length, the checkpoint holds the counter and the backup equals the log; an appending writer stays appending; before `init` a null-pointer exception with nothing changed; a failing serialisation, a closed channel or a failing write runs the catch block from the untouched state; a failing checkpoint or backup runs it from the state with the record written and the counter advanced, the checkpoint stale or rewritten respectively, and the corruption check judged on that advanced counter |
| LoggingConfig.Defaults | src/main/java/com/pandaterry/concurrent_entity_change_logger/shared/config/EntityLoggingProperties.java:19-35 | unbound properties have logging on, nothing excluded, queue 100000, pool 5, flush interval 5000 and the injected batch size |
| LoggingConfig.Validate | src/main/java/com/pandaterry/concurrent_entity_change_logger/shared/config/EntityLoggingProperties.java:38-44 | valid exactly when the queue size, pool size, flush interval and batch size are all positive; otherwise the first failing check, in that order, throws with its message |
| LoggingConfig.DefaultsValidIffBatchSizePositive | src/main/java/com/pandaterry/concurrent_entity_change_logger/shared/config/EntityLoggingProperties.java:26-44 | the defaults pass every strategy check, so they are valid exactly when the injected batch size is positive and otherwise fail on the batch-size message |
| LoggingConfig.ShouldLogChanges | src/main/java/com/pandaterry/concurrent_entity_change_logger/shared/config/EntityLoggingProperties.java:46-56 | never when disabled or when the simple class name is excluded; otherwise exactly when the class lacks the shared-domain exclusion annotation |
| LoggingConfig.OtherExclusionAnnotationsIgnored | src/main/java/com/pandaterry/concurrent_entity_change_logger/shared/config/EntityLoggingProperties.java:3-55 | the two other `@ExcludeFromLogging` types do not affect the decision |
| LoggingConfig.ConditionStatics.constructor | src/main/java/com/pandaterry/concurrent_entity_change_logger/core/util/EntityLoggingCondition.java:12-13 | the static switch starts on and the static exclusion set empty |
| LoggingConfig.EntityLoggingCondition.constructor | src/main/java/com/pandaterry/concurrent_entity_change_logger/core/util/EntityLoggingCondition.java:10-11 | an instance has no state of its own besides the shared statics |
| LoggingConfig.EntityLoggingCondition.SetEnableGlobalLogging | src/main/java/com/pandaterry/concurrent_entity_change_logger/core/util/EntityLoggingCondition.java:15-18 | the static switch takes the value; the exclusion set is unchanged |
| LoggingConfig.EntityLoggingCondition.SetExcludedEntities | src/main/java/com/pandaterry/concurrent_entity_change_logger/core/util/EntityLoggingCondition.java:20-23 | the static exclusion set is replaced; the switch is unchanged |
| LoggingConfig.EntityLoggingCondition.ShouldLogChanges | src/main/java/com/pandaterry/concurrent_entity_change_logger/core/util/EntityLoggingCondition.java:25-35 | never when the static switch is off or the simple class name is excluded; otherwise exactly when the class lacks the core exclusion annotation |
| LoggingConfig.ExcludeThroughOne | src/main/java/com/pandaterry/concurrent_entity_change_logger/core/util/EntityLoggingCondition.java:13-23 | excluding a class name through one instance excludes it for every other instance, since the set is static |
| LoggingConfig.DisableThroughOne | src/main/java/com/pandaterry/concurrent_entity_change_logger/core/util/EntityLoggingCondition.java:12-18 | switching logging off through one instance silences every other instance for every class |
| LoggingConfig.ConfigurationsAgree | src/main/java/com/pandaterry/concurrent_entity_change_logger/core/util/EntityLoggingCondition.java:25-35 | the properties and the static condition decide alike when switch, exclusions and the annotations they read agree |

## Left out

- Threads, executors, `@Scheduled` triggers and shutdown hooks: each worker pass or scheduled flush is one sequential step. A registered shutdown hook is counted, never run.
- Wall-clock deadlines, `Thread.sleep` and interrupts: `awaitTermination` and `awaitBriefCompletion` receive how many sleeps fit before the deadline, and the sleep at which an interrupt arrives, as parameters.
- 32-bit `int` and `long` overflow: counters, positions and the chunk index `i += chunkSize` are unbounded integers. The sizes the source uses stay far below the limits.
- Log messages (SLF4J): they have no effect on state and are left out. The one exception is the drop report of `logRemainingData`, which is kept as a list of warnings.
- Jackson: serialisation and parsing are parameters, so the JSON text formats themselves are not modelled. The truncation budget uses the length of the encoder's text.
- Micrometer: the registry, timers and gauges are plain counters in `Ports.Metrics` and `CoreChangeLogger.EntityChangeMetrics`. The `@LoggingMetrics` aspect is wiring and is not part of this model.
- Processing-time durations: latency recordings are counted, not measured.
- The `int[]` result of `batchUpdate`, in which the repositories count `EXECUTE_FAILED` entries: only a log message depends on it.
- On the core strategy's row-by-row save, a record that fails to serialise and a failing insert are one failure. Both are swallowed the same way.
- The `offer` failure branch in the application strategy's `offerToQueue` cannot be taken once the capacity pre-check passes, because records are offered one at a time. The model therefore never counts a drop there.
- `getEntityId`, `findIdField` and `getEntityName` of the legacy loggers, and the reflection in `LogEntryFactory`: the built record comes in as a parameter.
- `saveAll`, `findAll` and the Spring Data repositories: they are database plumbing. The services reach the database through the batch sink contract, which either succeeds or throws.
- Each chunk is a `subList` of an `ArrayList`. The model assumes it is the list's consecutive slice.
- Random `UUID`s and `Instant.now`/`LocalDateTime.now`: they are parameters of the calls that use them. The core repository instead holds a UUID source and a clock indexed by how many records it has converted over its life, so each converted record draws its own `randomUUID()` and clock reading.
- CoreLogRepositories.RowIdsDistinct: `randomUUID()` is not promised to differ between draws. Distinct ids are proved only for a UUID source that never repeats itself, which is that lemma's precondition.
- `String.length()` and `substring` count UTF-16 code units; the model's strings are sequences of Unicode scalar values. The lengths differ, and a cut may fall inside a surrogate pair in Java, only for text with characters outside the Basic Multilingual Plane. This affects the following members:
  - FieldChanges.FormatValue: the 50-character limit and the 47-character cut count scalar values, not UTF-16 code units.
  - ContextJson.ConvertToDatabaseColumn: the 10000-character limit on the context's JSON counts scalar values, not UTF-16 code units.
  - ContextTruncation.TruncateContextData: the running length that is compared with the truncation budget counts scalar values, not UTF-16 code units.
  - ContextTruncation.Admit: the length of each admitted entry counts scalar values, not UTF-16 code units.
- ChangeSets.ExtractSimpleValue: the branch for a nested `FieldChange` value is not modelled. `JavaObject.Obj` has no `FieldChange` case. The values a change set holds come from entity fields and from JSON maps, and in this model neither kind is ever a `FieldChange`.
- JavaObject.Obj: it has no case for a floating-point value (`Double`, `Float`, `BigDecimal`), a date or time, an array or a list. An entity field or JSON value of one of those kinds, and the text `String.valueOf` gives it (such as "1.0" or "[a, b]"), are outside the model. Integers, strings, booleans, null and maps are modelled.
- EntityIdentifiers.ExtractEntityId: the class in the "Entity must have @Id annotated field" message is written `class <simple name>`. The real `Class.toString` text also carries the package prefix, which the model's classes do not have.
- ChangeTracking.IsValueChanged: two `MapV` values with the same entries in a different order count as changed, where `Objects.equals` would call them equal. The same holds for FieldChanges.OfSignificance and for the equal-sides test of `convertToFieldChange`.
- `HashMap` iteration order: where the source's result depends on it (truncation, `toMap` rendering, `toString` of maps), the order is a parameter.
- ContextTruncation.Admit: it skips a key that is outside the context's data. An order that lists exactly the map's own keys never takes that skip.
- ChangeSets.ConvertInvertsFormatChange: it states the inversion of `formatChange` over the texts of the old and new values, not over the values. `ChangeSets.SideTextReadsBack` says when a value's text reads back as the value.
- `DiskLogWriter` I/O:
  - The checkpoint file is missing, holds a `Checkpoint` value, or holds text the parser cannot read, together with the parser's message. Its JSON form is not modelled.
  - `INDENT_OUTPUT` shapes only the serialised record text, which is a parameter.
  - The buffered stream, and `Files.createDirectories` for the log directory, are not modelled.
- ChangeTracking.ShouldSkipField: the predicate is modelled without a contract, because it is its own definition.
- The storage and process type names in `EntityLoggingProperties`: only the wiring reads them.
- String case mapping is ASCII only. Text forms of numbers and instants are decimal. The ISO-8601 layout of `Instant.toString` is not modelled.
