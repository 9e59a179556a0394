/** Where and when a record was submitted: the submitting thread, the host,
    the instant, and any additional context. */
module SubmissionContexts {
  import opened JavaLang
  import opened JavaObject
  import opened JavaTime
  import opened ContextDatas

  /** `threadName` and `hostname` may be null when the context was read back
      from a map that lacks them; `submittedAt` is never null, because both
      factories either set it or throw. */
  datatype SubmissionContext = SubmissionContext(
    threadName: Option<string>,
    hostname: Option<string>,
    submittedAt: Instant,
    additionalData: ContextData)

  predicate Wf(c: SubmissionContext) { ContextDatas.Wf(c.additionalData) }

  /** `SubmissionContext.current()`: the current thread's name, the local
      host's name (`None` when the lookup fails, giving "unknown"), the clock
      reading `now` and no additional context. */
  function Current(threadName: string, hostLookup: Option<string>, now: Instant): (c: SubmissionContext)
    ensures c.threadName == Some(threadName) && c.submittedAt == now
    ensures hostLookup.Some? ==> c.hostname == hostLookup
    ensures hostLookup.None? ==> c.hostname == Some("unknown")
    ensures IsEmpty(c.additionalData) && Wf(c)
  {
    SubmissionContext(Some(threadName), Some(hostLookup.GetOr("unknown")), now, ContextDatas.Empty())
  }

  /** `(String) value`: null stays null, a string is accepted, anything else
      fails the cast. */
  function CastToString(v: Obj): (r: Result<Option<string>>)
    ensures r.Err? <==> v != Null && !v.Str?
    ensures r.Err? ==> r.error == ClassCastException
    ensures v == Null ==> r == Ok(None)
    ensures v.Str? ==> r == Ok(Some(v.s))
  {
    match v
    case Null => Ok(None)
    case Str(s) => Ok(Some(s))
    case _ => Err(ClassCastException)
  }

  /** `map.get(key)` on a Java map: null when the key is absent. */
  function Get(m: map<string, Obj>, key: string): Obj {
    if key in m then m[key] else Null
  }

  /** `Instant.parse`: a null text throws `NullPointerException`, a text that
      is not an instant `DateTimeParseException`. */
  function ParseSubmittedAt(text: Option<string>): (r: Result<Instant>)
    ensures text.None? ==> r == Err(NullPointerException)
    ensures text.Some? && ParseInstant(text.value).None? ==> r == Err(DateTimeParseException)
    ensures text.Some? && ParseInstant(text.value).Some? ==> r == Ok(ParseInstant(text.value).value)
  {
    match text
    case None => Err(NullPointerException)
    case Some(t) =>
      match ParseInstant(t)
      case None => Err(DateTimeParseException)
      case Some(i) => Ok(i)
  }

  /** `SubmissionContext.from`: the three system keys are cast and parsed in
      argument order, and the rest of the map becomes the additional data. */
  function From(contextMap: map<string, Obj>): (r: Result<SubmissionContext>)
    ensures r.Ok? ==> Wf(r.value)
    ensures r.Ok? ==> CastToString(Get(contextMap, "threadName")) == Ok(r.value.threadName)
    ensures r.Ok? ==> CastToString(Get(contextMap, "hostname")) == Ok(r.value.hostname)
    ensures r.Ok? ==> (Get(contextMap, "submittedAt").Str? &&
      ParseInstant(Get(contextMap, "submittedAt").s) == Some(r.value.submittedAt))
    ensures r.Ok? ==> forall k :: k in r.value.additionalData.data <==> k in contextMap && !IsSystemField(k)
    ensures r.Ok? ==> forall k :: k in r.value.additionalData.data ==> r.value.additionalData.data[k] == contextMap[k]
    ensures Get(contextMap, "submittedAt") == Null ==>
      (r.Err? && r.error in {NullPointerException, ClassCastException})
    ensures Get(contextMap, "submittedAt").Str? && ParseInstant(Get(contextMap, "submittedAt").s).None? ==>
      (r.Err? && r.error in {DateTimeParseException, ClassCastException})
  {
    var threadName :- CastToString(Get(contextMap, "threadName"));
    var hostname :- CastToString(Get(contextMap, "hostname"));
    var text :- CastToString(Get(contextMap, "submittedAt"));
    var submittedAt :- ParseSubmittedAt(text);
    var additional :- ContextDatas.From(contextMap);
    Ok(SubmissionContext(threadName, hostname, submittedAt, additional))
  }

  /** The three system entries `toMap` writes. */
  function SystemEntries(c: SubmissionContext): map<string, Obj> {
    map["threadName" := NullableStr(c.threadName),
        "hostname" := NullableStr(c.hostname),
        "submittedAt" := Str(InstantText(c.submittedAt))]
  }

  /** `toMap`: the additional data, then the three system entries put over it. */
  function ToMap(c: SubmissionContext): (m: map<string, Obj>)
    ensures m.Keys == c.additionalData.data.Keys + SystemFields
    ensures forall k :: k in c.additionalData.data && !IsSystemField(k) ==> m[k] == c.additionalData.data[k]
    ensures m["threadName"] == NullableStr(c.threadName) && m["hostname"] == NullableStr(c.hostname)
    ensures m["submittedAt"] == Str(InstantText(c.submittedAt))
  {
    c.additionalData.data + SystemEntries(c)
  }

  /** `from` inverts `toMap` whenever the additional data holds none of the
      system keys (on which `toMap` would overwrite it). */
  lemma FromToMap(c: SubmissionContext)
    requires Wf(c)
    requires forall k :: k in c.additionalData.data ==> !IsSystemField(k)
    ensures From(ToMap(c)) == Ok(c)
  {
    var m := ToMap(c);
    ParseInstantText(c.submittedAt);
    assert Get(m, "threadName") == NullableStr(c.threadName);
    assert Get(m, "hostname") == NullableStr(c.hostname);
    assert Get(m, "submittedAt") == Str(InstantText(c.submittedAt));
    FromDropsAddedSystemKeys(c.additionalData, SystemEntries(c));
  }

  /** On a shared system key the additional entry is lost: `toMap` is not
      injective once the additional data holds one. */
  lemma ToMapOverwritesSystemKeys(c: SubmissionContext, v: Obj)
    ensures ToMap(c.(additionalData := ContextData(c.additionalData.data["hostname" := v])))["hostname"] == NullableStr(c.hostname)
  {
  }

  /** `enrichWith`: thread, host and instant are kept and the additional data
      is merged with the argument, which wins on shared keys. */
  function EnrichWith(c: SubmissionContext, extra: ContextData): (r: SubmissionContext)
    requires Wf(c) && ContextDatas.Wf(extra)
    ensures Wf(r)
    ensures r.threadName == c.threadName && r.hostname == c.hostname && r.submittedAt == c.submittedAt
    ensures r.additionalData.data == c.additionalData.data + extra.data
  {
    MergeIsUnion(c.additionalData, extra);
    c.(additionalData := MergeWith(c.additionalData, extra))
  }

  /** Enriching with an empty context gives back the same context. */
  lemma EnrichWithEmpty(c: SubmissionContext)
    requires Wf(c)
    ensures EnrichWith(c, ContextDatas.Empty()) == c
  {
    MergeWithEmpty(c.additionalData);
  }
}
