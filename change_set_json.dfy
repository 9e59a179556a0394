/** The attribute converter between a record's `ChangeSet` and its JSON
    column.  The JSON library is a parameter: `encode` stands for
    `writeValueAsString`, `decode` for `readValue` into a map. */
module ChangeSetJson {
  import opened JavaLang
  import opened JavaObject
  import opened Json
  import opened FieldChanges
  import opened ChangeSets

  const EmptyChangeSetJson: string := "{}"
  const CompleteFailureJson: string := "{\"_error\":\"complete_conversion_failure\"}"

  // ------------------------------------------------------------- convertToEntityAttribute

  /** One entry of the decoded map as a change: a nested map gives its
      "oldValue" and "newValue" entries, any other value is the new value of
      a change from null (the legacy layout).  The stored "changeType" and
      "fieldName" are not read: the type is recomputed and the name is the
      key. */
  function ConvertedChange(fieldName: string, value: Obj): FieldChange {
    if value.MapV? then FieldChanges.Of(fieldName, MapGet(value, "oldValue"), MapGet(value, "newValue"))
    else FieldChanges.Of(fieldName, Null, value)
  }

  /** `convertToFieldChanges`: every entry converted, none dropped. */
  function ConvertToFieldChanges(raw: map<string, Obj>): (m: map<string, FieldChange>)
    ensures m.Keys == raw.Keys
    ensures forall k :: k in m ==> m[k].fieldName == k && m[k].changeType == DetermineChangeType(m[k].oldValue, m[k].newValue)
  {
    map k | k in raw :: ConvertedChange(k, raw[k])
  }

  /** `convertToEntityAttribute`: blank text, text that does not decode, and
      a decoded map with more than 100 entries (which `ChangeSet.of`
      rejects) all give the empty set; `handleConversionFailure` returns the
      empty set on both of its paths. */
  function ConvertToEntityAttribute(dbValue: Option<string>, decode: Decoder): ChangeSet {
    if IsBlankOrEmpty(dbValue) then Empty()
    else
      match decode(dbValue.value)
      case None => Empty()
      case Some(raw) =>
        match ChangeSets.Of(Some(ConvertToFieldChanges(raw)))
        case Ok(cs) => cs
        case Err(_) => Empty()
  }

  /** Decoding never fails and never exceeds the size limit; what it gives
      is the empty set exactly on the failure paths, and otherwise one
      change per decoded entry with a recomputed type. */
  lemma DecodeProperties(dbValue: Option<string>, decode: Decoder)
    ensures var cs := ConvertToEntityAttribute(dbValue, decode);
      !ExceedsMaximumSize(cs) &&
      (IsBlankOrEmpty(dbValue) ==> cs == Empty()) &&
      (!IsBlankOrEmpty(dbValue) && decode(dbValue.value).None? ==> cs == Empty()) &&
      (!IsBlankOrEmpty(dbValue) && decode(dbValue.value).Some? && |decode(dbValue.value).value| > MaxChanges ==> cs == Empty()) &&
      (!IsBlankOrEmpty(dbValue) && decode(dbValue.value).Some? && |decode(dbValue.value).value| <= MaxChanges ==>
         cs.changes == ConvertToFieldChanges(decode(dbValue.value).value))
  {
    if !IsBlankOrEmpty(dbValue) && decode(dbValue.value).Some? {
      var raw := decode(dbValue.value).value;
      assert |ConvertToFieldChanges(raw)| == |raw| by {
        assert ConvertToFieldChanges(raw).Keys == raw.Keys;
      }
    }
  }

  // ------------------------------------------------------------- round trip

  /** What a stored set becomes once read back: each change keyed by its
      field's key, with its values simplified as `toMap` stores them and its
      type recomputed from them. */
  function Restored(cs: ChangeSet): (r: ChangeSet)
    ensures r.changes.Keys == cs.changes.Keys
  {
    ChangeSet(map k | k in cs.changes ::
      FieldChanges.Of(k, ExtractSimpleValue(cs.changes[k].oldValue), ExtractSimpleValue(cs.changes[k].newValue)))
  }

  /** Reading back the map `toMap` wrote restores each change from its
      stored old and new value. */
  lemma ReadBackOfStored(cs: ChangeSet)
    ensures ConvertToFieldChanges(ToMap(cs)) == Restored(cs).changes
  {
    var m := ConvertToFieldChanges(ToMap(cs));
    forall k | k in cs.changes ensures m[k] == Restored(cs).changes[k] {
      ReadBackOne(k, cs.changes[k]);
    }
  }

  lemma ReadBackOne(k: string, c: FieldChange)
    ensures ConvertedChange(k, ChangeData(c)) == FieldChanges.Of(k, ExtractSimpleValue(c.oldValue), ExtractSimpleValue(c.newValue))
  {
    ChangeDataFields(c);
  }

  /** A change survives storage unchanged when it is keyed by its own field
      name, its values are kept as they are by `extractSimpleValue`, and
      its type is the one its values imply. */
  predicate Plain(cs: ChangeSet) {
    forall k :: k in cs.changes ==>
      cs.changes[k].fieldName == k &&
      ExtractSimpleValue(cs.changes[k].oldValue) == cs.changes[k].oldValue &&
      ExtractSimpleValue(cs.changes[k].newValue) == cs.changes[k].newValue &&
      cs.changes[k].changeType == DetermineChangeType(cs.changes[k].oldValue, cs.changes[k].newValue)
  }

  /** The column round trip: given a JSON library that reads back what it
      wrote, storing a set and loading it gives `Restored`. */
  lemma RoundTrip(cs: ChangeSet, encode: Encoder, decode: Decoder, nowMillis: int)
    requires |cs.changes| <= MaxChanges
    requires encode(ToMap(cs)).Json? && |encode(ToMap(cs)).text| > 0 && encode(ToMap(cs)).text[0] == '{'
    requires decode(encode(ToMap(cs)).text) == Some(ToMap(cs))
    ensures ConvertToEntityAttribute(Some(ConvertToDatabaseColumn(Some(cs), encode, nowMillis)), decode) == Restored(cs)
  {
    ToMapSize(cs);
    LoadDecoded(encode(ToMap(cs)).text, decode, ToMap(cs));
    ReadBackOfStored(cs);
  }

  lemma ToMapSize(cs: ChangeSet)
    ensures |ToMap(cs)| == |cs.changes|
  {
    assert ToMap(cs).Keys == cs.changes.Keys;
  }

  /** A text that decodes to a map within the size limit loads as that
      map's changes. */
  lemma LoadDecoded(t: string, decode: Decoder, raw: map<string, Obj>)
    requires |t| > 0 && t[0] == '{' && decode(t) == Some(raw) && |raw| <= MaxChanges
    ensures ConvertToEntityAttribute(Some(t), decode) == ChangeSet(ConvertToFieldChanges(raw))
  {
    BlankOrEmptyCases(Some(t));
    DecodeProperties(Some(t), decode);
  }

  /** A plain set is restored as it was. */
  lemma PlainIsRestored(cs: ChangeSet)
    requires Plain(cs)
    ensures Restored(cs) == cs
  {
    forall k | k in cs.changes ensures Restored(cs).changes[k] == cs.changes[k] {
      var c := cs.changes[k];
      assert c == FieldChange(c.fieldName, c.oldValue, c.newValue, c.changeType);
    }
  }

  /** A contextual change does not survive storage: it comes back as a
      creation (or a null modification) named by its key, so the "ctx_"
      prefix `enrichWith` added ends up in the field name. */
  lemma ContextualComesBackAsCreation(cs: ChangeSet, k: string)
    requires k in cs.changes && cs.changes[k].changeType == CONTEXTUAL && cs.changes[k].oldValue == Null
    ensures Restored(cs).changes[k].fieldName == k
    ensures ExtractSimpleValue(cs.changes[k].newValue) != Null ==> Restored(cs).changes[k].changeType == CREATED
    ensures ExtractSimpleValue(cs.changes[k].newValue) == Null ==> Restored(cs).changes[k].changeType == MODIFIED
  {
  }

  // ------------------------------------------------------------- convertToDatabaseColumn

  /** The map `createFallbackJson` encodes, given the failure's message and
      the clock reading in milliseconds. */
  function FallbackMap(cs: ChangeSet, message: Option<string>, nowMillis: int): map<string, Obj> {
    map["_conversion_error" := NullableStr(message),
        "_change_count" := Num(GetChangeCount(cs)),
        "_has_critical_fields" := Bool(ContainsCriticalFields(cs)),
        "_timestamp" := Num(nowMillis)]
  }

  /** `createFallbackJson` */
  function FallbackJson(cs: ChangeSet, message: Option<string>, encode: Encoder, nowMillis: int): string {
    match encode(FallbackMap(cs, message, nowMillis))
    case Json(t) => t
    case JsonError(_) => CompleteFailureJson
  }

  /** `convertToDatabaseColumn`: null is "{}"; the JSON of `toMap`, or the
      metadata fallback when that fails. */
  function ConvertToDatabaseColumn(cs: Option<ChangeSet>, encode: Encoder, nowMillis: int): string {
    match cs
    case None => EmptyChangeSetJson
    case Some(c) =>
      match encode(ToMap(c))
      case Json(t) => t
      case JsonError(message) => FallbackJson(c, message, encode, nowMillis)
  }

  lemma FallbackMapSize(cs: ChangeSet, message: Option<string>, nowMillis: int)
    ensures |FallbackMap(cs, message, nowMillis)| <= MaxChanges
  {
    var m := FallbackMap(cs, message, nowMillis);
    var keys := {"_conversion_error", "_change_count", "_has_critical_fields", "_timestamp"};
    assert m.Keys <= keys;
    SubsetCardinality(m.Keys, keys);
  }

  /** A fallback column does not read back as empty: it decodes, so
      `handleConversionFailure` never sees it, and each metadata entry
      becomes a change of its own; the change count, for one, comes back as
      the creation of a field "_change_count". */
  lemma FallbackReadsBackAsChanges(cs: ChangeSet, message: Option<string>, decode: Decoder, nowMillis: int, t: string)
    requires |t| > 0 && t[0] == '{'
    requires decode(t) == Some(FallbackMap(cs, message, nowMillis))
    ensures var r := ConvertToEntityAttribute(Some(t), decode);
      r.changes == ConvertToFieldChanges(FallbackMap(cs, message, nowMillis)) &&
      "_change_count" in r.changes &&
      r.changes["_change_count"] == FieldChanges.Of("_change_count", Null, Num(GetChangeCount(cs))) &&
      r.changes["_change_count"].changeType == CREATED
  {
    var m := FallbackMap(cs, message, nowMillis);
    FallbackMapSize(cs, message, nowMillis);
    LoadDecoded(t, decode, m);
    assert "_change_count" in m && m["_change_count"] == Num(GetChangeCount(cs));
  }
}
