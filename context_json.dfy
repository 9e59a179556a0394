/** The attribute converter between a record's `ContextData` and its JSON
    column: size-limited encoding with a truncation path and a fallback, and
    decoding with sanitisation and recovery of a legacy key=value layout. */
module ContextJson {
  import opened JavaLang
  import opened JavaText
  import opened JavaObject
  import opened Json
  import opened ContextDatas
  import opened ContextTruncation

  const CompleteFailureJson: string := "{\"_error\":\"complete_context_conversion_failure\"}"

  /** A key whose lower-cased name contains one of these is removed on
      decoding. */
  const DangerousPatterns: seq<string> := ["password", "secret", "key", "token", "credential"]

  // ------------------------------------------------------------- sanitizeContextData

  predicate IsDangerousField(key: string) {
    exists i :: 0 <= i < |DangerousPatterns| && Contains(ToLower(key), DangerousPatterns[i])
  }

  /** The entries sanitisation keeps. */
  function Sanitized(raw: map<string, Obj>): (m: map<string, Obj>)
    ensures forall k :: k in m <==> k in raw && !IsDangerousField(k)
    ensures forall k :: k in m ==> m[k] == raw[k]
  {
    map k | k in raw && !IsDangerousField(k) :: raw[k]
  }

  /** `sanitizeContextData`: walks a copy of the map in its iteration order
      and removes every dangerous entry, counting the removals. */
  method SanitizeContextData(raw: map<string, Obj>) returns (sanitized: map<string, Obj>, removedCount: nat)
    ensures sanitized == Sanitized(raw)
    ensures removedCount == |raw| - |sanitized|
  {
    sanitized := raw;
    removedCount := 0;
    var unvisited := raw.Keys;
    while unvisited != {}
      invariant unvisited <= raw.Keys && sanitized.Keys <= raw.Keys
      invariant forall k :: k in raw ==> (k in sanitized <==> k in unvisited || !IsDangerousField(k))
      invariant forall k :: k in sanitized ==> sanitized[k] == raw[k]
      invariant |sanitized| + removedCount == |raw|
      decreases |unvisited|
    {
      var k :| k in unvisited;
      if IsDangerousField(k) {
        sanitized := sanitized - {k};
        removedCount := removedCount + 1;
      }
      unvisited := unvisited - {k};
    }
  }

  /** A camel-case name holding "Password" is caught. */
  lemma PasswordFieldIsDangerous()
    ensures IsDangerousField("userPassword")
  {
    LowerCaseAt("userPassword", "userpassword", 0, 4);
  }

  /** Matching ignores case. */
  lemma UpperCaseKeyIsDangerous()
    ensures IsDangerousField("API_KEY")
  {
    LowerCaseAt("API_KEY", "api_key", 2, 4);
  }

  /** Matching is by substring, so it also catches names that merely
      contain a pattern. */
  lemma KeyInsideAWordIsDangerous()
    ensures IsDangerousField("monkey")
  {
    LowerCaseAt("monkey", "monkey", 2, 3);
  }

  /** `key` is dangerous when `lower`, its lower-cased text, holds pattern
      `p` at position `at`. */
  lemma LowerCaseAt(key: string, lower: string, p: nat, at: nat)
    requires |lower| == |key| && forall i :: 0 <= i < |key| ==> LowerChar(key[i]) == lower[i]
    requires p < |DangerousPatterns| && OccursAt(lower, DangerousPatterns[p], at)
    ensures IsDangerousField(key)
  {
    assert ToLower(key) == lower;
    ContainsIff(lower, DangerousPatterns[p]);
  }

  // ------------------------------------------------------------- parseSimpleKeyValueFormat

  datatype KeyValue = KeyValue(key: string, value: string)

  /** One piece of the legacy layout: trimmed, split at its first '=', both
      halves trimmed; a piece without '=' is not a pair. */
  function ParsePair(piece: string): Option<KeyValue> {
    var kv := SplitFirst(Trim(piece), "=");
    if |kv| == 2 then Some(KeyValue(Trim(kv[0]), Trim(kv[1]))) else None
  }

  /** Every piece parsed on its own. */
  function Parsed(pieces: seq<string>): (r: seq<Option<KeyValue>>)
    ensures |r| == |pieces| && forall i :: 0 <= i < |pieces| ==> r[i] == ParsePair(pieces[i])
  {
    seq(|pieces|, i requires 0 <= i < |pieces| => ParsePair(pieces[i]))
  }

  /** The map a sequence of parsed pieces fills, in order, each `put`
      overwriting an earlier one with the same key. */
  function Fill(pairs: seq<Option<KeyValue>>): (m: map<string, Obj>)
    ensures forall k :: k in m ==> m[k].Str?
    decreases |pairs|
  {
    if pairs == [] then map[]
    else
      var m := Fill(pairs[..|pairs| - 1]);
      match pairs[|pairs| - 1]
      case None => m
      case Some(kv) => m[kv.key := Str(kv.value)]
  }

  lemma FillStep(pairs: seq<Option<KeyValue>>, i: nat)
    requires i < |pairs|
    ensures pairs[i].None? ==> Fill(pairs[..i + 1]) == Fill(pairs[..i])
    ensures pairs[i].Some? ==> Fill(pairs[..i + 1]) == Fill(pairs[..i])[pairs[i].value.key := Str(pairs[i].value.value)]
  {
    assert pairs[..i + 1][..i] == pairs[..i];
  }

  /** The map the legacy layout's pieces describe. */
  function KeyValues(pieces: seq<string>): map<string, Obj> {
    Fill(Parsed(pieces))
  }

  /** A key is present exactly when some piece is a pair with that key. */
  lemma {:induction false} FillKeys(pairs: seq<Option<KeyValue>>, k: string)
    ensures k in Fill(pairs) <==> exists j :: 0 <= j < |pairs| && pairs[j].Some? && pairs[j].value.key == k
    decreases |pairs|
  {
    if pairs != [] {
      var init := pairs[..|pairs| - 1];
      FillKeys(init, k);
      assert forall j :: 0 <= j < |init| ==> init[j] == pairs[j];
    }
  }

  /** The last pair with a given key decides its value. */
  lemma {:induction false} LaterDuplicateWins(pairs: seq<Option<KeyValue>>, j: nat)
    requires j < |pairs| && pairs[j].Some?
    requires forall i :: j < i < |pairs| && pairs[i].Some? ==> pairs[i].value.key != pairs[j].value.key
    ensures pairs[j].value.key in Fill(pairs)
    ensures Fill(pairs)[pairs[j].value.key] == Str(pairs[j].value.value)
    decreases |pairs|
  {
    if j < |pairs| - 1 {
      var init := pairs[..|pairs| - 1];
      assert forall i :: 0 <= i < |init| ==> init[i] == pairs[i];
      LaterDuplicateWins(init, j);
    }
  }

  /** Pieces without '=' add nothing; no pair at all leaves the map empty. */
  lemma NoPairsNoEntries(pairs: seq<Option<KeyValue>>)
    ensures Fill(pairs) == map[] <==> forall j :: 0 <= j < |pairs| ==> pairs[j].None?
  {
    if Fill(pairs) == map[] {
      forall j | 0 <= j < |pairs| ensures pairs[j].None? {
        if pairs[j].Some? {
          FillKeys(pairs, pairs[j].value.key);
        }
      }
    } else {
      var k :| k in Fill(pairs);
      FillKeys(pairs, k);
    }
  }

  /** The loop of `parseSimpleKeyValueFormat` over the split pieces. */
  method FillPairs(pairs: seq<string>) returns (parsed: map<string, Obj>)
    ensures parsed == KeyValues(pairs)
  {
    ghost var pieces := Parsed(pairs);
    parsed := map[];
    var i := 0;
    while i < |pairs|
      invariant 0 <= i <= |pairs|
      invariant parsed == Fill(pieces[..i])
    {
      var keyValue := ParsePair(pairs[i]);
      FillStep(pieces, i);
      assert pieces[i] == keyValue;
      if keyValue.Some? {
        parsed := parsed[keyValue.value.key := Str(keyValue.value.value)];
      }
      i := i + 1;
    }
    assert pieces[..i] == pieces;
  }

  /** `parseSimpleKeyValueFormat`: split on ',' (Java's `split` drops
      trailing empty pieces), then fill the map pair by pair. */
  method ParseSimpleKeyValueFormat(dbValue: string) returns (c: ContextData)
    ensures c.data == KeyValues(Split(dbValue, ','))
    ensures Wf(c)
  {
    var parsed := FillPairs(Split(dbValue, ','));
    if parsed != map[] {
      assert NoNullValues(parsed);
      c := ContextDatas.Of(Some(parsed)).value;
    } else {
      c := ContextDatas.Empty();
    }
  }

  // ------------------------------------------------------------- handleContextConversionFailure

  /** What recovery yields for a text the decoder refused: the legacy pairs
      when the text has '=' and no '{' and holds at least one pair, the empty
      context otherwise.  The pairs are not sanitised. */
  function Recovered(dbValue: string): (c: ContextData)
    ensures Wf(c)
    ensures !Contains(dbValue, "=") || Contains(dbValue, "{") ==> c == ContextDatas.Empty()
  {
    if Contains(dbValue, "=") && !Contains(dbValue, "{") && KeyValues(Split(dbValue, ',')) != map[]
    then ContextData(KeyValues(Split(dbValue, ',')))
    else ContextDatas.Empty()
  }

  /** `handleContextConversionFailure` */
  method HandleContextConversionFailure(dbValue: string) returns (c: ContextData)
    ensures c == Recovered(dbValue)
  {
    if Contains(dbValue, "=") && !Contains(dbValue, "{") {
      var recovered := ParseSimpleKeyValueFormat(dbValue);
      if !IsEmpty(recovered) {
        return recovered;
      }
    }
    return ContextDatas.Empty();
  }

  /** Recovery keeps what sanitisation would remove: a legacy pair whose key
      is dangerous is returned as it is. */
  lemma RecoveryIsNotSanitised(dbValue: string, j: nat)
    requires Contains(dbValue, "=") && !Contains(dbValue, "{")
    requires j < |Split(dbValue, ',')| && ParsePair(Split(dbValue, ',')[j]).Some?
    requires IsDangerousField(ParsePair(Split(dbValue, ',')[j]).value.key)
    ensures exists k :: k in Recovered(dbValue).data && IsDangerousField(k)
    ensures Recovered(dbValue).data == KeyValues(Split(dbValue, ','))
  {
    var pairs := Parsed(Split(dbValue, ','));
    var k := pairs[j].value.key;
    FillKeys(pairs, k);
  }

  // ------------------------------------------------------------- convertToEntityAttribute

  /** `convertToEntityAttribute`: blank text is the empty context; a decoded
      map is sanitised and copied; a text that does not decode, or a decoded
      map with a null value (the copy throws), goes to recovery. */
  method ConvertToEntityAttribute(dbValue: Option<string>, decode: Decoder) returns (c: ContextData)
    ensures Wf(c)
    ensures IsBlankOrEmpty(dbValue) ==> c == ContextDatas.Empty()
    ensures !IsBlankOrEmpty(dbValue) && decode(dbValue.value).Some? && NoNullValues(Sanitized(decode(dbValue.value).value)) ==>
      c == ContextData(Sanitized(decode(dbValue.value).value))
    ensures !IsBlankOrEmpty(dbValue) && (decode(dbValue.value).None? || !NoNullValues(Sanitized(decode(dbValue.value).value))) ==>
      c == Recovered(dbValue.value)
  {
    if IsBlankOrEmpty(dbValue) {
      return ContextDatas.Empty();
    }
    var rawMap := decode(dbValue.value);
    if rawMap.None? {
      c := HandleContextConversionFailure(dbValue.value);
      return;
    }
    var sanitizedMap, _ := SanitizeContextData(rawMap.value);
    var result := ContextDatas.Of(Some(sanitizedMap));
    if result.Err? {
      c := HandleContextConversionFailure(dbValue.value);
      return;
    }
    c := result.value;
  }

  /** A decoded record never carries a dangerous key, unless it came
      through legacy recovery. */
  lemma DecodedHasNoDangerousKey(raw: map<string, Obj>)
    ensures forall k :: k in Sanitized(raw) ==> !IsDangerousField(k)
    ensures Sanitized(Sanitized(raw)) == Sanitized(raw)
  {
  }

  // ------------------------------------------------------------- createFallbackContextJson

  /** Keys the fallback keeps, as text. */
  predicate IsSystemInfoKey(key: string) { StartsWith(key, "thread") || StartsWith(key, "host") }

  /** The "thread…" and "host…" entries, as text. */
  function SystemInfo(data: map<string, Obj>): (m: map<string, Obj>)
    ensures forall k :: k in m <==> k in data && IsSystemInfoKey(k)
    ensures forall k :: k in m ==> m[k] == Str(JavaObject.ToString(data[k]))
  {
    map k | k in data && IsSystemInfoKey(k) :: Str(JavaObject.ToString(data[k]))
  }

  /** The error metadata of the fallback. */
  function FallbackMeta(data: map<string, Obj>, message: Option<string>, nowMillis: int): map<string, Obj> {
    map["_conversion_error" := NullableStr(message), "_original_field_count" := Num(|data|), "_timestamp" := Num(nowMillis)]
  }

  /** The map `createFallbackContextJson` encodes: error metadata plus the
      text of every entry whose key starts with "thread" or "host". */
  function FallbackContextMap(data: map<string, Obj>, message: Option<string>, nowMillis: int): map<string, Obj> {
    FallbackMeta(data, message, nowMillis) + SystemInfo(data)
  }

  /** The fallback holds the three metadata entries and, besides them,
      exactly the "thread…" and "host…" entries of the context, stringified. */
  lemma FallbackKeepsSystemInfo(data: map<string, Obj>, message: Option<string>, nowMillis: int)
    ensures var m := FallbackContextMap(data, message, nowMillis);
      (forall k :: k in data && IsSystemInfoKey(k) ==> k in m && m[k] == Str(JavaObject.ToString(data[k]))) &&
      (forall k :: k in m ==> k in FallbackMeta(data, message, nowMillis) || (k in data && IsSystemInfoKey(k)))
  {
  }

  /** The metadata (message, field count, timestamp) is never overwritten
      by a context entry. */
  lemma FallbackMetadata(data: map<string, Obj>, message: Option<string>, nowMillis: int)
    ensures var m := FallbackContextMap(data, message, nowMillis);
      forall k :: k in FallbackMeta(data, message, nowMillis) ==> k in m && m[k] == FallbackMeta(data, message, nowMillis)[k]
  {
    forall k | k in FallbackMeta(data, message, nowMillis) ensures k !in SystemInfo(data) {
      MetaKeysAreNotSystemInfo(k);
    }
  }

  lemma MetaKeysAreNotSystemInfo(k: string)
    requires |k| > 0 && k[0] == '_'
    ensures !IsSystemInfoKey(k)
  {
  }

  /** `createFallbackContextJson`, given the failure's message and the
      clock reading in milliseconds. */
  function FallbackContextJson(data: map<string, Obj>, message: Option<string>, encode: Encoder, nowMillis: int): string {
    match encode(FallbackContextMap(data, message, nowMillis))
    case Json(t) => t
    case JsonError(_) => CompleteFailureJson
  }

  // ------------------------------------------------------------- convertToDatabaseColumn

  /** `convertToDatabaseColumn`: null or empty is "{}"; JSON over 10000
      characters is truncated; an encoding failure gives the fallback.  A
      context never holds null, so the single-entry maps truncation builds
      never throw. */
  method ConvertToDatabaseColumn(contextData: Option<ContextData>, encode: Encoder, order: seq<string>, nowMillis: int)
    returns (json: string)
    requires contextData.Some? ==> Wf(contextData.value) && ListsKeysOf(order, contextData.value.data)
    ensures contextData.None? || IsEmpty(contextData.value) ==> json == EmptyContextJson
    ensures contextData.Some? && !IsEmpty(contextData.value) ==>
      match encode(contextData.value.data)
      case Json(t) => json == (if |t| > MaxContextSize then TruncatedText(contextData.value.data, encode, order) else t)
      case JsonError(msg) => json == FallbackContextJson(contextData.value.data, msg, encode, nowMillis)
  {
    if contextData.None? || IsEmpty(contextData.value) {
      return EmptyContextJson;
    }
    var data := contextData.value.data;
    var encoded := encode(data);
    if encoded.JsonError? {
      return FallbackContextJson(data, encoded.message, encode, nowMillis);
    }
    if |encoded.text| > MaxContextSize {
      json := TruncateContextData(data, encode, order);
      return;
    }
    return encoded.text;
  }
}
