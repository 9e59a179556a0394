/** The truncation `truncateContextData` applies to a context whose JSON is
    over the size limit: the priority fields first, then every other entry
    that still fits the remaining budget, then the truncation marks. */
module ContextTruncation {
  import opened JavaLang
  import opened JavaObject
  import opened Json

  const EmptyContextJson: string := "{}"
  const MaxContextSize: int := 10000

  /** Kept first, in this order, when a context is truncated. */
  const PriorityFields: seq<string> := ["threadName", "hostname", "submittedAt", "userId", "sessionId"]

  /** The priority fields the context holds, with their values. */
  function PriorityEntries(data: map<string, Obj>): (m: map<string, Obj>)
    ensures forall k :: k in m <==> k in data && k in PriorityFields
    ensures forall k :: k in m ==> m[k] == data[k]
  {
    map k | k in data && k in PriorityFields :: data[k]
  }

  datatype Admission = Admission(kept: map<string, Obj>, remaining: int)

  /** `order` is an iteration order over keys of `data`. */
  predicate ListsKeysOf(order: seq<string>, data: map<string, Obj>) {
    forall i :: 0 <= i < |order| ==> order[i] in data
  }

  /** The entry loop of `truncateContextData` from index `i` of the
      iteration order on: each key not yet kept is encoded on its own, and
      kept when its text is strictly shorter than the remaining budget,
      which it then uses up; an encoding failure aborts the truncation.
      The order of a map's iteration lists only its own keys, so the skip
      of a key outside `data` is never taken there. */
  function Admit(encode: Encoder, data: map<string, Obj>, order: seq<string>, i: nat, kept: map<string, Obj>, remaining: int): Option<Admission>
    requires i <= |order|
    decreases |order| - i
  {
    if i == |order| then Some(Admission(kept, remaining))
    else
      var k := order[i];
      if k in kept || k !in data then Admit(encode, data, order, i + 1, kept, remaining)
      else
        match encode(map[k := data[k]])
        case JsonError(_) => None
        case Json(t) =>
          if |t| < remaining then Admit(encode, data, order, i + 1, kept[k := data[k]], remaining - |t|)
          else Admit(encode, data, order, i + 1, kept, remaining)
  }

  /** What admission does with the map: entries already kept stay, and
      every new entry comes from the data and had its own text strictly
      shorter than the budget admission started with. */
  lemma {:induction false} AdmitKeeps(encode: Encoder, data: map<string, Obj>, order: seq<string>, i: nat, kept: map<string, Obj>, remaining: int)
    requires i <= |order|
    requires Admit(encode, data, order, i, kept, remaining).Some?
    ensures var a := Admit(encode, data, order, i, kept, remaining).value;
      (forall k :: k in kept ==> k in a.kept && a.kept[k] == kept[k]) &&
      (forall k :: k in a.kept && k !in kept ==>
         k in data && a.kept[k] == data[k] &&
         encode(map[k := data[k]]).Json? && |encode(map[k := data[k]]).text| < remaining)
    decreases |order| - i
  {
    if i < |order| {
      var k := order[i];
      if k in kept || k !in data {
        AdmitKeeps(encode, data, order, i + 1, kept, remaining);
      } else if encode(map[k := data[k]]).Json? && |encode(map[k := data[k]]).text| < remaining {
        AdmitKeeps(encode, data, order, i + 1, kept[k := data[k]], remaining - |encode(map[k := data[k]]).text|);
      } else if encode(map[k := data[k]]).Json? {
        AdmitKeeps(encode, data, order, i + 1, kept, remaining);
      }
    }
  }

  /** What admission does with the budget: it only shrinks, it is untouched
      when nothing was admitted, and it stays positive once anything was. */
  lemma {:induction false} AdmitBudget(encode: Encoder, data: map<string, Obj>, order: seq<string>, i: nat, kept: map<string, Obj>, remaining: int)
    requires i <= |order|
    requires Admit(encode, data, order, i, kept, remaining).Some?
    ensures var a := Admit(encode, data, order, i, kept, remaining).value;
      a.remaining <= remaining &&
      (a.kept == kept ==> a.remaining == remaining) &&
      (a.kept != kept ==> 0 < a.remaining)
    decreases |order| - i
  {
    if i < |order| {
      var k := order[i];
      if k in kept || k !in data {
        AdmitBudget(encode, data, order, i + 1, kept, remaining);
      } else if encode(map[k := data[k]]).Json? && |encode(map[k := data[k]]).text| < remaining {
        var kept' := kept[k := data[k]];
        AdmitBudget(encode, data, order, i + 1, kept', remaining - |encode(map[k := data[k]]).text|);
        AdmitKeeps(encode, data, order, i + 1, kept', remaining - |encode(map[k := data[k]]).text|);
        assert k in Admit(encode, data, order, i, kept, remaining).value.kept;
      } else if encode(map[k := data[k]]).Json? {
        AdmitBudget(encode, data, order, i + 1, kept, remaining);
      }
    }
  }

  /** The markers `put` last, over whatever entries were kept. */
  function Marked(kept: map<string, Obj>, originalFieldCount: nat): (m: map<string, Obj>)
    ensures m.Keys == kept.Keys + {"_truncated", "_original_field_count"}
    ensures m["_truncated"] == Bool(true) && m["_original_field_count"] == Num(originalFieldCount)
    ensures forall k :: k in kept && k != "_truncated" && k != "_original_field_count" ==> m[k] == kept[k]
  {
    kept["_truncated" := Bool(true)]["_original_field_count" := Num(originalFieldCount)]
  }

  /** The map `truncateContextData` builds from the entries `priority` it
      keeps first, or `None` when one of its encodings fails; `order` is the
      iteration order of the data. */
  function TruncatedFrom(data: map<string, Obj>, encode: Encoder, order: seq<string>, priority: map<string, Obj>): Option<map<string, Obj>> {
    match encode(priority)
    case JsonError(_) => None
    case Json(p) =>
      match Admit(encode, data, order, 0, priority, MaxContextSize - |p|)
      case None => None
      case Some(a) => Some(Marked(a.kept, |data|))
  }

  /** The map `truncateContextData` encodes. */
  function TruncatedMap(data: map<string, Obj>, encode: Encoder, order: seq<string>): Option<map<string, Obj>> {
    TruncatedFrom(data, encode, order, PriorityEntries(data))
  }

  /** The text `truncateContextData` returns: "{}" when any encoding fails. */
  function TruncatedText(data: map<string, Obj>, encode: Encoder, order: seq<string>): string {
    match TruncatedMap(data, encode, order)
    case None => EmptyContextJson
    case Some(m) =>
      match encode(m)
      case JsonError(_) => EmptyContextJson
      case Json(t) => t
  }

  /** Truncation keeps the entries it starts from, marks the result, and
      takes every other entry from the data, each within the budget left
      after the starting entries. */
  lemma TruncatedFromKeeps(data: map<string, Obj>, encode: Encoder, order: seq<string>, priority: map<string, Obj>)
    requires TruncatedFrom(data, encode, order, priority).Some?
    ensures var m := TruncatedFrom(data, encode, order, priority).value;
      (forall k :: k in priority && k != "_truncated" && k != "_original_field_count" ==> k in m && m[k] == priority[k]) &&
      m["_truncated"] == Bool(true) && m["_original_field_count"] == Num(|data|) &&
      (forall k :: k in m && k != "_truncated" && k != "_original_field_count" && k !in priority ==>
        k in data && m[k] == data[k] && encode(map[k := data[k]]).Json? &&
        |encode(map[k := data[k]]).text| < MaxContextSize - |encode(priority).text|)
  {
    var p := encode(priority).text;
    AdmitKeeps(encode, data, order, 0, priority, MaxContextSize - |p|);
  }

  lemma PriorityFieldsAreNotMarks(k: string)
    requires k in PriorityFields
    ensures k != "_truncated" && k != "_original_field_count"
  {
  }

  /** A truncated context keeps every priority field it had, marks itself
      truncated with the original field count, and takes every other entry
      from the data. */
  lemma TruncationKeepsPriority(data: map<string, Obj>, encode: Encoder, order: seq<string>)
    requires TruncatedMap(data, encode, order).Some?
    ensures var m := TruncatedMap(data, encode, order).value;
      (forall k :: k in data && k in PriorityFields ==> k in m && m[k] == data[k]) &&
      m["_truncated"] == Bool(true) && m["_original_field_count"] == Num(|data|) &&
      (forall k :: k in m && k != "_truncated" && k != "_original_field_count" ==> k in data && m[k] == data[k])
  {
    var priority := PriorityEntries(data);
    TruncatedFromKeeps(data, encode, order, priority);
    forall k | k in data && k in PriorityFields ensures k in priority && k != "_truncated" && k != "_original_field_count" {
      PriorityFieldsAreNotMarks(k);
    }
  }

  /** An entry that is not a priority field and whose own JSON is not
      shorter than what the priority fields leave of the 10000-char budget
      never makes it into the truncated context. */
  lemma TruncationRespectsBudget(data: map<string, Obj>, encode: Encoder, order: seq<string>, k: string)
    requires TruncatedMap(data, encode, order).Some?
    requires k in data && k !in PriorityFields && k != "_truncated" && k != "_original_field_count"
    requires encode(map[k := data[k]]).Json?
    requires |encode(map[k := data[k]]).text| >= MaxContextSize - |encode(PriorityEntries(data)).text|
    ensures k !in TruncatedMap(data, encode, order).value
  {
    TruncatedFromKeeps(data, encode, order, PriorityEntries(data));
  }

  /** The entry loop of `truncateContextData`; `None` stands for the early
      return of "{}" when an entry does not encode. */
  method AdmitEntries(data: map<string, Obj>, encode: Encoder, order: seq<string>, kept: map<string, Obj>, remaining: int)
    returns (r: Option<Admission>)
    requires ListsKeysOf(order, data)
    ensures r == Admit(encode, data, order, 0, kept, remaining)
  {
    var truncated, remainingSpace := kept, remaining;
    var i := 0;
    while i < |order|
      invariant 0 <= i <= |order|
      invariant Admit(encode, data, order, i, truncated, remainingSpace) == Admit(encode, data, order, 0, kept, remaining)
    {
      var key := order[i];
      if key !in truncated {
        var entryJson := encode(map[key := data[key]]);
        if entryJson.JsonError? {
          return None;
        }
        if |entryJson.text| < remainingSpace {
          truncated := truncated[key := data[key]];
          remainingSpace := remainingSpace - |entryJson.text|;
        }
      }
      i := i + 1;
    }
    return Some(Admission(truncated, remainingSpace));
  }

  /** The truncated map once the starting entries have encoded to `p` and
      the entry loop has come back with `admitted`. */
  lemma TruncatedAfter(data: map<string, Obj>, encode: Encoder, order: seq<string>, priority: map<string, Obj>,
                       p: string, admitted: Option<Admission>)
    requires encode(priority) == Json(p)
    requires admitted == Admit(encode, data, order, 0, priority, MaxContextSize - |p|)
    ensures admitted.None? ==> TruncatedFrom(data, encode, order, priority) == None
    ensures admitted.Some? ==> TruncatedFrom(data, encode, order, priority) == Some(Marked(admitted.value.kept, |data|))
  {
  }

  /** `truncateContextData` */
  method TruncateContextData(data: map<string, Obj>, encode: Encoder, order: seq<string>) returns (json: string)
    requires ListsKeysOf(order, data)
    ensures json == TruncatedText(data, encode, order)
  {
    var truncated := PriorityEntries(data);
    var priorityJson := encode(truncated);
    if priorityJson.JsonError? {
      return EmptyContextJson;
    }
    var admitted := AdmitEntries(data, encode, order, truncated, MaxContextSize - |priorityJson.text|);
    TruncatedAfter(data, encode, order, truncated, priorityJson.text, admitted);
    if admitted.None? {
      return EmptyContextJson;
    }
    var result := encode(Marked(admitted.value.kept, |data|));
    if result.JsonError? {
      return EmptyContextJson;
    }
    return result.text;
  }
}
