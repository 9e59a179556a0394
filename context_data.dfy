/** The free-form context carried with a record: an immutable string-keyed
    map that never holds a null value (the constructor copies its argument
    with `Map.copyOf`, which rejects nulls). */
module ContextDatas {
  import opened JavaLang
  import opened JavaObject

  datatype ContextData = ContextData(data: map<string, Obj>)

  predicate NoNullValues(m: map<string, Obj>) {
    forall k :: k in m ==> m[k] != Null
  }

  /** Every context the constructor builds holds no null value. */
  predicate Wf(c: ContextData) { NoNullValues(c.data) }

  /** The private constructor: an unmodifiable copy, or a
      `NullPointerException` when some value is null. */
  function Copy(data: map<string, Obj>): (r: Result<ContextData>)
    ensures r.Ok? <==> NoNullValues(data)
    ensures r.Err? ==> r.error == NullPointerException
    ensures r.Ok? ==> r.value.data == data && Wf(r.value)
  {
    if NoNullValues(data) then Ok(ContextData(data)) else Err(NullPointerException)
  }

  /** `ContextData.empty()` */
  function Empty(): (c: ContextData)
    ensures Wf(c) && IsEmpty(c)
  {
    ContextData(map[])
  }

  /** `ContextData.of`: a null map is rejected by `requireNonNull`. */
  function Of(data: Option<map<string, Obj>>): (r: Result<ContextData>)
    ensures data.None? ==> r == Err(NullPointerException)
    ensures data.Some? ==> (r.Ok? <==> NoNullValues(data.value))
    ensures r.Ok? ==> r.value.data == data.value && Wf(r.value)
  {
    match data
    case None => Err(NullPointerException)
    case Some(m) => Copy(m)
  }

  const SystemFields: set<string> := {"threadName", "hostname", "submittedAt"}

  /** `isSystemField` */
  predicate IsSystemField(key: string) {
    key == "threadName" || key == "hostname" || key == "submittedAt"
  }

  lemma SystemFieldsAreTheThree(key: string)
    ensures IsSystemField(key) <==> key in SystemFields
  {
  }

  /** `ContextData.from`: every entry of the source except the three system
      keys; a null value among the rest makes the copy throw. */
  function From(source: map<string, Obj>): (r: Result<ContextData>)
    ensures r.Ok? <==> forall k :: k in source && !IsSystemField(k) ==> source[k] != Null
    ensures r.Err? ==> r.error == NullPointerException
    ensures r.Ok? ==> forall k :: k in r.value.data <==> k in source && !IsSystemField(k)
    ensures r.Ok? ==> forall k :: k in r.value.data ==> r.value.data[k] == source[k]
  {
    var kept := map k | k in source && !IsSystemField(k) :: source[k];
    assert NoNullValues(kept) <==> forall k :: k in source && !IsSystemField(k) ==> source[k] != Null by {
      if NoNullValues(kept) {
        forall k | k in source && !IsSystemField(k) ensures source[k] != Null {
          assert k in kept;
        }
      }
    }
    Copy(kept)
  }

  /** A context without system keys survives having system keys added and
      then being rebuilt by `from`. */
  lemma FromDropsAddedSystemKeys(c: ContextData, extra: map<string, Obj>)
    requires Wf(c)
    requires forall k :: k in c.data ==> !IsSystemField(k)
    requires forall k :: k in extra ==> IsSystemField(k)
    ensures From(c.data + extra) == Ok(c)
  {
    var r := From(c.data + extra);
    assert r.Ok?;
    assert r.value.data == c.data;
  }

  /** `isEmpty` */
  predicate IsEmpty(c: ContextData) { c.data == map[] }

  lemma IsEmptyIffNoEntries(c: ContextData)
    ensures IsEmpty(c) <==> |c.data| == 0
  {
  }

  /** `mergeWith`: this context when the other is empty, otherwise the union
      of both with the other's value winning on a shared key. */
  function MergeWith(c: ContextData, other: ContextData): (r: ContextData)
    requires Wf(c) && Wf(other)
    ensures Wf(r)
    ensures IsEmpty(other) ==> r == c
    ensures forall k :: k in r.data <==> k in c.data || k in other.data
    ensures forall k :: k in other.data ==> r.data[k] == other.data[k]
    ensures forall k :: k in c.data && k !in other.data ==> r.data[k] == c.data[k]
  {
    if IsEmpty(other) then c else Copy(c.data + other.data).value
  }

  /** The early return for an empty argument gives what the union would have
      given, so merging is map union with the argument taking precedence. */
  lemma MergeIsUnion(c: ContextData, other: ContextData)
    requires Wf(c) && Wf(other)
    ensures MergeWith(c, other).data == c.data + other.data
  {
    if IsEmpty(other) {
      assert c.data + other.data == c.data;
    }
  }

  /** Merging an empty context on either side changes nothing. */
  lemma MergeWithEmpty(c: ContextData)
    requires Wf(c)
    ensures MergeWith(c, Empty()) == c
    ensures MergeWith(Empty(), c) == c
  {
    MergeIsUnion(Empty(), c);
    assert map[] + c.data == c.data;
  }
}
