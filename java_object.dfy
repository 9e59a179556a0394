/** The Java values that flow through change records: field values read from
    entities, the values of the maps handed to and read from JSON, and the
    `Map<String, Object>` instances built by `toMap`.

    `Null` is the null reference.  A `MapV` lists its entries in the order the
    map iterates them, with distinct keys, so that `toString` is a function of
    the value.  `Objects.equals(a, b)` is `a == b` on this type for every
    value but two maps: `==` on `MapV`s also compares the order in which they
    list their entries, which `Map.equals` ignores.
 */
module JavaObject {
  import opened JavaLang
  import opened JavaText

  datatype Obj =
    | Null
    | Str(s: string)
    | Num(n: int)
    | Bool(b: bool)
    | MapV(entries: seq<Entry>)

  datatype Entry = Entry(key: string, value: Obj)

  /** `String.valueOf(o)`: "null" for null, the text itself for a string,
      decimal for a number, and `AbstractMap.toString`'s "{k=v, k=v}" for a map. */
  function ToString(o: Obj): string
    decreases o, 1
  {
    match o
    case Null => "null"
    case Str(s) => s
    case Num(n) => IntText(n)
    case Bool(b) => if b then "true" else "false"
    case MapV(es) => "{" + EntriesText(o, 0) + "}"
  }

  /** The entries of the map `m` from index `i` on, as "k=v" joined by ", ". */
  function EntriesText(m: Obj, i: nat): string
    requires m.MapV? && i <= |m.entries|
    decreases m, 0, |m.entries| - i
  {
    if i == |m.entries| then ""
    else
      var e := m.entries[i];
      (if i == 0 then "" else ", ") + e.key + "=" + ToString(e.value) + EntriesText(m, i + 1)
  }

  /** A rendered map is wrapped in braces. */
  lemma MapTextIsBraced(m: Obj)
    requires m.MapV?
    ensures var t := ToString(m); |t| >= 2 && t[0] == '{' && t[|t| - 1] == '}'
  {
  }

  /** `m.get(key)` on a map value: the value of the entry with that key, or
      null when there is none. */
  function MapGet(m: Obj, key: string): (v: Obj)
    requires m.MapV?
    ensures v != Null ==> exists i :: 0 <= i < |m.entries| && m.entries[i] == Entry(key, v)
    ensures (forall i :: 0 <= i < |m.entries| ==> m.entries[i].key != key) ==> v == Null
  {
    EntryValue(m.entries, key)
  }

  function EntryValue(es: seq<Entry>, key: string): (v: Obj)
    ensures v != Null ==> exists i :: 0 <= i < |es| && es[i] == Entry(key, v)
    ensures (forall i :: 0 <= i < |es| ==> es[i].key != key) ==> v == Null
  {
    if es == [] then Null
    else if es[0].key == key then es[0].value
    else
      var v := EntryValue(es[1..], key);
      assert v != Null ==> exists i :: 1 <= i < |es| && es[i] == Entry(key, v) by {
        if v != Null {
          var j :| 0 <= j < |es[1..]| && es[1..][j] == Entry(key, v);
          assert es[j + 1] == Entry(key, v);
        }
      }
      v
  }

  /** A nullable Java string as an `Object`. */
  function NullableStr(s: Option<string>): (v: Obj)
    ensures s.None? <==> v == Null
    ensures s.Some? ==> v == Str(s.value)
  {
    match s
    case None => Null
    case Some(t) => Str(t)
  }
}
