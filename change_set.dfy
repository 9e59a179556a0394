/** The set of field changes one record carries, keyed by field name, with
    its size limit, its business predicates, and its conversions from the
    trackers' raw output and to a plain map for storage. */
module ChangeSets {
  import opened JavaLang
  import opened JavaText
  import opened JavaObject
  import opened FieldChanges
  import opened ChangeTracking

  const MaxChanges: nat := 100
  const CriticalFields: set<string> := {"password", "email", "status"}

  datatype ChangeSet = ChangeSet(changes: map<string, FieldChange>)

  /** `ChangeSet.empty()` */
  function Empty(): (cs: ChangeSet)
    ensures cs.changes == map[] && !HasAnyChanges(cs) && GetChangeCount(cs) == 0
  {
    ChangeSet(map[])
  }

  /** `ChangeSet.of`: null is rejected by `requireNonNull`, more than 100
      changes by an `IllegalArgumentException`; otherwise the map is kept. */
  function Of(changes: Option<map<string, FieldChange>>): (r: Result<ChangeSet>)
    ensures changes.None? ==> r == Err(NullPointerException)
    ensures changes.Some? ==> (r.Ok? <==> |changes.value| <= MaxChanges)
    ensures changes.Some? && r.Err? ==> r.error.IllegalArgumentException?
    ensures r.Ok? ==> r.value.changes == changes.value && !ExceedsMaximumSize(r.value)
  {
    match changes
    case None => Err(NullPointerException)
    case Some(m) =>
      if |m| > MaxChanges then Err(IllegalArgumentException("changes 가 너무 많습니다: " + IntText(|m|)))
      else Ok(ChangeSet(m))
  }

  predicate HasAnyChanges(cs: ChangeSet) { cs.changes != map[] }

  predicate HasBusinessImpactingChanges(cs: ChangeSet) {
    exists k :: k in cs.changes && IsBusinessImpacting(cs.changes[k])
  }

  predicate ContainsCriticalFields(cs: ChangeSet) {
    exists k :: k in cs.changes && k in CriticalFields
  }

  predicate ExceedsMaximumSize(cs: ChangeSet) { |cs.changes| > MaxChanges }

  function GetChangeCount(cs: ChangeSet): nat { |cs.changes| }

  /** A change set has changes iff it is non-empty, and its count is the
      number of changed fields. */
  lemma CountAndPresence(cs: ChangeSet)
    ensures HasAnyChanges(cs) <==> GetChangeCount(cs) > 0
    ensures GetChangeCount(cs) == |cs.changes.Keys|
  {
    if cs.changes != map[] {
      var k :| k in cs.changes;
      assert k in cs.changes.Keys;
    }
  }

  /** Critical fields are exactly password, email and status. */
  lemma CriticalFieldsIff(cs: ChangeSet)
    ensures ContainsCriticalFields(cs) <==> "password" in cs.changes || "email" in cs.changes || "status" in cs.changes
  {
  }

  // ------------------------------------------------------------- enrichWith

  /** The keys `enrichWith` adds: "ctx_" + key for every context key. */
  function ContextKeys(context: map<string, Obj>): set<string> {
    set k | k in context :: "ctx_" + k
  }

  /** The contextual entries `enrichWith` adds, each under its "ctx_" key. */
  function ContextChanges(context: map<string, Obj>): map<string, FieldChange> {
    map f | f in ContextKeys(context) && |f| >= 4 && f[4..] in context :: Contextual(f[4..], context[f[4..]])
  }

  /** `enrichWith`: the existing changes plus one CONTEXTUAL change per context
      key, stored under "ctx_" + key; no size check is made. */
  function EnrichWith(cs: ChangeSet, context: map<string, Obj>): ChangeSet {
    ChangeSet(cs.changes + ContextChanges(context))
  }

  /** `enrichWith` adds one contextual change per context key under "ctx_" +
      key, keeps every other existing change, and adds nothing else. */
  lemma EnrichWithContents(cs: ChangeSet, context: map<string, Obj>)
    ensures forall k :: k in context ==>
      ("ctx_" + k in EnrichWith(cs, context).changes &&
       EnrichWith(cs, context).changes["ctx_" + k] == Contextual(k, context[k]))
    ensures forall f :: f in cs.changes && f !in ContextKeys(context) ==>
      (f in EnrichWith(cs, context).changes && EnrichWith(cs, context).changes[f] == cs.changes[f])
    ensures forall f :: f in EnrichWith(cs, context).changes ==>
      (f in cs.changes || (StartsWith(f, "ctx_") && f[4..] in context))
  {
    var e := EnrichWith(cs, context);
    forall k | k in context
      ensures "ctx_" + k in e.changes && e.changes["ctx_" + k] == Contextual(k, context[k])
    {
      assert ("ctx_" + k)[4..] == k;
      assert "ctx_" + k in ContextKeys(context);
    }
    forall f | f in e.changes && f !in cs.changes
      ensures StartsWith(f, "ctx_") && f[4..] in context
    {
      var k :| k in context && f == "ctx_" + k;
      assert f[4..] == k;
    }
  }

  /** Enriching a full change set with a context key that does not collide
      pushes it over the limit `of` enforces. */
  lemma EnrichWithBypassesLimit(cs: ChangeSet, context: map<string, Obj>, key: string)
    requires |cs.changes| == MaxChanges
    requires key in context && "ctx_" + key !in cs.changes
    ensures ExceedsMaximumSize(EnrichWith(cs, context))
  {
    EnrichWithContents(cs, context);
    var e := EnrichWith(cs, context);
    assert "ctx_" + key in e.changes;
    assert cs.changes.Keys + {"ctx_" + key} <= e.changes.Keys;
    SubsetCardinality(cs.changes.Keys + {"ctx_" + key}, e.changes.Keys);
    assert |cs.changes.Keys + {"ctx_" + key}| == |cs.changes.Keys| + 1;
  }

  lemma SubsetCardinality<T>(a: set<T>, b: set<T>)
    requires a <= b
    ensures |a| <= |b|
  {
    assert b == a + (b - a);
  }

  // ------------------------------------------------------------- toMap

  /** The map `toMap` stores for one change, in the iteration order of the
      `HashMap` that holds it: newValue, fieldName, changeType, oldValue. */
  function ChangeData(c: FieldChange): Obj {
    MapV([Entry("newValue", ExtractSimpleValue(c.newValue)),
          Entry("fieldName", Str(c.fieldName)),
          Entry("changeType", Str(TypeName(c.changeType))),
          Entry("oldValue", ExtractSimpleValue(c.oldValue))])
  }

  /** `toMap`: one plain map per changed field. */
  function ToMap(cs: ChangeSet): map<string, Obj> {
    map k | k in cs.changes :: ChangeData(cs.changes[k])
  }

  /** `toMap` keeps the key set, and each stored map carries the field name,
      both values (simplified) and the change type's name. */
  lemma ToMapShape(cs: ChangeSet)
    ensures ToMap(cs).Keys == cs.changes.Keys
    ensures forall k :: k in cs.changes ==> var m := ToMap(cs)[k]; var c := cs.changes[k];
      m.MapV? &&
      MapGet(m, "fieldName") == Str(c.fieldName) &&
      MapGet(m, "oldValue") == ExtractSimpleValue(c.oldValue) &&
      MapGet(m, "newValue") == ExtractSimpleValue(c.newValue) &&
      MapGet(m, "changeType") == Str(TypeName(c.changeType))
  {
    forall k | k in cs.changes {
      ChangeDataFields(cs.changes[k]);
    }
  }

  lemma ChangeDataFields(c: FieldChange)
    ensures var m := ChangeData(c);
      MapGet(m, "fieldName") == Str(c.fieldName) &&
      MapGet(m, "oldValue") == ExtractSimpleValue(c.oldValue) &&
      MapGet(m, "newValue") == ExtractSimpleValue(c.newValue) &&
      MapGet(m, "changeType") == Str(TypeName(c.changeType))
  {
    FourEntries("newValue", "fieldName", "changeType", "oldValue",
      ExtractSimpleValue(c.newValue), Str(c.fieldName), Str(TypeName(c.changeType)), ExtractSimpleValue(c.oldValue));
  }

  /** Looking up each key of a four-entry map with distinct keys. */
  lemma FourEntries(k0: string, k1: string, k2: string, k3: string, v0: Obj, v1: Obj, v2: Obj, v3: Obj)
    requires k0 != k1 && k0 != k2 && k0 != k3 && k1 != k2 && k1 != k3 && k2 != k3
    ensures var es := [Entry(k0, v0), Entry(k1, v1), Entry(k2, v2), Entry(k3, v3)];
      EntryValue(es, k0) == v0 && EntryValue(es, k1) == v1 &&
      EntryValue(es, k2) == v2 && EntryValue(es, k3) == v3
  {
    var es := [Entry(k0, v0), Entry(k1, v1), Entry(k2, v2), Entry(k3, v3)];
    assert es[1..] == [Entry(k1, v1), Entry(k2, v2), Entry(k3, v3)];
    assert es[1..][1..] == [Entry(k2, v2), Entry(k3, v3)];
    assert es[1..][1..][1..] == [Entry(k3, v3)];
    assert EntryValue(es[1..][1..][1..], k3) == v3;
    assert EntryValue(es[1..][1..], k3) == v3 && EntryValue(es[1..][1..], k2) == v2;
    assert EntryValue(es[1..], k3) == v3 && EntryValue(es[1..], k2) == v2;
  }

  /** `extractSimpleValue`: null stays null; a value whose text looks like a
      rendered change map ("{...newValue=...") is reduced to its new value;
      any other value is kept as it is. */
  function ExtractSimpleValue(v: Obj): Obj {
    if v == Null then Null
    else
      var t := ToString(v);
      if StartsWith(t, "{") && Contains(t, "newValue=") then ParseFieldChangeString(t) else v
  }

  /** What `extractSimpleValue` does to the three kinds of value it meets:
      null stays null, a value whose text is not brace-wrapped is kept, and
      the rendering of a change map that lists "newValue" first reads back
      as the trimmed text of that new value ("null" as null), provided the
      value's text holds no comma. */
  lemma ExtractSimpleValueSpec(v: Obj, rest: string)
    ensures ExtractSimpleValue(Null) == Null
    ensures v != Null && !StartsWith(ToString(v), "{") ==> ExtractSimpleValue(v) == v
    ensures ',' !in ToString(v) ==>
      ExtractSimpleValue(Str("{newValue=" + ToString(v) + ", " + rest)) == NullableText(Trim(ToString(v)))
  {
    if ',' !in ToString(v) {
      RenderedChangeReadsBack(ToString(v), rest);
    }
  }

  /** The text of a change map that lists "newValue" first, with the new
      value's text `x` free of commas. */
  lemma RenderedChangeReadsBack(x: string, rest: string)
    requires ',' !in x
    ensures ExtractSimpleValue(Str("{newValue=" + x + ", " + rest)) == NullableText(Trim(x))
  {
    var t := "{newValue=" + x + ", " + rest;
    NewValueAfterBrace(x + ", " + rest);
    assert t == "{newValue=" + (x + ", " + rest);
    assert StartsWith(t, "{") by { assert t[..1] == "{"; }
    FirstCommaAfter(x, rest);
  }

  /** "newValue=" first occurs right after the opening brace. */
  lemma NewValueAfterBrace(u: string)
    ensures IndexOf("{newValue=" + u, "newValue=") == Some(1)
    ensures ("{newValue=" + u)[10..] == u
  {
    var t := "{newValue=" + u;
    assert OccursAt(t, "newValue=", 1) by { assert t[1..10] == "newValue="; }
    assert !OccursAt(t, "newValue=", 0) by { assert t[0] == '{'; }
  }

  /** The first comma of `x + ", " + rest`, with `x` free of commas, follows `x`. */
  lemma FirstCommaAfter(x: string, rest: string)
    requires ',' !in x
    ensures IndexOf(x + ", " + rest, ",") == Some(|x|)
    ensures (x + ", " + rest)[..|x|] == x
  {
    var part := x + ", " + rest;
    assert OccursAt(part, ",", |x|) by { assert part[|x|..|x| + 1] == ","; }
    forall j | 0 <= j < |x| ensures !OccursAt(part, ",", j) {
      assert part[j..j + 1] == [x[j]];
    }
  }

  /** "null" read back as the null reference, any other text as itself. */
  function NullableText(t: string): (v: Obj)
    ensures v == Null <==> t == "null"
    ensures v != Null ==> v == Str(t)
  {
    if t == "null" then Null else Str(t)
  }

  /** `parseFieldChangeString`: the trimmed text between the first
      "newValue=" and the next comma ("null" meaning null), or the whole
      text when no comma follows (the `substring` then throws and is caught). */
  function ParseFieldChangeString(t: string): Obj
    requires Contains(t, "newValue=")
  {
    var part := t[IndexOf(t, "newValue=").value + 9..];
    match IndexOf(part, ",")
    case None => Str(t)
    case Some(c) => NullableText(Trim(part[..c]))
  }

  /** The value read is the trimmed text up to the FIRST comma after
      "newValue=". */
  lemma ParseFieldChangeStringSpec(t: string)
    requires Contains(t, "newValue=")
    ensures var part := t[IndexOf(t, "newValue=").value + 9..];
      (!Contains(part, ",") ==> ParseFieldChangeString(t) == Str(t)) &&
      (Contains(part, ",") ==>
        var c := IndexOf(part, ",").value;
        part[c] == ',' && ',' !in part[..c] &&
        ParseFieldChangeString(t) == NullableText(Trim(part[..c])))
  {
    var part := t[IndexOf(t, "newValue=").value + 9..];
    if Contains(part, ",") {
      var c := IndexOf(part, ",").value;
      assert part[c..c + 1] == ",";
      forall j | 0 <= j < c ensures part[..c][j] != ',' {
        assert !OccursAt(part, ",", j);
        assert part[j..j + 1] == [part[j]];
      }
    }
  }

  // ------------------------------------------------------------- from

  /** `parseSimpleChange`: empty text and the text "null" carry no change;
      anything else is taken as a newly created value. */
  function ParseSimpleChange(fieldName: string, t: string): (r: Option<FieldChange>)
    ensures r.None? <==> t == "" || t == "null"
    ensures r.Some? ==> r.value == FieldChanges.Of(fieldName, Null, Str(t)) && r.value.changeType == CREATED
  {
    if t == "" || t == "null" then None else Some(FieldChanges.Of(fieldName, Null, Str(t)))
  }

  /** `parseUpdateChange`: "old -> new" split at the first separator, each
      side trimmed and "null" read as null; equal sides carry no change. */
  function ParseUpdateChange(fieldName: string, t: string): (r: Option<FieldChange>)
    ensures r.Some? ==> IsSignificantChange(r.value) && r.value.fieldName == fieldName
  {
    var parts := SplitFirst(t, " -> ");
    if |parts| != 2 then Some(FieldChanges.Of(fieldName, Null, Str(t)))
    else
      var oldValue := NullableText(Trim(parts[0]));
      var newValue := NullableText(Trim(parts[1]));
      if oldValue == newValue then None
      else
        OfSignificance(fieldName, oldValue, newValue);
        Some(FieldChanges.Of(fieldName, oldValue, newValue))
  }

  /** `convertToFieldChange`: a tracker's raw value for one field, read back
      from its trimmed text. */
  function ConvertToFieldChange(fieldName: string, raw: Obj): Option<FieldChange> {
    if raw == Null then None
    else
      var t := Trim(ToString(raw));
      if Contains(t, " -> ") then ParseUpdateChange(fieldName, t) else ParseSimpleChange(fieldName, t)
  }

  /** The raw entry is converted and the result is a significant change. */
  predicate Kept(fieldName: string, raw: Obj) {
    var c := ConvertToFieldChange(fieldName, raw);
    c.Some? && IsSignificantChange(c.value)
  }

  /** The changes `from` collects before handing them to `of`. */
  function Processed(raw: map<string, Obj>): map<string, FieldChange> {
    map k | k in raw && Kept(k, raw[k]) :: ConvertToFieldChange(k, raw[k]).value
  }

  /** `ChangeSet.from`: null or empty input gives the empty set; otherwise
      every significant converted entry, under its own key, goes to `of`. */
  function From(raw: Option<map<string, Obj>>): Result<ChangeSet> {
    if raw.None? || raw.value == map[] then Ok(Empty())
    else Of(Some(Processed(raw.value)))
  }

  /** What `from` keeps and drops, and when it fails. */
  lemma FromProperties(raw: Option<map<string, Obj>>)
    ensures raw.None? || raw == Some(map[]) ==> From(raw) == Ok(Empty())
    ensures From(raw).Ok? ==> forall k :: k in From(raw).value.changes ==>
      raw.Some? && k in raw.value && raw.value[k] != Null &&
      IsSignificantChange(From(raw).value.changes[k]) &&
      From(raw).value.changes[k].fieldName == k
    ensures raw.Some? && raw.value != map[] ==>
      (From(raw).Err? <==> |Processed(raw.value)| > MaxChanges) &&
      (From(raw).Err? ==> From(raw).error.IllegalArgumentException?)
    ensures From(raw).Ok? && raw.Some? ==> forall k :: k in raw.value && Kept(k, raw.value[k]) ==> k in From(raw).value.changes
  {
    if raw.Some? && raw.value != map[] {
      var p := Processed(raw.value);
      forall k | k in p ensures p[k].fieldName == k && raw.value[k] != Null {
        FieldNameOfConverted(k, raw.value[k]);
      }
    }
  }

  lemma FieldNameOfConverted(fieldName: string, raw: Obj)
    requires ConvertToFieldChange(fieldName, raw).Some?
    ensures raw != Null && ConvertToFieldChange(fieldName, raw).value.fieldName == fieldName
  {
  }

  /** Entries `from` always drops: null values, blank or "null" simple values,
      and updates whose two sides read back equal. */
  lemma FromDrops(fieldName: string, raw: Obj)
    ensures raw == Null ==> !Kept(fieldName, raw)
    ensures (raw != Null && !Contains(Trim(ToString(raw)), " -> ") &&
      (Trim(ToString(raw)) == "" || Trim(ToString(raw)) == "null")) ==> !Kept(fieldName, raw)
    ensures (raw != Null && Contains(Trim(ToString(raw)), " -> ") &&
      NullableText(Trim(SplitFirst(Trim(ToString(raw)), " -> ")[0])) ==
      NullableText(Trim(SplitFirst(Trim(ToString(raw)), " -> ")[1]))) ==> !Kept(fieldName, raw)
  {
  }

  /** Every converted change is significant, so the significance filter in
      `from` never removes anything the conversion produced. */
  lemma ConvertedIsSignificant(fieldName: string, raw: Obj)
    requires ConvertToFieldChange(fieldName, raw).Some?
    ensures Kept(fieldName, raw)
  {
  }

  /** A side of an "old -> new" rendering that reads back as itself. */
  predicate CleanSide(t: string) { t != [] && Trim(t) == t }

  /** The value a side comes back as: null stays null, anything else comes
      back as its text. */
  function AsText(v: Obj): Obj {
    if v == Null then Null else Str(ToString(v))
  }

  /** In "a -> b", when `a` is non-empty and "a ->" holds no separator, the
      first separator is the one right after `a`. */
  lemma FirstSeparatorAfterOldSide(a: string, b: string)
    requires a != [] && !Contains(a + " ->", " -> ")
    ensures IndexOf(a + " -> " + b, " -> ") == Some(|a|)
  {
    var t := a + " -> " + b;
    assert t[|a|..|a| + 4] == " -> ";
    assert OccursAt(t, " -> ", |a|);
    forall j | 0 <= j < |a| ensures !OccursAt(t, " -> ", j) {
      assert t[j..j + 4] == (a + " ->")[j..j + 4];
      assert !OccursAt(a + " ->", " -> ", j);
    }
  }

  /** `SplitFirst` cuts "a -> b" back into `a` and `b` under the same terms. */
  lemma SplitFormattedUpdate(a: string, b: string)
    requires a != [] && !Contains(a + " ->", " -> ")
    ensures SplitFirst(a + " -> " + b, " -> ") == [a, b]
  {
    FirstSeparatorAfterOldSide(a, b);
    var t := a + " -> " + b;
    assert t[..|a|] == a && t[|a| + 4..] == b;
  }

  /** A value whose text reads back as itself. */
  lemma CleanSideEnds(t: string)
    requires CleanSide(t)
    ensures !IsTrimmed(t[0]) && !IsTrimmed(t[|t| - 1])
  {
  }

  /** The text form of the inversion: "a -> b" with clean sides `a`, `b` and
      no separator inside "a ->" converts back to a change from `a` to `b`. */
  lemma ConvertInvertsFormattedText(fieldName: string, a: string, b: string)
    requires CleanSide(a) && CleanSide(b) && !Contains(a + " ->", " -> ")
    ensures ConvertToFieldChange(fieldName, Str(a + " -> " + b)) ==
      if NullableText(a) == NullableText(b) then None
      else Some(FieldChanges.Of(fieldName, NullableText(a), NullableText(b)))
  {
    var t := a + " -> " + b;
    CleanSideEnds(a);
    CleanSideEnds(b);
    assert t[0] == a[0] && t[|t| - 1] == b[|b| - 1];
    TrimOfClean(t);
    assert Trim(ToString(Str(t))) == t;
    SplitFormattedUpdate(a, b);
    FirstSeparatorAfterOldSide(a, b);
    assert Contains(t, " -> ");
    assert ConvertToFieldChange(fieldName, Str(t)) == ParseUpdateChange(fieldName, t);
  }

  /** `parseUpdateChange` inverts `formatChange`: the rendering of an update
      converts back to a change between the two sides' texts, each read as
      `parseUpdateChange` reads it ("null" as null), provided each side's
      text is non-empty and free of surrounding whitespace and the separator
      cannot be found before the end of the old side (its text followed by
      " ->" holds no " -> ").  `SideTextReadsBack` says what those readings
      are. */
  lemma ConvertInvertsFormatChange(fieldName: string, oldValue: Obj, newValue: Obj)
    requires CleanSide(SideText(oldValue)) && CleanSide(SideText(newValue))
    requires !Contains(SideText(oldValue) + " ->", " -> ")
    ensures var va, vb := NullableText(SideText(oldValue)), NullableText(SideText(newValue));
      ConvertToFieldChange(fieldName, Str(FormatChange(oldValue, newValue))) ==
      if va == vb then None else Some(FieldChanges.Of(fieldName, va, vb))
  {
    ConvertInvertsFormattedText(fieldName, SideText(oldValue), SideText(newValue));
  }

  /** A side's text read back as `parseUpdateChange` does gives the value
      itself as text, null staying null, exactly when the value is null or
      does not render as "null". */
  lemma SideTextReadsBack(v: Obj)
    ensures NullableText(SideText(v)) == AsText(v) <==> v == Null || ToString(v) != "null"
  {
  }

  /** An empty old value defeats the inversion: the rendering " -> x" is
      trimmed to "-> x", which no longer holds the separator. */
  lemma EmptyOldSideIsNotInverted()
    ensures ConvertToFieldChange("f", Str(FormatChange(Str(""), Str("x")))) == Some(FieldChanges.Of("f", Null, Str("-> x")))
  {
    assert FormatChange(Str(""), Str("x")) == " -> x";
    LeadingSpaceTrimmed();
    ArrowWithoutSpaceIsNoSeparator();
    ConvertOfSimpleText("f", Str(" -> x"), "-> x");
  }

  /** A value whose trimmed text holds no separator is read as a simple
      change. */
  lemma ConvertOfSimpleText(fieldName: string, raw: Obj, t: string)
    requires raw != Null && Trim(ToString(raw)) == t && !Contains(t, " -> ")
    ensures ConvertToFieldChange(fieldName, raw) == ParseSimpleChange(fieldName, t)
  {
  }

  lemma LeadingSpaceTrimmed()
    ensures Trim(" -> x") == "-> x"
  {
    var u: string := "-> x";
    assert " -> x"[1..] == u;
    assert TrimLeft(u) == u;
    assert TrimLeft(" -> x") == u;
    assert TrimRight(u) == u;
  }

  lemma ArrowWithoutSpaceIsNoSeparator()
    ensures !Contains("-> x", " -> ")
  {
    assert !OccursAt("-> x", " -> ", 0) by { assert "-> x"[0] != ' '; }
    assert forall j :: !OccursAt("-> x", " -> ", j);
  }

  /** An old value ending in " ->" defeats it too: "a -> -> b" is split at
      the first separator, so the change reads back as from "a" to "-> b". */
  lemma ArrowEndedOldSideIsNotInverted()
    ensures ConvertToFieldChange("f", Str(FormatChange(Str("a ->"), Str("b")))) == Some(FieldChanges.Of("f", Str("a"), Str("-> b")))
  {
    var t := FormatChange(Str("a ->"), Str("b"));
    assert t == "a" + " -> " + "-> b";
    assert !OccursAt("a ->", " -> ", 0) by { assert "a ->"[0] != " -> "[0]; }
    assert forall j :: !OccursAt("a" + " ->", " -> ", j) by { assert "a" + " ->" == "a ->"; }
    ConvertInvertsFormattedText("f", "a", "-> b");
    assert t[0] == 'a' && t[|t| - 1] == 'b';
  }

  /** How a change set stored through `toMap` reads back through `from`: each
      stored change is a map, whose text is kept as the new value of a CREATED
      change; old values and change types are lost.  This holds while the set
      fits the limit of `of` and no stored map's text holds " -> ". */
  function Reloaded(cs: ChangeSet): ChangeSet {
    ChangeSet(map k | k in cs.changes :: FieldChanges.Of(k, Null, Str(ToString(ChangeData(cs.changes[k])))))
  }

  lemma FromToMap(cs: ChangeSet)
    requires |cs.changes| <= MaxChanges
    requires forall k :: k in cs.changes ==> !Contains(ToString(ChangeData(cs.changes[k])), " -> ")
    ensures From(Some(ToMap(cs))) == Ok(Reloaded(cs))
    ensures Reloaded(cs).changes.Keys == cs.changes.Keys
    ensures forall k :: k in cs.changes ==> Reloaded(cs).changes[k].changeType == CREATED
  {
    var raw, r := ToMap(cs), Reloaded(cs);
    ProcessedToMap(cs);
    ReloadedShape(cs);
    assert raw.Keys == cs.changes.Keys;
    if raw == map[] {
      assert r.changes == map[];
    } else {
      assert |Processed(raw)| == |cs.changes|;
    }
  }

  lemma ReloadedShape(cs: ChangeSet)
    ensures Reloaded(cs).changes.Keys == cs.changes.Keys
    ensures forall k :: k in cs.changes ==> Reloaded(cs).changes[k].changeType == CREATED
  {
  }

  lemma ProcessedToMap(cs: ChangeSet)
    requires forall k :: k in cs.changes ==> !Contains(ToString(ChangeData(cs.changes[k])), " -> ")
    ensures Processed(ToMap(cs)) == Reloaded(cs).changes
  {
    var raw := ToMap(cs);
    var r := Reloaded(cs).changes;
    forall k | k in raw ensures Kept(k, raw[k]) && ConvertToFieldChange(k, raw[k]).value == r[k] {
      var c := cs.changes[k];
      assert raw[k] == ChangeData(c);
      StoredChangeReadsBack(k, c);
    }
    ProcessedIs(raw, r);
  }

  /** `Processed` pinned down pointwise. */
  lemma ProcessedIs(raw: map<string, Obj>, r: map<string, FieldChange>)
    requires r.Keys == raw.Keys
    requires forall k :: k in raw ==> Kept(k, raw[k]) && ConvertToFieldChange(k, raw[k]).value == r[k]
    ensures Processed(raw) == r
  {
    var p := Processed(raw);
    ProcessedKeys(raw, r.Keys);
    forall k | k in p ensures p[k] == r[k] { }
  }

  lemma ProcessedKeys(raw: map<string, Obj>, keys: set<string>)
    requires keys == raw.Keys
    requires forall k :: k in raw ==> Kept(k, raw[k])
    ensures Processed(raw).Keys == keys
  {
    forall k | k in raw ensures k in Processed(raw) { }
  }

  /** One stored change read back by `convertToFieldChange`. */
  lemma StoredChangeReadsBack(k: string, c: FieldChange)
    requires !Contains(ToString(ChangeData(c)), " -> ")
    ensures ConvertToFieldChange(k, ChangeData(c)) == Some(FieldChanges.Of(k, Null, Str(ToString(ChangeData(c)))))
    ensures Kept(k, ChangeData(c))
  {
    var t := ToString(ChangeData(c));
    MapTextIsBraced(ChangeData(c));
    TrimOfClean(t);
    assert t != "null" by { assert t[0] != 'n'; }
  }
}
