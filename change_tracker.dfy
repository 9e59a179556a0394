/** The helpers every change tracker shares: reading a field, deciding which
    fields to skip, and rendering an update as "old -> new". */
module ChangeTracking {
  import opened JavaObject
  import opened Entities

  /** `getFieldValue`: the field's value, or null when reading it raises
      `IllegalAccessException`. */
  function GetFieldValue(f: JField, e: Entity): (v: Obj)
    ensures f.accessible ==> v == ReadField(e, f)
    ensures !f.accessible ==> v == Null
  {
    if f.accessible then ReadField(e, f) else Null
  }

  /** A field that cannot be read looks exactly like a readable field that
      holds null. */
  lemma UnreadableLooksLikeNull(f: JField, e: Entity)
    requires !f.accessible
    ensures GetFieldValue(f, e) == GetFieldValue(f.(accessible := true), e.(values := e.values[f.name := Null]))
  {
  }

  /** `shouldSkipField`: the field is `@Transient` or carries the tracker's
      own `@ExcludeFromLogging`. */
  predicate ShouldSkipField(f: JField) {
    Transient in f.annotations || Excluded(CoreSharedAnnotation) in f.annotations
  }

  /** The text of one side of a change: "null" for null, `toString` otherwise. */
  function SideText(v: Obj): string {
    if v != Null then ToString(v) else "null"
  }

  /** `formatChange`: both sides' text around " -> ". */
  function FormatChange(oldValue: Obj, newValue: Obj): string {
    SideText(oldValue) + " -> " + SideText(newValue)
  }

  /** `isValueChanged`: the two values differ under `Objects.equals`. */
  predicate IsValueChanged(oldValue: Obj, newValue: Obj) {
    oldValue != newValue
  }

  /** Equal values (two nulls among them) are never a change, one null side
      always is, and the test does not depend on the order of its arguments. */
  lemma ValueChangedProperties(a: Obj, b: Obj)
    ensures a == b ==> !IsValueChanged(a, b)
    ensures !IsValueChanged(Null, Null)
    ensures (a == Null) != (b == Null) ==> IsValueChanged(a, b)
    ensures IsValueChanged(a, b) == IsValueChanged(b, a)
  {
  }

  /** The rendered change always holds the separator right after the old
      side's text. */
  lemma FormatChangeLayout(oldValue: Obj, newValue: Obj)
    ensures var t := FormatChange(oldValue, newValue);
      |t| == |SideText(oldValue)| + 4 + |SideText(newValue)| &&
      t[..|SideText(oldValue)|] == SideText(oldValue) &&
      t[|SideText(oldValue)|..|SideText(oldValue)| + 4] == " -> " &&
      t[|SideText(oldValue)| + 4..] == SideText(newValue)
  {
  }
}
