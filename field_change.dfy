/** One field's change inside a change record: its name, the value before,
    the value after and how the change is classified. */
module FieldChanges {
  import opened JavaLang
  import opened JavaText
  import opened JavaObject

  datatype ChangeType = CREATED | MODIFIED | DELETED | CONTEXTUAL

  /** `ChangeType.name()` */
  function TypeName(t: ChangeType): string {
    match t
    case CREATED => "CREATED"
    case MODIFIED => "MODIFIED"
    case DELETED => "DELETED"
    case CONTEXTUAL => "CONTEXTUAL"
  }

  /** Equality of two values is componentwise over the four fields, which is
      what Dafny's equality on this datatype is. */
  datatype FieldChange = FieldChange(fieldName: string, oldValue: Obj, newValue: Obj, changeType: ChangeType)

  /** `determineChangeType`: null to non-null is a creation, non-null to null
      a deletion, and anything else (also null to null) a modification. */
  function DetermineChangeType(oldValue: Obj, newValue: Obj): (t: ChangeType)
    ensures t == CREATED <==> oldValue == Null && newValue != Null
    ensures t == DELETED <==> oldValue != Null && newValue == Null
    ensures t == MODIFIED <==> (oldValue == Null) == (newValue == Null)
    ensures t != CONTEXTUAL
  {
    if oldValue == Null && newValue != Null then CREATED
    else if oldValue != Null && newValue == Null then DELETED
    else MODIFIED
  }

  /** `FieldChange.of` for a field name that is present. */
  function Of(fieldName: string, oldValue: Obj, newValue: Obj): (c: FieldChange)
    ensures c.fieldName == fieldName && c.oldValue == oldValue && c.newValue == newValue
    ensures c.changeType == DetermineChangeType(oldValue, newValue)
  {
    FieldChange(fieldName, oldValue, newValue, DetermineChangeType(oldValue, newValue))
  }

  /** `FieldChange.of` as the constructor sees it: a null field name is
      rejected by `requireNonNull`. */
  function OfNullable(fieldName: Option<string>, oldValue: Obj, newValue: Obj): (r: Result<FieldChange>)
    ensures r.Err? <==> fieldName.None?
    ensures r.Err? ==> r.error == NullPointerException
    ensures r.Ok? ==> r.value == Of(fieldName.value, oldValue, newValue)
  {
    match fieldName
    case None => Err(NullPointerException)
    case Some(n) => Ok(Of(n, oldValue, newValue))
  }

  /** `FieldChange.contextual`: a context value riding along with the changes. */
  function Contextual(fieldName: string, value: Obj): (c: FieldChange)
    ensures c.oldValue == Null && c.changeType == CONTEXTUAL
    ensures c.fieldName == fieldName && c.newValue == value
  {
    FieldChange(fieldName, Null, value, CONTEXTUAL)
  }

  predicate IsBusinessImpacting(c: FieldChange) {
    c.changeType == MODIFIED && c.oldValue != c.newValue && (c.oldValue != Null || c.newValue != Null)
  }

  predicate IsSignificantChange(c: FieldChange) {
    match c.changeType
    case CREATED => true
    case DELETED => true
    case MODIFIED => c.oldValue != c.newValue
    case CONTEXTUAL => false
  }

  /** Creations and deletions always matter, a modification matters when the
      value really changed, and context never does. */
  lemma SignificanceByType(c: FieldChange)
    ensures c.changeType in {CREATED, DELETED} ==> IsSignificantChange(c)
    ensures c.changeType == MODIFIED ==> (IsSignificantChange(c) <==> c.oldValue != c.newValue)
    ensures c.changeType == CONTEXTUAL ==> !IsSignificantChange(c)
  {
  }

  /** A business-impacting change is always significant. */
  lemma BusinessImpactingIsSignificant(c: FieldChange)
    requires IsBusinessImpacting(c)
    ensures IsSignificantChange(c) && c.changeType == MODIFIED
  {
  }

  /** Every change built by `of` from two different values is significant;
      built from equal values it is a non-significant modification. */
  lemma OfSignificance(name: string, oldValue: Obj, newValue: Obj)
    ensures IsSignificantChange(Of(name, oldValue, newValue)) <==> oldValue != newValue
  {
  }

  const MaxShownLength: nat := 50
  const ShownPrefixLength: nat := 47

  /** `formatValue`: "null" for null, a string longer than 50 chars cut to
      its first 47 plus "...", and `toString` for everything else. */
  function FormatValue(v: Obj): (t: string)
    ensures v == Null ==> t == "null"
    ensures v.Str? && |v.s| <= MaxShownLength ==> t == v.s
    ensures v.Str? && |v.s| > MaxShownLength ==> |t| == MaxShownLength && t[..ShownPrefixLength] == v.s[..ShownPrefixLength] && t[ShownPrefixLength..] == "..."
    ensures !v.Str? ==> t == ToString(v)
  {
    match v
    case Str(s) => if |s| > MaxShownLength then s[..ShownPrefixLength] + "..." else s
    case _ => ToString(v)
  }

  /** `getFormattedChange`: "+ new", "- old", "old → new" or "ctx: new". */
  function FormattedChange(c: FieldChange): (t: string)
    ensures c.changeType == CREATED ==> t == "+ " + FormatValue(c.newValue)
    ensures c.changeType == DELETED ==> t == "- " + FormatValue(c.oldValue)
    ensures c.changeType == MODIFIED ==> t == FormatValue(c.oldValue) + " → " + FormatValue(c.newValue)
    ensures c.changeType == CONTEXTUAL ==> t == "ctx: " + FormatValue(c.newValue)
  {
    match c.changeType
    case CREATED => "+ " + FormatValue(c.newValue)
    case DELETED => "- " + FormatValue(c.oldValue)
    case MODIFIED => FormatValue(c.oldValue) + " → " + FormatValue(c.newValue)
    case CONTEXTUAL => "ctx: " + FormatValue(c.newValue)
  }

  /** `toString`: "name: formatted change". */
  function FieldChangeText(c: FieldChange): string {
    c.fieldName + ": " + FormattedChange(c)
  }

  /** The rendering of a change starts with its field name. */
  lemma FieldChangeTextStartsWithName(c: FieldChange)
    ensures StartsWith(FieldChangeText(c), c.fieldName + ": ")
  {
    var t := FieldChangeText(c);
    assert t[..|c.fieldName + ": "|] == c.fieldName + ": ";
  }
}
