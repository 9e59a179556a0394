/** Which entity a record is about: its simple class name and the text of its
    identifier. */
module EntityIdentifiers {
  import opened JavaLang
  import opened JavaText
  import opened JavaObject
  import opened Entities

  datatype EntityIdentifier = EntityIdentifier(entityName: string, entityId: string)

  /** `isBlank`: null, or nothing left after `trim()`. */
  predicate IsBlank(s: Option<string>) {
    s.None? || IsBlankText(s.value)
  }

  /** Identifiers the factory accepts. */
  predicate Valid(e: EntityIdentifier) {
    !IsBlankText(e.entityName) && !IsBlankText(e.entityId)
  }

  /** `validateParameters`: the name is checked before the id. */
  function ValidateParameters(entityName: Option<string>, entityId: Option<string>): (r: Outcome)
    ensures r == Done <==> !IsBlank(entityName) && !IsBlank(entityId)
    ensures IsBlank(entityName) ==> r == Thrown(IllegalArgumentException("Entity name cannot be blank"))
    ensures !IsBlank(entityName) && IsBlank(entityId) ==> r == Thrown(IllegalArgumentException("Entity ID cannot be blank"))
  {
    if IsBlank(entityName) then Thrown(IllegalArgumentException("Entity name cannot be blank"))
    else if IsBlank(entityId) then Thrown(IllegalArgumentException("Entity ID cannot be blank"))
    else Done
  }

  /** `EntityIdentifier.of` */
  function Of(entityName: Option<string>, entityId: Option<string>): (r: Result<EntityIdentifier>)
    ensures r.Ok? <==> ValidateParameters(entityName, entityId) == Done
    ensures r.Err? ==> Thrown(r.error) == ValidateParameters(entityName, entityId)
    ensures r.Ok? ==> r.value == EntityIdentifier(entityName.value, entityId.value) && Valid(r.value)
  {
    match ValidateParameters(entityName, entityId)
    case Thrown(e) => Err(e)
    case Done => Ok(EntityIdentifier(entityName.value, entityId.value))
  }

  /** `of` accepts exactly the valid identifiers and rebuilds them unchanged;
      an empty or whitespace-only name or id is refused. */
  lemma OfAcceptsExactlyValid(e: EntityIdentifier)
    ensures Of(Some(e.entityName), Some(e.entityId)) == Ok(e) <==> Valid(e)
    ensures Of(Some(e.entityName), Some(e.entityId)).Err? <==> !Valid(e)
    ensures Of(None, Some(e.entityId)).Err? && Of(Some(e.entityName), None).Err?
  {
  }

  /** `isSameEntity` is `equals`, which compares name and id. */
  predicate IsSameEntity(a: EntityIdentifier, b: EntityIdentifier) { a == b }

  /** `isSameEntityType` compares names only. */
  predicate IsSameEntityType(a: EntityIdentifier, b: EntityIdentifier) { a.entityName == b.entityName }

  /** The same entity is of the same type, and equality is exactly agreement
      on both name and id. */
  lemma SameEntityProperties(a: EntityIdentifier, b: EntityIdentifier)
    ensures IsSameEntity(a, b) <==> a.entityName == b.entityName && a.entityId == b.entityId
    ensures IsSameEntity(a, b) ==> IsSameEntityType(a, b)
    ensures IsSameEntity(a, b) == IsSameEntity(b, a) && IsSameEntityType(a, b) == IsSameEntityType(b, a)
  {
  }

  /** `represents(entityClass)`: the class's simple name is this name. */
  predicate Represents(e: EntityIdentifier, cls: JClass) { cls.simpleName == e.entityName }

  /** `toString`: "name[id]". */
  function ToString(e: EntityIdentifier): (t: string)
    ensures |t| == |e.entityName| + |e.entityId| + 2
    ensures t[..|e.entityName|] == e.entityName && t[|e.entityName|] == '['
    ensures t[|e.entityName| + 1..|t| - 1] == e.entityId && t[|t| - 1] == ']'
  {
    e.entityName + "[" + e.entityId + "]"
  }

  /** The text is not a key: two different identifiers can render alike. */
  lemma ToStringIsNotInjective()
    ensures EntityIdentifier("a[b", "c") != EntityIdentifier("a", "b[c")
    ensures ToString(EntityIdentifier("a[b", "c")) == ToString(EntityIdentifier("a", "b[c"))
  {
    assert ToString(EntityIdentifier("a[b", "c")) == "a[b[c]";
    assert ToString(EntityIdentifier("a", "b[c")) == "a[b[c]";
  }

  /** The index of the first declared field carrying `@Id`. */
  function FirstIdField(fields: seq<JField>): (r: Option<nat>)
    ensures r.Some? ==> r.value < |fields| && Id in fields[r.value].annotations
    ensures r.Some? ==> forall j :: 0 <= j < r.value ==> Id !in fields[j].annotations
    ensures r.None? <==> forall j :: 0 <= j < |fields| ==> Id !in fields[j].annotations
  {
    if fields == [] then None
    else if Id in fields[0].annotations then Some(0)
    else
      match FirstIdField(fields[1..])
      case None => None
      case Some(i) => Some(i + 1)
  }

  /** `class <name>`, the text of `entity.getClass()` (the package prefix of
      the real text is not modelled). */
  function ClassText(cls: JClass): string { "class " + cls.simpleName }

  /** `extractEntityId`: the text of the first `@Id` field declared on the
      entity's own class ("null" for a null id); the field is made accessible
      first, so reading it succeeds. */
  function ExtractEntityId(entity: Entity): (r: Result<string>)
    ensures r.Err? <==> FirstIdField(entity.cls.fields).None?
    ensures r.Err? ==> r.error == IllegalArgumentException("Entity must have @Id annotated field: " + ClassText(entity.cls))
    ensures r.Ok? ==> var f := entity.cls.fields[FirstIdField(entity.cls.fields).value];
      r.value == JavaObject.ToString(ReadField(entity, f))
  {
    match FirstIdField(entity.cls.fields)
    case None => Err(IllegalArgumentException("Entity must have @Id annotated field: " + ClassText(entity.cls)))
    case Some(i) => Ok(JavaObject.ToString(ReadField(entity, entity.cls.fields[i])))
  }

  /** The search looks at the class itself only: the superclass never
      matters, even when it declares the `@Id` field. */
  lemma ExtractIgnoresSuperclass(entity: Entity, sup: Option<JClass>)
    ensures ExtractEntityId(entity.(cls := entity.cls.(superclass := sup))) == ExtractEntityId(entity)
  {
  }

  /** A null id is recorded as the text "null". */
  lemma NullIdIsText(entity: Entity)
    requires FirstIdField(entity.cls.fields).Some?
    requires ReadField(entity, entity.cls.fields[FirstIdField(entity.cls.fields).value]) == Null
    ensures ExtractEntityId(entity) == Ok("null")
    ensures FromEntity(Some(entity)) == Of(Some(entity.cls.simpleName), Some("null"))
  {
  }

  /** `fromEntity`: a null entity is rejected; otherwise the simple class name
      and the extracted id go through `of`. */
  function FromEntity(entity: Option<Entity>): (r: Result<EntityIdentifier>)
    ensures entity.None? ==> r == Err(NullPointerException)
    ensures entity.Some? && ExtractEntityId(entity.value).Err? ==> r == Err(ExtractEntityId(entity.value).error)
    ensures entity.Some? && ExtractEntityId(entity.value).Ok? ==>
      r == Of(Some(entity.value.cls.simpleName), Some(ExtractEntityId(entity.value).value))
  {
    match entity
    case None => Err(NullPointerException)
    case Some(e) =>
      var id :- ExtractEntityId(e);
      Of(Some(e.cls.simpleName), Some(id))
  }
}
