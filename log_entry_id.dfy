/** The identity of a change record: a wrapped UUID. */
module LogEntryIds {
  import opened JavaLang

  /** A UUID, represented by its canonical 36-character text, which
      determines it. */
  datatype Uuid = Uuid(text: string)

  datatype LogEntryId = LogEntryId(value: Uuid)

  /** `LogEntryId.of`: a null UUID is rejected by `requireNonNull`. */
  function Of(value: Option<Uuid>): (r: Result<LogEntryId>)
    ensures r.Err? <==> value.None?
    ensures r.Err? ==> r.error == NullPointerException
    ensures r.Ok? ==> GetValue(r.value) == value.value
  {
    match value
    case None => Err(NullPointerException)
    case Some(u) => Ok(LogEntryId(u))
  }

  /** `LogEntryId.generate()`, given the random UUID it draws. */
  function Generate(random: Uuid): (id: LogEntryId)
    ensures GetValue(id) == random
  {
    LogEntryId(random)
  }

  function GetValue(id: LogEntryId): Uuid { id.value }

  /** `toString`: the UUID's own text. */
  function ToString(id: LogEntryId): string { id.value.text }

  /** `of` and `getValue` are inverse, and two ids are equal exactly when
      their UUIDs (equivalently, their texts) are. */
  lemma OfGetValueInverse(u: Uuid, a: LogEntryId, b: LogEntryId)
    ensures Of(Some(u)) == Ok(LogEntryId(u)) && GetValue(Of(Some(u)).value) == u
    ensures Of(Some(GetValue(a))) == Ok(a)
    ensures a == b <==> GetValue(a) == GetValue(b)
    ensures a == b <==> ToString(a) == ToString(b)
  {
  }
}
