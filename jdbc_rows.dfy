/** What the JDBC repositories build for `JdbcTemplate.batchUpdate`: the
    column list of an insert, its placeholders, and the parameters of one
    row. */
module JdbcRows {
  import opened JavaLang
  import opened JavaTime
  import opened JavaObject
  import opened Json
  import opened LogEntryIds

  /** A column of the insert statement and the cast its placeholder carries. */
  datatype Column = Column(name: string, cast: Option<string>)

  function ColumnNames(cols: seq<Column>): string
    decreases |cols|
  {
    if cols == [] then ""
    else if |cols| == 1 then cols[0].name
    else cols[0].name + ", " + ColumnNames(cols[1..])
  }

  function Placeholder(c: Column): string {
    if c.cast.Some? then "?::" + c.cast.value else "?"
  }

  function Placeholders(cols: seq<Column>): string
    decreases |cols|
  {
    if cols == [] then ""
    else if |cols| == 1 then Placeholder(cols[0])
    else Placeholder(cols[0]) + ", " + Placeholders(cols[1..])
  }

  /** A parameter of the insert as a `convertToObjectArray` builds it. */
  datatype Param = UuidParam(uuid: Option<Uuid>) | TextParam(text: Option<string>) | TimestampParam(at: Instant)

  /** `writeValueAsString` of a nullable map: null is written as `null`. */
  function EncodeNullable(m: Option<map<string, Obj>>, encode: Encoder): Encoded {
    if m.None? then Json("null") else encode(m.value)
  }
}
