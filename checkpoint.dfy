/** A position in the write-ahead log together with the time it was taken. */
module Checkpoints {
  import opened JavaLang
  import opened JavaTime

  /** `timestamp` may be null: the private no-argument constructor leaves it
      so, for the JSON reader. */
  datatype Checkpoint = Checkpoint(position: int, timestamp: Option<LocalDateTime>)

  /** `Checkpoint.of` */
  function Of(position: int, timestamp: Option<LocalDateTime>): (c: Checkpoint)
    ensures c.position == position && c.timestamp == timestamp
  {
    Checkpoint(position, timestamp)
  }

  /** `Checkpoint.current(position)`, given the clock reading `now`. */
  function Current(position: int, now: LocalDateTime): (c: Checkpoint)
    ensures c.position == position && c.timestamp == Some(now) && (position >= 0 ==> IsValid(c))
  {
    Checkpoint(position, Some(now))
  }

  predicate IsValid(c: Checkpoint) { c.position >= 0 && c.timestamp.Some? }

  /** `isOlderThan`: strictly before; a null timestamp on either side throws. */
  function IsOlderThan(c: Checkpoint, dateTime: Option<LocalDateTime>): (r: Result<bool>)
    ensures r.Err? <==> c.timestamp.None? || dateTime.None?
    ensures r.Err? ==> r.error == NullPointerException
    ensures r.Ok? ==> (r.value <==> c.timestamp.value < dateTime.value)
  {
    if c.timestamp.None? || dateTime.None? then Err(NullPointerException)
    else Ok(c.timestamp.value < dateTime.value)
  }

  /** `isOlderThan` is strict (false at its own timestamp) and transitive. */
  lemma IsOlderThanStrict(c: Checkpoint, d: Checkpoint, t: LocalDateTime)
    requires c.timestamp.Some?
    ensures IsOlderThan(c, c.timestamp) == Ok(false)
    ensures IsOlderThan(c, d.timestamp) == Ok(true) && IsOlderThan(d, Some(t)) == Ok(true) ==> IsOlderThan(c, Some(t)) == Ok(true)
    ensures IsOlderThan(c, d.timestamp) == Ok(true) ==> IsOlderThan(d, c.timestamp) == Ok(false)
  {
  }

  /** A checkpoint taken now at a non-negative position is valid, and one
      without a timestamp never is. */
  lemma ValidityOfFactories(position: int, now: LocalDateTime)
    ensures IsValid(Current(position, now)) <==> position >= 0
    ensures !IsValid(Of(position, None))
    ensures IsValid(Of(position, Some(now))) <==> position >= 0
  {
  }
}
