/** Points in time as the logger uses them.

    An `Instant` is a count of nanoseconds since the epoch, the resolution of
    `java.time.Instant`; a `LocalDateTime` is a count of nanoseconds on the
    local time line.  Their text is the decimal count, which its parser reads
    back; the ISO-8601 layout of the real text is not modelled.
 */
module JavaTime {
  import opened JavaLang
  import opened JavaText

  type Instant = int
  type LocalDateTime = int

  const NanosPerMinute: nat := 60_000_000_000

  /** `Instant.toString()` */
  function InstantText(t: Instant): string { IntText(t) }

  /** `Instant.parse(text)`: `None` stands for `DateTimeParseException`. */
  function ParseInstant(text: string): Option<Instant> { ParseInt(text) }

  /** An instant's text parses back to the same instant. */
  lemma ParseInstantText(t: Instant)
    ensures ParseInstant(InstantText(t)) == Some(t)
  {
    ParseIntText(t);
  }

  function Abs(x: int): nat { if x < 0 then -x else x }

  /** `Duration.between(a, b).abs().toMinutes()`: whole minutes, truncated. */
  function WholeMinutesBetween(a: Instant, b: Instant): (m: nat)
    ensures m == Abs(a - b) / NanosPerMinute
    ensures m * NanosPerMinute <= Abs(b - a) < (m + 1) * NanosPerMinute
  {
    Abs(b - a) / NanosPerMinute
  }

  /** Fewer than `n` whole minutes apart is less than `n` minutes apart. */
  lemma WholeMinutesBelow(a: Instant, b: Instant, n: nat)
    ensures WholeMinutesBetween(a, b) < n <==> Abs(b - a) < n * NanosPerMinute
  {
    var m := WholeMinutesBetween(a, b);
    if m < n {
      assert (m + 1) * NanosPerMinute <= n * NanosPerMinute by {
        MultiplyMonotone(m + 1, n, NanosPerMinute);
      }
    } else {
      assert n * NanosPerMinute <= m * NanosPerMinute by {
        MultiplyMonotone(n, m, NanosPerMinute);
      }
    }
  }

  lemma MultiplyMonotone(x: nat, y: nat, k: nat)
    requires x <= y
    ensures x * k <= y * k
  {
  }
}
