/** What the converters need of the JSON library, taken as parameters: an
    encoder from a string-keyed map to text, which may fail with a
    `JsonProcessingException`, and a decoder from text to such a map. */
module Json {
  import opened JavaLang
  import opened JavaText
  import opened JavaObject

  /** The outcome of `writeValueAsString`; a failure carries the exception's
      (nullable) message. */
  datatype Encoded = Json(text: string) | JsonError(message: Option<string>)

  type Encoder = map<string, Obj> -> Encoded

  /** `readValue(text, Map<String, Object>)`: `None` when the text does not
      parse to a map (also for the literal `null`, which reads as a null map
      that the converters then dereference). */
  type Decoder = string -> Option<map<string, Obj>>

  /** `isBlankOrEmpty`, which both converters declare alike: null, blank
      after trimming, or exactly the text "null". */
  predicate IsBlankOrEmpty(value: Option<string>) {
    value.None? || IsBlankText(value.value) || value.value == "null"
  }

  /** Only the exact text "null" counts: padded with spaces it goes on to the
      decoder. */
  lemma BlankOrEmptyCases(value: Option<string>)
    ensures IsBlankOrEmpty(None) && IsBlankOrEmpty(Some("")) && IsBlankOrEmpty(Some("  ")) && IsBlankOrEmpty(Some("null"))
    ensures !IsBlankOrEmpty(Some(" null")) && !IsBlankOrEmpty(Some("{}"))
    ensures value.Some? && value.value != [] && value.value[0] == '{' ==> !IsBlankOrEmpty(value)
  {
    BlankIffAllWhitespace("  ");
    assert " null" != "null";
    assert !IsBlankText(" null") by { BlankIffAllWhitespace(" null"); assert !IsTrimmed(" null"[1]); }
    assert !IsBlankText("{}") by { BlankIffAllWhitespace("{}"); assert !IsTrimmed("{}"[0]); }
    if value.Some? && value.value != [] && value.value[0] == '{' {
      BlankIffAllWhitespace(value.value);
      assert value.value != "null" by { assert "null"[0] == 'n'; }
    }
  }
}
