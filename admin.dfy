/** The two list-column helpers of the admin site, which cut long text at 75 characters. */
module Admin {
  import opened Basics

  const DisplayLimit: nat := 75
  const Ellipsis := "..."

  /** `text[:75] + '...' if len(text) > 75 else text`. */
  function Shorten(text: string): (r: string)
    ensures |text| <= DisplayLimit ==> r == text
    ensures |text| > DisplayLimit ==>
      |r| == DisplayLimit + |Ellipsis| && r[..DisplayLimit] == text[..DisplayLimit] && r[DisplayLimit..] == Ellipsis
  {
    if |text| > DisplayLimit then text[..DisplayLimit] + Ellipsis else text
  }

  /** What a list-column helper returns: a string it built, or the field's own value. */
  datatype Cell<T> = Text(text: string) | Value(value: T)

  /**
   * `RhythmSequenceAdmin.sequence_data_display`: the sequence's `str` form cut
   * to 75 characters and an ellipsis when it is longer, and otherwise the
   * JSON value itself, not its string. `str` is Python's `str` on that value.
   */
  function SequenceDataDisplay<T>(sequenceData: T, str: T -> string): (r: Cell<T>)
    ensures r.Value? <==> |str(sequenceData)| <= DisplayLimit
    ensures r.Value? ==> r.value == sequenceData
    ensures r.Text? ==>
      |r.text| == 78 && r.text[..DisplayLimit] == str(sequenceData)[..DisplayLimit] && r.text[DisplayLimit..] == Ellipsis
  {
    if |str(sequenceData)| > DisplayLimit then Text(Shorten(str(sequenceData))) else Value(sequenceData)
  }

  /**
   * `AnalysisAdmin.short_response` on the text field `response` (None when
   * unset): cut when longer than 75 characters, returned as it is otherwise.
   */
  function ShortResponse(response: Option<string>): (r: Option<string>)
    ensures r.None? <==> response.None?
    ensures response.Some? && |response.value| <= DisplayLimit ==> r == response
    ensures response.Some? && |response.value| > DisplayLimit ==>
      |r.value| == 78 && r.value[..DisplayLimit] == response.value[..DisplayLimit] && r.value[DisplayLimit..] == Ellipsis
  {
    if response.Some? && response.value != "" && |response.value| > DisplayLimit
    then Some(Shorten(response.value))
    else response
  }

  /** Whatever the input, the output starts with a prefix of it and has at most 78 characters. */
  lemma ShortenBounded(text: string)
    ensures |Shorten(text)| <= 78
    ensures |text| <= DisplayLimit ==> Shorten(text) == text
    ensures |text| > DisplayLimit ==> text[..DisplayLimit] <= Shorten(text)
  {
  }

  /** Shortening an already shortened text changes nothing. */
  lemma ShortenIdempotent(text: string)
    ensures Shorten(Shorten(text)) == Shorten(text)
  {
    if |text| > DisplayLimit {
      var s := Shorten(text);
      assert s[..DisplayLimit] + Ellipsis == s;
    }
  }

  /**
   * The helper returns the field's own value only where cutting its `str`
   * form would change nothing, and otherwise exactly that cut form.
   */
  lemma SequenceDisplayAgreesWithShorten<T>(sequenceData: T, str: T -> string)
    ensures SequenceDataDisplay(sequenceData, str).Value? ==> Shorten(str(sequenceData)) == str(sequenceData)
    ensures SequenceDataDisplay(sequenceData, str).Text? ==>
      SequenceDataDisplay(sequenceData, str).text == Shorten(str(sequenceData))
  {
  }
}
