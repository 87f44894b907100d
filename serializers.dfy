/** `RecordTapSerializer.validate_response`: the tap list an analysis record accepts. */
module Serializers {
  import opened Basics
  import opened JsonValue

  const ResponseFormatError := "Response must be a list of timestamps (float or int)."

  /**
   * Returns the value unchanged when it is a list whose every item is an int
   * or a float (a bool included, being an int in Python), and raises a
   * validation error otherwise.
   */
  function ValidateResponse(value: Json): (r: Result<Json, string>)
    ensures r.Ok? <==> value.JList? && forall k :: 0 <= k < |value.items| ==> IsNumber(value.items[k])
    ensures r.Ok? ==> r.value == value
    ensures r.Err? ==> r.error == ResponseFormatError
  {
    if IsTimestampList(value) then Ok(value) else Err(ResponseFormatError)
  }

  /** One item that is not a number is enough to reject the whole list. */
  lemma OneBadItemRejects(items: seq<Json>, k: nat)
    requires k < |items| && !IsNumber(items[k])
    ensures ValidateResponse(JList(items)).Err?
  {
  }

  /** Anything but a list is rejected, whatever it holds. */
  lemma NonListRejected(value: Json)
    requires !value.JList?
    ensures ValidateResponse(value) == Err(ResponseFormatError)
  {
  }

  /** `all` over no items is true, and True and False count as numbers. */
  lemma EdgeCasesAccepted()
    ensures ValidateResponse(JList([])) == Ok(JList([]))
    ensures ValidateResponse(JList([JBool(false), JFloat(1.5)])).Ok?
  {
  }

  /** Validating an accepted value again accepts it unchanged. */
  lemma ValidateIdempotent(value: Json)
    requires ValidateResponse(value).Ok?
    ensures ValidateResponse(ValidateResponse(value).value) == ValidateResponse(value)
  {
  }
}
