/** `TrialResponseForm.clean_response`: a free-text response may not be blank. */
module Forms {
  import opened Basics

  const EmptyResponseError := "Response cannot be empty."

  /**
   * The characters Python's `str.strip()` removes: `str.isspace()` holds of
   * the ASCII controls TAB to CR and FS to US, the space, NEL, NO-BREAK
   * SPACE and the Unicode space and separator characters.
   */
  predicate IsSpace(c: char) {
    || ('\t' <= c <= '\r')
    || ('\U{1c}' <= c <= ' ')
    || c == '\U{85}' || c == '\U{a0}' || c == '\U{1680}'
    || ('\U{2000}' <= c <= '\U{200a}')
    || c == '\U{2028}' || c == '\U{2029}' || c == '\U{202f}' || c == '\U{205f}' || c == '\U{3000}'
  }

  predicate Blank(s: string) {
    forall i :: 0 <= i < |s| ==> IsSpace(s[i])
  }

  function LeftStrip(s: string): string {
    if s != [] && IsSpace(s[0]) then LeftStrip(s[1..]) else s
  }

  function RightStrip(s: string): string {
    if s != [] && IsSpace(s[|s| - 1]) then RightStrip(s[..|s| - 1]) else s
  }

  lemma {:induction false} LeftStripEmptyIffBlank(s: string)
    ensures LeftStrip(s) == [] <==> Blank(s)
    ensures LeftStrip(s) != [] ==> !IsSpace(LeftStrip(s)[0])
    decreases |s|
  {
    if s != [] && IsSpace(s[0]) {
      LeftStripEmptyIffBlank(s[1..]);
      assert Blank(s) <==> Blank(s[1..]) by {
        if Blank(s[1..]) {
          forall i | 0 <= i < |s| ensures IsSpace(s[i]) {
            if i > 0 { assert s[i] == s[1..][i - 1]; }
          }
        }
      }
    }
  }

  lemma {:induction false} RightStripEmptyIffBlank(s: string)
    ensures RightStrip(s) == [] <==> Blank(s)
    decreases |s|
  {
    if s != [] && IsSpace(s[|s| - 1]) {
      var init := s[..|s| - 1];
      RightStripEmptyIffBlank(init);
      assert Blank(s) <==> Blank(init) by {
        if Blank(init) {
          forall i | 0 <= i < |s| ensures IsSpace(s[i]) {
            if i < |s| - 1 { assert s[i] == init[i]; }
          }
        }
      }
    }
  }

  /** `s.strip()` with no argument: nothing is left exactly of a text made only of whitespace. */
  function Strip(s: string): (r: string)
    ensures r == [] <==> Blank(s)
  {
    LeftStripEmptyIffBlank(s);
    RightStripEmptyIffBlank(LeftStrip(s));
    RightStrip(LeftStrip(s))
  }

  /**
   * Raises the validation error when stripping leaves nothing, and returns
   * the response as it came in, surrounding whitespace included, otherwise.
   */
  function CleanResponse(response: string): (r: Result<string, string>)
    ensures r.Err? <==> Blank(response)
    ensures r.Err? ==> r.error == EmptyResponseError
    ensures r.Ok? ==> r.value == response
  {
    if Strip(response) == [] then Err(EmptyResponseError) else Ok(response)
  }

  /** Cleaning an accepted response again accepts it and returns the same text. */
  lemma CleanIdempotent(response: string)
    requires CleanResponse(response).Ok?
    ensures CleanResponse(CleanResponse(response).value) == CleanResponse(response)
  {
  }

  /** The empty string, a whitespace-only string and a padded word. */
  lemma CleanExamples()
    ensures CleanResponse("") == Err(EmptyResponseError)
    ensures CleanResponse(" \t\n") == Err(EmptyResponseError)
    ensures CleanResponse("  tap ") == Ok("  tap ")
  {
    assert !IsSpace("  tap "[2]);
  }
}
