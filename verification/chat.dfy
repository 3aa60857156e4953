/**
 * The chat input box: the only place where blank input is filtered out
 * before it reaches the session, and the predicates that disable the text
 * field and the send button.
 */
module Chat {
  import opened Wrappers
  import JsString

  /** What a submission attempt leaves behind: the new input text and the `onSend` call made, if any. */
  datatype Submission = Submission(input: string, sent: Option<string>)

  const EnterKey: string := "Enter"

  /**
   * `handleSend`: calls `onSend` with the raw, untrimmed input exactly when
   * the input holds a character that is not white space, and then clears the
   * input; otherwise nothing happens.
   */
  function HandleSend(input: string): (r: Submission)
    ensures r.sent.Some? <==> exists i :: 0 <= i < |input| && !JsString.IsWhite(input[i])
    ensures r.sent.Some? ==> r.sent.value == input && r.input == ""
    ensures r.sent.None? ==> r.input == input
  {
    if !JsString.IsBlank(input) then Submission("", Some(input)) else Submission(input, None)
  }

  /** `handleInputKeyDown`: Enter goes through the same guard as the button; any other key does nothing. */
  function HandleInputKeyDown(input: string, key: string): (r: Submission)
    ensures key == EnterKey ==> r == HandleSend(input)
    ensures key != EnterKey ==> r.input == input && r.sent.None?
  {
    if key == EnterKey then HandleSend(input) else Submission(input, None)
  }

  /** `disabled` of the send button: on while recording, while loading, and for white-space-only input. */
  predicate SendDisabled(input: string, isRecording: bool, isLoading: bool): (b: bool)
    ensures b <==> JsString.AllWhite(input) || isRecording || isLoading
  {
    JsString.IsBlank(input) || isRecording || isLoading
  }

  /** `disabled` of the text field; whenever it is on, the send button is disabled too, whatever the input. */
  predicate InputDisabled(isRecording: bool, isLoading: bool): (b: bool)
    ensures forall input :: b ==> SendDisabled(input, isRecording, isLoading)
  {
    isRecording || isLoading
  }

  /**
   * The button's `disabled` state agrees with the guard behind it: an enabled
   * button always sends the raw input, and when neither recording nor
   * loading, the guard sends only what an enabled button would.
   */
  lemma EnabledButtonSends(input: string, isRecording: bool, isLoading: bool)
    ensures !SendDisabled(input, isRecording, isLoading) ==> HandleSend(input).sent == Some(input)
    ensures !isRecording && !isLoading && HandleSend(input).sent.Some? ==> !SendDisabled(input, isRecording, isLoading)
  {
  }
}
