/**
 * The text channel (Bot Framework Direct Line) as the session sees it: its
 * live connection status, the connection-error banner derived from that
 * status, and the projection of its own message list onto the transcript.
 */
module DirectLine {
  import opened Wrappers
  import opened Transcript

  /** `{isConnected, isLoading, error}` as reported by the Direct Line hook. */
  datatype Status = Status(isConnected: bool, isLoading: bool, error: Option<string>)

  /** One message of the Direct Line hook's list: `{id, sender, text}`. */
  datatype ChannelMessage = ChannelMessage(id: string, sender: string, text: string)

  const ErrorPrefix: string := "Direct Line Error: "
  const NotConnected: string := "Not connected to Direct Line"

  /** `if (directLineError)`: JavaScript truthiness, so an empty error string counts as no error. */
  predicate HasError(st: Status) {
    st.error.Some? && st.error.value != ""
  }

  /**
   * The banner text: a reported error outranks everything; otherwise a channel
   * that is neither connected nor still loading is reported as not connected;
   * otherwise there is no banner.
   */
  function ConnectionError(st: Status): (r: Option<string>)
    ensures r.Some? <==> HasError(st) || (!st.isConnected && !st.isLoading)
    ensures HasError(st) ==> r == Some(ErrorPrefix + st.error.value)
    ensures !HasError(st) && r.Some? ==> r == Some(NotConnected)
  {
    if HasError(st) then Some(ErrorPrefix + st.error.value)
    else if !st.isConnected && !st.isLoading then Some(NotConnected)
    else None
  }

  /** The banner tells its cause apart: equal banners mean the same branch, and the error text is recoverable. */
  lemma BannerDeterminesCause(st: Status, st': Status)
    requires ConnectionError(st) == ConnectionError(st')
    ensures HasError(st) <==> HasError(st')
    ensures HasError(st) ==> st.error == st'.error
    ensures !HasError(st) ==> ((st.isConnected || st.isLoading) <==> (st'.isConnected || st'.isLoading))
  {
    ErrorBannerIsNotNotConnected(st.error.GetOr(""));
    ErrorBannerIsNotNotConnected(st'.error.GetOr(""));
    if HasError(st) && HasError(st') {
      assert (ErrorPrefix + st.error.value)[|ErrorPrefix|..] == st.error.value;
      assert (ErrorPrefix + st'.error.value)[|ErrorPrefix|..] == st'.error.value;
    }
  }

  /** An error banner never reads as the not-connected banner. */
  lemma ErrorBannerIsNotNotConnected(e: string)
    ensures ErrorPrefix + e != NotConnected
  {
    assert (ErrorPrefix + e)[0] == 'D';
    assert NotConnected[0] == 'N';
  }

  /** The sender mapping: `sender === 'user' ? 'user' : 'bot'`. */
  function SenderOf(m: ChannelMessage): (s: Sender)
    ensures s == User <==> m.sender == "user"
  {
    if m.sender == "user" then User else Bot
  }

  /** The transcript projected from the channel's list: same length, order, ids and text. */
  function Project(dl: seq<ChannelMessage>): (r: seq<Message>)
    ensures |r| == |dl|
    ensures forall i :: 0 <= i < |dl| ==>
      r[i].id == dl[i].id && r[i].content == dl[i].text && (r[i].sender == User <==> dl[i].sender == "user")
  {
    if |dl| == 0 then [] else [Message(dl[0].id, SenderOf(dl[0]), dl[0].text)] + Project(dl[1..])
  }

  /** A channel list that grows by a suffix projects to a transcript that grows by that suffix's projection. */
  lemma ProjectAppend(a: seq<ChannelMessage>, b: seq<ChannelMessage>)
    ensures Project(a + b) == Project(a) + Project(b)
  {
  }
}
