/**
 * The session state of the `App` component and its event handlers, each a
 * pure transformation of the state. Calls into the voice, audio and Direct
 * Line hooks are recorded, in call order, in an effect log.
 */
module Session {
  import opened Wrappers
  import opened Transcript
  import opened Grounding
  import DirectLine
  import Chat
  import JsString

  /** A call into a hook whose implementation is outside the model. */
  datatype Effect =
    | StartSession
    | StartAudioRecording
    | StopAudioRecording
    | ResetAudioPlayer
    | StopAudioPlayer
    | PlayAudio(delta: string)
    | InputAudioBufferClear
    | SendTextMessage(text: string)
    | SendDirectLineMessage(text: string)

  /**
   * The `App` state fields the handlers update, the Direct Line hook's latest
   * message list (which the messages effect reads), and the log of hook calls.
   */
  datatype State = State(
    isRecording: bool,
    messages: seq<Message>,
    groundingFiles: seq<GroundingFile>,
    connectionError: Option<string>,
    channelMessages: seq<DirectLine.ChannelMessage>,
    effects: seq<Effect>)

  const NotConnectedRetry: string := "Not connected to Direct Line. Please try again."
  const SendFailed: string := "Failed to send message. Please try again."

  /** Suffixes of the `Date.now()`-based ids of locally created messages. */
  const UserIdSuffix: string := "-user"
  const BotIdSuffix: string := "-bot"

  /** Every field but `messages` is unchanged. */
  predicate OnlyMessagesChange(s: State, r: State) {
    r.isRecording == s.isRecording && r.groundingFiles == s.groundingFiles &&
    r.connectionError == s.connectionError && r.channelMessages == s.channelMessages &&
    r.effects == s.effects
  }

  /**
   * The Direct Line typing callback. `true` appends one "bot-thinking"
   * placeholder with no check for one already present; `false` removes every
   * "bot-thinking" entry and keeps the rest in order.
   */
  function OnTyping(s: State, typing: bool): (r: State)
    ensures OnlyMessagesChange(s, r)
    ensures typing ==>
      |r.messages| == |s.messages| + 1 && r.messages[..|s.messages|] == s.messages &&
      r.messages[|s.messages|] == BotThinking &&
      CountId(r.messages, BotThinkingId) == CountId(s.messages, BotThinkingId) + 1
    ensures !typing ==>
      CountId(r.messages, BotThinkingId) == 0 &&
      |r.messages| == |s.messages| - CountId(s.messages, BotThinkingId) &&
      (forall m :: m in r.messages <==> m in s.messages && m.id != BotThinkingId)
    ensures !typing ==> r.messages == RemoveId(s.messages, BotThinkingId)
  {
    if typing then
      CountIdSnoc(s.messages, BotThinking, BotThinkingId);
      s.(messages := s.messages + [BotThinking])
    else
      s.(messages := RemoveId(s.messages, BotThinkingId))
  }

  /** The connection-status effect: the banner is recomputed from the channel status alone. */
  function OnConnectionStatus(s: State, st: DirectLine.Status): (r: State)
    ensures r.isRecording == s.isRecording && r.messages == s.messages &&
      r.groundingFiles == s.groundingFiles && r.channelMessages == s.channelMessages &&
      r.effects == s.effects
    ensures r.connectionError == DirectLine.ConnectionError(st)
    ensures r.connectionError.Some? <==> DirectLine.HasError(st) || (!st.isConnected && !st.isLoading)
  {
    s.(connectionError := DirectLine.ConnectionError(st))
  }

  /** An audio delta is played only while recording; otherwise it is dropped. */
  function OnAudioDelta(s: State, delta: string): (r: State)
    ensures r.isRecording == s.isRecording && r.messages == s.messages &&
      r.groundingFiles == s.groundingFiles && r.connectionError == s.connectionError &&
      r.channelMessages == s.channelMessages
    ensures s.isRecording ==> r.effects == s.effects + [PlayAudio(delta)]
    ensures !s.isRecording ==> r == s
  {
    if s.isRecording then s.(effects := s.effects + [PlayAudio(delta)]) else s
  }

  /** Speech started: playback stops and one "transcribing" placeholder is appended, unconditionally. */
  function OnSpeechStarted(s: State): (r: State)
    ensures r.isRecording == s.isRecording && r.groundingFiles == s.groundingFiles &&
      r.connectionError == s.connectionError && r.channelMessages == s.channelMessages
    ensures r.effects == s.effects + [StopAudioPlayer]
    ensures |r.messages| == |s.messages| + 1 && r.messages[..|s.messages|] == s.messages &&
      r.messages[|s.messages|] == Transcribing
    ensures CountId(r.messages, TranscribingId) == CountId(s.messages, TranscribingId) + 1
  {
    CountIdSnoc(s.messages, Transcribing, TranscribingId);
    s.(messages := s.messages + [Transcribing], effects := s.effects + [StopAudioPlayer])
  }

  /**
   * Transcription completed: every "transcribing" message, from this turn or
   * any earlier one, takes the transcript as its content; then one
   * "bot-thinking" placeholder is appended even when no "transcribing"
   * message existed.
   */
  function OnTranscriptionCompleted(s: State, transcript: string): (r: State)
    ensures OnlyMessagesChange(s, r)
    ensures |r.messages| == |s.messages| + 1
    ensures forall i :: 0 <= i < |s.messages| ==>
      r.messages[i].id == s.messages[i].id && r.messages[i].sender == s.messages[i].sender &&
      r.messages[i].content == (if s.messages[i].id == TranscribingId then transcript else s.messages[i].content)
    ensures r.messages[|s.messages|] == BotThinking
    ensures CountId(r.messages, TranscribingId) == CountId(s.messages, TranscribingId)
    ensures CountId(r.messages, BotThinkingId) == CountId(s.messages, BotThinkingId) + 1
  {
    var replaced := ReplaceContent(s.messages, TranscribingId, transcript);
    ReplaceContentKeepsCounts(s.messages, TranscribingId, transcript, TranscribingId);
    ReplaceContentKeepsCounts(s.messages, TranscribingId, transcript, BotThinkingId);
    CountIdSnoc(replaced, BotThinking, TranscribingId);
    CountIdSnoc(replaced, BotThinking, BotThinkingId);
    s.(messages := replaced + [BotThinking])
  }

  /**
   * The message appended for a non-empty tool result: a bot message that no
   * placeholder removal can match, whose content is the chunks joined.
   */
  function AnswerMessage(now: string, srcs: seq<Source>): (m: Message)
    ensures m.sender == Bot && m.id != BotThinkingId && m.id != TranscribingId
    ensures |srcs| == 1 ==> m.content == srcs[0].chunk
  {
    LocalIdsAreNotPlaceholders(now);
    Message(now + BotIdSuffix, Bot, AnswerText(srcs))
  }

  /**
   * Tool response. The "bot-thinking" placeholders are removed first, so the
   * removal survives a result that fails to parse; that failure then aborts
   * the handler with the grounding files and the banner untouched. A parsed
   * result appends one grounding file per source, in order and duplicates
   * included, and one bot answer exactly when there is at least one source.
   */
  function OnToolResponse(s: State, result: ToolResult, now: string): (r: State)
    ensures r.isRecording == s.isRecording && r.connectionError == s.connectionError &&
      r.channelMessages == s.channelMessages && r.effects == s.effects
    ensures result.Malformed? ==>
      r.messages == RemoveId(s.messages, BotThinkingId) && r.groundingFiles == s.groundingFiles
    ensures result.Parsed? ==>
      |r.groundingFiles| == |s.groundingFiles| + |result.sources| &&
      r.groundingFiles[..|s.groundingFiles|] == s.groundingFiles &&
      (forall i :: 0 <= i < |result.sources| ==>
        r.groundingFiles[|s.groundingFiles| + i] ==
          GroundingFile(result.sources[i].chunkId, result.sources[i].title, result.sources[i].chunk))
    ensures result.Parsed? && |result.sources| == 0 ==> r.messages == RemoveId(s.messages, BotThinkingId)
    ensures result.Parsed? && |result.sources| > 0 ==>
      r.messages == RemoveId(s.messages, BotThinkingId) + [AnswerMessage(now, result.sources)]
    ensures CountId(r.messages, BotThinkingId) == 0
  {
    var cleared := RemoveId(s.messages, BotThinkingId);
    match result
    case Malformed => s.(messages := cleared)
    case Parsed(srcs) =>
      var files := s.groundingFiles + ToFiles(srcs);
      if |srcs| == 0 then s.(messages := cleared, groundingFiles := files)
      else
        var answer := AnswerMessage(now, srcs);
        CountIdSnoc(cleared, answer, BotThinkingId);
        s.(messages := cleared + [answer], groundingFiles := files)
  }

  /** Ids built from a timestamp never collide with the two placeholder ids. */
  lemma LocalIdsAreNotPlaceholders(now: string)
    ensures now + UserIdSuffix != BotThinkingId && now + UserIdSuffix != TranscribingId
    ensures now + BotIdSuffix != BotThinkingId && now + BotIdSuffix != TranscribingId
  {
    var u := now + UserIdSuffix;
    var b := now + BotIdSuffix;
    assert u[|u| - 1] == 'r' && b[|b| - 1] == 't';
    assert BotThinkingId[|BotThinkingId| - 1] == 'g';
    assert TranscribingId[|TranscribingId| - 1] == 'g';
  }

  /**
   * The microphone toggle. Entering recording starts the voice session, then
   * capture, then resets the player; leaving stops capture, then the player,
   * then clears the server-side input buffer. `recorderOk` is whether the
   * awaited start or stop of the recorder resolved: when it rejects, the
   * remaining calls and the mode change never happen. Leaving recording
   * changes a dependency of the messages effect, which then replaces the
   * transcript with the projection of the channel's latest list, so a voice
   * turn's messages do not survive it.
   */
  function OnToggleListening(s: State, recorderOk: bool): (r: State)
    ensures r.groundingFiles == s.groundingFiles && r.connectionError == s.connectionError &&
      r.channelMessages == s.channelMessages
    ensures !(s.isRecording && recorderOk) ==> r.messages == s.messages
    ensures s.isRecording && recorderOk ==> r.messages == DirectLine.Project(s.channelMessages)
    ensures r.isRecording == (if recorderOk then !s.isRecording else s.isRecording)
    ensures !s.isRecording ==>
      (r.effects == s.effects + if recorderOk then [StartSession, StartAudioRecording, ResetAudioPlayer]
                                else [StartSession, StartAudioRecording])
    ensures s.isRecording ==>
      (r.effects == s.effects + if recorderOk then [StopAudioRecording, StopAudioPlayer, InputAudioBufferClear]
                                else [StopAudioRecording])
  {
    if !s.isRecording then
      if recorderOk then
        s.(effects := s.effects + [StartSession, StartAudioRecording, ResetAudioPlayer], isRecording := true)
      else
        s.(effects := s.effects + [StartSession, StartAudioRecording])
    else if recorderOk then
      OnTextMessages(
        s.(effects := s.effects + [StopAudioRecording, StopAudioPlayer, InputAudioBufferClear], isRecording := false),
        s.channelMessages)
    else
      s.(effects := s.effects + [StopAudioRecording])
  }

  /**
   * `App.handleSend`, which does not trim. While recording it appends the
   * raw content as a user message and a "bot-thinking" placeholder and sends
   * the content on the voice channel. Otherwise a disconnected text channel
   * only sets the banner; a connected one is sent the content, and when that
   * send fails every "bot-thinking" is removed and the banner reports it.
   */
  function HandleSend(s: State, content: string, now: string, connected: bool, delivered: bool): (r: State)
    ensures r.isRecording == s.isRecording && r.groundingFiles == s.groundingFiles &&
      r.channelMessages == s.channelMessages
    ensures s.isRecording ==>
      r.messages == s.messages + [Message(now + UserIdSuffix, User, content), BotThinking] &&
      r.effects == s.effects + [SendTextMessage(content)] && r.connectionError == s.connectionError
    ensures !s.isRecording && !connected ==>
      r.messages == s.messages && r.effects == s.effects && r.connectionError == Some(NotConnectedRetry)
    ensures !s.isRecording && connected ==> r.effects == s.effects + [SendDirectLineMessage(content)]
    ensures !s.isRecording && connected && delivered ==>
      r.messages == s.messages && r.connectionError == s.connectionError
    ensures !s.isRecording && connected && !delivered ==>
      r.messages == RemoveId(s.messages, BotThinkingId) && r.connectionError == Some(SendFailed)
  {
    if s.isRecording then
      s.(messages := s.messages + [Message(now + UserIdSuffix, User, content), BotThinking],
         effects := s.effects + [SendTextMessage(content)])
    else if !connected then
      s.(connectionError := Some(NotConnectedRetry))
    else if delivered then
      s.(effects := s.effects + [SendDirectLineMessage(content)])
    else
      s.(effects := s.effects + [SendDirectLineMessage(content)],
         messages := RemoveId(s.messages, BotThinkingId),
         connectionError := Some(SendFailed))
  }

  /**
   * A new message list from the Direct Line hook, and the messages effect it
   * triggers: the list is kept in either mode; while not recording the
   * transcript is replaced wholesale by its projection, while recording it is
   * left alone.
   */
  function OnTextMessages(s: State, dl: seq<DirectLine.ChannelMessage>): (r: State)
    ensures r.isRecording == s.isRecording && r.groundingFiles == s.groundingFiles &&
      r.connectionError == s.connectionError && r.effects == s.effects
    ensures r.channelMessages == dl
    ensures s.isRecording ==> r.messages == s.messages
    ensures !s.isRecording ==> |r.messages| == |dl| && forall i :: 0 <= i < |dl| ==>
      r.messages[i].id == dl[i].id && r.messages[i].content == dl[i].text &&
      (r.messages[i].sender == User <==> dl[i].sender == "user")
  {
    if !s.isRecording then s.(messages := DirectLine.Project(dl), channelMessages := dl)
    else s.(channelMessages := dl)
  }

  /** Everything that can reach the session, with the values the unseen hooks supply. */
  datatype Event =
    | Typing(typing: bool)
    | ConnectionStatus(status: DirectLine.Status)
    | AudioDelta(delta: string)
    | SpeechStarted
    | TranscriptionCompleted(transcript: string)
    | ToolResponse(result: ToolResult, now: string)
    | ToggleListening(recorderOk: bool)
    | Send(content: string, now: string, connected: bool, delivered: bool)
    | TextMessages(messages: seq<DirectLine.ChannelMessage>)

  /** One event applied to the state. */
  function Step(s: State, e: Event): State {
    match e
    case Typing(typing) => OnTyping(s, typing)
    case ConnectionStatus(st) => OnConnectionStatus(s, st)
    case AudioDelta(delta) => OnAudioDelta(s, delta)
    case SpeechStarted => OnSpeechStarted(s)
    case TranscriptionCompleted(t) => OnTranscriptionCompleted(s, t)
    case ToolResponse(result, now) => OnToolResponse(s, result, now)
    case ToggleListening(ok) => OnToggleListening(s, ok)
    case Send(content, now, connected, delivered) => HandleSend(s, content, now, connected, delivered)
    case TextMessages(dl) => OnTextMessages(s, dl)
  }

  /** Events applied one after another, in arrival order. */
  function Run(s: State, evs: seq<Event>): State
    decreases |evs|
  {
    if |evs| == 0 then s else Run(Step(s, evs[0]), evs[1..])
  }

  /** The input box and the session together: what the user typing and pressing send does. */
  datatype Ui = Ui(input: string, session: State)

  /**
   * Pressing the send button, with `isLoading` the Direct Line loading flag
   * `App` passes down. A disabled button does nothing; otherwise the chat
   * guard runs, then `App.handleSend` with the raw input.
   */
  function Submit(u: Ui, isLoading: bool, now: string, connected: bool, delivered: bool): (r: Ui)
    ensures Chat.SendDisabled(u.input, u.session.isRecording, isLoading) ==> r == u
    ensures r != u ==> !JsString.AllWhite(u.input) && !u.session.isRecording && !isLoading
    ensures !JsString.AllWhite(u.input) && !u.session.isRecording && !isLoading ==>
      r.input == "" && r.session == HandleSend(u.session, u.input, now, connected, delivered)
  {
    if Chat.SendDisabled(u.input, u.session.isRecording, isLoading) then u
    else
      var sub := Chat.HandleSend(u.input);
      match sub.sent
      case Some(content) => Ui(sub.input, HandleSend(u.session, content, now, connected, delivered))
      case None => Ui(sub.input, u.session)
  }

  /**
   * A key press in the input box, which is disabled while recording or
   * loading; when enabled, Enter runs the chat guard and then
   * `App.handleSend`, and any other key changes nothing.
   */
  function PressKey(u: Ui, key: string, isLoading: bool, now: string, connected: bool, delivered: bool): (r: Ui)
    ensures Chat.InputDisabled(u.session.isRecording, isLoading) || key != Chat.EnterKey ==> r == u
    ensures key == Chat.EnterKey ==> r == Submit(u, isLoading, now, connected, delivered)
  {
    if Chat.InputDisabled(u.session.isRecording, isLoading) then u
    else
      var sub := Chat.HandleInputKeyDown(u.input, key);
      match sub.sent
      case Some(content) => Ui(sub.input, HandleSend(u.session, content, now, connected, delivered))
      case None => Ui(sub.input, u.session)
  }
}
