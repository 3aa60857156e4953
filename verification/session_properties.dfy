/**
 * Properties of the session that span several events: what the placeholder
 * handlers do when repeated, how grounding files and the effect log
 * accumulate over any run, the toggle's parity, and end-to-end turns on
 * the voice and text channels.
 */
module SessionProperties {
  import opened Transcript
  import opened Grounding
  import DirectLine
  import JsString
  import opened Session

  /** Two typing notifications in a row leave two placeholders: the append is not idempotent. */
  lemma TypingTwiceDuplicates(s: State)
    ensures OnTyping(OnTyping(s, true), true).messages == s.messages + [BotThinking, BotThinking]
    ensures CountId(OnTyping(OnTyping(s, true), true).messages, BotThinkingId) == CountId(s.messages, BotThinkingId) + 2
  {
  }

  /** Two speech-started events in a row leave two "transcribing" placeholders and two stop calls. */
  lemma SpeechStartedTwiceDuplicates(s: State)
    ensures OnSpeechStarted(OnSpeechStarted(s)).messages == s.messages + [Transcribing, Transcribing]
    ensures OnSpeechStarted(OnSpeechStarted(s)).effects == s.effects + [StopAudioPlayer, StopAudioPlayer]
    ensures CountId(OnSpeechStarted(OnSpeechStarted(s)).messages, TranscribingId) == CountId(s.messages, TranscribingId) + 2
  {
  }

  /**
   * A transcription that arrives with no "transcribing" placeholder is not a
   * no-op: the transcript is kept as is and a "bot-thinking" is appended.
   */
  lemma TranscriptionWithoutPlaceholderAppends(s: State, transcript: string)
    requires CountId(s.messages, TranscribingId) == 0
    ensures OnTranscriptionCompleted(s, transcript).messages == s.messages + [BotThinking]
  {
    CountIdZero(s.messages, TranscribingId);
    var r := OnTranscriptionCompleted(s, transcript);
    assert r.messages[..|s.messages|] == s.messages;
    assert r.messages == r.messages[..|s.messages|] + [r.messages[|s.messages|]];
  }

  /**
   * The "transcribing" id is reused across turns, so the second turn's
   * transcript overwrites the first turn's user message, and the two
   * "bot-thinking" placeholders of the two turns both remain.
   */
  lemma LaterTranscriptOverwritesEarlierTurn(s: State, first: string, second: string)
    ensures var r := OnTranscriptionCompleted(OnSpeechStarted(OnTranscriptionCompleted(OnSpeechStarted(s), first)), second);
      |r.messages| == |s.messages| + 4 &&
      r.messages[|s.messages|] == Message(TranscribingId, User, second) &&
      r.messages[|s.messages| + 2] == Message(TranscribingId, User, second) &&
      CountId(r.messages, BotThinkingId) == CountId(s.messages, BotThinkingId) + 2
  {
    var s1 := OnSpeechStarted(s);
    var s2 := OnTranscriptionCompleted(s1, first);
    var s3 := OnSpeechStarted(s2);
    var s4 := OnTranscriptionCompleted(s3, second);
    var n := |s.messages|;
    assert s1.messages[n] == Transcribing;
    assert s2.messages[n] == Message(TranscribingId, User, first);
    assert s3.messages[n] == s2.messages[n];
    assert s3.messages[n + 2] == Transcribing;
    assert s4.messages[n].content == second;
    assert s4.messages[n + 2].content == second;
    CountIdSnoc(s.messages, Transcribing, BotThinkingId);
    CountIdSnoc(s2.messages, Transcribing, BotThinkingId);
  }

  /** How many sources one event adds to the grounding files: those of a parsed tool response, else none. */
  function SourcesOf(e: Event): nat {
    match e
    case ToolResponse(Parsed(srcs), _) => |srcs|
    case _ => 0
  }

  /** How many sources the parsed tool responses among `evs` carry, duplicates included. */
  function SourcesIn(evs: seq<Event>): nat
    decreases |evs|
  {
    if |evs| == 0 then 0 else SourcesOf(evs[0]) + SourcesIn(evs[1..])
  }

  /** One event extends the grounding files at the end by its own sources. */
  lemma StepGrounding(s: State, e: Event)
    ensures |Step(s, e).groundingFiles| == |s.groundingFiles| + SourcesOf(e)
    ensures Step(s, e).groundingFiles[..|s.groundingFiles|] == s.groundingFiles
  {
  }

  /**
   * Over any run of events the grounding files only grow at the end, by
   * exactly the number of sources the parsed tool responses carried;
   * malformed results add nothing.
   */
  lemma {:induction false} GroundingAccumulates(s: State, evs: seq<Event>)
    ensures |Run(s, evs).groundingFiles| == |s.groundingFiles| + SourcesIn(evs)
    ensures Run(s, evs).groundingFiles[..|s.groundingFiles|] == s.groundingFiles
    decreases |evs|
  {
    if |evs| > 0 {
      var s1 := Step(s, evs[0]);
      StepGrounding(s, evs[0]);
      GroundingAccumulates(s1, evs[1..]);
      var g := Run(s1, evs[1..]).groundingFiles;
      assert g[..|s.groundingFiles|] == g[..|s1.groundingFiles|][..|s.groundingFiles|];
    }
  }

  /** One event keeps the hook-call log as a prefix of the new one. */
  lemma StepEffects(s: State, e: Event)
    ensures |Step(s, e).effects| >= |s.effects|
    ensures Step(s, e).effects[..|s.effects|] == s.effects
  {
  }

  /** The effect log is append-only: no event takes back a hook call. */
  lemma {:induction false} EffectsAppendOnly(s: State, evs: seq<Event>)
    ensures |Run(s, evs).effects| >= |s.effects|
    ensures Run(s, evs).effects[..|s.effects|] == s.effects
    decreases |evs|
  {
    if |evs| > 0 {
      var s1 := Step(s, evs[0]);
      StepEffects(s, evs[0]);
      EffectsAppendOnly(s1, evs[1..]);
      var e := Run(s1, evs[1..]).effects;
      assert e[..|s.effects|] == e[..|s1.effects|][..|s.effects|];
    }
  }

  /** `n` toggles whose recorder calls all resolve. */
  function Toggles(n: nat): (evs: seq<Event>)
    ensures |evs| == n
    ensures forall i :: 0 <= i < n ==> evs[i] == ToggleListening(true)
  {
    if n == 0 then [] else [ToggleListening(true)] + Toggles(n - 1)
  }

  /** After `n` completed toggles the recording mode has flipped exactly when `n` is odd. */
  lemma {:induction false} ToggleParity(s: State, n: nat)
    ensures Run(s, Toggles(n)).isRecording == (if n % 2 == 1 then !s.isRecording else s.isRecording)
    ensures Run(s, Toggles(n)).channelMessages == s.channelMessages
    ensures Run(s, Toggles(n)).messages == s.messages ||
      Run(s, Toggles(n)).messages == DirectLine.Project(s.channelMessages)
    ensures n > 0 && !Run(s, Toggles(n)).isRecording ==>
      Run(s, Toggles(n)).messages == DirectLine.Project(s.channelMessages)
    decreases n
  {
    if n > 0 {
      var s1 := OnToggleListening(s, true);
      assert Toggles(n)[1..] == Toggles(n - 1);
      ToggleParity(s1, n - 1);
    }
  }

  /** Audio-delta events carrying `ds`, in arrival order. */
  function Deltas(ds: seq<string>): (evs: seq<Event>)
    ensures |evs| == |ds|
    ensures forall i :: 0 <= i < |ds| ==> evs[i] == AudioDelta(ds[i])
  {
    if |ds| == 0 then [] else [AudioDelta(ds[0])] + Deltas(ds[1..])
  }

  /** The play calls for `ds`, in the same order. */
  function Plays(ds: seq<string>): (es: seq<Effect>)
    ensures |es| == |ds|
  {
    if |ds| == 0 then [] else [PlayAudio(ds[0])] + Plays(ds[1..])
  }

  /** The first delta of a stream is handled before the rest. */
  lemma RunDeltas(s: State, ds: seq<string>)
    requires |ds| > 0
    ensures Run(s, Deltas(ds)) == Run(OnAudioDelta(s, ds[0]), Deltas(ds[1..]))
  {
    var evs := Deltas(ds);
    assert evs[0] == AudioDelta(ds[0]);
    assert evs[1..] == Deltas(ds[1..]);
  }

  /** While recording, a stream of audio deltas is handed to the player one call per delta, in arrival order. */
  lemma {:induction false} DeltasPlayInArrivalOrder(s: State, ds: seq<string>)
    requires s.isRecording
    ensures Run(s, Deltas(ds)).effects == s.effects + Plays(ds)
    ensures Run(s, Deltas(ds)).isRecording && Run(s, Deltas(ds)).messages == s.messages
    decreases |ds|
  {
    if |ds| > 0 {
      var s1 := OnAudioDelta(s, ds[0]);
      RunDeltas(s, ds);
      DeltasPlayInArrivalOrder(s1, ds[1..]);
      assert Plays(ds) == [PlayAudio(ds[0])] + Plays(ds[1..]);
      assert s1.effects + Plays(ds[1..]) == s.effects + Plays(ds);
    } else {
      assert Plays(ds) == [];
      assert s.effects + [] == s.effects;
    }
  }

  /** While not recording, a whole stream of audio deltas is dropped and the state is untouched. */
  lemma {:induction false} DeltasDroppedWhenNotRecording(s: State, ds: seq<string>)
    requires !s.isRecording
    ensures Run(s, Deltas(ds)) == s
    decreases |ds|
  {
    if |ds| > 0 {
      RunDeltas(s, ds);
      DeltasDroppedWhenNotRecording(s, ds[1..]);
    }
  }

  /**
   * Starting and then stopping recording calls, in order: start session,
   * start capture, reset player, stop capture, stop player, clear the input
   * buffer; the mode ends where it began.
   */
  lemma ToggleOnThenOff(s: State)
    requires !s.isRecording
    ensures var r := OnToggleListening(OnToggleListening(s, true), true);
      !r.isRecording &&
      r.effects == s.effects + [StartSession, StartAudioRecording, ResetAudioPlayer,
                                StopAudioRecording, StopAudioPlayer, InputAudioBufferClear] &&
      r.messages == DirectLine.Project(s.channelMessages)
  {
  }

  /** A voice-mode send's user message survives the next tool response, which removes only placeholders. */
  lemma UserMessageSurvivesToolResponse(s: State, content: string, now: string, result: ToolResult, later: string)
    requires s.isRecording
    ensures var r := OnToolResponse(HandleSend(s, content, now, false, false), result, later);
      Message(now + UserIdSuffix, User, content) in r.messages && CountId(r.messages, BotThinkingId) == 0
  {
    var m := Message(now + UserIdSuffix, User, content);
    var s1 := HandleSend(s, content, now, false, false);
    var r := OnToolResponse(s1, result, later);
    LocalIdsAreNotPlaceholders(now);
    assert m in s1.messages by {
      assert s1.messages[|s.messages|] == m;
    }
    var cleared := RemoveId(s1.messages, BotThinkingId);
    assert m in cleared;
    assert r.messages[..|cleared|] == cleared;
  }

  /**
   * A full voice turn: turn recording on, speak, receive the transcript, then
   * a tool result citing one source. The transcript ends with a bot answer
   * holding exactly that source's chunk, no placeholder is left, and the
   * grounding files end with the source's file.
   */
  lemma VoiceTurn(s: State, question: string, x: Source, now: string)
    requires !s.isRecording
    ensures var r := OnToolResponse(OnTranscriptionCompleted(OnSpeechStarted(OnToggleListening(s, true)), question),
                                    Parsed([x]), now);
      r.isRecording &&
      |r.messages| > 0 && r.messages[|r.messages| - 1] == Message(now + BotIdSuffix, Bot, x.chunk) &&
      CountId(r.messages, BotThinkingId) == 0 &&
      |r.groundingFiles| == |s.groundingFiles| + 1 &&
      r.groundingFiles[|s.groundingFiles|] == GroundingFile(x.chunkId, x.title, x.chunk) &&
      OnToggleListening(r, true).messages == DirectLine.Project(s.channelMessages)
  {
  }

  /**
   * A text turn: typing "hello" while the text channel is connected sends it
   * there and clears the box; once the channel's list echoes it, the
   * transcript is that list, so "hello" appears from the echo alone and no
   * local copy is added.
   */
  lemma TextTurn(s: State, now: string, dl: seq<DirectLine.ChannelMessage>, id: string)
    requires !s.isRecording
    ensures var u := Submit(Ui("hello", s), false, now, true, true);
      u.input == "" &&
      u.session.effects == s.effects + [SendDirectLineMessage("hello")] &&
      u.session.messages == s.messages &&
      var r := OnTextMessages(u.session, dl + [DirectLine.ChannelMessage(id, "user", "hello")]);
      |r.messages| == |dl| + 1 && r.messages[|dl|] == Message(id, User, "hello")
  {
    assert !JsString.IsWhite("hello"[0]);
    var full := dl + [DirectLine.ChannelMessage(id, "user", "hello")];
    assert full[|dl|] == DirectLine.ChannelMessage(id, "user", "hello");
  }

  /** Blank or white-space-only input changes nothing and calls no channel, by button or by Enter. */
  lemma BlankInputIsNoOp(u: Ui, key: string, isLoading: bool, now: string, connected: bool, delivered: bool)
    requires JsString.IsBlank(u.input)
    ensures Submit(u, isLoading, now, connected, delivered) == u
    ensures PressKey(u, key, isLoading, now, connected, delivered) == u
  {
  }

  /**
   * While recording, the chat's text field and send button are both
   * disabled, so the voice branch of `App.handleSend` is never reached from
   * the chat box: neither the button nor a key press changes anything.
   */
  lemma VoiceSendUnreachableFromChat(u: Ui, key: string, isLoading: bool, now: string, connected: bool, delivered: bool)
    requires u.session.isRecording
    ensures Submit(u, isLoading, now, connected, delivered) == u
    ensures PressKey(u, key, isLoading, now, connected, delivered) == u
  {
  }
}
