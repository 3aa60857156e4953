# Session core of the voice/text chat client, in Dafny

This project models the session logic of a chat client. The client talks to an
assistant over one of two channels:

- a duplex **voice channel** (the realtime socket, with speech-started,
  transcription, audio-delta and tool-response events);
- a turn-based **text channel** (Bot Framework Direct Line).

The `App` component owns four pieces of session state:

- the recording mode;
- the transcript of `{id, sender, content}` messages;
- the grounding files cited by tool results;
- the connection-error banner.

`State` also holds the Direct Line hook's latest message list. The messages
effect reads that list, and it runs again whenever recording stops.

Every event handler of `App` is modelled as a pure function from one `State`
to the next. Calls into the audio, realtime and Direct Line hooks are not
modelled as behaviour. Each call is appended to an effect log in `State`.
The input guard of the `Chat` component is modelled too. It is the only place
where blank input is filtered out.

Modules, one per concern:

- `JsString` (`js_string.dfy`): `String.prototype.trim` over the ECMAScript
  white-space and line-terminator characters, and `Array.prototype.join`, with
  the offsets at which each part lands.
- `Transcript` (`transcript.dfy`): `ChatMessage`, the two placeholder ids
  `"bot-thinking"` and `"transcribing"`, and the filter-by-id and
  replace-content-by-id operations.
- `Grounding` (`grounding.dfy`): tool-result sources, grounding files, and the
  bot answer built from the chunks.
- `DirectLine` (`direct_line.dfy`): the text channel's status, the banner
  derived from it, and the projection of its message list.
- `Chat` (`chat.dfy`): submit, Enter key, and the two `disabled` predicates.
- `Session` (`session.dfy`): `State`, `Effect`, one function per handler, the
  `Event`/`Step`/`Run` reducer, and `Submit` and `PressKey` (input box plus
  session, behind the `disabled` attributes).
- `SessionProperties` (`session_properties.dfy`): properties over several
  events, and whole voice and text turns.

What the code does, as the proofs show it:

- Placeholders are appended with no existence check. Two typing notifications
  in a row leave two `"bot-thinking"` entries. Two speech-started events leave
  two `"transcribing"` entries.
- The `"transcribing"` id is never renamed. A later transcript overwrites the
  user message of every earlier voice turn.
- A transcription with no `"transcribing"` entry still appends a
  `"bot-thinking"` entry.
- A tool result that fails to parse still removes the `"bot-thinking"`
  entries. It adds no grounding file and sets no banner.
- `App.handleSend` does not trim its input. Only the chat guard does, and the
  guard passes the raw, untrimmed input on.
- Leaving recording changes a dependency of the messages effect. The
  transcript then becomes the projection of the channel's latest list, so the
  messages of every voice turn are dropped.
- While recording, the text field and the send button are both disabled. The
  voice branch of `App.handleSend` therefore cannot be reached from the chat
  box.

## Model

| member | source | states |
|---|---|---|
| `Session.OnTyping` | app/frontend/src/App.tsx:30-43 | `typing=true` appends exactly one "bot-thinking" at the end and raises its count by one; `typing=false` gives exactly the placeholder filter of the transcript, so no "bot-thinking" is left, the other messages are kept in order, and the list shrinks by the number removed; nothing but the transcript changes |
| `SessionProperties.TypingTwiceDuplicates` | app/frontend/src/App.tsx:30-39 | two typing notifications in a row leave two placeholders: the count of "bot-thinking" grows by two |
| `DirectLine.ConnectionError` | app/frontend/src/App.tsx:46-54 | a truthy channel error gives "Direct Line Error: " + error; otherwise a channel neither connected nor loading gives "Not connected to Direct Line"; otherwise no banner; an empty error string counts as no error |
| `DirectLine.BannerDeterminesCause` | app/frontend/src/App.tsx:46-54 | equal banners come from the same branch, and in the error branch from the same error text, so the banner tells its cause apart |
| `DirectLine.ErrorBannerIsNotNotConnected` | app/frontend/src/App.tsx:48-50 | no error text makes the error banner read as the not-connected banner |
| `Session.OnConnectionStatus` | app/frontend/src/App.tsx:46-54 | the banner becomes the priority function of the channel status alone, whatever the recording mode, and is present iff there is an error or the channel is neither connected nor loading; nothing else changes |
| `Session.OnAudioDelta` | app/frontend/src/App.tsx:62-64 | an audio delta produces a play call iff recording; otherwise the state is untouched |
| `SessionProperties.DeltasPlayInArrivalOrder` | app/frontend/src/App.tsx:62-64 | while recording, a stream of audio deltas becomes one play call per delta, in arrival order, with mode and transcript untouched |
| `SessionProperties.DeltasDroppedWhenNotRecording` | app/frontend/src/App.tsx:62-64 | while not recording, a whole stream of audio deltas is dropped and the state is exactly as before |
| `Session.OnSpeechStarted` | app/frontend/src/App.tsx:65-75 | playback is stopped and exactly one "transcribing" user placeholder is appended at the end, whatever is already present |
| `SessionProperties.SpeechStartedTwiceDuplicates` | app/frontend/src/App.tsx:65-75 | two speech-started events leave two "transcribing" placeholders and two stop calls |
| `Transcript.ReplaceContent` | app/frontend/src/App.tsx:77-81 | every message with the id gets the new content; length, order, ids, senders and all other contents are kept |
| `Transcript.ReplaceContentKeepsCounts` | app/frontend/src/App.tsx:77-81 | replacing content never adds or removes a message with any id |
| `Session.OnTranscriptionCompleted` | app/frontend/src/App.tsx:76-90 | every "transcribing" message takes the transcript and all others are unchanged; one "bot-thinking" is appended, so the length grows by exactly one and no "transcribing" is added |
| `SessionProperties.TranscriptionWithoutPlaceholderAppends` | app/frontend/src/App.tsx:76-90 | with no "transcribing" entry the transcript is kept as is and a "bot-thinking" is still appended: the event is not a no-op |
| `SessionProperties.LaterTranscriptOverwritesEarlierTurn` | app/frontend/src/App.tsx:65-90 | over two voice turns the second transcript overwrites the first turn's user message too, and both turns' "bot-thinking" placeholders remain |
| `Transcript.RemoveId` | app/frontend/src/App.tsx:92 | the filter leaves no message with the id, keeps exactly the others, and shrinks the list by the number of messages with the id |
| `Transcript.RemoveIdAppend` | app/frontend/src/App.tsx:41 | the filter works piecewise over concatenation, so survivors keep their relative order |
| `Transcript.RemoveIdAbsent` | app/frontend/src/App.tsx:160 | a transcript without the id is returned unchanged |
| `Transcript.RemoveIdIdempotent` | app/frontend/src/App.tsx:92 | filtering the placeholders twice equals filtering once |
| `Session.OnToolResponse` | app/frontend/src/App.tsx:91-108 | "bot-thinking" is removed first, also for a malformed result, which leaves grounding files and banner unchanged; a parsed result appends one grounding file per source in source order, mapping chunk_id/title/chunk to id/name/content; exactly one bot answer is appended iff there is a source; no "bot-thinking" remains |
| `Session.AnswerMessage` | app/frontend/src/App.tsx:99-106 | the answer is a bot message whose id is neither placeholder id, and for one source its content is exactly that chunk |
| `Session.LocalIdsAreNotPlaceholders` | app/frontend/src/App.tsx:102 | the timestamp-based "-user" and "-bot" ids never equal either placeholder id |
| `Grounding.ToFiles` | app/frontend/src/App.tsx:94-96 | one file per source, same order, with id, name and content taken from chunk_id, title and chunk |
| `Grounding.ToFilesAppend` | app/frontend/src/App.tsx:94-97 | mapping sources works piecewise, so files appended across responses keep source order |
| `Grounding.Chunks` | app/frontend/src/App.tsx:104 | the chunk list has one entry per source, in order |
| `Grounding.AnswerCarriesChunks` | app/frontend/src/App.tsx:104 | each source's chunk appears verbatim in the answer at its offset (the earlier chunks plus one separator each), followed by the blank-line separator unless it is the last |
| `Grounding.AnswerOfOneSource` | app/frontend/src/App.tsx:104 | a single source's answer is exactly its chunk |
| `JsString.Join` | app/frontend/src/App.tsx:104 | joining no parts gives ""; otherwise the joined string ends right after the last part, at its offset, with no separator after it |
| `JsString.JoinPart` | app/frontend/src/App.tsx:104 | part k lies in the joined string at its offset (the earlier parts plus one separator each) |
| `JsString.JoinSeparator` | app/frontend/src/App.tsx:104 | between part k and part k+1 the joined string holds exactly the separator |
| `SessionProperties.GroundingAccumulates` | app/frontend/src/App.tsx:97 | over any sequence of events the grounding files only grow at the end, by the total number of sources of the parsed tool responses, duplicates included |
| `Session.OnToggleListening` | app/frontend/src/App.tsx:114-128 | entering recording calls start session, start capture, reset player in that order and sets recording; leaving calls stop capture, stop player, clear input buffer, clears it, and (through the messages effect) replaces the transcript with the projection of the channel's latest list; a rejected recorder call stops the sequence and leaves mode and transcript unchanged |
| `SessionProperties.ToggleParity` | app/frontend/src/App.tsx:114-128 | after n completed toggles the recording mode is flipped iff n is odd; the channel list is kept; the transcript is either the original one or the channel projection, and it is the projection whenever a toggle happened and recording is off at the end |
| `SessionProperties.ToggleOnThenOff` | app/frontend/src/App.tsx:114-128 | on then off makes the six hook calls in order, returns to not recording, and leaves the projection of the channel's latest list as the transcript |
| `SessionProperties.EffectsAppendOnly` | app/frontend/src/App.tsx:114-164 | over any sequence of events the hook-call log only grows at the end |
| `Session.HandleSend` | app/frontend/src/App.tsx:132-164 | recording: appends the raw content as a user message, then "bot-thinking", then sends it by voice; not recording and disconnected: only the retry banner is set; connected: sent by Direct Line, and on failure every "bot-thinking" is removed and the failure banner set |
| `SessionProperties.UserMessageSurvivesToolResponse` | app/frontend/src/App.tsx:135-149 | the user message of a voice-mode send survives the next tool response, which leaves no "bot-thinking" |
| `DirectLine.SenderOf` | app/frontend/src/App.tsx:175 | the sender is user iff the channel's sender is "user", bot otherwise |
| `DirectLine.Project` | app/frontend/src/App.tsx:173-177 | the projected transcript keeps the channel list's length and order, its ids, and its text as content, with user sender iff the channel sender is "user" |
| `DirectLine.ProjectAppend` | app/frontend/src/App.tsx:173-177 | a channel list that grows by a suffix projects to a transcript that grows by that suffix's projection |
| `Session.OnTextMessages` | app/frontend/src/App.tsx:171-179 | the hook's list is stored in either mode; not recording: the transcript is replaced wholesale by its projection; recording: it is untouched; mode, files, banner and hook calls do not change |
| `SessionProperties.TextTurn` | app/frontend/src/App.tsx:150-179 | typing "hello" while connected and not loading sends it to Direct Line, clears the box and leaves the transcript; once the channel echoes it, the transcript is the projected channel list, one entry per channel message, ending with the echoed "hello" |
| `SessionProperties.VoiceTurn` | app/frontend/src/App.tsx:65-128 | toggle on, speech, transcript, one-source tool result: recording, the transcript ends with a bot answer that is exactly the chunk, no "bot-thinking" remains, and the grounding files end with that source's file; toggling off afterwards replaces that transcript with the channel projection |
| `JsString.TrimStart` | app/frontend/src/components/ui/chat.tsx:39 | the result is the suffix starting at the first non-white character; all dropped characters are white |
| `JsString.TrimEnd` | app/frontend/src/components/ui/chat.tsx:39 | the result is the prefix ending at the last non-white character; all dropped characters are white |
| `JsString.Trim` | app/frontend/src/components/ui/chat.tsx:39 | the trimmed string is no longer than the input and neither starts nor ends with a white-space character |
| `JsString.IsBlank` | app/frontend/src/components/ui/chat.tsx:39 | `!input.trim()` holds iff every character is white space |
| `Chat.HandleSend` | app/frontend/src/components/ui/chat.tsx:38-43 | onSend is called iff the input holds a non-white character; it gets the raw, untrimmed input and the box is cleared; otherwise the input stays and no call is made |
| `Chat.HandleInputKeyDown` | app/frontend/src/components/ui/chat.tsx:45-49 | Enter goes through the same guard as the button; any other key never sends and keeps the input |
| `Chat.SendDisabled` | app/frontend/src/components/ui/chat.tsx:148 | the send button is disabled iff the input is all white space, or recording, or loading |
| `Chat.InputDisabled` | app/frontend/src/components/ui/chat.tsx:135 | whenever the text field is disabled, the send button is disabled too, for every input |
| `Chat.EnabledButtonSends` | app/frontend/src/components/ui/chat.tsx:38-148 | an enabled button sends the raw input; when neither recording nor loading, the guard sends only what an enabled button would |
| `Session.Submit` | app/frontend/src/components/ui/chat.tsx:38-148 | a disabled button changes nothing; the box or the session changes only for input with a non-white character while neither recording nor loading, and then the box is cleared and the raw input goes to `App.handleSend` |
| `Session.PressKey` | app/frontend/src/components/ui/chat.tsx:45-135 | a disabled text field or a key other than Enter changes nothing; Enter has exactly the effect of pressing the send button |
| `SessionProperties.BlankInputIsNoOp` | app/frontend/src/components/ui/chat.tsx:38-49 | a blank submission, by button or by key, leaves box, transcript, banner, mode and hook-call log exactly as they were |
| `SessionProperties.VoiceSendUnreachableFromChat` | app/frontend/src/App.tsx:133-149 | while recording neither the send button nor any key press changes anything, so the voice branch of `App.handleSend` is never reached from the chat box |

## Left out

- The hooks `useRealtime`, `useAudioRecorder`, `useAudioPlayer` and `useDirectLine` are not part of this model. Their calls are entries of the effect log. What they return is an event parameter: the channel status, the channel's message list, whether a send was delivered, and whether a recorder start or stop resolved.
- The JSON grammar of `tool_result` is not modelled. The handler receives the parse outcome: either the source list, or `Malformed` for text that is not JSON or has no `sources` list. Source fields are taken to be strings. JavaScript's coercion of other values in `map` and `join` is not modelled.
- `Date.now()` ids are built from a caller-supplied timestamp string. No uniqueness is claimed, because the code does not guarantee it.
- Asynchrony is not modelled. Each handler runs to completion, and its `setMessages` updates apply in source order. React batching, stale closures over `isRecording`, and interleaving across an `await` are not modelled. This includes the awaited Direct Line send and the awaited recorder start and stop. Two overlapping toggles are therefore not modelled either. The code does not serialize them: a second toggle can start while the first still awaits the recorder.
- `useEffect` dependency tracking is not modelled. A `ConnectionStatus` event stands for the banner effect re-running after one of `isConnected`, `isLoading` or `error` changed. A `TextMessages` event stands for the messages effect re-running after the hook's list changed. An event whose values equal the previous ones is not a re-render the program would react to. For example, it would overwrite a banner that `App.handleSend` set, which the program keeps.
- The WebSocket open, close and error callbacks and `onReceivedError` only write to the console. They change no state, so they are left out.
- Audio decoding, capture and playback exist only as effect-log entries.
- Rendering, markdown, scrolling, translation, the history panel, the grounding-file view, and the `showHistory` and `selectedFile` state are presentation only.
- The backend Direct Line proxy (`app/backend/directline.py`) is network plumbing and is not part of this model.
