# jarvis-core-console in Dafny

A model of the behaviour of the voice console in `jarvis-core-console`, with proofs about it.
It covers four React components.

- **`JarvisInterface`** handles one spoken command.
  - `toggleRecording` starts recording once the microphone is granted. Called again, it stops the recorder and arms a 500 ms timer.
  - The timer sends the clip the recorder's `onstop` produced to a webhook, or prompts for the URL when it is empty.
  - An ok reply shows its text while the status is `speaking` for 3000 ms. A failed reply shows an error flag for 3000 ms.
  - `resetConversation` returns to standby. A one-second interval counts the recording time.
  - As written, the component renders only its four HUD corners. No element calls `toggleRecording` or `resetConversation`; the model treats each as an event that may happen at any time.
  - The HUD corners show VOICE, MIC, LATENCY, AUDIO (`m:ss`) and STATUS, all derived from this state.
- **`SpeechBubble`** and **`ChatMessage`** type a text out one UTF-16 code unit per interval tick, as `length` and `slice` count them. When it is done, the bubble schedules its `onClose` callback. A user's chat message shows at once.
- **`CodeStream`** keeps a rolling list of at most five code snippets, newest first. The list is empty while the component is inactive.

## Layout

- `wrappers.dfy` (`Wrappers`): the `Option` datatype.
- `decimal.dfy` (`Decimal`): the decimal text JavaScript gives a non-negative integer below 10^21 (from there on `toString` switches to exponent form), `padStart`, and a reader that turns the digits back into the number.
- `jarvis.dfy` (`Jarvis`): the state of `JarvisInterface` as the value `Console`, and one transition function per event. Each transition has a lemma stating what it does and that it keeps `Invariant`. It also holds runs of events (`Run`, `StatusTrace`) with lemmas about whole commands.
  - The class `JarvisInterface` has one field per state hook or ref and one method per handler.
  - Each handler method (the ones that require `Valid()`) is proved to take the object from `State()` to the transition function's result, and to keep `Valid()`. The helper methods they call (`StopRecorderIfRecording`, `StartRecording`, `Dispatch`, `ShowReply`, `CatchFailure`) are specified by the state they produce from `old(State())`.
- `jarvis_hud.dfy` (`JarvisHud`): the HUD values and the round trips that read them back.
- `typewriter.dfy` (`Typewriter`): the reveal loop shared by both typewriter components, as a value with a tick function. Text is a sequence of UTF-16 code units (`Typewriter.Text`).
- `speech_bubble.dfy` (`SpeechBubble`) and `chat_message.dfy` (`ChatMessage`): the two components as classes.
  - The fields are their props, their state hooks, and the index and liveness of the running interval.
  - The methods are mount, a re-render with new props, the interval tick and the `onClose` timer.
- `code_stream.dfy` (`CodeStream`): the line update, the render guard and opacities, and the component as a class.

### Events and pending work

The browser calls back later for several things. Each of those is held as pending work in `Console.pending`:
- the stopped recorders whose `onstop` has not run, with their chunks;
- the armed 500 ms send timers, each with the webhook URL its closure captured;
- the requests in flight;
- the armed speech and error timers.

An event that delivers such a callback is `Enabled` only while one is pending. The environment supplies everything else as event arguments:
- the microphone answer;
- a chunk of recorded bytes;
- the data flushed at stop;
- the prompt answer;
- the reply (`Ok(body, elapsed)`, `NotOk(elapsed)` or `NetworkFailure`, where `elapsed` stands for the measured latency);
- the random snippet index for `CodeStream`.

### Behaviour of the code worth knowing

- **Status.** `status` takes only the four values of `Jarvis.Status`; errors are the separate `hasError` flag. There is no lock gesture and no auto-stop: only `toggleRecording` or `resetConversation` ends a recording.
- **Stopping.** A stop goes to `standby`, and only the 500 ms timer moves the status to `processing`. `StatusTrace` therefore shows standby twice between listening and processing (`SuccessfulCommandTrace`).
- **Starting twice.** The start branch awaits `getUserMedia` before it sets `isRecording`. A second call during that wait starts a second `MediaRecorder` and overwrites `audioRef`; the first recorder keeps recording and nothing ever stops it. The model does not capture this (see "## Left out").
- **Reset.**
  - Reset cancels no timeout, request or `onstop`; only the recording interval stops, through the recording-time effect once `isRecording` is false.
  - A recorder stopped just before a reset still puts its clip back when its `onstop` runs after the reset (`ResetThenOnStopRestoresClip`).
  - A send timer armed before the reset then still sends that clip, and the reply is applied as usual (`ResetDoesNotCancelSend`). If the `onstop` ran before the reset instead, the reset clears the clip and the timer sends nothing.
- **The clip.** The clip is cleared only by an ok reply or a reset. A failed command keeps its clip.
- **`hasError` on success.** An ok reply does not itself lower `hasError`. The dispatch before it already did.
- **Inconsistent flags the code allows.**
  - If the bubble is hidden, or its text becomes empty, while it is typing, `SpeechBubble` clears its interval but leaves `isTyping` true.
  - A `ChatMessage` that turns into a user message mid-animation keeps `isAnimating` true.
  - `onClose` timers, once armed, are never cancelled.
- **Characters outside the Basic Multilingual Plane.** They are two code units, so the typewriter shows the first half of the pair alone for one tick and takes one extra tick per such character (`SurrogatePairRevealedInHalves`).

## Model

| member | source | states |
|---|---|---|
| Decimal.NatToString | src/components/JarvisInterface.tsx:204 | the decimal text of a number has at least one digit, only digits, and no leading zero; it is one character exactly for numbers under 10 |
| Decimal.ParseNatToString | src/components/JarvisInterface.tsx:204 | reading the decimal text of `n` gives back `n` |
| Decimal.ParseNatLeadingZero | src/components/JarvisInterface.tsx:208 | a zero put in front of digits does not change the value they read as |
| Decimal.PadStart | src/components/JarvisInterface.tsx:208 | the padded text is at least `width` long, ends with the original text and is fill characters before it |
| Decimal.TwoDigitsRoundTrip | src/components/JarvisInterface.tsx:208 | a number under 100 padded to two digits is exactly two digits and reads back to the number |
| Jarvis.Invariant | src/components/JarvisInterface.tsx:16-29 | what every reachable state satisfies: recording exactly while the recorder records, `listening` only while recording, and `processing`, `speaking`, `isSpeaking` and `hasError` each backed by pending work that ends them; its preservation is `StepPreservesInvariant` and `RunPreservesInvariant` |
| Jarvis.Initial | src/components/JarvisInterface.tsx:16-57 | the `useState` defaults after the mount effect: active, standby, the default URL, nothing recorded or pending; `JarvisInterface.constructor` shows it satisfies `Invariant` |
| Jarvis.StopRecorder | src/components/JarvisInterface.tsx:134-136 | the guarded `stop()`: only a recording recorder stops and queues its `onstop`; stated by `ToggleStepProperties` and `ResetStepProperties` |
| Jarvis.ToggleStep | src/components/JarvisInterface.tsx:131-178 | `toggleRecording` on the state; its contract is `ToggleStepProperties` |
| Jarvis.DataAvailable | src/components/JarvisInterface.tsx:156-158 | `ondataavailable` on the state; its contract is `DataAvailableProperties` |
| Jarvis.RecorderStopped | src/components/JarvisInterface.tsx:160-164 | `onstop` on the state; its contract is `RecorderStoppedProperties` |
| Jarvis.PromptValue | src/components/JarvisInterface.tsx:84 | the prompt's answer, or `''` when it is cancelled; used by `SendTimerFiredProperties` |
| Jarvis.SendTimerFired | src/components/JarvisInterface.tsx:141-146 | the 500 ms timer and the part of `sendToWebhook` up to `fetch` (lines 80-91); its contract is `SendTimerFiredProperties` |
| Jarvis.Failed | src/components/JarvisInterface.tsx:123-127 | the `catch` block on the state; its contract is the failure clause of `WebhookRepliedProperties` |
| Jarvis.WebhookReplied | src/components/JarvisInterface.tsx:98-128 | the end of a webhook request on the state; its contract is `WebhookRepliedProperties` |
| Jarvis.SpeakTimerFired | src/components/JarvisInterface.tsx:118-121 | the speech timer on the state; its contract is `SpeakTimerFiredProperties` |
| Jarvis.ErrorTimerFired | src/components/JarvisInterface.tsx:127 | the error timer on the state; its contract is `ErrorTimerFiredProperties` |
| Jarvis.RecordingTick | src/components/JarvisInterface.tsx:63-65 | the one-second interval on the state; its contract is `RecordingTickProperties` |
| Jarvis.ResetStep | src/components/JarvisInterface.tsx:180-191 | `resetConversation` on the state; its contract is `ResetStepProperties` |
| Jarvis.ToggleStepProperties | src/components/JarvisInterface.tsx:131-178 | `toggleRecording` branches only on `isRecording`. While recording it stops the recorder only if that recorder records, leaves capture in standby and arms one send timer with the current URL, whatever the microphone would answer. Otherwise a granted microphone starts a fresh recorder in `listening` from time zero, and a denied one changes nothing. No other field or pending work changes, and the invariant is kept |
| Jarvis.DataAvailableProperties | src/components/JarvisInterface.tsx:156-158 | a chunk is appended to the recording recorder's chunks, nothing else changes and the invariant is kept |
| Jarvis.RecorderStoppedProperties | src/components/JarvisInterface.tsx:160-164 | `onstop` makes the clip from the stopped recorder's chunks, typed `audio/wav`. Only the clip and that pending stop change |
| Jarvis.SendTimerFiredProperties | src/components/JarvisInterface.tsx:80-91 | without a clip the timer changes nothing else. With an empty URL only the prompted URL (or `''`) is stored. Otherwise the request goes out with `hasError` off, `isSpeaking` on and status `processing`. The invariant is kept in every case |
| Jarvis.WebhookRepliedProperties | src/components/JarvisInterface.tsx:98-128 | a reply never leaves `processing` in place. An ok reply shows its body or the fixed success text (never empty), goes to `speaking`, clears the clip and arms the speech timer. A failure goes to standby, stops speaking, raises the error, arms its timer and keeps the clip. Latency changes only when a response arrived |
| Jarvis.SpeakTimerFiredProperties | src/components/JarvisInterface.tsx:118-121 | the speech timer ends speaking and returns to standby, and nothing else changes |
| Jarvis.ErrorTimerFiredProperties | src/components/JarvisInterface.tsx:127 | the error timer clears `hasError`, and nothing else changes |
| Jarvis.RecordingTickProperties | src/components/JarvisInterface.tsx:60-78 | a tick, possible only while recording, adds exactly one second and changes nothing else |
| Jarvis.ResetStepProperties | src/components/JarvisInterface.tsx:180-191 | after reset nothing records, every flag is off, the status is standby, the time is zero and there is no clip. The response text, latency and URL are kept, and so is every pending timer and request |
| Jarvis.StepPreservesInvariant | src/components/JarvisInterface.tsx:80-191 | every event keeps the invariant: recording exactly while the recorder records, `listening` only while recording, and `processing`, `speaking`, `isSpeaking` and `hasError` each backed by pending work that ends them |
| Jarvis.RunPreservesInvariant | src/components/JarvisInterface.tsx:80-191 | any sequence of events keeps the invariant |
| Jarvis.TraceLength | src/components/JarvisInterface.tsx:21 | a run delivered in full records one status per event plus the final one, and the last entry is the final status |
| Jarvis.NeverStuck | src/components/JarvisInterface.tsx:98-128 | `processing` always has a reply owed, and every reply ends it. `speaking` always has a timer that returns to standby, and a shown error always has a timer that clears it |
| Jarvis.DispatchSucceeds | src/components/JarvisInterface.tsx:88-121 | a dispatch answered ok goes processing, then speaking with the text shown and no error, then standby and not speaking, without the clip |
| Jarvis.DispatchFails | src/components/JarvisInterface.tsx:103-128 | a dispatch answered not-ok or not at all goes processing, then standby with the error shown and the clip kept. Nothing is retried and the error timer clears the flag |
| Jarvis.ResetThenOnStopRestoresClip | src/components/JarvisInterface.tsx:180-191 | reset clears the clip, but the `onstop` of the recorder it stopped puts the recorded clip back |
| Jarvis.ResetDoesNotCancelSend | src/components/JarvisInterface.tsx:141-146 | stop, then reset, then `onstop`, then the 500 ms timer still sends the command and enters `processing` |
| Jarvis.RecordOneClip | src/components/JarvisInterface.tsx:131-178 | from mount, calling `toggleRecording` twice around one chunk and the recorder's `onstop` goes standby, listening, listening, standby, and leaves the chunk as the clip with one send timer armed |
| Jarvis.SuccessAfterRecording | src/components/JarvisInterface.tsx:80-121 | after recording, the send timer, an ok reply with a body and the speech timer go standby, processing, speaking, standby and end with the body shown |
| Jarvis.SuccessfulCommandTrace | src/components/JarvisInterface.tsx:80-178 | a whole command answered with a body runs to completion with status trace standby, listening, listening, standby, standby, processing, speaking, standby. The body is shown without error, the clip is gone and nothing is pending |
| Jarvis.UnreachableAfterRecording | src/components/JarvisInterface.tsx:123-128 | after recording, a network failure and the error timer go standby, processing, standby, standby and leave the clip in place |
| Jarvis.UnreachableCommandTrace | src/components/JarvisInterface.tsx:80-178 | a whole command to an unreachable endpoint runs with status trace ending processing, standby, standby. The error is raised then cleared, nothing is retried or pending, and the clip is kept |
| Jarvis.TicksCountSeconds | src/components/JarvisInterface.tsx:60-78 | while recording, `n` firings of the one-second interval (the events `TickEvents(n)`) add exactly `n` seconds and change nothing else |
| Jarvis.JarvisInterface.constructor | src/components/JarvisInterface.tsx:16-57 | mount leaves the component in the initial state (active, standby, the default URL) satisfying the invariant |
| Jarvis.JarvisInterface.StopRecorderIfRecording | src/components/JarvisInterface.tsx:134-136 | the recorder is stopped, and its `onstop` queued, exactly when it records |
| Jarvis.JarvisInterface.ToggleRecording | src/components/JarvisInterface.tsx:131-178 | the handler performs `ToggleStep` on the fields and keeps `Valid()` |
| Jarvis.JarvisInterface.StartRecording | src/components/JarvisInterface.tsx:149-168 | a fresh recorder records, in `listening`, from time zero; nothing else changes |
| Jarvis.JarvisInterface.OnDataAvailable | src/components/JarvisInterface.tsx:156-158 | the handler performs `DataAvailable` and keeps `Valid()` |
| Jarvis.JarvisInterface.OnRecorderStop | src/components/JarvisInterface.tsx:160-164 | the handler performs `RecorderStopped` and keeps `Valid()` |
| Jarvis.JarvisInterface.OnSendTimer | src/components/JarvisInterface.tsx:141-146 | the timer callback performs `SendTimerFired` and keeps `Valid()` |
| Jarvis.JarvisInterface.Dispatch | src/components/JarvisInterface.tsx:88-90 | the request goes out: no error, speaking, `processing`, one more request in flight |
| Jarvis.JarvisInterface.OnWebhookReply | src/components/JarvisInterface.tsx:98-128 | the reply handler performs `WebhookReplied` and keeps `Valid()` |
| Jarvis.JarvisInterface.ShowReply | src/components/JarvisInterface.tsx:104-121 | an ok response sets the latency and the shown text, goes to `speaking`, drops the clip and arms the speech timer |
| Jarvis.JarvisInterface.CatchFailure | src/components/JarvisInterface.tsx:123-127 | the `catch` block goes to standby, stops speaking, raises the error and arms its timer |
| Jarvis.JarvisInterface.OnSpeakTimer | src/components/JarvisInterface.tsx:118-121 | the timer performs `SpeakTimerFired` and keeps `Valid()` |
| Jarvis.JarvisInterface.OnErrorTimer | src/components/JarvisInterface.tsx:127 | the timer performs `ErrorTimerFired` and keeps `Valid()` |
| Jarvis.JarvisInterface.OnRecordingTick | src/components/JarvisInterface.tsx:63-65 | the interval performs `RecordingTick` and keeps `Valid()` |
| Jarvis.JarvisInterface.ResetConversation | src/components/JarvisInterface.tsx:180-191 | the handler performs `ResetStep` and keeps `Valid()` |
| JarvisHud.VoiceValue | src/components/JarvisInterface.tsx:201 | VOICE is `ACTIVE` if and only if the status is `listening`, and `STANDBY` otherwise |
| JarvisHud.MicValue | src/components/JarvisInterface.tsx:202 | MIC is `RECORDING` if and only if recording, and `READY` otherwise |
| JarvisHud.Upper | src/components/JarvisInterface.tsx:209 | upper-casing keeps the length, moves exactly the lower-case letters up and leaves no lower-case letter |
| JarvisHud.StatusValues | src/components/JarvisInterface.tsx:209 | STATUS shows `STANDBY`, `LISTENING`, `PROCESSING` or `SPEAKING`, and different statuses show different names |
| JarvisHud.LatencyValue | src/components/JarvisInterface.tsx:204 | the LATENCY text; its contract is `LatencyRoundTrip` |
| JarvisHud.StatusValue | src/components/JarvisInterface.tsx:209 | the STATUS text; its contract is `StatusValues` |
| JarvisHud.Duration | src/components/JarvisInterface.tsx:208 | the `m:ss` text of a number of seconds; its contract is `DurationRoundTrip` |
| JarvisHud.AudioValue | src/components/JarvisInterface.tsx:208 | the AUDIO text; its contract is `AudioValueReadsBack` |
| JarvisHud.TopRightData | src/components/JarvisInterface.tsx:200-205 | the top-right corner's items; stated by `HudAgreesWithState` and `HudAfterStart` |
| JarvisHud.BottomLeftData | src/components/JarvisInterface.tsx:207-211 | the bottom-left corner's items; stated by `HudAgreesWithState`, `HudAfterStart` and `AudioShowsRecordingTime` |
| JarvisHud.LatencyRoundTrip | src/components/JarvisInterface.tsx:204 | LATENCY is the decimal digits of the latency followed by `ms`, and reads back to the latency |
| JarvisHud.ParseDuration | src/components/JarvisInterface.tsx:208 | an `m:ss` text that reads as a time has a colon three characters from its end |
| JarvisHud.SplitAtColon | src/components/JarvisInterface.tsx:208 | minutes, a colon and two seconds digits split back into those parts |
| JarvisHud.ParseMinutesSeconds | src/components/JarvisInterface.tsx:208 | digits for `q`, a colon and two digits for `r < 60` read as `q * 60 + r` |
| JarvisHud.DurationRoundTrip | src/components/JarvisInterface.tsx:208 | the shown time is `m:ss` with `m = t div 60`, two-digit `ss = t mod 60 < 60`, and reads back to `t` |
| JarvisHud.AudioValueReadsBack | src/components/JarvisInterface.tsx:208 | AUDIO reads back to the recording time while recording, and is `0:00` otherwise |
| JarvisHud.HudAgreesWithState | src/components/JarvisInterface.tsx:200-211 | in every reachable state, VOICE shows `ACTIVE` only when MIC shows `RECORDING`, AUDIO differs from `0:00` only while recording, and STATUS shows `LISTENING` exactly when VOICE shows `ACTIVE` |
| JarvisHud.HudAfterStart | src/components/JarvisInterface.tsx:200-211 | after a granted start, once the recording-time effect has zeroed the time, the HUD shows ACTIVE, RECORDING, `0:00` and LISTENING |
| JarvisHud.AudioShowsRecordingTime | src/components/JarvisInterface.tsx:208 | while recording, the AUDIO value reads back to the recording time |
| Typewriter.Start | src/components/SpeechBubble.tsx:15-18 | what the effect sets when it starts a reveal; stated by `TicksFromStart` and `RevealEnds` |
| Typewriter.Tick | src/components/SpeechBubble.tsx:19-26 | one interval tick; its contract is `TickProperties` |
| Typewriter.Cancel | src/components/SpeechBubble.tsx:34 | the effect's cleanup stops the interval and leaves the shown text and the typing flag as they were |
| Typewriter.TickProperties | src/components/SpeechBubble.tsx:19-26 | each tick shows a prefix of the text. While the index is within the length it shows exactly the first `index` code units, one more than the tick before. Once the index has passed the length, typing stops, the interval ends and the whole text is shown |
| Typewriter.TicksFromStart | src/components/SpeechBubble.tsx:18-32 | from the start, after `k <= length + 1` ticks the reveal still types and shows the first `k - 1` code units. After `length + 2` ticks it shows the whole text and has stopped |
| Typewriter.RevealEnds | src/components/SpeechBubble.tsx:18-32 | the reveal ends after exactly `length + 2` ticks with the whole text shown, and types until then |
| Typewriter.SurrogatePairRevealedInHalves | src/components/SpeechBubble.tsx:20-21 | a two-unit character is revealed in halves: its first unit alone after two ticks, the reveal ending after four |
| SpeechBubble.Bubble.constructor | src/components/SpeechBubble.tsx:9-36 | mount with text and visible starts typing from nothing. Otherwise nothing is typed, and no close timer is armed |
| SpeechBubble.Bubble.Effect | src/components/SpeechBubble.tsx:14-18 | when visible with text, typing starts from nothing; otherwise nothing changes |
| SpeechBubble.Bubble.Render | src/components/SpeechBubble.tsx:13-36 | unchanged props change nothing. Changed props clear the interval and then either restart typing or leave the shown text and typing flag as they were; armed close timers stay |
| SpeechBubble.Bubble.OnTick | src/components/SpeechBubble.tsx:19-31 | a tick is `Typewriter.Tick`, and it arms `onClose` exactly when the reveal ends and a callback is given |
| SpeechBubble.Bubble.OnCloseTimer | src/components/SpeechBubble.tsx:29 | the oldest armed timer calls the callback it was armed with |
| SpeechBubble.Bubble.TypeOut | src/components/SpeechBubble.tsx:19-32 | the running interval ends with the whole text shown, typing over, and `onClose` (if given) armed exactly once |
| SpeechBubble.Bubble.Rendered | src/components/SpeechBubble.tsx:38-52 | nothing is rendered exactly when hidden; otherwise the shown text, with the caret while typing |
| SpeechBubble.ShowAndType | src/components/SpeechBubble.tsx:13-38 | a visible bubble mounted with a text ends showing all of it without caret; `onClose` is armed once when given and the text is not empty, and never otherwise |
| ChatMessage.Message.constructor | jarvis-core-console/src/components/ChatMessage.tsx:9-33 | a user message shows its content at once without animating; any other message starts typing from nothing |
| ChatMessage.Message.Effect | jarvis-core-console/src/components/ChatMessage.tsx:13-33 | a non-user message restarts the reveal from nothing; a user message shows its content |
| ChatMessage.Message.Render | jarvis-core-console/src/components/ChatMessage.tsx:13-33 | unchanged props change nothing. New content or a new sender restarts the reveal from nothing for a non-user message, and shows the content at once for a user message |
| ChatMessage.Message.OnTick | jarvis-core-console/src/components/ChatMessage.tsx:19-27 | a tick is `Typewriter.Tick` on the content and keeps `Valid()` |
| CodeStream.NextLines | src/components/CodeStream.tsx:30-36 | the interval's update of the lines; its contract is `NextLinesProperties` |
| CodeStream.LinesAfter | src/components/CodeStream.tsx:30-36 | the lines after a run of ticks from empty; its contract is `LinesAfterAreLatestFirst` |
| CodeStream.NextLinesProperties | src/components/CodeStream.tsx:30-36 | a tick puts exactly one line on top, the picked snippet, over the first `min(4, n)` earlier lines in order. The list grows by one up to five and stays bounded |
| CodeStream.LatestFirst | src/components/CodeStream.tsx:30-36 | the reference list of the latest picks has `min(n, 5)` lines |
| CodeStream.LatestFirstStep | src/components/CodeStream.tsx:30-36 | the latest picks, newest first, are the last pick over the earlier picks' list cut to four |
| CodeStream.LinesAfterAreLatestFirst | src/components/CodeStream.tsx:30-36 | after any sequence of ticks from empty, the list is the snippets of the latest five picks, newest first |
| CodeStream.Opacity | src/components/CodeStream.tsx:50 | the opacity class of a line; its contract is `OpacityProperties` |
| CodeStream.OpacityProperties | src/components/CodeStream.tsx:50 | the top line is fully opaque; every lower line is between 20 and 80, 20 less per line, down to 20 from the fifth line on |
| CodeStream.Rendered | src/components/CodeStream.tsx:41-57 | nothing is rendered exactly when inactive or without lines; otherwise every line with its opacity, in order |
| CodeStream.Stream.constructor | src/components/CodeStream.tsx:9-39 | mount starts with no lines, with the interval running exactly when active |
| CodeStream.Stream.SetActive | src/components/CodeStream.tsx:24-39 | becoming inactive empties the list and stops the interval; becoming or staying active keeps the lines |
| CodeStream.Stream.OnTick | src/components/CodeStream.tsx:30-36 | a tick applies `NextLines` to the list and keeps it bounded |

## Left out

- Jarvis.ToggleStep: folds the recording-time effect's `setRecordingTime(0)` (line 62) into the start. In the code the first render after a start still shows the previous recording's time, because a stop does not zero it; `HudAfterStart` holds only once that effect has run.
- Jarvis.ToggleStep: the start is one atomic event, so a call to `toggleRecording` or `resetConversation` while `getUserMedia` is pending is not modelled. In the code a second start then creates a second recorder that nobody stops, and a reset is undone when `getUserMedia` resolves.
- Jarvis.Invariant: no event stops a recorder on its own (a track ending, say). So its first conjunct and the `state === 'recording'` guards at lines 134 and 181 never matter in a reachable model state.
- Jarvis.WebhookReplied: `setLatency` (line 104) happens before `await response.text()` (line 111), but both are one `Reply` event here, so no render between them is modelled.
- `playActivationSound` is not modelled. It drives a Web Audio oscillator with floating-point frequency and gain ramps.
- Browser calls become event arguments: `getUserMedia`, the `MediaRecorder`, `fetch` with its `FormData`, `prompt`, and reading the response body.
  - `getUserMedia` and the recorder's creation form one atomic event with a granted or denied answer.
  - The chunk a recorder flushes when it stops is the argument of its `onstop` event.
  - A failure of `response.text()` is not modelled. Because `setLatency` runs before the body is read, such a failure would end like `NotOk(elapsed)`: the `catch` path with the latency set.
- The microphone-error toast is not modelled, because it changes no state.
- Releasing the stream's tracks in `onstop` is not modelled, because the component's state does not show it.
- `Date.now()` is not modelled. The latency is the `elapsed` value the reply carries.
- Timers and intervals carry no clock: each firing is an event. The 50 ms, 30 ms, 500 ms, 1000 ms, 1500 ms, 3000 ms and 5000 ms periods appear only in names and comments, so the relative order of different timers is left to the event sequence.
- `isActive` in `JarvisInterface` is set on mount and read by nothing in the modelled code.
- The `onClose` callback is modelled by its identity, a number, so a re-render with a different function is a changed dependency. Calling it is a result of `OnCloseTimer`.
- `formatTime` and the timestamp of `ChatMessage` are not modelled. They depend on the locale.
- Presentation is not modelled:
  - JSX and class names;
  - the `position` prop and animation delays of `CodeStream`;
  - the constant top-left HUD corner, and the bottom-right corner, whose only varying item RESP.TIME repeats LATENCY;
  - `HudCorner`, `StatusIndicator`, `AudioVisualizer`, `JarvisAvatar` and `TypingIndicator`;
  - the Tailwind configurations.
- `Math.random()` in `CodeStream` is not modelled; the snippet index in `[0, 10)` is an input.
