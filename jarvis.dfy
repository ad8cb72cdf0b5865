/**
 * The voice-command lifecycle of the `JarvisInterface` component.
 *
 * The component keeps React state (`isRecording`, `status`, ...) and two refs
 * that matter here (the media recorder and the recorded clip). Every browser
 * call is an event: the microphone answer, the recorder's `ondataavailable`
 * and `onstop`, the 500 ms send timer, the prompt answer, the webhook reply,
 * the two 3000 ms timers and the one-second recording tick.
 *
 * `Console` is the whole state as a value and one function per event says how
 * it changes; the class `JarvisInterface` at the end holds the same state in
 * fields and is proved against those functions. Callbacks that the browser
 * delivers later are kept as `Pending` work; an event that delivers one is
 * possible only while one is pending.
 */
module Jarvis {
  import opened Wrappers

  /** The only four values `status` takes; errors are the separate `hasError` flag. */
  datatype Status = Standby | Listening | Processing | Speaking

  newtype byte = x: int | 0 <= x < 256

  /** One `Blob` delivered by the recorder's `ondataavailable`. */
  type Chunk = seq<byte>

  /** The recorded `Blob` kept in `audioDataRef`. */
  datatype Clip = Clip(chunks: seq<Chunk>, mimeType: string)

  /** `MediaRecorder.state`, as far as the component looks at it. */
  datatype RecorderState = Recording | Inactive

  /** The recorder in `audioRef`, with the chunks its `ondataavailable` collected. */
  datatype Recorder = Recorder(state: RecorderState, chunks: seq<Chunk>)

  /** How `getUserMedia` answers. */
  datatype MicAccess = Granted | Denied

  /** How the webhook `fetch` ends: a response (ok or not) after `elapsed` ms, or a rejection. */
  datatype Reply = Ok(body: string, elapsed: nat) | NotOk(elapsed: nat) | NetworkFailure

  /**
   * Callbacks the browser still owes the component. No handler ever cancels
   * one (the recording interval aside, which exists exactly while recording).
   */
  datatype Pending = Pending(
    stops: seq<seq<Chunk>>,   // stopped recorders whose `onstop` has not run, oldest first, with their chunks
    sends: seq<string>,       // armed 500 ms send timers, oldest first, with the URL their closure saw
    requests: nat,            // webhook requests awaiting their reply
    speakTimers: nat,         // armed 3000 ms end-of-speech timers
    errorTimers: nat          // armed 3000 ms error-clearing timers
  )

  const InitialWebhookUrl: string := "https://n8n.rcdigitais.com.br/webhook-test/jarvis1"
  const SuccessText: string := "Comando processado com sucesso"
  const ClipType: string := "audio/wav"

  datatype Console = Console(
    isRecording: bool,
    isSpeaking: bool,
    isActive: bool,
    hasError: bool,
    showResponse: bool,
    status: Status,
    recordingTime: nat,
    latency: nat,
    responseText: string,
    webhookUrl: string,
    recorder: Option<Recorder>,   // audioRef.current
    clip: Option<Clip>,           // audioDataRef.current
    pending: Pending
  )

  const NothingPending := Pending([], [], 0, 0, 0)

  /** The state once the mount effect has run: active, in standby. */
  function Initial(): Console {
    Console(false, false, true, false, false, Standby, 0, 0, "", InitialWebhookUrl,
            None, None, NothingPending)
  }

  predicate RecorderIsRecording(s: Console) {
    s.recorder.Some? && s.recorder.value.state == Recording
  }

  /**
   * What every reachable state satisfies: the recorder records exactly while
   * `isRecording`, `listening` implies recording, `processing`, `speaking`,
   * `isSpeaking` and `hasError` each have pending work that will end them, and
   * a clip is always `audio/wav`.
   */
  predicate Invariant(s: Console) {
    && (s.isRecording <==> RecorderIsRecording(s))
    && (s.status == Listening ==> s.isRecording)
    && (s.status == Processing ==> s.pending.requests > 0)
    && (s.status == Speaking ==> s.pending.speakTimers > 0)
    && (s.isSpeaking ==> s.pending.requests + s.pending.speakTimers > 0)
    && (s.hasError ==> s.pending.errorTimers > 0)
    && (s.clip.Some? ==> s.clip.value.mimeType == ClipType)
  }

  /** Stop the recorder in `audioRef` when its state is `recording`. */
  function StopRecorder(s: Console): Console {
    if RecorderIsRecording(s) then
      s.(recorder := Some(s.recorder.value.(state := Inactive)),
         pending := s.pending.(stops := s.pending.stops + [s.recorder.value.chunks]))
    else s
  }

  /**
   * `toggleRecording`. While recording it stops the recorder, goes to standby
   * and arms the 500 ms send timer; otherwise it starts a fresh recorder when
   * the microphone is granted (the recording-time effect then zeroes the
   * time) and changes nothing when it is denied (the component only raises a toast).
   */
  function ToggleStep(s: Console, mic: MicAccess): Console {
    if s.isRecording then
      var t := StopRecorder(s);
      t.(isRecording := false, status := Standby,
         pending := t.pending.(sends := t.pending.sends + [s.webhookUrl]))
    else if mic == Granted then
      s.(recorder := Some(Recorder(Recording, [])), isRecording := true, status := Listening,
         recordingTime := 0)
    else
      s
  }

  /** `ondataavailable` of the recorder that is recording: the chunk joins its list. */
  function DataAvailable(s: Console, chunk: Chunk): Console
    requires RecorderIsRecording(s)
  {
    s.(recorder := Some(s.recorder.value.(chunks := s.recorder.value.chunks + [chunk])))
  }

  /**
   * `onstop` of the oldest stopped recorder: its chunks, followed by the data it
   * flushed when stopped, become the clip, typed `audio/wav`.
   */
  function RecorderStopped(s: Console, flushed: seq<Chunk>): Console
    requires |s.pending.stops| > 0
  {
    s.(clip := Some(Clip(s.pending.stops[0] + flushed, ClipType)),
       pending := s.pending.(stops := s.pending.stops[1..]))
  }

  /** What the prompt for a URL stores: the answer, or `''` when cancelled. */
  function PromptValue(answer: Option<string>): string {
    answer.GetOr("")
  }

  /**
   * The oldest 500 ms send timer fires and, when a clip is present, runs
   * `sendToWebhook` with the URL its closure saw: with an empty URL it only
   * stores the prompted URL; otherwise the request goes out with `hasError`
   * off, `isSpeaking` on and status `processing`.
   */
  function SendTimerFired(s: Console, answer: Option<string>): Console
    requires |s.pending.sends| > 0
  {
    var url := s.pending.sends[0];
    var s1 := s.(pending := s.pending.(sends := s.pending.sends[1..]));
    if s.clip == None then s1
    else if url == "" then s1.(webhookUrl := PromptValue(answer))
    else s1.(hasError := false, isSpeaking := true, status := Processing,
             pending := s1.pending.(requests := s.pending.requests + 1))
  }

  /** The `catch` block: standby, not speaking, error shown until its timer fires. */
  function Failed(s: Console): Console {
    s.(isSpeaking := false, status := Standby, hasError := true,
       pending := s.pending.(errorTimers := s.pending.errorTimers + 1))
  }

  /**
   * A webhook request ends. A response (ok or not) first sets `latency`; an ok
   * one shows its body (or the fixed success text when the body is empty),
   * moves to `speaking`, drops the clip and arms the speech timer; a non-ok
   * response or a network failure runs the `catch` block.
   */
  function WebhookReplied(s: Console, reply: Reply): Console
    requires s.pending.requests > 0
  {
    var s1 := s.(pending := s.pending.(requests := s.pending.requests - 1));
    match reply
    case Ok(body, elapsed) =>
      s1.(latency := elapsed, responseText := if body == "" then SuccessText else body,
          showResponse := true, status := Speaking, clip := None,
          pending := s1.pending.(speakTimers := s.pending.speakTimers + 1))
    case NotOk(elapsed) => Failed(s1.(latency := elapsed))
    case NetworkFailure => Failed(s1)
  }

  /** The 3000 ms timer after a successful reply. */
  function SpeakTimerFired(s: Console): Console
    requires s.pending.speakTimers > 0
  {
    s.(isSpeaking := false, status := Standby,
       pending := s.pending.(speakTimers := s.pending.speakTimers - 1))
  }

  /** The 3000 ms timer after a failure. */
  function ErrorTimerFired(s: Console): Console
    requires s.pending.errorTimers > 0
  {
    s.(hasError := false, pending := s.pending.(errorTimers := s.pending.errorTimers - 1))
  }

  /** The one-second interval, which exists only while recording. */
  function RecordingTick(s: Console): Console
    requires s.isRecording
  {
    s.(recordingTime := s.recordingTime + 1)
  }

  /** `resetConversation`. */
  function ResetStep(s: Console): Console {
    StopRecorder(s).(isRecording := false, isSpeaking := false, hasError := false,
                     showResponse := false, status := Standby, recordingTime := 0, clip := None)
  }

  // ---------------------------------------------------------------------------
  // What each event does
  // ---------------------------------------------------------------------------

  /**
   * `toggleRecording` branches only on `isRecording`. Stopping stops the recorder
   * only if it records (queueing its `onstop`), leaves capture, goes to standby
   * and arms one send timer with the current URL; it never asks for the
   * microphone. Starting, when the microphone is granted, records from zero
   * in `listening` with a fresh recorder; when it is denied nothing changes.
   * Neither branch touches the reply, the error, the clip or any other
   * pending work, and the invariant is kept.
   */
  lemma ToggleStepProperties(s: Console, mic: MicAccess, t: Console)
    requires t == ToggleStep(s, mic)
    ensures Invariant(s) ==> Invariant(t)
    ensures s.isRecording ==>
      && !t.isRecording && t.status == Standby && !RecorderIsRecording(t)
      && t.pending.sends == s.pending.sends + [s.webhookUrl]
      && t.pending.stops == s.pending.stops + (if RecorderIsRecording(s) then [s.recorder.value.chunks] else [])
      && t.recordingTime == s.recordingTime
      && t == ToggleStep(s, if mic == Granted then Denied else Granted)
    ensures !s.isRecording && mic == Granted ==>
      && t.isRecording && t.status == Listening && t.recordingTime == 0
      && t.recorder == Some(Recorder(Recording, [])) && t.pending == s.pending
    ensures !s.isRecording && mic == Denied ==> t == s
    ensures t.isSpeaking == s.isSpeaking && t.hasError == s.hasError && t.showResponse == s.showResponse
    ensures t.responseText == s.responseText && t.latency == s.latency && t.webhookUrl == s.webhookUrl
    ensures t.clip == s.clip && t.pending.requests == s.pending.requests
    ensures t.pending.speakTimers == s.pending.speakTimers && t.pending.errorTimers == s.pending.errorTimers
  {
    if s.isRecording {
      assert t == ToggleStep(s, if mic == Granted then Denied else Granted);
    } else if mic == Granted {
    } else {
    }
  }

  /** A chunk is appended to the recording recorder's chunks and nothing else changes. */
  lemma DataAvailableProperties(s: Console, chunk: Chunk, t: Console)
    requires RecorderIsRecording(s)
    requires t == DataAvailable(s, chunk)
    ensures Invariant(s) ==> Invariant(t)
    ensures t.recorder == Some(Recorder(Recording, s.recorder.value.chunks + [chunk]))
    ensures t == s.(recorder := t.recorder)
  {
  }

  /**
   * `onstop` is where the clip is made: the stopped recorder's chunks, typed
   * `audio/wav`; nothing else but the pending stop changes.
   */
  lemma RecorderStoppedProperties(s: Console, flushed: seq<Chunk>, t: Console)
    requires |s.pending.stops| > 0
    requires t == RecorderStopped(s, flushed)
    ensures Invariant(s) ==> Invariant(t)
    ensures t.clip == Some(Clip(s.pending.stops[0] + flushed, ClipType))
    ensures t.pending == s.pending.(stops := s.pending.stops[1..])
    ensures t == s.(clip := t.clip, pending := t.pending)
  {
  }

  /**
   * The send timer dispatches exactly when a clip is present and its URL is
   * not empty. Without a clip nothing but the timer changes; with an empty URL
   * only the prompted URL (or `''`) is stored.
   */
  lemma SendTimerFiredProperties(s: Console, answer: Option<string>, t: Console)
    requires |s.pending.sends| > 0
    requires t == SendTimerFired(s, answer)
    ensures Invariant(s) ==> Invariant(t)
    ensures t.pending.sends == s.pending.sends[1..]
    ensures s.clip == None ==> t == s.(pending := t.pending) && t.pending.requests == s.pending.requests
    ensures s.clip != None && s.pending.sends[0] == "" ==>
      t == s.(pending := t.pending, webhookUrl := PromptValue(answer)) && t.pending.requests == s.pending.requests
    ensures s.clip != None && s.pending.sends[0] != "" ==>
      && t.pending.requests == s.pending.requests + 1
      && !t.hasError && t.isSpeaking && t.status == Processing
      && t == s.(pending := t.pending, hasError := false, isSpeaking := true, status := Processing)
    ensures t.pending.stops == s.pending.stops && t.pending.speakTimers == s.pending.speakTimers
    ensures t.pending.errorTimers == s.pending.errorTimers
  {
    if s.clip == None {
    } else if s.pending.sends[0] == "" {
    } else {
    }
  }

  /**
   * A reply never leaves the status at `processing`. An ok reply shows a
   * non-empty text, goes to `speaking`, clears the clip and arms the speech
   * timer; a failed one goes to standby, stops speaking, raises the error and
   * arms its timer, keeping the clip. Latency changes only when a response
   * arrived. Recording state, URL and send timers are untouched.
   */
  lemma WebhookRepliedProperties(s: Console, reply: Reply, t: Console)
    requires s.pending.requests > 0
    requires t == WebhookReplied(s, reply)
    ensures Invariant(s) ==> Invariant(t)
    ensures t.pending.requests == s.pending.requests - 1
    ensures t.status != Processing
    ensures t.latency == (if reply.NetworkFailure? then s.latency else reply.elapsed)
    ensures reply.Ok? ==>
      && t.status == Speaking && t.showResponse && t.clip == None
      && t.responseText == (if reply.body == "" then SuccessText else reply.body)
      && t.responseText != ""
      && t.pending.speakTimers == s.pending.speakTimers + 1 && t.pending.errorTimers == s.pending.errorTimers
      && t.isSpeaking == s.isSpeaking && t.hasError == s.hasError
    ensures !reply.Ok? ==>
      && t.status == Standby && !t.isSpeaking && t.hasError
      && t.pending.errorTimers == s.pending.errorTimers + 1 && t.pending.speakTimers == s.pending.speakTimers
      && t.clip == s.clip && t.responseText == s.responseText && t.showResponse == s.showResponse
    ensures t.isRecording == s.isRecording && t.recorder == s.recorder && t.recordingTime == s.recordingTime
    ensures t.webhookUrl == s.webhookUrl && t.pending.sends == s.pending.sends
    ensures t.pending.stops == s.pending.stops
  {
  }

  /** The speech timer ends speaking and returns to standby; nothing else changes. */
  lemma SpeakTimerFiredProperties(s: Console, t: Console)
    requires s.pending.speakTimers > 0
    requires t == SpeakTimerFired(s)
    ensures Invariant(s) ==> Invariant(t)
    ensures !t.isSpeaking && t.status == Standby
    ensures t == s.(isSpeaking := false, status := Standby,
                    pending := s.pending.(speakTimers := s.pending.speakTimers - 1))
  {
  }

  /** The error timer clears the error flag; nothing else changes. */
  lemma ErrorTimerFiredProperties(s: Console, t: Console)
    requires s.pending.errorTimers > 0
    requires t == ErrorTimerFired(s)
    ensures Invariant(s) ==> Invariant(t)
    ensures !t.hasError
    ensures t == s.(hasError := false, pending := s.pending.(errorTimers := s.pending.errorTimers - 1))
  {
  }

  /** A tick while recording adds exactly one second; nothing else changes. */
  lemma RecordingTickProperties(s: Console, t: Console)
    requires s.isRecording
    requires t == RecordingTick(s)
    ensures Invariant(s) ==> Invariant(t)
    ensures t.recordingTime == s.recordingTime + 1
    ensures t == s.(recordingTime := t.recordingTime)
  {
  }

  /**
   * Reset leaves nothing recording, every flag off, standby, time zero and no
   * clip; it keeps the response text, latency and URL, and every pending
   * timer and request (a recording recorder's `onstop` is queued besides).
   */
  lemma ResetStepProperties(s: Console, t: Console)
    requires t == ResetStep(s)
    ensures Invariant(s) ==> Invariant(t)
    ensures !t.isRecording && !t.isSpeaking && !t.hasError && !t.showResponse
    ensures t.status == Standby && t.recordingTime == 0 && t.clip == None
    ensures !RecorderIsRecording(t)
    ensures t.responseText == s.responseText && t.latency == s.latency && t.webhookUrl == s.webhookUrl
    ensures t.isActive == s.isActive
    ensures t.pending == s.pending.(stops := t.pending.stops)
    ensures t.pending.stops == s.pending.stops + (if RecorderIsRecording(s) then [s.recorder.value.chunks] else [])
  {
  }

  // ---------------------------------------------------------------------------
  // Events and runs
  // ---------------------------------------------------------------------------

  datatype Event =
    | Toggle(mic: MicAccess)
    | Data(chunk: Chunk)
    | OnStop(flushed: seq<Chunk>)
    | SendTimer(answer: Option<string>)
    | WebhookReply(reply: Reply)
    | SpeakTimer
    | ErrorTimer
    | Tick
    | Reset

  /** Whether the browser can deliver `e` now: callbacks only while they are pending. */
  predicate Enabled(s: Console, e: Event) {
    match e
    case Data(_) => RecorderIsRecording(s)
    case OnStop(_) => |s.pending.stops| > 0
    case SendTimer(_) => |s.pending.sends| > 0
    case WebhookReply(_) => s.pending.requests > 0
    case SpeakTimer => s.pending.speakTimers > 0
    case ErrorTimer => s.pending.errorTimers > 0
    case Tick => s.isRecording
    case _ => true
  }

  function Step(s: Console, e: Event): Console
    requires Enabled(s, e)
  {
    match e
    case Toggle(mic) => ToggleStep(s, mic)
    case Data(chunk) => DataAvailable(s, chunk)
    case OnStop(flushed) => RecorderStopped(s, flushed)
    case SendTimer(answer) => SendTimerFired(s, answer)
    case WebhookReply(reply) => WebhookReplied(s, reply)
    case SpeakTimer => SpeakTimerFired(s)
    case ErrorTimer => ErrorTimerFired(s)
    case Tick => RecordingTick(s)
    case Reset => ResetStep(s)
  }

  /** The state after delivering `es` in order, or `None` if one of them cannot be delivered. */
  function Run(s: Console, es: seq<Event>): Option<Console>
    decreases |es|
  {
    if es == [] then Some(s)
    else if !Enabled(s, es[0]) then None
    else Run(Step(s, es[0]), es[1..])
  }

  /** The status before each event and after the last one delivered. */
  function StatusTrace(s: Console, es: seq<Event>): seq<Status>
    decreases |es|
  {
    if es == [] || !Enabled(s, es[0]) then [s.status]
    else [s.status] + StatusTrace(Step(s, es[0]), es[1..])
  }

  // ---------------------------------------------------------------------------
  // Properties of runs
  // ---------------------------------------------------------------------------

  /** Every event keeps the invariant. */
  lemma StepPreservesInvariant(s: Console, e: Event)
    requires Invariant(s) && Enabled(s, e)
    ensures Invariant(Step(s, e))
  {
    var t := Step(s, e);
    match e
    case Toggle(mic) => ToggleStepProperties(s, mic, t);
    case Data(chunk) => DataAvailableProperties(s, chunk, t);
    case OnStop(flushed) => RecorderStoppedProperties(s, flushed, t);
    case SendTimer(answer) => SendTimerFiredProperties(s, answer, t);
    case WebhookReply(reply) => WebhookRepliedProperties(s, reply, t);
    case SpeakTimer => SpeakTimerFiredProperties(s, t);
    case ErrorTimer => ErrorTimerFiredProperties(s, t);
    case Tick => RecordingTickProperties(s, t);
    case Reset => ResetStepProperties(s, t);
  }

  /** The invariant holds after any run from a state that satisfies it. */
  lemma {:induction false} RunPreservesInvariant(s: Console, es: seq<Event>)
    requires Invariant(s)
    ensures Run(s, es).Some? ==> Invariant(Run(s, es).value)
    decreases |es|
  {
    if es != [] && Enabled(s, es[0]) {
      StepPreservesInvariant(s, es[0]);
      RunPreservesInvariant(Step(s, es[0]), es[1..]);
    }
  }

  /** A run delivered in full has one status more in its trace than it has events, ending with its final status. */
  lemma {:induction false} TraceLength(s: Console, es: seq<Event>)
    requires Run(s, es).Some?
    ensures |StatusTrace(s, es)| == |es| + 1
    ensures StatusTrace(s, es)[|es|] == Run(s, es).value.status
    decreases |es|
  {
    if es != [] {
      TraceLength(Step(s, es[0]), es[1..]);
    }
  }

  /** Delivering the first event of a run, when it can be delivered. */
  lemma RunStep(s: Console, e: Event, rest: seq<Event>)
    requires Enabled(s, e)
    ensures Run(s, [e] + rest) == Run(Step(s, e), rest)
    ensures StatusTrace(s, [e] + rest) == [s.status] + StatusTrace(Step(s, e), rest)
  {
    assert ([e] + rest)[1..] == rest;
  }

  /**
   * No status other than `listening` is a dead end: `processing` always has a
   * reply owed, and every reply ends it; `speaking` always has a timer that
   * returns to standby; a shown error always has a timer that clears it.
   * `listening` ends only by the user: the code has no auto-stop.
   */
  lemma NeverStuck(s: Console)
    requires Invariant(s)
    ensures s.status == Processing ==>
      forall r: Reply :: Enabled(s, WebhookReply(r)) && Step(s, WebhookReply(r)).status != Processing
    ensures s.status == Speaking ==> Enabled(s, SpeakTimer) && Step(s, SpeakTimer).status == Standby
    ensures s.hasError ==> Enabled(s, ErrorTimer) && !Step(s, ErrorTimer).hasError
    ensures s.status == Listening ==> s.isRecording
  {
    if s.status == Processing {
      forall r: Reply ensures Step(s, WebhookReply(r)).status != Processing {
        WebhookRepliedProperties(s, r, Step(s, WebhookReply(r)));
      }
    }
  }

  /**
   * The 500 ms timer dispatches and the request succeeds: `processing`, then
   * `speaking` with the text shown and no error, then, when the speech timer
   * fires, standby and not speaking, without the clip.
   */
  lemma DispatchSucceeds(s: Console, answer: Option<string>, body: string, elapsed: nat)
    requires |s.pending.sends| > 0 && s.pending.sends[0] != "" && s.clip.Some?
    ensures var s1 := SendTimerFired(s, answer);
      && s1.status == Processing && s1.pending.requests > 0
      && var s2 := WebhookReplied(s1, Ok(body, elapsed));
      && s2.status == Speaking && !s2.hasError && s2.isSpeaking && s2.showResponse && s2.clip == None
      && s2.responseText == (if body == "" then SuccessText else body) && s2.latency == elapsed
      && s2.pending.speakTimers > 0
      && var s3 := SpeakTimerFired(s2);
      && s3.status == Standby && !s3.isSpeaking && s3.clip == None && s3.responseText == s2.responseText
  {
  }

  /**
   * The 500 ms timer dispatches and the request fails (a non-ok response or a
   * network failure): standby, not speaking, error shown, the clip kept, and
   * no new request or send timer (no retry); the error timer then clears it.
   */
  lemma DispatchFails(s: Console, answer: Option<string>, reply: Reply)
    requires |s.pending.sends| > 0 && s.pending.sends[0] != "" && s.clip.Some?
    requires !reply.Ok?
    ensures var s1 := SendTimerFired(s, answer);
      && s1.status == Processing && s1.pending.requests > 0
      && var s2 := WebhookReplied(s1, reply);
      && s2.status == Standby && !s2.isSpeaking && s2.hasError && s2.clip == s.clip
      && s2.pending.requests == s.pending.requests && s2.pending.sends == s.pending.sends[1..]
      && s2.latency == (if reply.NotOk? then reply.elapsed else s.latency)
      && s2.pending.errorTimers > 0
      && var s3 := ErrorTimerFired(s2);
      && !s3.hasError && s3.status == Standby && s3.clip == s.clip
  {
  }

  /**
   * Reset stops the recorder but cancels no pending callback: the stopped recorder's
   * `onstop` still runs afterwards and puts a clip back into `audioDataRef`.
   */
  lemma ResetThenOnStopRestoresClip(s: Console, flushed: seq<Chunk>)
    requires Invariant(s) && s.isRecording && s.pending.stops == []
    ensures var t := ResetStep(s);
      && t.clip == None && t.pending.stops == [s.recorder.value.chunks]
      && RecorderStopped(t, flushed).clip == Some(Clip(s.recorder.value.chunks + flushed, ClipType))
  {
  }

  /**
   * Stopping and then resetting before the 500 ms timer fires does not call
   * the command off: the recorder's `onstop` restores the clip, the armed
   * timer still fires, and the clip is sent to the URL the stop saw.
   */
  lemma ResetDoesNotCancelSend(s: Console, mic: MicAccess, flushed: seq<Chunk>, answer: Option<string>)
    requires Invariant(s) && s.isRecording && s.pending.stops == [] && s.pending.sends == []
    requires s.webhookUrl != ""
    ensures var s1 := ToggleStep(s, mic);
      && var s2 := ResetStep(s1);
      && s2.status == Standby && s2.clip == None && |s2.pending.stops| == 1
      && var s3 := RecorderStopped(s2, flushed);
      && s3.clip.Some? && s3.pending.sends == [s.webhookUrl]
      && var s4 := SendTimerFired(s3, answer);
      && s4.status == Processing && s4.isSpeaking && s4.pending.requests == s.pending.requests + 1
  {
    var s1 := ToggleStep(s, mic);
    ToggleStepProperties(s, mic, s1);
    var s2 := ResetStep(s1);
    ResetStepProperties(s1, s2);
    var s3 := RecorderStopped(s2, flushed);
    RecorderStoppedProperties(s2, flushed, s3);
    SendTimerFiredProperties(s3, answer, SendTimerFired(s3, answer));
  }

  /** The state after recording `audio` from the start: the clip is made, the send timer armed. */
  function Recorded(audio: Chunk): Console {
    Initial().(clip := Some(Clip([audio], ClipType)),
               recorder := Some(Recorder(Inactive, [audio])),
               pending := NothingPending.(sends := [InitialWebhookUrl]))
  }

  /**
   * Record from the initial state: `toggleRecording` (granted), one chunk, `toggleRecording` again,
   * then `onstop`. The status goes standby, listening, listening, standby,
   * and the clip holds the chunk.
   */
  lemma RecordOneClip(audio: Chunk, rest: seq<Event>)
    ensures var es := [Toggle(Granted), Data(audio), Toggle(Denied), OnStop([])];
      && Run(Initial(), es + rest) == Run(Recorded(audio), rest)
      && StatusTrace(Initial(), es + rest)
         == [Standby, Listening, Listening, Standby] + StatusTrace(Recorded(audio), rest)
  {
    var s0 := Initial();
    var s1 := ToggleStep(s0, Granted);
    var s2 := DataAvailable(s1, audio);
    var s3 := ToggleStep(s2, Denied);
    var s4 := RecorderStopped(s3, []);
    assert [] + [audio] == [audio];
    assert s2.recorder == Some(Recorder(Recording, [audio]));
    assert [] + [[audio]] == [[audio]] && [] + [InitialWebhookUrl] == [InitialWebhookUrl];
    assert [audio] + [] == [audio] && [[audio]][1..] == [];
    assert s4 == Recorded(audio);
    var e3 := [OnStop([])] + rest;
    var e2 := [Toggle(Denied)] + e3;
    var e1 := [Data(audio)] + e2;
    assert [Toggle(Granted), Data(audio), Toggle(Denied), OnStop([])] + rest == [Toggle(Granted)] + e1;
    RunStep(s0, Toggle(Granted), e1);
    RunStep(s1, Data(audio), e2);
    RunStep(s2, Toggle(Denied), e3);
    RunStep(s3, OnStop([]), rest);
  }

  /** Three events delivered in a row. */
  lemma RunThree(s: Console, a: Event, b: Event, c: Event)
    requires Enabled(s, a) && Enabled(Step(s, a), b) && Enabled(Step(Step(s, a), b), c)
    ensures var s1 := Step(s, a); var s2 := Step(s1, b); var s3 := Step(s2, c);
      && Run(s, [a, b, c]) == Some(s3)
      && StatusTrace(s, [a, b, c]) == [s.status, s1.status, s2.status, s3.status]
  {
    var s1 := Step(s, a);
    var s2 := Step(s1, b);
    assert [a, b, c] == [a] + [b, c];
    assert [b, c] == [b] + [c];
    RunStep(s, a, [b, c]);
    RunStep(s1, b, [c]);
    RunStep(s2, c, []);
  }

  /** The events of one spoken command. */
  function Command(audio: Chunk, reply: Reply, timer: Event): seq<Event> {
    [Toggle(Granted), Data(audio), Toggle(Denied), OnStop([]), SendTimer(None), WebhookReply(reply), timer]
  }

  /** From the recorded state, the send timer, an ok reply with a body and the speech timer. */
  lemma SuccessAfterRecording(audio: Chunk, body: string, elapsed: nat)
    requires body != ""
    ensures var tail := [SendTimer(None), WebhookReply(Ok(body, elapsed)), SpeakTimer];
      && Run(Recorded(audio), tail)
         == Some(Recorded(audio).(latency := elapsed, responseText := body, showResponse := true,
                                  clip := None, pending := NothingPending))
      && StatusTrace(Recorded(audio), tail) == [Standby, Processing, Speaking, Standby]
  {
    var r := Recorded(audio);
    assert r.pending.sends[0] != "";
    var s1 := SendTimerFired(r, None);
    assert s1.pending == NothingPending.(requests := 1);
    var s2 := WebhookReplied(s1, Ok(body, elapsed));
    assert s2 == r.(isSpeaking := true, status := Speaking, latency := elapsed, responseText := body,
                    showResponse := true, clip := None, pending := NothingPending.(speakTimers := 1));
    RunThree(r, SendTimer(None), WebhookReply(Ok(body, elapsed)), SpeakTimer);
  }

  /**
   * A command that the webhook answers with a body: the status goes standby,
   * listening, listening, standby (stop), standby (onstop), processing,
   * speaking, standby, and the body is shown without error.
   */
  lemma SuccessfulCommandTrace(audio: Chunk, body: string, elapsed: nat)
    requires body != ""
    ensures Run(Initial(), Command(audio, Ok(body, elapsed), SpeakTimer)).Some?
    ensures StatusTrace(Initial(), Command(audio, Ok(body, elapsed), SpeakTimer))
      == [Standby, Listening, Listening, Standby, Standby, Processing, Speaking, Standby]
    ensures var t := Run(Initial(), Command(audio, Ok(body, elapsed), SpeakTimer)).value;
      && t.responseText == body && t.showResponse && !t.hasError && !t.isSpeaking && t.clip == None
      && t.latency == elapsed && t.pending == NothingPending
  {
    var tail := [SendTimer(None), WebhookReply(Ok(body, elapsed)), SpeakTimer];
    assert Command(audio, Ok(body, elapsed), SpeakTimer)
      == [Toggle(Granted), Data(audio), Toggle(Denied), OnStop([])] + tail;
    RecordOneClip(audio, tail);
    SuccessAfterRecording(audio, body, elapsed);
  }

  /** From the recorded state, the send timer, a network failure and the error timer. */
  lemma UnreachableAfterRecording(audio: Chunk)
    ensures var tail := [SendTimer(None), WebhookReply(NetworkFailure), ErrorTimer];
      && Run(Recorded(audio), tail) == Some(Recorded(audio).(pending := NothingPending))
      && StatusTrace(Recorded(audio), tail) == [Standby, Processing, Standby, Standby]
  {
    var r := Recorded(audio);
    assert r.pending.sends[0] != "";
    var s1 := SendTimerFired(r, None);
    assert s1.pending == NothingPending.(requests := 1);
    var s2 := WebhookReplied(s1, NetworkFailure);
    assert s2 == r.(hasError := true, pending := NothingPending.(errorTimers := 1));
    RunThree(r, SendTimer(None), WebhookReply(NetworkFailure), ErrorTimer);
  }

  /**
   * A command sent to an unreachable endpoint: processing, then standby with
   * the error shown, then the error cleared; nothing is retried and the clip
   * is kept.
   */
  lemma UnreachableCommandTrace(audio: Chunk)
    ensures Run(Initial(), Command(audio, NetworkFailure, ErrorTimer)).Some?
    ensures StatusTrace(Initial(), Command(audio, NetworkFailure, ErrorTimer))
      == [Standby, Listening, Listening, Standby, Standby, Processing, Standby, Standby]
    ensures var t := Run(Initial(), Command(audio, NetworkFailure, ErrorTimer)).value;
      && !t.hasError && !t.isSpeaking && t.latency == 0 && t.pending == NothingPending
      && t.clip == Some(Clip([audio], ClipType))
  {
    var tail := [SendTimer(None), WebhookReply(NetworkFailure), ErrorTimer];
    assert Command(audio, NetworkFailure, ErrorTimer)
      == [Toggle(Granted), Data(audio), Toggle(Denied), OnStop([])] + tail;
    RecordOneClip(audio, tail);
    UnreachableAfterRecording(audio);
  }

  function TickEvents(n: nat): (es: seq<Event>)
    ensures |es| == n && forall i :: 0 <= i < n ==> es[i] == Tick
  {
    seq(n, _ => Tick)
  }

  /** While recording, `n` ticks add exactly `n` seconds and change nothing else. */
  lemma {:induction false} TicksCountSeconds(s: Console, n: nat)
    requires s.isRecording
    ensures Run(s, TickEvents(n)) == Some(s.(recordingTime := s.recordingTime + n))
    decreases n
  {
    if n > 0 {
      assert TickEvents(n) == [Tick] + TickEvents(n - 1);
      RunStep(s, Tick, TickEvents(n - 1));
      TicksCountSeconds(RecordingTick(s), n - 1);
    }
  }

  // ---------------------------------------------------------------------------
  // The component
  // ---------------------------------------------------------------------------

  /** The component's state hooks and refs, updated in place by its handlers. */
  class JarvisInterface {
    var isRecording: bool
    var isSpeaking: bool
    var isActive: bool
    var hasError: bool
    var showResponse: bool
    var status: Status
    var recordingTime: nat
    var latency: nat
    var responseText: string
    var webhookUrl: string
    var recorder: Option<Recorder>
    var clip: Option<Clip>
    var pending: Pending

    /** The whole state as a value. */
    function State(): Console
      reads this
    {
      Console(isRecording, isSpeaking, isActive, hasError, showResponse, status, recordingTime,
              latency, responseText, webhookUrl, recorder, clip, pending)
    }

    predicate Valid()
      reads this
    {
      Invariant(State())
    }

    /** Mount: the initial `useState` values, then the mount effect (active, standby). */
    constructor ()
      ensures Valid() && State() == Initial()
    {
      isRecording, isSpeaking, isActive, hasError, showResponse := false, false, false, false, false;
      status, recordingTime, latency := Standby, 0, 0;
      responseText, webhookUrl := "", InitialWebhookUrl;
      recorder, clip := None, None;
      pending := NothingPending;
      isActive := true;
      status := Standby;
    }

    method StopRecorderIfRecording()
      modifies this
      ensures State() == StopRecorder(old(State()))
    {
      if recorder.Some? && recorder.value.state == Recording {
        pending := pending.(stops := pending.stops + [recorder.value.chunks]);
        recorder := Some(recorder.value.(state := Inactive));
      }
    }

    method ToggleRecording(mic: MicAccess)
      requires Valid()
      modifies this
      ensures Valid() && State() == ToggleStep(old(State()), mic)
    {
      if isRecording {
        var url := webhookUrl;
        StopRecorderIfRecording();
        isRecording := false;
        status := Standby;
        pending := pending.(sends := pending.sends + [url]);
      } else if mic == Granted {
        StartRecording();
      }
      ToggleStepProperties(old(State()), mic, State());
    }

    /** The `try` branch once the microphone is granted, with the recording-time effect. */
    method StartRecording()
      modifies this
      ensures State() == old(State()).(recorder := Some(Recorder(Recording, [])), isRecording := true,
                                       status := Listening, recordingTime := 0)
    {
      recorder := Some(Recorder(Recording, []));
      isRecording := true;
      status := Listening;
      recordingTime := 0;
    }

    method OnDataAvailable(chunk: Chunk)
      requires Valid() && RecorderIsRecording(State())
      modifies this
      ensures Valid() && State() == DataAvailable(old(State()), chunk)
    {
      recorder := Some(recorder.value.(chunks := recorder.value.chunks + [chunk]));
      DataAvailableProperties(old(State()), chunk, State());
    }

    method OnRecorderStop(flushed: seq<Chunk>)
      requires Valid() && |pending.stops| > 0
      modifies this
      ensures Valid() && State() == RecorderStopped(old(State()), flushed)
    {
      clip := Some(Clip(pending.stops[0] + flushed, ClipType));
      pending := pending.(stops := pending.stops[1..]);
      RecorderStoppedProperties(old(State()), flushed, State());
    }

    method OnSendTimer(answer: Option<string>)
      requires Valid() && |pending.sends| > 0
      modifies this
      ensures Valid() && State() == SendTimerFired(old(State()), answer)
    {
      var url := pending.sends[0];
      pending := pending.(sends := pending.sends[1..]);
      if clip != None {
        if url == "" {
          webhookUrl := PromptValue(answer);
        } else {
          Dispatch();
        }
      }
      SendTimerFiredProperties(old(State()), answer, State());
    }

    /** The part of `sendToWebhook` before `fetch`: the request goes out. */
    method Dispatch()
      modifies this
      ensures State() == old(State()).(hasError := false, isSpeaking := true, status := Processing,
                                       pending := old(pending).(requests := old(pending).requests + 1))
    {
      hasError := false;
      isSpeaking := true;
      status := Processing;
      pending := pending.(requests := pending.requests + 1);
    }

    method OnWebhookReply(reply: Reply)
      requires Valid() && pending.requests > 0
      modifies this
      ensures Valid() && State() == WebhookReplied(old(State()), reply)
    {
      pending := pending.(requests := pending.requests - 1);
      match reply {
        case Ok(body, elapsed) =>
          ShowReply(body, elapsed);
        case NotOk(elapsed) =>
          latency := elapsed;
          CatchFailure();
        case NetworkFailure =>
          CatchFailure();
      }
      WebhookRepliedProperties(old(State()), reply, State());
    }

    /** The rest of the `try` block after an ok response. */
    method ShowReply(body: string, elapsed: nat)
      modifies this
      ensures State() == old(State()).(latency := elapsed,
                                       responseText := if body == "" then SuccessText else body,
                                       showResponse := true, status := Speaking, clip := None,
                                       pending := old(pending).(speakTimers := old(pending).speakTimers + 1))
    {
      var text := if body == "" then SuccessText else body;
      latency, responseText := elapsed, text;
      showResponse := true;
      status := Speaking;
      clip := None;
      pending := pending.(speakTimers := pending.speakTimers + 1);
    }

    /** The `catch` block of `sendToWebhook`. */
    method CatchFailure()
      modifies this
      ensures State() == Failed(old(State()))
    {
      isSpeaking := false;
      status := Standby;
      hasError := true;
      pending := pending.(errorTimers := pending.errorTimers + 1);
    }

    method OnSpeakTimer()
      requires Valid() && pending.speakTimers > 0
      modifies this
      ensures Valid() && State() == SpeakTimerFired(old(State()))
    {
      isSpeaking := false;
      status := Standby;
      pending := pending.(speakTimers := pending.speakTimers - 1);
      SpeakTimerFiredProperties(old(State()), State());
    }

    method OnErrorTimer()
      requires Valid() && pending.errorTimers > 0
      modifies this
      ensures Valid() && State() == ErrorTimerFired(old(State()))
    {
      hasError := false;
      pending := pending.(errorTimers := pending.errorTimers - 1);
      ErrorTimerFiredProperties(old(State()), State());
    }

    method OnRecordingTick()
      requires Valid() && isRecording
      modifies this
      ensures Valid() && State() == RecordingTick(old(State()))
    {
      recordingTime := recordingTime + 1;
      RecordingTickProperties(old(State()), State());
    }

    method ResetConversation()
      requires Valid()
      modifies this
      ensures Valid() && State() == ResetStep(old(State()))
    {
      StopRecorderIfRecording();
      isRecording := false;
      isSpeaking := false;
      hasError := false;
      showResponse := false;
      status := Standby;
      recordingTime := 0;
      clip := None;
      ResetStepProperties(old(State()), State());
    }
  }
}
