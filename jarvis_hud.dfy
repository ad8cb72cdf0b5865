/**
 * The values the interface's HUD corners show, derived from its state on
 * every render: voice and microphone activity, latency in milliseconds, the
 * recording time as `m:ss` and the status in capitals.
 */
module JarvisHud {
  import opened Wrappers
  import opened Decimal
  import opened Jarvis

  /** One line of a HUD corner: a name (the `label`), a value and whether it shows the online marker. */
  datatype HudItem = HudItem(name: string, value: string, online: bool)

  /** VOICE: `ACTIVE` exactly while listening, `STANDBY` otherwise. */
  function VoiceValue(status: Status): (v: string)
    ensures v == "ACTIVE" <==> status == Listening
    ensures v == "STANDBY" <==> status != Listening
  {
    if status == Listening then "ACTIVE" else "STANDBY"
  }

  /** MIC: `RECORDING` exactly while recording, `READY` otherwise. */
  function MicValue(isRecording: bool): (v: string)
    ensures v == "RECORDING" <==> isRecording
    ensures v == "READY" <==> !isRecording
  {
    if isRecording then "RECORDING" else "READY"
  }

  /** The status as the code names it. */
  function StatusName(status: Status): string {
    match status
    case Standby => "standby"
    case Listening => "listening"
    case Processing => "processing"
    case Speaking => "speaking"
  }

  predicate IsLower(c: char) {
    'a' <= c <= 'z'
  }

  /** `toUpperCase` on ASCII text: lower-case letters move up, everything else stays. */
  function Upper(s: string): (u: string)
    ensures |u| == |s|
    ensures forall i :: 0 <= i < |s| ==> u[i] == if IsLower(s[i]) then (s[i] as int - 32) as char else s[i]
    ensures forall i :: 0 <= i < |u| ==> !IsLower(u[i])
  {
    seq(|s|, i requires 0 <= i < |s| => if IsLower(s[i]) then (s[i] as int - 32) as char else s[i])
  }

  /** STATUS: the status name in capitals. */
  function StatusValue(status: Status): string {
    Upper(StatusName(status))
  }

  /** The four statuses show four different capitalised names. */
  lemma StatusValues()
    ensures StatusValue(Standby) == "STANDBY" && StatusValue(Listening) == "LISTENING"
    ensures StatusValue(Processing) == "PROCESSING" && StatusValue(Speaking) == "SPEAKING"
    ensures forall a: Status, b: Status :: StatusValue(a) == StatusValue(b) ==> a == b
  {
    assert StatusValue(Standby) == "STANDBY";
    assert StatusValue(Listening) == "LISTENING";
    assert StatusValue(Processing) == "PROCESSING";
    assert StatusValue(Speaking) == "SPEAKING";
  }

  /** LATENCY: the number of milliseconds followed by `ms`. */
  function LatencyValue(latency: nat): string {
    NatToString(latency) + "ms"
  }

  /** The latency text ends in `ms` after the decimal digits of the latency, and reads back to it. */
  lemma LatencyRoundTrip(latency: nat)
    ensures var v := LatencyValue(latency);
      && |v| >= 3 && v[|v| - 2..] == "ms"
      && AllDigits(v[..|v| - 2]) && ParseNat(v[..|v| - 2]) == latency
  {
    var v := LatencyValue(latency);
    assert v[..|v| - 2] == NatToString(latency);
    ParseNatToString(latency);
  }

  /** `m:ss` for `t` seconds: whole minutes, a colon, the seconds padded to two digits. */
  function Duration(t: nat): string {
    NatToString(t / 60) + ":" + PadStart(NatToString(t % 60), 2, '0')
  }

  /** Reads `m:ss` back: one or more digits, a colon, two digits under 60. */
  function ParseDuration(d: string): (r: Option<nat>)
    ensures r.Some? ==> |d| >= 4 && d[|d| - 3] == ':'
  {
    if |d| < 4 || d[|d| - 3] != ':' then None
    else
      var minutes := d[..|d| - 3];
      var seconds := d[|d| - 2..];
      if !AllDigits(minutes) || !AllDigits(seconds) then None
      else if ParseNat(seconds) >= 60 then None
      else Some(ParseNat(minutes) * 60 + ParseNat(seconds))
  }

  /** Text made of a part, a colon and two characters splits back into them. */
  lemma SplitAtColon(m: string, ss: string)
    requires |ss| == 2
    ensures var d := m + ":" + ss;
      && |d| == |m| + 3 && d[..|d| - 3] == m && d[|d| - 3] == ':' && d[|d| - 2..] == ss
  {
    var d := m + ":" + ss;
    assert d[..|d| - 3] == m;
    assert d[|d| - 2..] == ss;
  }

  /** Digits for `q`, a colon and two digits for `r < 60` read back as `q * 60 + r`. */
  lemma ParseMinutesSeconds(d: string, q: nat, r: nat)
    requires |d| >= 4 && d[|d| - 3] == ':'
    requires AllDigits(d[..|d| - 3]) && ParseNat(d[..|d| - 3]) == q
    requires AllDigits(d[|d| - 2..]) && ParseNat(d[|d| - 2..]) == r && r < 60
    ensures ParseDuration(d) == Some(q * 60 + r)
  {
  }

  /**
   * The recording time shown splits into minutes and two-digit seconds with
   * `m * 60 + ss == t` and `ss < 60`, and reading it back gives `t`.
   */
  lemma DurationRoundTrip(t: nat)
    ensures var d := Duration(t);
      && |d| >= 4 && d[..|d| - 3] == NatToString(t / 60) && d[|d| - 3] == ':'
      && AllDigits(d[|d| - 2..]) && ParseNat(d[|d| - 2..]) == t % 60 < 60
      && ParseDuration(d) == Some(t)
  {
    var q, r := t / 60, t % 60;
    var m := NatToString(q);
    var ss := PadStart(NatToString(r), 2, '0');
    TwoDigitsRoundTrip(r);
    ParseNatToString(q);
    SplitAtColon(m, ss);
    assert Duration(t) == m + ":" + ss;
    ParseMinutesSeconds(Duration(t), q, r);
    assert q * 60 + r == t;
  }

  /** AUDIO: the recording time while recording, `0:00` otherwise. */
  function AudioValue(isRecording: bool, recordingTime: nat): string {
    if isRecording then Duration(recordingTime) else "0:00"
  }

  /** AUDIO reads back to the recording time while recording, and shows zero time otherwise. */
  lemma AudioValueReadsBack(isRecording: bool, recordingTime: nat)
    ensures ParseDuration(AudioValue(isRecording, recordingTime))
         == Some(if isRecording then recordingTime else 0)
    ensures !isRecording ==> AudioValue(isRecording, recordingTime) == Duration(0)
  {
    if isRecording {
      DurationRoundTrip(recordingTime);
    } else {
      DurationRoundTrip(0);
      assert Duration(0) == "0:00";
    }
  }

  /** The top-right corner: VOICE, MIC, CONN and LATENCY. */
  function TopRightData(s: Console): seq<HudItem> {
    [ HudItem("VOICE", VoiceValue(s.status), false),
      HudItem("MIC", MicValue(s.isRecording), false),
      HudItem("CONN", "SECURE", true),
      HudItem("LATENCY", LatencyValue(s.latency), false) ]
  }

  /** The bottom-left corner: AUDIO, STATUS and NEURAL. */
  function BottomLeftData(s: Console): seq<HudItem> {
    [ HudItem("AUDIO", AudioValue(s.isRecording, s.recordingTime), false),
      HudItem("STATUS", StatusValue(s.status), false),
      HudItem("NEURAL", "ACTIVE", true) ]
  }

  /**
   * In every state the interface reaches, VOICE shows `ACTIVE` only with MIC
   * showing `RECORDING`, and an AUDIO time other than `0:00` only while recording.
   */
  lemma HudAgreesWithState(s: Console)
    requires Invariant(s)
    ensures TopRightData(s)[0].value == "ACTIVE" ==> TopRightData(s)[1].value == "RECORDING"
    ensures BottomLeftData(s)[0].value != "0:00" ==> TopRightData(s)[1].value == "RECORDING"
    ensures BottomLeftData(s)[1].value == "LISTENING" <==> TopRightData(s)[0].value == "ACTIVE"
  {
    StatusValues();
  }

  /** `toggleRecording` from idle with the microphone granted, once the recording-time effect has run, shows ACTIVE, RECORDING, `0:00` and LISTENING. */
  lemma HudAfterStart(s: Console)
    requires !s.isRecording
    ensures var t := ToggleStep(s, Granted);
      && TopRightData(t)[0].value == "ACTIVE" && TopRightData(t)[1].value == "RECORDING"
      && BottomLeftData(t)[0].value == "0:00" && BottomLeftData(t)[1].value == "LISTENING"
  {
    StatusValues();
  }

  /** While recording, AUDIO shows the recording time, so each tick moves it on by one second. */
  lemma AudioShowsRecordingTime(s: Console)
    requires s.isRecording
    ensures ParseDuration(BottomLeftData(s)[0].value) == Some(s.recordingTime)
  {
    var a := AudioValue(true, s.recordingTime);
    assert BottomLeftData(s)[0].value == a;
    AudioValueReadsBack(true, s.recordingTime);
  }
}
