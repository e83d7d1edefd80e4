/** The page: the shared UI store, the rules that guard every user action,
    the rate-limited hand-off of the recording to the transcription route,
    the transcript update, what the toolbar shows, and the download name.

    Each page component that calls `useRecordVoice` gets its own hook
    instance: `display` is the one `TranscriptionDisplay` uses (Stop, Clear,
    Download), `control` the one `AudioVisualizerControl` uses (the main
    button, the recording effects). */
module Page {
  import opened Media
  import opened Text
  import opened Hook
  import Route

  // ---------------------------------------------------------------------
  // Constants

  /** Minimum time between two sends scheduled from the recording effect (ms). */
  const ApiCallInterval: int := 4000
  /** A recording smaller than this is not sent (bytes). */
  const MinFileSize: nat := 500
  /** A recorder chunk must be larger than this to be sent on its own (bytes). */
  const MinChunkSize: nat := 500
  /** The visualizer's resting level and number of bins. */
  const DefaultFill: real := 0.01
  const VisualizerBins: nat := 64

  /** `new Float32Array(64).fill(0.01)` */
  function DefaultAudioData(): (d: seq<real>)
    ensures |d| == VisualizerBins && forall i :: 0 <= i < |d| ==> d[i] == DefaultFill
  {
    seq(VisualizerBins, _ => DefaultFill)
  }

  // ---------------------------------------------------------------------
  // What the transcription panel shows

  /** The Stop button. */
  predicate ShowStop(ui: RecState, transcribing: bool)
  {
    (ui == Play || ui == Pause) && !transcribing
  }

  /** The Copy button. */
  predicate ShowCopy(transcript: string, transcribing: bool)
  {
    transcript != "" && !transcribing
  }

  /** The Download button. */
  predicate ShowDownload(hasBlob: bool, transcribing: bool, ui: RecState, transcript: string)
  {
    hasBlob && !transcribing && (ui == Stop || (ui == Initial && transcript != ""))
  }

  /** The Clear button. */
  predicate ShowReset(hasBlob: bool, transcribing: bool, ui: RecState, transcript: string)
  {
    ((ui == Stop && transcript != "") || (ui == Initial && transcript != "") || hasBlob) && !transcribing
  }

  /** The text shown while there is no transcript. */
  function Placeholder(ui: RecState): string
  {
    if ui == Initial || ui == Stop then "Click the below blob to start."
    else if ui == Play then "Listening..."
    else "Paused."
  }

  /** Stop is offered exactly when the placeholder reports a live session
      (listening or paused) and nothing is being transcribed; Download and
      Stop never share a placeholder; nothing is offered while transcribing. */
  lemma ToolbarRules(hasBlob: bool, transcribing: bool, ui: RecState, transcript: string)
    ensures ShowStop(ui, transcribing) <==>
      Placeholder(ui) != "Click the below blob to start." && !transcribing
    ensures ShowDownload(hasBlob, transcribing, ui, transcript) ==>
      Placeholder(ui) == "Click the below blob to start."
    ensures transcribing ==>
      && !ShowStop(ui, transcribing) && !ShowCopy(transcript, transcribing)
      && !ShowDownload(hasBlob, transcribing, ui, transcript)
      && !ShowReset(hasBlob, transcribing, ui, transcript)
  {
  }

  /** Stop and Download are never offered together, and whenever Download is
      offered so is Clear. */
  lemma ToolbarConsistent(hasBlob: bool, transcribing: bool, ui: RecState, transcript: string)
    ensures !(ShowStop(ui, transcribing) && ShowDownload(hasBlob, transcribing, ui, transcript))
    ensures ShowDownload(hasBlob, transcribing, ui, transcript) ==> ShowReset(hasBlob, transcribing, ui, transcript)
  {
  }

  /** Each placeholder message belongs to its own states. */
  lemma PlaceholderByState(ui: RecState)
    ensures Placeholder(ui) == "Click the below blob to start." <==> ui in {Initial, Stop}
    ensures Placeholder(ui) == "Listening..." <==> ui == Play
    ensures Placeholder(ui) == "Paused." <==> ui == Pause
  {
  }

  // ---------------------------------------------------------------------
  // The download name

  /** `blobType.split("/")[1] || "wav"` */
  function Extension(mime: string): (ext: string)
    ensures ext != "" && '/' !in ext
  {
    var parts := Split(mime, '/');
    if |parts| >= 2 && parts[1] != "" then parts[1] else "wav"
  }

  /** The extension is the text between the first `/` and the next `/` (or
      the end); when that text is empty the extension is `wav`. */
  lemma ExtensionOfType(a: string, b: string, rest: string)
    requires '/' !in a && '/' !in b && (rest == "" || rest[0] == '/')
    ensures Extension(a + "/" + b + rest) == if b == "" then "wav" else b
  {
    assert a + "/" + b + rest == a + ['/'] + (b + rest);
    SplitAtFirst(a, '/', b + rest);
    SplitFirstPart(b, '/', rest);
    var parts := Split(a + "/" + b + rest, '/');
    assert parts[1] == Split(b + rest, '/')[0];
  }

  /** A type without `/` downloads as `wav`. */
  lemma ExtensionWithoutSlash(mime: string)
    requires '/' !in mime
    ensures Extension(mime) == "wav"
  {
    SplitNoSeparator(mime, '/');
  }

  /** The first 19 characters of an ISO timestamp with `:` and `T` turned
      into `-`: `.slice(0, 19).replace(/[:T]/g, "-")`. */
  function Stamp(iso: string): (r: string)
    ensures |r| == if |iso| < 19 then |iso| else 19
    ensures forall k :: 0 <= k < |r| ==> r[k] != ':' && r[k] != 'T'
    ensures forall k :: 0 <= k < |r| ==> r[k] == iso[k] || (r[k] == '-' && iso[k] in {':', 'T'})
  {
    var n := if |iso| < 19 then |iso| else 19;
    seq(n, k requires 0 <= k < n => if iso[k] == ':' || iso[k] == 'T' then '-' else iso[k])
  }

  /** `recording-<stamp>.<extension>` */
  function DownloadName(iso: string, mime: string): string
  {
    "recording-" + Stamp(iso) + "." + Extension(mime)
  }

  /** The name is `recording-`, then the stamp, which has no `:` or `T` left,
      then a dot and the extension. */
  lemma DownloadNameShape(iso: string, mime: string)
    ensures var name := DownloadName(iso, mime);
      var n := if |iso| < 19 then |iso| else 19;
      && |name| == 10 + n + 1 + |Extension(mime)|
      && name[..10] == "recording-"
      && name[10..10 + n] == Stamp(iso)
      && (forall k :: 10 <= k < 10 + n ==> name[k] != ':' && name[k] != 'T')
      && name[10 + n] == '.'
      && name[10 + n + 1..] == Extension(mime)
  {
    var s := Stamp(iso);
    var name := DownloadName(iso, mime);
    assert name == "recording-" + s + "." + Extension(mime);
    forall k | 10 <= k < 10 + |s| ensures name[k] == s[k - 10] { }
  }

  /** A WebM recording gets the `webm` extension. */
  lemma ExtensionExample()
    ensures Extension("audio/webm") == "webm"
  {
    ExtensionOfType("audio", "webm", "");
    assert "audio" + "/" + "webm" + "" == "audio/webm";
  }

  /** A recording made at 12:34:56 on 1 May 2025. */
  lemma StampExample()
    ensures Stamp("2025-05-01T12:34:56.789Z") == "2025-05-01-12-34-56"
  {
  }

  // ---------------------------------------------------------------------
  // Sending the recording

  /** `transcribeFullAudioAPI(file)` up to the `fetch`: a file under the
      minimum size is dropped; otherwise its bytes are re-wrapped as
      `audio.webm` of type `audio/webm` and posted. */
  function TranscribeRequest(file: File): (r: Option<File>)
    ensures r.Some? <==> file.Size() >= MinFileSize
    ensures r.Some? ==>
      r.value.name == WebmName && r.value.blob.mime == WebmMime && r.value.blob.content == file.blob.content
  {
    if file.Size() < MinFileSize then None else Some(File(WebmName, Blob(file.blob.content, WebmMime)))
  }

  /** `dataHandler`: a chunk larger than the minimum becomes a file of its
      own, typed with the recorder's MIME type or `audio/webm` when that is empty. */
  function ChunkFile(data: Chunk, recorderMime: string): (r: Option<File>)
    ensures r.Some? <==> |data| > MinChunkSize
    ensures r.Some? ==>
      && r.value.name == WebmName && r.value.blob.content == data
      && r.value.blob.mime == (if recorderMime == "" then WebmMime else recorderMime)
  {
    if |data| > MinChunkSize then
      Some(File(WebmName, Blob(data, if recorderMime == "" then WebmMime else recorderMime)))
    else None
  }

  /** Nothing under the minimum size reaches the route, by either path. */
  lemma NoSmallUploads(file: File, data: Chunk, recorderMime: string)
    ensures TranscribeRequest(file).Some? ==> TranscribeRequest(file).value.Size() >= MinFileSize
    ensures ChunkFile(data, recorderMime).Some? ==>
      var sent := TranscribeRequest(ChunkFile(data, recorderMime).value);
      sent.Some? && sent.value.blob.content == data && |data| > MinChunkSize
  {
  }

  /** The recording effect's gate: a file, the play state, and enough time
      since the last scheduled call. */
  predicate ShouldSchedule(hasFile: bool, ui: RecState, now: int, lastCall: int)
  {
    hasFile && ui == Play && now - lastCall >= ApiCallInterval
  }

  /** One run of the recording effect: the clock and what it saw. */
  datatype EffectRun = EffectRun(now: int, hasFile: bool, ui: RecState)

  /** The times at which the recording effect schedules a send, starting
      from the given last-call time. */
  function ScheduledTimes(lastCall: int, runs: seq<EffectRun>): (ts: seq<int>)
    ensures |ts| <= |runs|
    decreases |runs|
  {
    if runs == [] then []
    else
      var r := runs[0];
      if ShouldSchedule(r.hasFile, r.ui, r.now, lastCall) then [r.now] + ScheduledTimes(r.now, runs[1..])
      else ScheduledTimes(lastCall, runs[1..])
  }

  /** Every scheduled send is at least the interval after the starting last-call time. */
  lemma {:induction false} ScheduledAfterLastCall(lastCall: int, runs: seq<EffectRun>)
    ensures forall i :: 0 <= i < |ScheduledTimes(lastCall, runs)| ==>
      ScheduledTimes(lastCall, runs)[i] - lastCall >= ApiCallInterval
    decreases |runs|
  {
    if runs != [] {
      var r := runs[0];
      if ShouldSchedule(r.hasFile, r.ui, r.now, lastCall) {
        ScheduledAfterLastCall(r.now, runs[1..]);
        var tail := ScheduledTimes(r.now, runs[1..]);
        assert ScheduledTimes(lastCall, runs) == [r.now] + tail;
      } else {
        ScheduledAfterLastCall(lastCall, runs[1..]);
        assert ScheduledTimes(lastCall, runs) == ScheduledTimes(lastCall, runs[1..]);
      }
    }
  }

  /** Any two sends scheduled by the recording effect are at least the
      interval apart, whatever the clock does between runs. */
  lemma {:induction false} ScheduledSpacing(lastCall: int, runs: seq<EffectRun>)
    ensures forall i, j :: 0 <= i < j < |ScheduledTimes(lastCall, runs)| ==>
      ScheduledTimes(lastCall, runs)[j] - ScheduledTimes(lastCall, runs)[i] >= ApiCallInterval
    decreases |runs|
  {
    if runs != [] {
      var r := runs[0];
      if ShouldSchedule(r.hasFile, r.ui, r.now, lastCall) {
        var tail := ScheduledTimes(r.now, runs[1..]);
        ScheduledSpacing(r.now, runs[1..]);
        ScheduledAfterLastCall(r.now, runs[1..]);
        var ts := [r.now] + tail;
        assert ScheduledTimes(lastCall, runs) == ts;
        forall i, j | 0 <= i < j < |ts| ensures ts[j] - ts[i] >= ApiCallInterval {
          assert ts[j] == tail[j - 1];
          if i > 0 {
            assert ts[i] == tail[i - 1];
          }
        }
      } else {
        ScheduledSpacing(lastCall, runs[1..]);
        assert ScheduledTimes(lastCall, runs) == ScheduledTimes(lastCall, runs[1..]);
      }
    }
  }

  /** Some run at time `t` saw a file in the play state. */
  predicate PlayingRunAt(runs: seq<EffectRun>, t: int)
  {
    exists k :: 0 <= k < |runs| && runs[k].now == t && runs[k].hasFile && runs[k].ui == Play
  }

  /** A send is scheduled only by a run that saw a file in the play state. */
  lemma {:induction false} ScheduledOnlyWhilePlaying(lastCall: int, runs: seq<EffectRun>)
    ensures forall i :: 0 <= i < |ScheduledTimes(lastCall, runs)| ==>
      PlayingRunAt(runs, ScheduledTimes(lastCall, runs)[i])
    decreases |runs|
  {
    if runs != [] {
      var r := runs[0];
      var next := if ShouldSchedule(r.hasFile, r.ui, r.now, lastCall) then r.now else lastCall;
      ScheduledOnlyWhilePlaying(next, runs[1..]);
      var tail := ScheduledTimes(next, runs[1..]);
      forall i | 0 <= i < |tail| ensures PlayingRunAt(runs, tail[i]) {
        assert PlayingRunAt(runs[1..], tail[i]);
        var k :| 0 <= k < |runs[1..]| && runs[1..][k].now == tail[i] && runs[1..][k].hasFile && runs[1..][k].ui == Play;
        assert runs[k + 1] == runs[1..][k];
      }
      if ShouldSchedule(r.hasFile, r.ui, r.now, lastCall) {
        var ts := [r.now] + tail;
        assert ScheduledTimes(lastCall, runs) == ts;
        assert PlayingRunAt(runs, r.now) by { assert runs[0].now == r.now; }
        forall i | 0 <= i < |ts| ensures PlayingRunAt(runs, ts[i]) {
          if i > 0 {
            assert ts[i] == tail[i - 1];
          }
        }
      } else {
        assert ScheduledTimes(lastCall, runs) == tail;
      }
    }
  }

  // ---------------------------------------------------------------------
  // Applying the answer

  /** What the page's `fetch` of the route produced: a network failure, or a
      status and the body parsed as JSON (None when it is not JSON). */
  datatype Reply = NetworkFailure | Received(status: nat, body: Option<Json>)

  /** `result.text` as the page reads it: an error reply becomes
      `{ text: "" }`, and every reply without a string `text` field ends in
      the `catch` or in `undefined`, both of which leave the transcript alone. */
  function ReplyText(reply: Reply): Option<string>
  {
    match reply
    case NetworkFailure => None
    case Received(status, body) =>
      if !Route.Ok(status) then (if body.Some? then Some("") else None)
      else if body.Some? && body.value.JObject? && "text" in body.value.fields
              && body.value.fields["text"].JString? then
        Some(body.value.fields["text"].s)
      else None
  }

  /** The transcript after an answer: the trimmed text when it is not empty,
      otherwise the transcript as it was. */
  function TranscriptAfter(current: string, reply: Reply): string
  {
    match ReplyText(reply)
    case Some(t) => if Trim(t) != "" then Trim(t) else current
    case None => current
  }

  /** The transcript is replaced, never extended: an answer either leaves
      every transcript as it was or sets every transcript to the same text. */
  lemma TranscriptReplaced(reply: Reply)
    ensures || (forall c :: TranscriptAfter(c, reply) == c)
            || (forall c1, c2 :: TranscriptAfter(c1, reply) == TranscriptAfter(c2, reply))
  {
  }

  /** A new transcript is never blank and has no whitespace at either end. */
  lemma NewTranscriptTrimmed(current: string, reply: Reply)
    requires TranscriptAfter(current, reply) != current
    ensures var t := TranscriptAfter(current, reply);
      t != "" && Trim(t) == t && !IsSpace(t[0]) && !IsSpace(t[|t| - 1])
  {
    assert ReplyText(reply).Some?;
    var text := ReplyText(reply).value;
    assert Trim(text) != "" && TranscriptAfter(current, reply) == Trim(text);
    TrimIdempotent(text);
    TrimSpec(text);
  }

  /** A failed request, an error status, a body that is not JSON, a body
      without a string `text`, or a blank `text` leaves the transcript unchanged. */
  lemma FailuresKeepTranscript(current: string, reply: Reply)
    requires || reply.NetworkFailure?
             || !Route.Ok(reply.status) || reply.body.None?
             || !(reply.body.value.JObject? && "text" in reply.body.value.fields
                  && reply.body.value.fields["text"].JString?)
             || Blank(reply.body.value.fields["text"].s)
    ensures TranscriptAfter(current, reply) == current
  {
    if ReplyText(reply).Some? {
      TrimEmptyIffBlank(ReplyText(reply).value);
    }
  }

  /** A 2xx answer whose `text` has a non-blank string sets the transcript to it, trimmed. */
  lemma TextReplacesTranscript(current: string, status: nat, fields: map<string, Json>, text: string)
    requires Route.Ok(status) && "text" in fields && fields["text"] == JString(text) && !Blank(text)
    ensures TranscriptAfter(current, Received(status, Some(JObject(fields)))) == Trim(text)
  {
    TrimEmptyIffBlank(text);
  }

  /** The same answer applied twice changes nothing the second time. */
  lemma TranscriptIdempotent(current: string, reply: Reply)
    ensures TranscriptAfter(TranscriptAfter(current, reply), reply) == TranscriptAfter(current, reply)
  {
  }

  /** Through the route: every answer of the route other than status 200
      leaves the transcript as it was. */
  lemma RouteErrorsKeepTranscript(request: Route.Request, key: Option<string>, upstream: Route.Upstream, current: string)
    ensures var r := Route.Post(request, key, upstream);
      r.status != 200 ==> TranscriptAfter(current, Received(r.status, Some(r.body))) == current
  {
    Route.StatusMeaning(request, key, upstream);
    var r := Route.Post(request, key, upstream);
    if r.status != 200 {
      assert ReplyText(Received(r.status, Some(r.body))) == Some("");
    }
  }

  /** Through the route: a transcription service answer with a non-blank
      `text` becomes the transcript, trimmed. */
  lemma ServiceTextBecomesTranscript(fields: Route.FormFields, key: Option<string>, status: nat,
                                     body: map<string, Json>, text: string, current: string)
    requires Route.FilePresent(Route.Get(fields, "file")) && Route.KeyPresent(key) && Route.Ok(status)
    requires "text" in body && body["text"] == JString(text) && !Blank(text)
    ensures var r := Route.Post(Route.Form(fields), key, Route.Replied(status, None, Some(JObject(body))));
      TranscriptAfter(current, Received(r.status, Some(r.body))) == Trim(text)
  {
    Route.SuccessRelayed(fields, key, status, None, JObject(body));
    TextReplacesTranscript(current, 200, body, text);
  }

  // ---------------------------------------------------------------------
  // The main button

  datatype MainAction = StartSession | PauseSession | ResumeSession

  /** What a click on the main button does in each state. */
  function MainButtonAction(ui: RecState): MainAction
  {
    match ui
    case Initial => StartSession
    case Stop => StartSession
    case Play => PauseSession
    case Pause => ResumeSession
  }

  // ---------------------------------------------------------------------
  // The store and the page

  /** The Zustand store shared by every component. */
  class AudioStore {
    var uiRecordingState: RecState
    var fullTranscription: string
    var audioData: seq<real>
    var isTranscribing: bool

    constructor ()
      ensures uiRecordingState == Initial && fullTranscription == ""
      ensures audioData == DefaultAudioData() && !isTranscribing
    {
      uiRecordingState := Initial;
      fullTranscription := "";
      audioData := DefaultAudioData();
      isTranscribing := false;
    }

    method SetUiRecordingState(state: RecState)
      modifies this
      ensures uiRecordingState == state
      ensures fullTranscription == old(fullTranscription) && audioData == old(audioData)
      ensures isTranscribing == old(isTranscribing)
    {
      uiRecordingState := state;
    }

    method SetFullTranscription(text: string)
      modifies this
      ensures fullTranscription == text
      ensures uiRecordingState == old(uiRecordingState) && audioData == old(audioData)
      ensures isTranscribing == old(isTranscribing)
    {
      fullTranscription := text;
    }

    method ResetFullTranscription()
      modifies this
      ensures fullTranscription == ""
      ensures uiRecordingState == old(uiRecordingState) && audioData == old(audioData)
      ensures isTranscribing == old(isTranscribing)
    {
      fullTranscription := "";
    }

    method SetAudioData(data: seq<real>)
      modifies this
      ensures audioData == data
      ensures uiRecordingState == old(uiRecordingState) && fullTranscription == old(fullTranscription)
      ensures isTranscribing == old(isTranscribing)
    {
      audioData := data;
    }

    method SetIsTranscribing(state: bool)
      modifies this
      ensures isTranscribing == state
      ensures uiRecordingState == old(uiRecordingState) && fullTranscription == old(fullTranscription)
      ensures audioData == old(audioData)
    {
      isTranscribing := state;
    }
  }

  /** The mounted page: the store, the two hook instances and the time of
      the last scheduled call (`lastApiCallTimeRef`). */
  class App {
    const store: AudioStore
    const display: RecordVoice
    const control: RecordVoice
    var lastApiCallTime: int

    /** Both hook instances are consistent. When they are separate, as the
        components create them, the display's instance never receives a
        recorder or a stream, so it never has a blob. */
    ghost predicate Valid()
      reads this, store, display, control
    {
      && display.Valid() && control.Valid()
      && (display != control ==>
            display.mediaRecorder.None? && display.audioBlob.None? && display.stream == null)
    }

    /** The page as the components build it: one hook instance each. */
    constructor AsWritten()
      ensures Valid() && display != control
      ensures fresh(store) && fresh(display) && fresh(control)
      ensures control.Snapshot() == InitialState() && control.stream == null
      ensures store.uiRecordingState == Initial && store.fullTranscription == "" && !store.isTranscribing
      ensures lastApiCallTime == 0
    {
      store := new AudioStore();
      display := new RecordVoice();
      control := new RecordVoice();
      lastApiCallTime := 0;
    }

    /** The page with one hook instance shared by both components. */
    constructor Shared()
      ensures Valid() && display == control
      ensures fresh(store) && fresh(control)
      ensures control.Snapshot() == InitialState() && control.stream == null
      ensures store.uiRecordingState == Initial && store.fullTranscription == "" && !store.isTranscribing
      ensures lastApiCallTime == 0
    {
      store := new AudioStore();
      var hook := new RecordVoice();
      display := hook;
      control := hook;
      lastApiCallTime := 0;
    }

    /** `handleGlobalStop`: stops the display's hook and shows the stopped
        state, even while transcribing; the visualizer cleanup puts the
        levels back to rest. */
    method GlobalStop()
      requires Valid()
      modifies store, display
      ensures Valid()
      ensures store.uiRecordingState == Stop && store.audioData == DefaultAudioData()
      ensures store.fullTranscription == old(store.fullTranscription)
      ensures store.isTranscribing == old(store.isTranscribing)
      ensures display.Snapshot() == Apply(old(display.Snapshot()), Event.StopRecording)
      ensures display.stream == old(display.stream)
      ensures display == control && old(control.mediaRecorder).Some? ==> control.recording == Stop
    {
      display.StopRecording();
      store.SetUiRecordingState(Stop);
      store.SetAudioData(DefaultAudioData());
    }

    /** `handleResetGlobal`: refused while transcribing; otherwise resets the
        display's hook, clears the transcript, returns to the initial state
        and puts the levels back to rest. */
    method ResetGlobal() returns (performed: bool)
      requires Valid()
      modifies store, display, display.StreamFrame()
      ensures Valid()
      ensures performed == !old(store.isTranscribing)
      ensures !performed ==> unchanged(store) && unchanged(display) && unchanged(old(display.StreamFrame()))
      ensures performed ==>
        && store.fullTranscription == "" && store.uiRecordingState == Initial
        && store.audioData == DefaultAudioData() && !store.isTranscribing
        && display.Snapshot() == Apply(old(display.Snapshot()), Event.ResetRecorder)
        && display.stream == null
        && (old(display.stream) != null ==> old(display.stream).AllStopped())
    {
      if store.isTranscribing {
        return false;
      }
      display.ResetRecorder();
      store.ResetFullTranscription();
      store.SetUiRecordingState(Initial);
      store.SetAudioData(DefaultAudioData());
      performed := true;
    }

    /** `handleMainButtonClick`. From the initial or stopped state the
        transcript is cleared first; then, when the browser has media devices
        and the microphone is granted, the control's hook installs a recorder
        on `stream`, the one its own `getUserMedia` call yields. `probe` is
        the stream of the page's permission check: it is dropped without
        its tracks being stopped, and nothing holds it afterwards. From play
        it pauses, from pause it resumes. */
    method MainButtonClick(mediaDevices: bool, micGranted: bool, probe: MediaStream, stream: MediaStream)
      returns (installed: Option<RecorderId>)
      requires Valid()
      modifies store, control
      ensures Valid()
      ensures probe.tracks[..] == old(probe.tracks[..])
      ensures store.uiRecordingState == old(store.uiRecordingState)
      ensures store.audioData == old(store.audioData) && store.isTranscribing == old(store.isTranscribing)
      ensures MainButtonAction(old(store.uiRecordingState)) == StartSession ==>
        && store.fullTranscription == ""
        && (if mediaDevices && micGranted then
              && control.Snapshot() == Apply(old(control.Snapshot()), InstallRecorder)
              && installed == control.mediaRecorder && installed.Some? && control.stream == stream
            else
              && control.Snapshot() == old(control.Snapshot()) && installed.None?
              && control.stream == old(control.stream))
      ensures MainButtonAction(old(store.uiRecordingState)) == PauseSession ==>
        && store.fullTranscription == old(store.fullTranscription) && installed.None?
        && control.Snapshot() == Apply(old(control.Snapshot()), Event.PauseRecording)
        && control.stream == old(control.stream)
      ensures MainButtonAction(old(store.uiRecordingState)) == ResumeSession ==>
        && store.fullTranscription == old(store.fullTranscription) && installed.None?
        && control.Snapshot() == Apply(old(control.Snapshot()), Event.ResumeRecording)
        && control.stream == old(control.stream)
    {
      installed := None;
      var ui := store.uiRecordingState;
      if ui == Initial || ui == Stop {
        store.ResetFullTranscription();
        if !mediaDevices {
          return;
        }
        if micGranted {
          var id := control.InitialMediaRecorder(stream);
          installed := Some(id);
        }
      } else if ui == Play {
        control.PauseRecording();
      } else {
        control.ResumeRecording();
      }
    }

    /** The state-sync effect: the store follows the control's hook. */
    method SyncEffect()
      requires Valid()
      modifies store
      ensures Valid()
      ensures store.uiRecordingState == control.recording
      ensures store.fullTranscription == old(store.fullTranscription)
      ensures store.audioData == old(store.audioData) && store.isTranscribing == old(store.isTranscribing)
    {
      if store.uiRecordingState != control.recording {
        store.SetUiRecordingState(control.recording);
      }
    }

    /** The recording effect: with a file, in the play state and at least the
        interval after the last scheduled call, a send of the current file is
        scheduled and the call time is recorded. */
    method AudioFileEffect(now: int) returns (scheduled: Option<File>)
      modifies this
      ensures scheduled.Some? <==>
        ShouldSchedule(control.audioFile.Some?, store.uiRecordingState, now, old(lastApiCallTime))
      ensures scheduled.Some? ==> scheduled == control.audioFile && lastApiCallTime == now
      ensures scheduled.None? ==> lastApiCallTime == old(lastApiCallTime)
    {
      var go := RateLimitGate(EffectRun(now, control.audioFile.Some?, store.uiRecordingState));
      scheduled := if go then control.audioFile else None;
    }

    /** The gate of the recording effect for one run: when it passes, the
        run's time becomes the last call time. */
    method RateLimitGate(run: EffectRun) returns (go: bool)
      modifies this
      ensures go == ShouldSchedule(run.hasFile, run.ui, run.now, old(lastApiCallTime))
      ensures lastApiCallTime == if go then run.now else old(lastApiCallTime)
    {
      go := false;
      if run.hasFile && run.ui == Play {
        if run.now - lastApiCallTime >= ApiCallInterval {
          lastApiCallTime := run.now;
          go := true;
        }
      }
    }

    /** The recording effect run once per element of `runs`, in order: the
        sends it schedules are exactly `ScheduledTimes` from the last call
        time before the first run, so `ScheduledSpacing` applies to them,
        and the last send becomes the last call time the next batch starts from. */
    method RunAudioFileEffects(runs: seq<EffectRun>) returns (sent: seq<int>)
      modifies this
      ensures sent == ScheduledTimes(old(lastApiCallTime), runs)
      ensures lastApiCallTime == if sent == [] then old(lastApiCallTime) else sent[|sent| - 1]
    {
      sent := [];
      var i := 0;
      while i < |runs|
        invariant 0 <= i <= |runs|
        invariant sent + ScheduledTimes(lastApiCallTime, runs[i..]) == ScheduledTimes(old(lastApiCallTime), runs)
        invariant lastApiCallTime == if sent == [] then old(lastApiCallTime) else sent[|sent| - 1]
      {
        ghost var before := lastApiCallTime;
        assert runs[i..][0] == runs[i] && runs[i..][1..] == runs[i + 1..];
        var go := RateLimitGate(runs[i]);
        if go {
          sent := sent + [runs[i].now];
        }
        assert ScheduledTimes(before, runs[i..])
            == (if go then [runs[i].now] else []) + ScheduledTimes(lastApiCallTime, runs[i + 1..]);
        i := i + 1;
      }
      assert runs[i..] == [];
    }

    /** A scheduled send's timer fires: the send goes ahead only if the page
        is still in the play state, and then under the size rule. */
    method SendTimerFires(file: File) returns (upload: Option<File>)
      ensures upload.Some? <==> store.uiRecordingState == Play && file.Size() >= MinFileSize
      ensures upload.Some? ==>
        && upload.value.blob.content == file.blob.content
        && upload.value.name == WebmName && upload.value.blob.mime == WebmMime
    {
      if store.uiRecordingState == Play {
        upload := TranscribeRequest(file);
      } else {
        upload := None;
      }
    }

    /** The extra `dataavailable` listener, active while the control's hook
        has a recorder and the page is in the play state: a chunk larger than
        the minimum is scheduled as a file of its own, with no time gate,
        typed with the recorder's `mimeType` (`recorderMime`), or
        `audio/webm` when that is empty. */
    method DataHandler(data: Chunk, recorderMime: string) returns (scheduled: Option<File>)
      ensures scheduled.Some? <==>
        control.mediaRecorder.Some? && store.uiRecordingState == Play && |data| > MinChunkSize
      ensures scheduled.Some? ==> scheduled.value.blob.content == data && scheduled.value.name == WebmName
      ensures scheduled.Some? ==> scheduled.value.blob.mime == if recorderMime == "" then WebmMime else recorderMime
    {
      if control.mediaRecorder.Some? && store.uiRecordingState == Play {
        scheduled := ChunkFile(data, recorderMime);
      } else {
        scheduled := None;
      }
    }

    /** The answer to a send arrives. */
    method ReceiveTranscription(reply: Reply)
      requires Valid()
      modifies store
      ensures Valid()
      ensures store.fullTranscription == TranscriptAfter(old(store.fullTranscription), reply)
      ensures store.uiRecordingState == old(store.uiRecordingState)
      ensures store.audioData == old(store.audioData) && store.isTranscribing == old(store.isTranscribing)
    {
      var t := ReplyText(reply);
      if t.Some? && Trim(t.value) != "" {
        store.SetFullTranscription(Trim(t.value));
      }
    }

    /** The buttons the transcription panel offers now. Download and Clear
        look at the display's hook; when that instance is separate it never
        has a blob, so Download is never offered. */
    method Toolbar() returns (stop: bool, copy: bool, download: bool, reset: bool)
      requires Valid()
      ensures stop == ShowStop(store.uiRecordingState, store.isTranscribing)
      ensures copy == ShowCopy(store.fullTranscription, store.isTranscribing)
      ensures download == ShowDownload(display.audioBlob.Some?, store.isTranscribing,
                                       store.uiRecordingState, store.fullTranscription)
      ensures reset == ShowReset(display.audioBlob.Some?, store.isTranscribing,
                                 store.uiRecordingState, store.fullTranscription)
      ensures display != control ==> !download
    {
      var ui, text, busy := store.uiRecordingState, store.fullTranscription, store.isTranscribing;
      var hasBlob := display.audioBlob.Some?;
      stop := ShowStop(ui, busy);
      copy := ShowCopy(text, busy);
      download := ShowDownload(hasBlob, busy, ui, text);
      reset := ShowReset(hasBlob, busy, ui, text);
    }
  }
}
