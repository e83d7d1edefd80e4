/** Two short sessions on the page, once with the hook instances the
    components create (`App.AsWritten`) and once with one shared instance
    (`App.Shared`). The panel's Stop, Clear and Download act on the display's
    instance; only the shared wiring lets them reach the recorder that the
    main button installed. */
module Findings {
  import opened Media
  import opened Hook
  import opened Page

  /** The main button starts a session on a fresh page (`probe` is the
      permission check's stream, `mic` the hook's), the recorder reports
      that it started, the store follows, and, when `data` is not empty,
      one chunk arrives. */
  method BeginSession(app: App, probe: MediaStream, mic: MediaStream, data: Chunk) returns (id: RecorderId)
    requires app.Valid() && app.control.Snapshot() == InitialState()
    requires app.store.uiRecordingState == Initial && !app.store.isTranscribing
    modifies app.store, app.control
    ensures app.Valid() && !app.store.isTranscribing
    ensures app.store.uiRecordingState == Play && app.control.recording == Play
    ensures app.control.mediaRecorder == Some(id) && app.control.stream == mic
    ensures app.control.audioBlob.Some? <==> |data| > 0
  {
    var installed := app.MainButtonClick(true, true, probe, mic);
    id := installed.value;
    app.control.OnStart(id);
    app.SyncEffect();
    app.control.OnDataAvailable(id, data);
  }

  /** Start a session, receive one chunk, press Stop in the panel. As
      written, the page shows the stopped state while the control's
      recorder is still present and still recording, and Download is not
      offered although a recording exists. */
  method StopAsWritten() returns (ui: RecState, recorderState: RecState, recorderPresent: bool,
                                  hasRecording: bool, download: bool)
    ensures ui == Stop && recorderState == Play && recorderPresent
    ensures hasRecording && !download
  {
    var app := new App.AsWritten();
    var probe := new MediaStream(1);
    var mic := new MediaStream(1);
    var id := BeginSession(app, probe, mic, [1, 2, 3]);
    app.GlobalStop();
    var stop, copy, reset;
    stop, copy, download, reset := app.Toolbar();
    ui, recorderState := app.store.uiRecordingState, app.control.recording;
    recorderPresent, hasRecording := app.control.mediaRecorder.Some?, app.control.audioBlob.Some?;
  }

  /** The same session with one shared hook instance: Stop stops the
      recorder and Download is offered for the recording. */
  method StopShared() returns (ui: RecState, recorderState: RecState, hasRecording: bool, download: bool)
    ensures ui == Stop && recorderState == Stop
    ensures hasRecording && download
  {
    var app := new App.Shared();
    var probe := new MediaStream(1);
    var mic := new MediaStream(1);
    var id := BeginSession(app, probe, mic, [1, 2, 3]);
    app.GlobalStop();
    var stop, copy, reset;
    stop, copy, download, reset := app.Toolbar();
    ui, recorderState, hasRecording := app.store.uiRecordingState, app.control.recording, app.control.audioBlob.Some?;
  }

  /** With one shared hook instance, Start, Stop and then Clear: the page is
      back at the start, the hook's microphone track is stopped and no
      recorder is left. */
  method StopThenResetShared() returns (performed: bool, ui: RecState, micLive: bool, recorderPresent: bool)
    ensures performed && ui == Initial && !micLive && !recorderPresent
  {
    var app := new App.Shared();
    var probe := new MediaStream(1);
    var mic := new MediaStream(1);
    var id := BeginSession(app, probe, mic, [1, 2, 3]);
    app.GlobalStop();
    performed := app.ResetGlobal();
    ui, micLive, recorderPresent := app.store.uiRecordingState, mic.tracks[0], app.control.mediaRecorder.Some?;
  }

  /** Start a session and press Clear. As written, the page is back at the
      start while the hook's microphone track is still live and the
      recorder is still installed with its handlers. The permission check's
      track is live too. */
  method ResetAsWritten() returns (performed: bool, ui: RecState, micLive: bool, recorderPresent: bool,
                                   probeLive: bool)
    ensures performed && ui == Initial && micLive && recorderPresent && probeLive
  {
    var app := new App.AsWritten();
    var probe := new MediaStream(1);
    var mic := new MediaStream(1);
    var id := BeginSession(app, probe, mic, []);
    performed := app.ResetGlobal();
    ui, micLive, recorderPresent := app.store.uiRecordingState, mic.tracks[0], app.control.mediaRecorder.Some?;
    probeLive := probe.tracks[0];
  }

  /** The same session with one shared hook instance: Clear stops the hook's
      microphone track and removes the recorder. The permission check's
      track stays live in this wiring as well: nothing ever stops it. */
  method ResetShared() returns (performed: bool, ui: RecState, micLive: bool, recorderPresent: bool,
                                probeLive: bool)
    ensures performed && ui == Initial && !micLive && !recorderPresent && probeLive
  {
    var app := new App.Shared();
    var probe := new MediaStream(1);
    var mic := new MediaStream(1);
    var id := BeginSession(app, probe, mic, []);
    performed := app.ResetGlobal();
    ui, micLive, recorderPresent := app.store.uiRecordingState, mic.tracks[0], app.control.mediaRecorder.Some?;
    probeLive := probe.tracks[0];
  }
}
