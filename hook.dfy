/** The `useRecordVoice` hook: a four-state recording lifecycle around one
    MediaRecorder, a list of captured chunks, and the recording so far as a
    blob and a file.

    A MediaRecorder is represented by an identifier. The hook remembers which
    recorders still have its handlers installed (`listening`): a recorder
    event only reaches the hook while that recorder is in the set. The
    asynchronous browser callbacks are events applied one at a time. */
module Hook {
  import opened Media

  type RecorderId = nat

  /** The hook's whole state as a value. */
  datatype HookState = HookState(
    recording: RecState,
    recorder: Option<RecorderId>,
    audioBlob: Option<Blob>,
    audioFile: Option<File>,
    chunks: seq<Chunk>,
    listening: set<RecorderId>,
    nextRecorder: RecorderId)

  /** What the user, the page and the recorder can do to the hook. */
  datatype Event =
    | StartRecording
    | PauseRecording
    | ResumeRecording
    | StopRecording
    | InstallRecorder                      // initialMediaRecorder(stream)
    | ResetRecorder
    | RecorderStarted(id: RecorderId)      // recorder.onstart
    | DataAvailable(id: RecorderId, data: Chunk)   // recorder.ondataavailable
    | RecorderStopped(id: RecorderId)      // recorder.onstop
    | RecorderPaused(id: RecorderId)       // recorder.onpause
    | RecorderResumed(id: RecorderId)      // recorder.onresume

  /** The state before the hook's first render. */
  function InitialState(): HookState
  {
    HookState(Initial, None, None, None, [], {}, 0)
  }

  /** `new Blob(chunks, { type: "audio/webm" })` */
  function CombinedBlob(chunks: seq<Chunk>): Blob
  {
    Blob(Concat(chunks), WebmMime)
  }

  /** `new File([blob], "audio.webm", { type: "audio/webm" })` */
  function FileOf(b: Blob): File
  {
    File(WebmName, Blob(b.content, WebmMime))
  }

  /** What every reachable state satisfies: chunks are never empty, the blob
      is the concatenation of the chunks whenever there are chunks, the file
      holds the same bytes as the blob, and recorder identifiers in use were
      handed out already. */
  ghost predicate Inv(s: HookState)
  {
    && (forall i :: 0 <= i < |s.chunks| ==> |s.chunks[i]| > 0)
    && (s.chunks != [] ==> s.audioBlob == Some(CombinedBlob(s.chunks)))
    && (s.audioBlob.Some? ==> s.audioBlob.value.mime == WebmMime && s.audioBlob.value.Size() > 0)
    && (s.audioBlob.None? ==> s.audioFile.None?)
    && (s.audioBlob.Some? ==> s.audioFile == Some(FileOf(s.audioBlob.value)))
    && (s.recorder.Some? ==> s.recorder.value < s.nextRecorder)
    && (forall id :: id in s.listening ==> id < s.nextRecorder)
  }

  /** Sets the recording state when the event comes from a recorder whose
      handlers are still installed. */
  function Handled(s: HookState, id: RecorderId, state: RecState): HookState
  {
    if id in s.listening then s.(recording := state) else s
  }

  /** One event applied to the hook. */
  function Apply(s: HookState, e: Event): HookState
  {
    match e
    case StartRecording =>
      if s.recorder.Some? then s.(chunks := [], recording := Play) else s
    case PauseRecording =>
      if s.recorder.Some? then s.(recording := Pause) else s
    case ResumeRecording =>
      if s.recorder.Some? then s.(recording := Play) else s
    case StopRecording =>
      if s.recorder.Some? then s.(recording := Stop) else s
    case InstallRecorder =>
      var id := s.nextRecorder;
      s.(recorder := Some(id), listening := s.listening + {id}, nextRecorder := id + 1)
    case ResetRecorder =>
      var listening := if s.recorder.Some? then s.listening - {s.recorder.value} else s.listening;
      s.(recorder := None, listening := listening, chunks := [], audioBlob := None,
         audioFile := None, recording := Initial)
    case RecorderStarted(id) => Handled(s, id, Play)
    case RecorderStopped(id) => Handled(s, id, Stop)
    case RecorderPaused(id) => Handled(s, id, Pause)
    case RecorderResumed(id) => Handled(s, id, Play)
    case DataAvailable(id, data) =>
      if id in s.listening && |data| > 0 then
        var chunks := s.chunks + [data];
        var blob := CombinedBlob(chunks);
        s.(chunks := chunks, audioBlob := Some(blob), audioFile := Some(FileOf(blob)))
      else
        s
  }

  /** Events applied in order. */
  function Run(s: HookState, events: seq<Event>): HookState
    decreases |events|
  {
    if events == [] then s else Run(Apply(s, events[0]), events[1..])
  }

  /** Every event keeps the invariant. */
  lemma ApplyPreservesInv(s: HookState, e: Event)
    requires Inv(s)
    ensures Inv(Apply(s, e))
  {
    if e.DataAvailable? && e.id in s.listening && |e.data| > 0 {
      var chunks := s.chunks + [e.data];
      assert chunks[0] == (if s.chunks == [] then e.data else s.chunks[0]);
      assert |Concat(chunks)| >= |chunks[0]|;
    }
  }

  /** Every sequence of events from a state satisfying the invariant keeps it;
      in particular every state reachable from the initial one satisfies it. */
  lemma {:induction false} RunPreservesInv(s: HookState, events: seq<Event>)
    requires Inv(s)
    ensures Inv(Run(s, events))
    decreases |events|
  {
    if events != [] {
      ApplyPreservesInv(s, events[0]);
      RunPreservesInv(Apply(s, events[0]), events[1..]);
    }
  }

  /** Without a recorder, start, pause, resume and stop change nothing; with
      one, they set the state to play, pause, play and stop, and start also
      empties the chunk list. */
  lemma ControlsNeedRecorder(s: HookState)
    ensures s.recorder.None? ==>
      && Apply(s, StartRecording) == s && Apply(s, PauseRecording) == s
      && Apply(s, ResumeRecording) == s && Apply(s, StopRecording) == s
    ensures s.recorder.Some? ==>
      && Apply(s, StartRecording) == s.(chunks := [], recording := Play)
      && Apply(s, PauseRecording) == s.(recording := Pause)
      && Apply(s, ResumeRecording) == s.(recording := Play)
      && Apply(s, StopRecording) == s.(recording := Stop)
  {
  }

  /** A data event without bytes changes nothing. */
  lemma EmptyDataIgnored(s: HookState, id: RecorderId)
    ensures Apply(s, DataAvailable(id, [])) == s
  {
  }

  /** A data event with bytes appends exactly that chunk, keeps the earlier
      chunks, and makes the blob the concatenation of all chunks; the file
      has the blob's bytes and the previous recording is a prefix of the new one. */
  lemma DataAppendsChunk(s: HookState, id: RecorderId, data: Chunk)
    requires Inv(s) && id in s.listening && |data| > 0
    ensures var t := Apply(s, DataAvailable(id, data));
      && t.chunks == s.chunks + [data]
      && t.audioBlob == Some(Blob(Concat(t.chunks), WebmMime))
      && t.audioFile.Some? && t.audioFile.value.blob.content == Concat(t.chunks)
      && (s.audioBlob.Some? && s.chunks != [] ==> t.audioBlob.value.content == s.audioBlob.value.content + data)
      && t.recording == s.recording && t.recorder == s.recorder
  {
    ConcatAppend(s.chunks, data);
  }

  /** Recorder events map to states: start and resume to play, pause to
      pause, stop to stop; events of detached recorders are ignored. */
  lemma RecorderEventStates(s: HookState, id: RecorderId)
    ensures id in s.listening ==>
      && Apply(s, RecorderStarted(id)).recording == Play
      && Apply(s, RecorderResumed(id)).recording == Play
      && Apply(s, RecorderPaused(id)).recording == Pause
      && Apply(s, RecorderStopped(id)).recording == Stop
    ensures id !in s.listening ==>
      && Apply(s, RecorderStarted(id)) == s && Apply(s, RecorderResumed(id)) == s
      && Apply(s, RecorderPaused(id)) == s && Apply(s, RecorderStopped(id)) == s
  {
  }

  /** Installing a recorder leaves one present, with its handlers attached;
      the chunks of an earlier recording are kept. */
  lemma InstallKeepsChunks(s: HookState)
    requires Inv(s)
    ensures var t := Apply(s, InstallRecorder);
      && t.recorder == Some(s.nextRecorder) && s.nextRecorder in t.listening
      && s.nextRecorder !in s.listening
      && t.chunks == s.chunks && t.audioBlob == s.audioBlob && t.recording == s.recording
  {
  }

  /** Reset ends with no recorder, no chunks, no blob, no file and the initial
      state, whatever the state before, and detaches the current recorder. */
  lemma ResetClears(s: HookState)
    ensures var t := Apply(s, ResetRecorder);
      && t.recorder.None? && t.chunks == [] && t.audioBlob.None? && t.audioFile.None?
      && t.recording == Initial
      && (s.recorder.Some? ==> s.recorder.value !in t.listening)
  {
  }

  /** True when the event comes from recorder `id`. */
  predicate FromRecorder(e: Event, id: RecorderId)
  {
    match e
    case RecorderStarted(i) => i == id
    case DataAvailable(i, _) => i == id
    case RecorderStopped(i) => i == id
    case RecorderPaused(i) => i == id
    case RecorderResumed(i) => i == id
    case _ => false
  }

  /** The events that do not come from recorder `id`: every other event is
      kept, nothing is added, and a list without such events is unchanged. */
  function Without(events: seq<Event>, id: RecorderId): (r: seq<Event>)
    ensures |r| <= |events|
    ensures forall k :: 0 <= k < |r| ==> !FromRecorder(r[k], id) && r[k] in events
    ensures forall k :: 0 <= k < |events| && !FromRecorder(events[k], id) ==> events[k] in r
    ensures (forall k :: 0 <= k < |events| ==> !FromRecorder(events[k], id)) ==> r == events
  {
    if events == [] then []
    else
      var rest := Without(events[1..], id);
      assert forall k :: 1 <= k < |events| ==> events[k] == events[1..][k - 1];
      if FromRecorder(events[0], id) then rest
      else
        var r := [events[0]] + rest;
        assert forall k :: 1 <= k < |r| ==> r[k] == rest[k - 1];
        assert (forall k :: 0 <= k < |events| ==> !FromRecorder(events[k], id)) ==> rest == events[1..];
        r
  }

  /** Filtering keeps the order: it distributes over concatenation. */
  lemma {:induction false} WithoutAppend(a: seq<Event>, b: seq<Event>, id: RecorderId)
    ensures Without(a + b, id) == Without(a, id) + Without(b, id)
    decreases |a|
  {
    if a == [] {
      assert a + b == b;
    } else {
      assert (a + b)[0] == a[0] && (a + b)[1..] == a[1..] + b;
      WithoutAppend(a[1..], b, id);
    }
  }

  /** A detached recorder stays detached: no later event re-attaches it, so
      nothing it reports changes the hook. */
  lemma {:induction false} DetachedRecorderIgnored(s: HookState, events: seq<Event>, id: RecorderId)
    requires id !in s.listening && id < s.nextRecorder
    ensures Run(s, events) == Run(s, Without(events, id))
    decreases |events|
  {
    if events != [] {
      var e := events[0];
      var t := Apply(s, e);
      assert id !in t.listening && id < t.nextRecorder;
      DetachedRecorderIgnored(t, events[1..], id);
      if FromRecorder(e, id) {
        assert t == s;
      } else {
        var w := [e] + Without(events[1..], id);
        assert w[0] == e && w[1..] == Without(events[1..], id);
      }
    }
  }

  /** After a reset, the recorder it tore down can no longer change the
      chunks, the blob or the state, whatever happens next. */
  lemma ResetDetaches(s: HookState, events: seq<Event>)
    requires Inv(s) && s.recorder.Some?
    ensures var t := Apply(s, ResetRecorder);
      Run(t, events) == Run(t, Without(events, s.recorder.value))
  {
    DetachedRecorderIgnored(Apply(s, ResetRecorder), events, s.recorder.value);
  }

  /** The microphone stream: its tracks, each live until stopped. */
  class MediaStream {
    const tracks: array<bool>

    constructor (trackCount: nat)
      ensures fresh(tracks) && tracks.Length == trackCount
      ensures forall i :: 0 <= i < trackCount ==> tracks[i]
    {
      tracks := new bool[trackCount](_ => true);
    }

    predicate AllStopped()
      reads tracks
    {
      forall i :: 0 <= i < tracks.Length ==> !tracks[i]
    }

    /** `stream.getTracks().forEach((track) => track.stop())` */
    method StopAllTracks()
      modifies tracks
      ensures AllStopped()
    {
      var i := 0;
      while i < tracks.Length
        invariant 0 <= i <= tracks.Length
        invariant forall k :: 0 <= k < i ==> !tracks[k]
      {
        tracks[i] := false;
        i := i + 1;
      }
    }
  }

  /** One instance of the hook, with the fields React keeps for it. */
  class RecordVoice {
    var recording: RecState
    var mediaRecorder: Option<RecorderId>
    var audioBlob: Option<Blob>
    var audioFile: Option<File>
    var chunks: seq<Chunk>           // chunks.current
    var stream: MediaStream?         // streamRef.current
    var listening: set<RecorderId>
    var nextRecorder: RecorderId

    function Snapshot(): HookState
      reads this
    {
      HookState(recording, mediaRecorder, audioBlob, audioFile, chunks, listening, nextRecorder)
    }

    ghost predicate Valid()
      reads this
    {
      Inv(Snapshot())
    }

    /** The stream tracks a reset may stop. */
    function StreamFrame(): set<object>
      reads this
    {
      if stream == null then {} else {stream.tracks}
    }

    constructor ()
      ensures Valid() && Snapshot() == InitialState() && stream == null
    {
      recording := Initial;
      mediaRecorder := None;
      audioBlob := None;
      audioFile := None;
      chunks := [];
      stream := null;
      listening := {};
      nextRecorder := 0;
    }

    method StartRecording()
      requires Valid()
      modifies this
      ensures Valid() && Snapshot() == Apply(old(Snapshot()), Event.StartRecording) && stream == old(stream)
      ensures old(mediaRecorder).Some? ==> chunks == [] && recording == Play
    {
      if mediaRecorder.Some? {
        chunks := [];
        recording := Play;
      }
    }

    method PauseRecording()
      requires Valid()
      modifies this
      ensures Valid() && Snapshot() == Apply(old(Snapshot()), Event.PauseRecording) && stream == old(stream)
      ensures recording == if old(mediaRecorder).Some? then Pause else old(recording)
    {
      if mediaRecorder.Some? {
        recording := Pause;
      }
    }

    method ResumeRecording()
      requires Valid()
      modifies this
      ensures Valid() && Snapshot() == Apply(old(Snapshot()), Event.ResumeRecording) && stream == old(stream)
      ensures recording == if old(mediaRecorder).Some? then Play else old(recording)
    {
      if mediaRecorder.Some? {
        recording := Play;
      }
    }

    method StopRecording()
      requires Valid()
      modifies this
      ensures Valid() && Snapshot() == Apply(old(Snapshot()), Event.StopRecording) && stream == old(stream)
      ensures recording == if old(mediaRecorder).Some? then Stop else old(recording)
    {
      if mediaRecorder.Some? {
        recording := Stop;
      }
    }

    /** `initialMediaRecorder(stream)`: keeps the stream, creates a recorder
        with the five handlers attached and makes it the current one. */
    method InitialMediaRecorder(s: MediaStream) returns (id: RecorderId)
      requires Valid()
      modifies this
      ensures Valid() && Snapshot() == Apply(old(Snapshot()), InstallRecorder) && stream == s
      ensures mediaRecorder == Some(id) && id in listening && id !in old(listening)
    {
      stream := s;
      id := nextRecorder;
      nextRecorder := nextRecorder + 1;
      listening := listening + {id};
      mediaRecorder := Some(id);
    }

    method OnStart(id: RecorderId)
      requires Valid()
      modifies this
      ensures Valid() && Snapshot() == Apply(old(Snapshot()), RecorderStarted(id)) && stream == old(stream)
    {
      if id in listening {
        recording := Play;
      }
    }

    method OnStop(id: RecorderId)
      requires Valid()
      modifies this
      ensures Valid() && Snapshot() == Apply(old(Snapshot()), RecorderStopped(id)) && stream == old(stream)
    {
      if id in listening {
        recording := Stop;
      }
    }

    method OnPause(id: RecorderId)
      requires Valid()
      modifies this
      ensures Valid() && Snapshot() == Apply(old(Snapshot()), RecorderPaused(id)) && stream == old(stream)
    {
      if id in listening {
        recording := Pause;
      }
    }

    method OnResume(id: RecorderId)
      requires Valid()
      modifies this
      ensures Valid() && Snapshot() == Apply(old(Snapshot()), RecorderResumed(id)) && stream == old(stream)
    {
      if id in listening {
        recording := Play;
      }
    }

    /** `ondataavailable`: a non-empty chunk is pushed and the blob and file
        are rebuilt from all chunks so far. */
    method OnDataAvailable(id: RecorderId, data: Chunk)
      requires Valid()
      modifies this
      ensures Valid() && Snapshot() == Apply(old(Snapshot()), DataAvailable(id, data)) && stream == old(stream)
      ensures id in old(listening) && |data| > 0 ==>
        chunks == old(chunks) + [data] && audioBlob == Some(Blob(Concat(chunks), WebmMime))
      ensures !(id in old(listening) && |data| > 0) ==>
        chunks == old(chunks) && audioBlob == old(audioBlob) && audioFile == old(audioFile)
    {
      if id in listening && |data| > 0 {
        chunks := chunks + [data];
        var blob := CombinedBlob(chunks);
        audioBlob := Some(blob);
        audioFile := Some(FileOf(blob));
        ApplyPreservesInv(old(Snapshot()), DataAvailable(id, data));
      }
    }

    /** `resetRecorder()`: detaches and drops the recorder, stops every track
        of the stream and forgets it, and clears the recording. */
    method ResetRecorder()
      requires Valid()
      modifies this, StreamFrame()
      ensures Valid() && Snapshot() == Apply(old(Snapshot()), Event.ResetRecorder) && stream == null
      ensures old(stream) != null ==> old(stream).AllStopped()
      ensures mediaRecorder.None? && chunks == [] && audioBlob.None? && audioFile.None?
      ensures recording == Initial
    {
      if mediaRecorder.Some? {
        listening := listening - {mediaRecorder.value};
        mediaRecorder := None;
      }
      if stream != null {
        stream.StopAllTracks();
        stream := null;
      }
      chunks := [];
      audioBlob := None;
      audioFile := None;
      recording := Initial;
    }
  }
}
