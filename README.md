# Voice agent: recorder, page rules and transcription route

A Dafny model of the core of a browser voice-transcription app. The app has
three parts, and the model has one module for each, plus two shared modules.

- **The recorder hook** (`useRecordVoice`, module `Hook`) keeps:
  - a four-state lifecycle (`initial`, `play`, `pause`, `stop`);
  - an optional MediaRecorder and the captured chunks;
  - "the recording so far" as a blob and a file.
- **The page** (module `Page`) holds:
  - a shared store;
  - two components, each with its own hook instance;
  - the rules that guard every user action;
  - the rate-limited hand-off of the recording to the route;
  - the rule that replaces the transcript;
  - what the toolbar shows;
  - the download file name.
- **The proxy route** (`POST /api/transcription`, module `Route`) checks the upload and the server credential. It forwards the file to the transcription service, then relays the answer or maps the failure to a status.
- **Shared modules**:
  - `Media` holds the shared values: states, bytes, blobs, files and JSON;
  - `Text` holds JavaScript's `trim`, `split`/`join` on one character, and decimal rendering.

The hook is a class, `Hook.RecordVoice`, whose fields are the hook's state.

- **Events.** Every method is specified against `Hook.Apply`, a pure step function over the `HookState` value. Browser callbacks (`onstart`, `ondataavailable`, …) are events applied one at a time.
- **Recorders.** A recorder is an identifier. The hook tracks which recorders still have its handlers attached.
- **Streams.** The microphone stream is a class with a track array. Reset stops the tracks in a loop.

The page is a class, `Page.App`, with the store (`Page.AudioStore`) and the two hook instances:

- `display` belongs to the transcription panel;
- `control` belongs to the main-button component.

Its constructor `AsWritten` builds them as the components do: two separate instances. `Shared` builds a single shared instance (see Findings). The route is a pure function of:

- the awaited form;
- the environment credential;
- the outcome of the upstream call.

## Model

| member | source | states |
|---|---|---|
| Media.Concat | src/hooks/use-audio.tsx:63 | the bytes of `new Blob(chunks)`: every chunk's bytes, in order (its properties are the four lemmas below) |
| Media.ConcatAppend | src/hooks/use-audio.tsx:60-63 | pushing a chunk appends exactly its bytes to the combined blob |
| Media.ConcatSize | src/hooks/use-audio.tsx:63 | the combined blob is as long as all chunks together |
| Media.ConcatAt | src/hooks/use-audio.tsx:63 | each chunk sits, unchanged and in order, at its offset in the combined blob |
| Media.ConcatPrefix | src/hooks/use-audio.tsx:60-70 | every earlier recording-so-far is a prefix of every later one |
| Hook.InitialState | src/hooks/use-audio.tsx:4-13 | the hook before its first render: state initial, no recorder, blob or file, no chunks, no handlers attached (`Hook.RunPreservesInv` starts from it, `Hook.ResetClears` returns to it) |
| Hook.CombinedBlob | src/hooks/use-audio.tsx:48-63 | `new Blob(chunks, { type: mimeType })`: the concatenated chunk bytes, typed `audio/webm` |
| Hook.FileOf | src/hooks/use-audio.tsx:64-66 | `new File([blob], "audio.webm", { type })`: the blob's bytes under the name `audio.webm`, typed `audio/webm` |
| Hook.Handled | src/hooks/use-audio.tsx:54-90 | a state-setting recorder handler: it sets the state only while that recorder still has the hook's handlers attached (`Hook.RecorderEventStates` states it) |
| Hook.Inv | src/hooks/use-audio.tsx:10-116 | what every reachable hook state satisfies: chunks are non-empty, the blob is the concatenation of the chunks, the file holds the blob's bytes, recorder identifiers in use were handed out |
| Hook.Apply | src/hooks/use-audio.tsx:16-116 | one call or browser callback applied to the hook state: the guarded controls, installing a recorder, reset, and the five handlers, which act only while their recorder is attached |
| Hook.Run | src/hooks/use-audio.tsx:54-90 | callbacks and calls applied one at a time, in order |
| Hook.ApplyPreservesInv | src/hooks/use-audio.tsx:10-116 | every event keeps the hook invariant: chunks are non-empty, the blob is the concatenation of the chunks, the file holds the blob's bytes |
| Hook.RunPreservesInv | src/hooks/use-audio.tsx:10-116 | any sequence of events keeps the invariant |
| Hook.ControlsNeedRecorder | src/hooks/use-audio.tsx:16-43 | without a recorder, start, pause, resume and stop change nothing; with one, each sets play, pause, play or stop, and start also empties the chunks |
| Hook.EmptyDataIgnored | src/hooks/use-audio.tsx:58-59 | a data event with no bytes changes nothing |
| Hook.DataAppendsChunk | src/hooks/use-audio.tsx:58-70 | a non-empty data event appends exactly that chunk and keeps the earlier ones; the blob is the in-order concatenation, and the file carries the same bytes |
| Hook.RecorderEventStates | src/hooks/use-audio.tsx:54-90 | start and resume give play, pause gives pause, stop gives stop; events from a detached recorder are ignored |
| Hook.InstallKeepsChunks | src/hooks/use-audio.tsx:46-94 | installing a recorder leaves a new one present with its handlers attached, and keeps earlier chunks and blob |
| Hook.ResetClears | src/hooks/use-audio.tsx:96-116 | whatever the state, reset ends with no recorder, no chunks, no blob, no file, state initial, and the old recorder detached |
| Hook.Without | src/hooks/use-audio.tsx:99-103 | the filtered list holds no event from the given recorder, every other event of the list, nothing new, and is the list itself when it has none from that recorder |
| Hook.WithoutAppend | src/hooks/use-audio.tsx:99-103 | filtering distributes over concatenation, so the other events keep their order |
| Hook.DetachedRecorderIgnored | src/hooks/use-audio.tsx:99-103 | events from a detached recorder have no effect on any later run |
| Hook.ResetDetaches | src/hooks/use-audio.tsx:96-105 | after reset, nothing the torn-down recorder reports can change chunks, blob or state |
| Hook.MediaStream.StopAllTracks | src/hooks/use-audio.tsx:107-110 | every track of the stream is stopped |
| Hook.RecordVoice.constructor | src/hooks/use-audio.tsx:4-13 | the hook starts in the initial state with nothing recorded |
| Hook.RecordVoice.StartRecording | src/hooks/use-audio.tsx:16-22 | the new state is the start event applied to the old; with a recorder, chunks are emptied and the state is play |
| Hook.RecordVoice.PauseRecording | src/hooks/use-audio.tsx:24-29 | pause when a recorder exists, otherwise unchanged |
| Hook.RecordVoice.ResumeRecording | src/hooks/use-audio.tsx:31-36 | play when a recorder exists, otherwise unchanged |
| Hook.RecordVoice.StopRecording | src/hooks/use-audio.tsx:38-43 | stop when a recorder exists, otherwise unchanged |
| Hook.RecordVoice.InitialMediaRecorder | src/hooks/use-audio.tsx:46-94 | keeps the stream; a fresh recorder is current and listening |
| Hook.RecordVoice.OnStart | src/hooks/use-audio.tsx:54-56 | the start handler as an event on the hook state |
| Hook.RecordVoice.OnStop | src/hooks/use-audio.tsx:80-82 | the stop handler as an event on the hook state |
| Hook.RecordVoice.OnPause | src/hooks/use-audio.tsx:84-86 | the pause handler as an event on the hook state |
| Hook.RecordVoice.OnResume | src/hooks/use-audio.tsx:88-90 | the resume handler as an event on the hook state |
| Hook.RecordVoice.OnDataAvailable | src/hooks/use-audio.tsx:58-78 | a non-empty chunk from a listening recorder is appended and the blob rebuilt from all chunks; anything else leaves chunks, blob and file alone |
| Hook.RecordVoice.ResetRecorder | src/hooks/use-audio.tsx:96-116 | recorder detached and dropped, every track of the old stream stopped, stream forgotten, recording cleared, state initial |
| Text.IsSpace | src/app/page.tsx:416-418 | the characters `trim` removes: ECMAScript WhiteSpace and LineTerminator |
| Text.Trim | src/app/page.tsx:416-418 | `text.trim()`, the composition of the two one-sided trims (its meaning is stated by `Text.TrimSpec`, `Text.TrimEmptyIffBlank` and `Text.TrimIdempotent`) |
| Text.TrimStart | src/app/page.tsx:416-418 | the result is the suffix after a blank prefix and starts with a non-space |
| Text.TrimEnd | src/app/page.tsx:416-418 | the result is the prefix before a blank suffix and ends with a non-space |
| Text.TrimSpec | src/app/page.tsx:416-418 | `trim` keeps a contiguous middle part with only whitespace removed around it |
| Text.TrimEmptyIffBlank | src/app/page.tsx:416 | the trimmed text is empty exactly when the text is all whitespace |
| Text.TrimStartDropsBlank | src/app/page.tsx:416-418 | what trimming drops at the start is all whitespace |
| Text.TrimEndDropsBlank | src/app/page.tsx:416-418 | what trimming drops at the end is all whitespace |
| Text.TrimFixed | src/app/page.tsx:418 | a text without whitespace at either end is its own trim |
| Text.TrimIdempotent | src/app/page.tsx:418 | trimming twice is trimming once |
| Text.Join | src/app/page.tsx:138 | `parts.join(sep)`, the inverse that `Text.Split` and `Text.SplitJoin` are stated against |
| Text.Split | src/app/page.tsx:138 | at least one part, no part contains the separator, and joining the parts gives the text back |
| Text.SplitJoin | src/app/page.tsx:138 | splitting a join of separator-free parts gives the parts back |
| Text.SplitNoSeparator | src/app/page.tsx:138 | a text without the separator splits into just itself |
| Text.SplitAtFirst | src/app/page.tsx:138 | the text before the first separator is the first part, and the rest splits on its own |
| Text.SplitFirstPart | src/app/page.tsx:138 | a separator-free start followed by a separator or the end is the first part |
| Text.Decimal | src/app/api/transcription/route.ts:41 | the rendering is non-empty, all digits, with no leading zero |
| Text.DecimalRoundTrip | src/app/api/transcription/route.ts:41 | the decimal rendering reads back as the same number |
| Text.DecimalInjective | src/app/api/transcription/route.ts:41 | distinct statuses give distinct messages |
| Route.Get | src/app/api/transcription/route.ts:6 | `formData.get` is the first field with that name, and None exactly when no field has it |
| Route.FilePresent | src/app/api/transcription/route.ts:8 | the negation of `!audioFile`: a field is there and is not the empty text |
| Route.KeyPresent | src/app/api/transcription/route.ts:16 | the negation of `!groqApiKey`: the key is set and not empty |
| Route.Ok | src/app/api/transcription/route.ts:38 | `response.ok`: a status in 200..299 |
| Route.ErrorBody | src/app/api/transcription/route.ts:10 | the `{ error: message }` body of the early returns and of the catch (route.ts:18, 51) |
| Route.UpstreamForm | src/app/api/transcription/route.ts:24-26 | `groqFormData`: the field "file" with the uploaded value, then "model" with "whisper-large-v3" (`Route.ForwardCarriesFile` states it) |
| Route.Forward | src/app/api/transcription/route.ts:24-36 | the upstream call the route makes, or none when it returns before it (its properties are `Route.ForwardCarriesFile` and the two early-return lemmas) |
| Route.RelayableStatus | src/app/api/transcription/route.ts:40-43 | the statuses `NextResponse.json` accepts for a body: 200 to 599 except 204, 205 and 304 |
| Route.Post | src/app/api/transcription/route.ts:3-55 | the route's answer for a form, a key and an upstream outcome (its properties are the lemmas below) |
| Route.MissingFileIs400 | src/app/api/transcription/route.ts:8-13 | no file gives 400 "No audio file provided", whatever the key, and nothing is forwarded |
| Route.MissingKeyIs500 | src/app/api/transcription/route.ts:15-21 | a file without a key gives 500 "Groq API key is not configured", and nothing is forwarded |
| Route.EarlyReturnIgnoresUpstream | src/app/api/transcription/route.ts:8-21 | when the route returns early, the upstream outcome does not matter |
| Route.ForwardCarriesFile | src/app/api/transcription/route.ts:24-36 | the upstream call is a POST to the service with the bearer key, carrying exactly the uploaded file and model "whisper-large-v3" |
| Route.UpstreamErrorRelayed | src/app/api/transcription/route.ts:38-44 | a non-ok answer whose status the response may carry is relayed with that status; the message is the prefix plus that status in decimal, which parses back to the status; `details` is the upstream text |
| Route.SuccessRelayed | src/app/api/transcription/route.ts:46-47 | an ok answer's JSON is returned unchanged with status 200 |
| Route.StatusMeaning | src/app/api/transcription/route.ts:3-55 | 200 comes only from a forwarded call whose ok answer is passed through; every other status is a non-2xx status and carries an error string |
| Route.FailuresAre500 | src/app/api/transcription/route.ts:38-54 | an unreadable form, a failed fetch, an unreadable upstream body, or an upstream error status `NextResponse.json` rejects ends in 500 "Failed to process transcription request" |
| Route.UnrelayableStatusIs500 | src/app/api/transcription/route.ts:38-54 | upstream 304, 103 and 999 give the generic 500, while 404 is relayed as 404 |
| Page.DefaultAudioData | src/app/page.tsx:39 | 64 levels, each 0.01 |
| Page.ShowStop | src/app/page.tsx:176-177 | the Stop button's condition |
| Page.ShowCopy | src/app/page.tsx:195 | the Copy button's condition |
| Page.ShowDownload | src/app/page.tsx:217-220 | the Download button's condition |
| Page.ShowReset | src/app/page.tsx:238-241 | the Clear button's condition |
| Page.Placeholder | src/app/page.tsx:275-279 | the text shown while there is no transcript |
| Page.ToolbarRules | src/app/page.tsx:176-279 | Stop is offered exactly when the placeholder reports listening or paused and nothing is being transcribed; Download only when the placeholder invites a new start; nothing is offered while transcribing |
| Page.ToolbarConsistent | src/app/page.tsx:176-241 | Stop and Download are never both shown, and Download implies Clear |
| Page.PlaceholderByState | src/app/page.tsx:275-279 | each placeholder text corresponds exactly to its states |
| Page.Extension | src/app/page.tsx:138 | the extension is never empty and has no `/` |
| Page.ExtensionOfType | src/app/page.tsx:138 | the extension is the text between the first `/` and the next `/` or end, or "wav" when that is empty |
| Page.ExtensionWithoutSlash | src/app/page.tsx:138 | a type without `/` gives "wav" |
| Page.ExtensionExample | src/app/page.tsx:138 | "audio/webm" gives "webm" |
| Page.Stamp | src/app/page.tsx:139-142 | the first 19 characters with `:` and `T` replaced by `-`, and nothing else changed |
| Page.StampExample | src/app/page.tsx:139-142 | one ISO timestamp and its stamp |
| Page.DownloadName | src/app/page.tsx:138-142 | the download name, from the timestamp and the blob type |
| Page.DownloadNameShape | src/app/page.tsx:138-142 | the name is "recording-", then exactly `Stamp(iso)` (which has no `:` or `T`), then ".", then the extension |
| Page.TranscribeRequest | src/app/page.tsx:372-396 | a file is sent iff it is at least 500 bytes, re-wrapped as audio.webm with the same bytes |
| Page.ChunkFile | src/app/page.tsx:603-609 | a chunk becomes a file iff it is larger than 500 bytes, with the same bytes and the recorder's type or audio/webm |
| Page.NoSmallUploads | src/app/page.tsx:372-375 | along either path, nothing below the size gates reaches the route |
| Page.ShouldSchedule | src/app/page.tsx:432-436 | the recording effect's gate: a file, the play state, and the interval since the last call |
| Page.ScheduledTimes | src/app/page.tsx:431-455 | no more sends than effect runs |
| Page.ScheduledAfterLastCall | src/app/page.tsx:436-445 | every scheduled send is at least 4000 ms after the starting last-call time |
| Page.ScheduledSpacing | src/app/page.tsx:431-455 | any two sends scheduled by the recording effect are at least 4000 ms apart |
| Page.ScheduledOnlyWhilePlaying | src/app/page.tsx:432 | a send is scheduled only by a run that saw a file in the play state |
| Page.ReplyText | src/app/page.tsx:403-416 | the `text` the page reads from an answer: "" for an error reply with a JSON body, none for every answer that ends in the `catch` or has no string `text` |
| Page.TranscriptAfter | src/app/page.tsx:415-419 | the transcript after an answer (its properties are the lemmas below) |
| Page.TranscriptReplaced | src/app/page.tsx:416-418 | an answer either leaves every transcript alone or sets every transcript to the same text (replace, never append) |
| Page.NewTranscriptTrimmed | src/app/page.tsx:416-418 | a new transcript is non-empty and trimmed |
| Page.FailuresKeepTranscript | src/app/page.tsx:403-423 | a network failure, an error status, a non-JSON body, a missing or blank `text` all leave the transcript unchanged |
| Page.TextReplacesTranscript | src/app/page.tsx:413-418 | an ok answer with non-blank `text` sets the transcript to its trim |
| Page.TranscriptIdempotent | src/app/page.tsx:416-418 | the same answer applied twice changes nothing the second time |
| Page.RouteErrorsKeepTranscript | src/app/page.tsx:403-411 | every route answer other than 200 leaves the transcript unchanged |
| Page.ServiceTextBecomesTranscript | src/app/page.tsx:413-418 | a service answer relayed by the route with non-blank `text` becomes the trimmed transcript |
| Page.MainButtonAction | src/app/page.tsx:548-570 | what the main button does in each state |
| Page.AudioStore.constructor | src/app/page.tsx:36-46 | the store's initial values |
| Page.AudioStore.SetUiRecordingState | src/app/page.tsx:40 | sets the state and nothing else |
| Page.AudioStore.SetFullTranscription | src/app/page.tsx:41 | sets the transcript and nothing else |
| Page.AudioStore.ResetFullTranscription | src/app/page.tsx:42 | empties the transcript and nothing else |
| Page.AudioStore.SetAudioData | src/app/page.tsx:43 | sets the levels and nothing else |
| Page.AudioStore.SetIsTranscribing | src/app/page.tsx:45 | sets the flag and nothing else |
| Page.App.AsWritten | src/app/page.tsx:73-80 | the page with two separate hook instances |
| Page.App.Shared | src/app/page.tsx:328-337 | the page with one shared hook instance |
| Page.App.GlobalStop | src/app/page.tsx:89-105 | always ends in state stop, even while transcribing; the display's hook receives stop and keeps its stream; the transcript is kept |
| Page.App.ResetGlobal | src/app/page.tsx:107-128 | while transcribing nothing changes; otherwise the transcript is "", the state initial, the levels 64 times 0.01, and the display's hook is reset: its stream's tracks are all stopped and the stream is forgotten |
| Page.App.MainButtonClick | src/app/page.tsx:546-571 | from initial or stop the transcript is cleared first, then a recorder is installed on the hook's stream when media devices and the microphone are available, while the permission check's stream is left untouched; from play it pauses, and from pause it resumes; except on an install, the control's stream is kept |
| Page.App.SyncEffect | src/app/page.tsx:358-363 | the store's state follows the control's hook |
| Page.App.AudioFileEffect | src/app/page.tsx:431-455 | a send is scheduled iff there is a file, the state is play, and at least 4000 ms have passed; scheduling records the time |
| Page.App.RateLimitGate | src/app/page.tsx:432-445 | the gate passes iff `ShouldSchedule` holds, and then the run's time becomes the last call time |
| Page.App.RunAudioFileEffects | src/app/page.tsx:431-455 | running the recording effect over a sequence of runs schedules exactly `ScheduledTimes`, so `ScheduledSpacing` holds for the sends the loop produces; the last send, or the old value when there is none, is left as the last call time |
| Page.App.SendTimerFires | src/app/page.tsx:448-452 | a send goes ahead iff the state is still play and the file passes the size gate |
| Page.App.DataHandler | src/app/page.tsx:596-626 | a chunk is scheduled iff a recorder exists, the state is play, and the chunk is larger than 500 bytes, with no time gate; the file carries the recorder's type, or audio/webm when that is empty |
| Page.App.ReceiveTranscription | src/app/page.tsx:403-419 | the transcript becomes the transcript-after-answer and nothing else changes |
| Page.App.Toolbar | src/app/page.tsx:176-253 | the four buttons by their rules; with separate instances, Download is never offered |
| Findings.StopAsWritten | src/app/page.tsx:89-105 | with separate instances, Stop shows the stopped state while the control's recorder still records, and Download is hidden although a recording exists |
| Findings.StopShared | src/app/page.tsx:89-105 | with a shared instance, Stop stops the recorder and Download is offered |
| Findings.BeginSession | src/app/page.tsx:546-563 | a session started from a fresh page: recorder installed and playing, store in play, a blob iff a chunk arrived |
| Findings.StopThenResetShared | src/app/page.tsx:100-119 | with a shared instance, Start, Stop and then Clear leave the page in the initial state, with the hook's microphone track stopped and no recorder |
| Findings.ResetAsWritten | src/app/page.tsx:107-119 | with separate instances, Clear leaves the hook's microphone track live and the recorder installed; the permission check's track is live too |
| Findings.ResetShared | src/app/page.tsx:107-119 | with a shared instance, Clear stops the hook's microphone track and drops the recorder; the permission check's track stays live |

## Left out

- The visualizer (Web Audio analyser, animation frames, dB scaling): it is floating-point presentation. Its cleanup appears only as the levels going back to rest.
- The theme toggle, layout, background animation and config: they have no logic.
- Clipboard, toasts, object URLs, the DOM anchor and `console` output are side effects with nothing to state. Copy is modelled only as its visibility rule.
- `getUserMedia`, the page's `fetch` and the route's upstream `fetch` are inputs:
  - device availability and microphone permission are booleans;
  - an upstream outcome is a value;
  - the page's check call and the hook's own `getUserMedia` call are assumed to have the same outcome.
- The stream of the page's permission check (src/app/page.tsx:561) is dropped without its tracks being stopped, so the microphone stays in use after Clear in either wiring. The model keeps that stream as the `probe` argument of `Page.App.MainButtonClick`, and `Findings.ResetShared` shows it still live. No corrected page that stops it is modelled.
- A second install (`initialMediaRecorder` called again from the stop state, src/hooks/use-audio.tsx:46-47) replaces the stored stream without stopping the previous one, as the hook does. `Hook.RecordVoice.InitialMediaRecorder` keeps only the new stream, and the earlier stream's tracks stay live; no corrected hook is modelled.
- Timers and async ordering:
  - the 100 ms and 0 ms delays become a separate "timer fires" step, which re-checks the play state;
  - answers arriving out of order are not modelled;
  - the 2500 ms `keepAlive` `requestData` loop and the effect's `start(3000)` on an inactive recorder are left out.
- React's dependency tracking is not modelled: when an effect runs is decided by whoever calls `SyncEffect`, `AudioFileEffect` or `DataHandler`.
- The unmount cleanup effect (src/app/page.tsx:573-583) is left out: unmounting is outside the model.
- Exceptions a real MediaRecorder throws for calls in the wrong state (pause while inactive, and the like) are not modelled. The recorder is an identifier without its own state.
- `askForPermission` is folded into `Page.App.MainButtonClick`: a granted microphone installs the recorder at once.
- `arrayBuffer()` re-encoding on the page is the identity on bytes.
- `lastProcessedAudioFileRef` is declared but never used, so it has no model.
- `setIsTranscribing` exists in the store, but no code in the page sets the flag to true. The model keeps the flag as an input.
- `audioData` is a sequence of reals, not 32-bit floats.
- JSON numbers are integers. JSON is represented only as far as the route and the page read it.
- Text.Trim: has no contract of its own. Its meaning is stated by `Text.TrimSpec`, `Text.TrimEmptyIffBlank` and `Text.TrimIdempotent`.
- A new session started from the stop state installs a new recorder but does not empty the chunks. The next blob therefore also holds the earlier session's audio. `Hook.InstallKeepsChunks` states this as the code does it.
- A form field value that is a file object is treated as present. A text value counts as absent only when it is the empty string, as the route's `!audioFile` test does.

## Findings

| source | as written | input that shows it | evidently intended | confidence | as-written member | corrected member |
|---|---|---|---|---|---|---|
| src/app/page.tsx:76-80, 100, 132, 217 | the transcription panel calls `useRecordVoice()` itself, so Stop and Download use a hook instance that never gets a recorder | start a session with the main button, receive one chunk, press Stop | Stop stops the recorder; Download offers the recording | not executed | Findings.StopAsWritten | Findings.StopShared |
| src/app/page.tsx:76-80, 113 | Clear resets the panel's own hook instance, not the one holding the recorder and microphone stream | start a session with the main button, press Clear | Clear stops the hook's stream tracks and drops the recorder | not executed | Findings.ResetAsWritten | Findings.ResetShared |
