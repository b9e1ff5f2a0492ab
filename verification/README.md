# Media recorder page, modelled in Dafny

The repository is a single React page, `src/App.js`, for trying out the
browser's MediaRecorder API. The user picks a kind (video or audio), a
resolution preset, a frame rate and a time slice. Start asks the browser for
a stream and attaches a recorder that delivers a chunk every time slice. End
stops it. The collected chunks are then shown as a preview and can be
downloaded. Every step is written to an on-page activity log, and Clear
empties that log.

This project models that page as a state machine:

- `optional.dfy`: the `Option` type.
- `decimal.dfy`: how a JavaScript template literal prints a whole number
  of magnitude at most 2^53 (sign and decimal digits), with a parser that
  reads it back.
- `media.dfy`: the preset table and the MIME type and extension table.
  Safari is a boolean parameter. Also the capture constraints that a start
  requests, and the download file name.
- `recorder.dfy`: the page state and every handler as a pure transition:
  start, chunk arrival, stop, the recorder's stop callback (the preview),
  download, clear, and the settings controls. It also holds the buttons'
  `disabled` rules and `Step` and `Run` over sequences of events.
- `controls.dfy`: the buttons' enabled states, the settings inputs, the
  freshly rendered page, and how the log entries read as text.
- `properties.dfy`: properties of single events and of whole event
  sequences.
- `scenarios.dfy`: a complete audio session traced from the freshly
  rendered page, down to the exact log text.
- `findings.dfy`: the chunk counter carrying over between recordings. It
  holds the code as written, the counterexample, and a corrected start with
  its property proved.

Modelling choices:

- What the browser does between handlers arrives as events:
  - the stream request succeeding or failing;
  - a chunk being delivered;
  - the recorder confirming that it stopped.
- The two recorder callbacks are closures created at start. The data
  callback multiplies by the time slice of that moment. The stop callback
  builds the preview blob with the MIME type of that moment. The model keeps
  both in `Recorder.Handle`.
- The log is stored as structured `Entry` values. `Recorder.Text` spells
  each one out as the page does, including the page's "Recored"
  misspelling, for whole numbers of seconds (see `Decimal.IntToString`
  under "Left out").

Two behaviours of the page are easy to misread:

- The resolution radio buttons stay enabled while recording. Changing them
  mid-recording only affects the next start and the download name.
- The Download button is disabled only while recording. It is not disabled
  when nothing was recorded; a download then saves an empty file and logs
  "File Size: 0".

## Model

| member | source | states |
|---|---|---|
| Decimal.ParseIntRoundTrip | src/App.js:108-112 | the number printed in a "Recorded...: Ns" line reads back as the same integer, negative ones included |
| Decimal.IntToStringInjective | src/App.js:108-112 | two different integers never print the same |
| Decimal.NatToStringInjective | src/App.js:163-168 | two different sizes never print the same "File Size" text |
| Media.PresetByKey | src/App.js:10-27 | a key is found exactly when it is one of the four preset keys, and the preset found has that key |
| Media.PresetKeyRoundTrip | src/App.js:10-27 | each preset is found again under its own key |
| Media.PresetsIncrease | src/App.js:10-27 | a preset's height grows exactly when its width does, and the four heights are distinct |
| Media.MimeTypeParts | src/App.js:6-8 | splitting a MIME type at its first "/" gives the kind's name and the platform extension (mp4 on Safari, webm elsewhere) |
| Media.MimeTypeDistinguishesKind | src/App.js:33-37 | the video and audio MIME types differ on both platforms |
| Media.CaptureConstraints | src/App.js:84-91 | a start always asks for audio, asks for video exactly for the video kind, and then with the preset's width and height and the chosen frame rate |
| Media.SplitJoined | src/App.js:170 | `split("/")[0]` and the rest recover a name joined at its first separator |
| Media.FileNameRoundTrip | src/App.js:170-172 | the download name reads back as kind, preset height and extension |
| Media.FileNameInjective | src/App.js:170-172 | different kind, preset or platform always give different download names |
| Media.FileNameExample | src/App.js:170-172 | video at md outside Safari downloads as `video720p.webm` |
| Recorder.StartRecording | src/App.js:74-141 | frame rate outside 5..60 changes nothing and requests nothing. Otherwise the buffer is emptied, recording is set, the counter is untouched, and the request matches the settings. The log gains "Video Started" then, per outcome, the error message, or "Got Media Stream" and the error, or "Got Media Stream" and the recorder line. Only a granted start attaches a recorder, capturing the MIME type and time slice of that moment |
| Recorder.OnData | src/App.js:105-115 | an empty chunk changes nothing; otherwise the chunk is appended, the counter goes up by one, and the log gains counter times slice seconds. Nothing else changes |
| Recorder.StopRecording | src/App.js:143-159 | clears recording, zeroes the counter, logs "Stopped recording", releases the stream and marks the recorder inactive. Buffer, playback and settings are kept |
| Recorder.Preview | src/App.js:62-72 | always clears recording and logs the preview; binds the chunks as one blob of the start's MIME type and unmutes only when chunks were collected |
| Recorder.DownloadRecording | src/App.js:161-181 | saves exactly the buffer with the current MIME type, logs "Downloading file", the total size and the name, and changes nothing but the log |
| Recorder.DownloadFileName | src/App.js:170-172 | the saved file's name reads back as kind, preset height and extension |
| Recorder.ClearLog | src/App.js:293 | the log returns to its single initial line and nothing else changes |
| Recorder.SelectMediaKind | src/App.js:282-288 | choosing the other kind remounts the player with no source and unmuted; choosing the same kind changes nothing |
| RecorderControls.ButtonStates | src/App.js:259-277 | Start, Download and the Video and Audio buttons are enabled exactly when End is disabled, which is exactly while not recording; the settings inputs, Clear and the browser's callbacks are never gated |
| RecorderControls.ButtonsAfter | src/App.js:259-277 | after an accepted start, whatever its outcome, Start and Download are disabled and End enabled; after End the reverse |
| RecorderControls.SettingsSteps | src/App.js:200-247 | the preset radios (208-210), the frame-rate input (229-231) and the time-slice input (242-244) change their own setting and nothing else, not even the log |
| RecorderControls.SliceFixedAtStart | src/App.js:105-112 | a time slice changed during a recording does not change the seconds the running recorder logs |
| RecorderControls.CallbacksNeedRecorder | src/App.js:96-116 | before a recorder has been attached, chunk deliveries and stop confirmations change nothing |
| RecorderControls.InitialPage | src/App.js:41-51 | the first rendering shows one log line, enables Start and Download and disables End, has no recorder and no chunks, and a start from it asks for audio with 640 by 480 video at 10 frames per second |
| RecorderControls.InitialDownload | src/App.js:161-181 | Download on the first rendering, outside Safari, saves an empty `video480p.webm` and logs size 0 |
| RecorderControls.TextInjective | src/App.js:32-180 | the log lines written at lines 32, 64, 83, 94, 102, 111, 139, 146, 166-167 and 180 read the same exactly when they are the same entry, error messages aside |
| RecorderControls.LinesInjective | src/App.js:298-302 | two logs without error messages are displayed as the same list exactly when they are the same log |
| RecorderProperties.RecordedTextInjective | src/App.js:108-112 | two chunk lines read the same exactly when they report the same seconds |
| RecorderProperties.StepLog | src/App.js:32 | every event but Clear keeps the existing log as a prefix; Clear resets it to the initial line |
| RecorderProperties.LogOnlyGrows | src/App.js:293 | without Clear, any sequence of events only appends to the log |
| RecorderProperties.RunValid | src/App.js:107-114 | in any run the log is never empty and the buffer holds only non-empty chunks |
| RecorderProperties.TotalSizeZero | src/App.js:162-168 | the blob size is zero exactly when there are no (non-empty) chunks |
| RecorderProperties.DownloadSizeZero | src/App.js:161-168 | in every reachable state, a download logs "File Size: 0" exactly when nothing was collected |
| RecorderProperties.RecordedLinesAt | src/App.js:108-112 | the i-th chunk line after c earlier chunks reports (c + i + 1) slices |
| RecorderProperties.StepBuffer | src/App.js:105-115 | once a recorder is attached, any event but Start adds to the buffer exactly the non-empty chunk it delivers |
| RecorderProperties.BufferCollectsChunks | src/App.js:105-115 | between starts, the buffer gains exactly the delivered non-empty chunks in arrival order, whatever else happens |
| RecorderProperties.SessionBuffer | src/App.js:81 | after a granted start, the buffer is exactly the non-empty chunks since that start; earlier chunks are gone |
| RecorderProperties.DataStep | src/App.js:105-115 | one chunk delivery uses the recorder's own time slice and leaves recorder, flag and playback alone |
| RecorderProperties.DataRunCounts | src/App.js:107-109 | a run of deliveries raises the counter by the number of non-empty chunks and keeps recorder and flag |
| RecorderProperties.DataRunLog | src/App.js:107-112 | a run of deliveries logs one line per non-empty chunk, the k-th reporting (counter + k) slices |
| RecorderProperties.DataRun | src/App.js:105-115 | buffer, counter and log of a run of deliveries, together |
| RecorderProperties.ConfirmStep | src/App.js:116 | the recorder's stop confirmation runs the preview with the recorder's MIME type |
| RecorderProperties.SessionPreview | src/App.js:62-72 | start, chunks, End and the confirmation show exactly the session's chunks as one blob, or keep the muted live stream when there were none |
| RecorderProperties.GrantedStart | src/App.js:74-117 | an accepted, granted start attaches a recorder with the current MIME type and time slice, empties the buffer, shows the muted live stream, logs the three start lines and keeps counter and settings |
| RecorderProperties.StopConfirm | src/App.js:62-72 | End then the confirmation, with no chunk between: counter zero, buffer kept, and the buffer shown with the start's MIME type exactly when it is not empty |
| RecorderProperties.StopFlushConfirm | src/App.js:105-159 | End, a final chunk and the confirmation: the final chunk is appended, logged as one slice and shown with the rest; the settings are kept |
| RecorderProperties.FlushAfterStop | src/App.js:143-156 | a chunk delivered after End is still appended and logs one slice, with the counter back at one |
| RecorderProperties.FailedStartKeepsRecording | src/App.js:137-139 | a start whose capture fails leaves the page marked recording, so Start is disabled and End is enabled |
| RecorderProperties.KindFixedWhileRecording | src/App.js:259-267 | while recording, enabled events never change the media kind |
| RecorderScenarios.AudioSession | src/App.js:74-159 | a complete one-second audio session with three chunks yields exactly the expected log, buffer and preview |
| RecorderScenarios.AudioSessionText | src/App.js:298-302 | the same session as the ten lines the page displays |
| CounterFinding.CounterCarriesOver | src/App.js:143-156 | as written: after End, the flushed chunk and a new start, the first new chunk is counted as the second and logs two slices |
| CounterFinding.StartAndChunk | src/App.js:74-112 | as written: a granted start followed by one chunk counts that chunk after whatever count was left |
| CounterFinding.CounterCarriesOverExample | src/App.js:108-112 | as written: from the initial page, the second recording's first line reads "Recorded...: 10s" with 5-second slices |
| CounterFinding.SessionLogAsWritten | src/App.js:81-83 | as written: a session's lines continue from whatever count the previous session left |
| CounterFinding.StartFresh | src/App.js:74-141 | the corrected start agrees with the original in everything except that an accepted start zeroes the counter |
| CounterFinding.RunFixedAgrees | src/App.js:74-141 | without a start, the corrected page behaves exactly like the original |
| CounterFinding.FreshSessionLog | src/App.js:107-112 | corrected: every session's k-th line reports k slices, whatever came before |
| CounterFinding.FreshStartAndChunk | src/App.js:107-112 | corrected: a granted start followed by one chunk logs exactly one slice |
| CounterFinding.FixedFlushStillOne | src/App.js:143-156 | corrected start only: the chunk flushed after End still logs one slice, whatever count the recording reached |
| CounterFinding.CounterRestarts | src/App.js:143-156 | corrected: the finding's trace logs one slice for the new recording's first chunk |

## Left out

- Voice activity detection (`useVad`, `src/useVad.js`) and its status message: `useVad.js` is not part of this model, and the message is display only.
- The recorded-time display (`startTimeRef`, `endTimeRef`, `currentTime`, `ontimeupdate`): it depends on the media element's clock.
- Browser APIs: `getUserMedia`, `MediaRecorder`, blobs, object URLs and the download anchor. They appear only as events, as a `Playback` value and as a `SavedFile`.
- Chunk contents: a chunk is an id and a size.
- The user-agent test is a boolean parameter, not a regular expression over the user agent string.
- `alert`, input focus and the shared `frameRateRef`: user interface side effects with no state.
- `console.log` output.
- Rendering and styling.
- Number inputs: the page stores the input's text. The model stores an integer, so empty or non-numeric text is not modelled.
- Interleaving during the awaited stream request: Start is atomic, and its `CaptureOutcome` parameter says how far it got.
- Failures after the recorder is attached (`recorder.start` or the VAD start throwing): only the stream request and the recorder constructor can fail in the model.
- Callbacks of a superseded recorder after a later start: only the latest recorder's callbacks are modelled.
- Recorder.OnData: the seconds of a "Recorded...: Ns" line are taken when the chunk arrives. The page computes them inside the updater passed to `setHistory`, which React may defer to the next render; if End zeroes the counter first, the page logs a different number ("Recorded...: 0s"). React's deferred updaters are not modelled.
- Decimal.IntToString: JavaScript numbers are doubles, and the model prints every integer in plain digits. The page differs in three cases: a product `counterRef.current * timeSlice` of 10^21 or more prints in exponent form ("1e+21"); above 2^53 a product is printed as the shortest digits that round-trip as a double, not its exact value (2^60 prints as "1152921504606847000"); a fractional time slice typed into the input (for example "2.5") logs fractional seconds ("Recorded...: 2.5s"). The model's time slice is an integer, so none of these is modelled.
- Recorder.SelectMediaKind: the effect that resets the recorded-time display and the VAD message on a kind change is left out with them.

## Findings

| source | as written | input that shows it | evidently intended | confidence | as-written member | corrected member |
|---|---|---|---|---|---|---|
| src/App.js:144 | the chunk counter is zeroed in the stop handler, before `recorder.stop()`; the final chunk the recorder flushes afterwards raises it to 1, and start never zeroes it | initial page (5-second slices), Start, End, flushed chunk, stop confirmation, Start, one chunk: the last line reads "Recorded...: 10s" | each recording counts its chunks from zero, so its first line reads "Recorded...: 5s"; the corrected start fixes that line only, since the chunk flushed after End still logs one slice after the higher counts (`CounterFinding.FixedFlushStillOne`), and moving the reset from the stop handler to the start handler would fix both | not executed | CounterFinding.CounterCarriesOver | CounterFinding.CounterRestarts |
