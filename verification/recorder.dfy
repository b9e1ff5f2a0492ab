/**
 * The recording page as a state machine. Each handler of the page becomes a
 * pure transition on an immutable `State`; what the browser does in between
 * (granting or refusing the stream, the recorder delivering a chunk, the
 * recorder confirming that it stopped) arrives as an `Event`.
 *
 * Chunks are opaque: only their size is observed. The recorder's two
 * callbacks are closures created when a recording starts, so they keep the
 * MIME type and the time slice of that moment; `Handle` records both.
 */
module Recorder {

  import opened Optional
  import opened Decimal
  import opened Media

  /** One piece of encoded media delivered by the recorder. */
  datatype Chunk = Chunk(id: nat, size: nat)

  /**
   * The recorder attached by the last successful start: the MIME type its
   * stop callback shows the preview with, the time slice its data callback
   * multiplies by, and whether it is still recording. `active` is
   * informative only: `Step` does not consult it, so chunks and stop
   * confirmations from a stopped recorder are not excluded (the final
   * chunk a stopped recorder flushes must be delivered, and nothing marks
   * the recorder as finished after its confirmation).
   */
  datatype Handle = Handle(mime: string, timeSlice: int, active: bool)

  /** What the playback element shows: nothing, the live camera/microphone, or a recorded blob. */
  datatype Playback = NoSource | LiveStream | RecordedBlob(parts: seq<Chunk>, mime: string)

  /**
   * How the asynchronous part of a start ends: the stream and the recorder
   * both obtained, the stream request refused, or the recorder constructor
   * refusing the stream. A failure carries the error's message.
   */
  datatype CaptureOutcome = Granted | StreamFailed(message: string) | RecorderFailed(message: string)

  datatype State = State(
    recording: bool,
    kind: MediaKind,
    preset: Preset,
    frameRate: int,
    timeSlice: int,
    buffer: seq<Chunk>,
    counter: nat,
    playback: Playback,
    muted: bool,
    streamLive: bool,
    recorder: Option<Handle>,
    log: seq<Entry>)

  datatype Event =
    | SelectKind(kind: MediaKind)
    | SelectPreset(preset: Preset)
    | SetFrameRate(frameRate: int)
    | SetTimeSlice(timeSlice: int)
    | Start(outcome: CaptureOutcome)
    | DataAvailable(chunk: Chunk)
    | Stop
    | RecorderStopped
    | Download
    | Clear

  /**
   * One line of the activity log. The page stores the text; the model
   * stores what the line says and `Text` spells it out as the page does
   * (including the page's own spelling "Recored").
   */
  datatype Entry =
    | Initialized
    | VideoStarted
    | GotStream
    | RecorderStarted(mime: string)
    | Recorded(seconds: int)
    | Failure(message: string)
    | Stopped
    | ShowingPreview
    | Downloading
    | FileSize(size: nat)
    | Downloaded(name: string)

  function Text(e: Entry): string {
    match e
    case Initialized => "Media console initialized..."
    case VideoStarted => "Video Started"
    case GotStream => "Got Media Stream"
    case RecorderStarted(mime) => "Media Recored Started with mimeType " + mime
    case Recorded(seconds) => "Recorded...: " + IntToString(seconds) + "s"
    case Failure(message) => message
    case Stopped => "Stopped recording"
    case ShowingPreview => "Showing the preview"
    case Downloading => "Downloading file"
    case FileSize(size) => "File Size: " + NatToString(size)
    case Downloaded(name) => "Downloaded: " + name
  }

  /** The log as the page displays it, one string per line. */
  function Lines(log: seq<Entry>): (lines: seq<string>)
    ensures |lines| == |log|
    ensures forall i :: 0 <= i < |log| ==> lines[i] == Text(log[i])
  {
    seq(|log|, i requires 0 <= i < |log| => Text(log[i]))
  }

  /** The page as first rendered: video, preset xs, 10 frames per second, 5-second slices. */
  function Initial(): State {
    State(false, Video, XS, 10, 5, [], 0, NoSource, false, false, None, [Initialized])
  }

  /** Total number of bytes in a sequence of chunks: the size of the blob built from them. */
  function TotalSize(parts: seq<Chunk>): nat {
    if parts == [] then 0 else parts[0].size + TotalSize(parts[1..])
  }

  /** The start guard: a missing (zero), too high or too low frame rate stops the start. */
  predicate FrameRateRejected(frameRate: int) {
    frameRate == 0 || frameRate > 60 || frameRate < 5
  }

  /** Result of the start handler: the new state and the stream request made, if any. */
  datatype StartReply = StartReply(state: State, request: Option<Constraints>)

  /**
   * The start handler. A frame rate outside 5..60 stops it before anything
   * changes. Otherwise the buffer is emptied, the page is marked recording
   * and "Video Started" is logged, a stream is requested, and `outcome`
   * decides how far the rest gets; an error logs its message and leaves the
   * page marked recording. The chunk counter is not touched.
   */
  function StartRecording(s: State, outcome: CaptureOutcome, safari: bool): (r: StartReply)
    ensures r.request.Some? <==> 5 <= s.frameRate <= 60
    ensures r.request.None? ==> r.state == s
    ensures r.request.Some? ==>
              && r.request.value == CaptureConstraints(s.kind, s.preset, s.frameRate)
              && r.state.recording && r.state.buffer == [] && r.state.counter == s.counter
              && r.state.kind == s.kind && r.state.preset == s.preset
              && r.state.frameRate == s.frameRate && r.state.timeSlice == s.timeSlice
    ensures r.request.Some? && outcome.StreamFailed? ==>
              && r.state.log == s.log + [VideoStarted, Failure(outcome.message)]
              && r.state.recorder == s.recorder && r.state.streamLive == s.streamLive
              && r.state.playback == s.playback && r.state.muted == s.muted
    ensures r.request.Some? && outcome.RecorderFailed? ==>
              && r.state.log == s.log + [VideoStarted, GotStream, Failure(outcome.message)]
              && r.state.recorder == s.recorder
    ensures r.request.Some? && outcome.Granted? ==>
              && r.state.log == s.log + [VideoStarted, GotStream, RecorderStarted(MimeType(s.kind, safari))]
              && r.state.recorder == Some(Handle(MimeType(s.kind, safari), s.timeSlice, true))
    ensures r.request.Some? && !outcome.StreamFailed? ==>
              r.state.streamLive && r.state.playback == LiveStream && r.state.muted
  {
    if FrameRateRejected(s.frameRate) then
      StartReply(s, None)
    else
      var mime := MimeType(s.kind, safari);
      var begun := s.(buffer := [], recording := true, log := s.log + [VideoStarted]);
      var request := CaptureConstraints(s.kind, s.preset, s.frameRate);
      var next :=
        match outcome
        case StreamFailed(message) =>
          begun.(log := begun.log + [Failure(message)])
        case RecorderFailed(message) =>
          var live := begun.(streamLive := true, playback := LiveStream, muted := true, log := begun.log + [GotStream]);
          live.(log := live.log + [Failure(message)])
        case Granted =>
          var live := begun.(streamLive := true, playback := LiveStream, muted := true, log := begun.log + [GotStream]);
          live.(recorder := Some(Handle(mime, s.timeSlice, true)), log := live.log + [RecorderStarted(mime)]);
      StartReply(next, Some(request))
  }

  /**
   * The recorder's data callback, with the time slice it was created with.
   * An empty chunk is ignored; otherwise the counter goes up by one, the
   * elapsed time (counter times slice) is logged and the chunk is appended.
   * The recording flag is not consulted.
   */
  function OnData(s: State, timeSlice: int, c: Chunk): (r: State)
    ensures c.size == 0 ==> r == s
    ensures c.size > 0 ==>
              && r.buffer == s.buffer + [c]
              && r.counter == s.counter + 1
              && r.log == s.log + [Recorded((s.counter + 1) * timeSlice)]
              && r == s.(buffer := r.buffer, counter := r.counter, log := r.log)
  {
    if c.size > 0 then
      var counted := s.(counter := s.counter + 1);
      var logged := counted.(log := counted.log + [Recorded(counted.counter * timeSlice)]);
      logged.(buffer := logged.buffer + [c])
    else
      s
  }

  /**
   * The stop handler: the counter goes back to zero, the page stops being
   * marked recording, the stop is logged, the stream's tracks are released
   * and the recorder, if any, is asked to stop. The buffer is kept.
   */
  function StopRecording(s: State): (r: State)
    ensures !r.recording && r.counter == 0 && !r.streamLive
    ensures r.log == s.log + [Stopped]
    ensures r.buffer == s.buffer && r.playback == s.playback && r.muted == s.muted
    ensures r.kind == s.kind && r.preset == s.preset
    ensures r.frameRate == s.frameRate && r.timeSlice == s.timeSlice
    ensures r.recorder.Some? <==> s.recorder.Some?
    ensures r.recorder.Some? ==> r.recorder.value == s.recorder.value.(active := false)
  {
    var reset := s.(counter := 0, recording := false, log := s.log + [Stopped]);
    var released := reset.(streamLive := false);
    match released.recorder
    case None => released
    case Some(h) => released.(recorder := Some(h.(active := false)))
  }

  /**
   * The recorder's stop callback, with the MIME type it was created with.
   * It always clears the recording flag and logs the preview; only when
   * chunks were collected does it bind their blob to the playback element
   * and unmute it.
   */
  function Preview(s: State, mime: string): (r: State)
    ensures !r.recording && r.log == s.log + [ShowingPreview]
    ensures r.buffer == s.buffer && r.counter == s.counter && r.recorder == s.recorder
    ensures s.buffer != [] ==> r.playback == RecordedBlob(s.buffer, mime) && !r.muted
    ensures s.buffer == [] ==> r.playback == s.playback && r.muted == s.muted
    ensures r == s.(recording := false, log := r.log, playback := r.playback, muted := r.muted)
  {
    var shown := s.(recording := false, log := s.log + [ShowingPreview]);
    if shown.buffer == [] then shown
    else shown.(muted := false, playback := RecordedBlob(shown.buffer, mime))
  }

  /** A file handed to the browser for saving. */
  datatype SavedFile = SavedFile(name: string, parts: seq<Chunk>, mime: string)

  datatype DownloadReply = DownloadReply(state: State, file: SavedFile)

  /**
   * The download handler: saves the collected chunks under a name built
   * from the kind, the preset height and the platform's extension, logging
   * the start, the size and the name. Nothing but the log changes.
   */
  function DownloadRecording(s: State, safari: bool): (r: DownloadReply)
    ensures r.file.parts == s.buffer && r.file.mime == MimeType(s.kind, safari)
    ensures r.file.name == FileName(s.kind, s.preset, safari)
    ensures r.state.log == s.log + [Downloading, FileSize(TotalSize(s.buffer)), Downloaded(r.file.name)]
    ensures r.state == s.(log := r.state.log)
  {
    var mime := MimeType(s.kind, safari);
    var file := SavedFile(FileName(s.kind, s.preset, safari), s.buffer, mime);
    var announced := s.(log := s.log + [Downloading, FileSize(TotalSize(file.parts))]);
    DownloadReply(announced.(log := announced.log + [Downloaded(file.name)]), file)
  }

  /**
   * The saved file's name reads back as the kind, the preset's height and
   * the platform's extension.
   */
  lemma DownloadFileName(s: State, safari: bool)
    ensures ParseFileName(DownloadRecording(s, safari).file.name)
         == Some(FileParts(KindName(s.kind), Height(s.preset), Extension(safari)))
  {
    FileNameRoundTrip(s.kind, s.preset, safari);
  }

  /** The Clear button: the log goes back to its single initial entry. */
  function ClearLog(s: State): (r: State)
    ensures r.log == [Initialized] && r == s.(log := r.log)
  {
    s.(log := Initial().log)
  }

  /**
   * The Video and Audio buttons. The page renders a different element for
   * each kind, so a change of kind leaves the new element with no source
   * and unmuted.
   */
  function SelectMediaKind(s: State, kind: MediaKind): (r: State)
    ensures r.kind == kind
    ensures kind == s.kind ==> r == s
    ensures kind != s.kind ==> r == s.(kind := kind, playback := NoSource, muted := false)
  {
    if kind == s.kind then s else s.(kind := kind, playback := NoSource, muted := false)
  }

  /** Which controls can fire: the `disabled` attributes of the page's buttons. */
  predicate Enabled(s: State, e: Event) {
    match e
    case SelectKind(_) => !s.recording
    case Start(_) => !s.recording
    case Stop => s.recording
    case Download => !s.recording
    case _ => true
  }

  /** One event. The recorder's callbacks exist only once a recorder has been attached. */
  function Step(s: State, e: Event, safari: bool): State {
    match e
    case SelectKind(kind) => SelectMediaKind(s, kind)
    case SelectPreset(preset) => s.(preset := preset)
    case SetFrameRate(frameRate) => s.(frameRate := frameRate)
    case SetTimeSlice(timeSlice) => s.(timeSlice := timeSlice)
    case Start(outcome) => StartRecording(s, outcome, safari).state
    case DataAvailable(c) =>
      (match s.recorder
       case None => s
       case Some(h) => OnData(s, h.timeSlice, c))
    case Stop => StopRecording(s)
    case RecorderStopped =>
      (match s.recorder
       case None => s
       case Some(h) => Preview(s, h.mime))
    case Download => DownloadRecording(s, safari).state
    case Clear => ClearLog(s)
  }

  /** A sequence of events, in order. */
  function Run(s: State, events: seq<Event>, safari: bool): State
    decreases |events|
  {
    if events == [] then s else Run(Step(s, events[0], safari), events[1..], safari)
  }

  /** Every event of the sequence is enabled in the state it arrives in. */
  predicate EnabledRun(s: State, events: seq<Event>, safari: bool)
    decreases |events|
  {
    events == [] || (Enabled(s, events[0]) && EnabledRun(Step(s, events[0], safari), events[1..], safari))
  }
}
