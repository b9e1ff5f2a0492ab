/**
 * The page's controls and its first rendering: which buttons are enabled,
 * what the settings inputs change, what the freshly rendered page shows and
 * does, and how the structured log entries read as text.
 */
module RecorderControls {

  import opened Optional
  import opened Decimal
  import opened Media
  import opened Recorder
  import opened RecorderProperties

  // ----- Buttons -----

  /**
   * End is enabled exactly while the page is marked recording; Start,
   * Download and the two kind buttons exactly when End is not. The
   * settings inputs, Clear and the browser's own events are never disabled.
   */
  lemma ButtonStates(s: State, outcome: CaptureOutcome, kind: MediaKind)
    ensures Enabled(s, Stop) <==> s.recording
    ensures Enabled(s, Stop) <==> !Enabled(s, Start(outcome))
    ensures Enabled(s, Download) == Enabled(s, Start(outcome)) == Enabled(s, SelectKind(kind))
    ensures forall p: Preset :: Enabled(s, SelectPreset(p))
    ensures forall f: int :: Enabled(s, SetFrameRate(f))
    ensures forall t: int :: Enabled(s, SetTimeSlice(t))
    ensures Enabled(s, Clear) && Enabled(s, RecorderStopped)
    ensures forall c: Chunk :: Enabled(s, DataAvailable(c))
  {
  }

  /**
   * An accepted start disables Start and enables End, whatever its outcome;
   * End does the reverse.
   */
  lemma ButtonsAfter(s: State, outcome: CaptureOutcome, next: CaptureOutcome, safari: bool)
    ensures 5 <= s.frameRate <= 60 ==>
              var r := Step(s, Start(outcome), safari);
              !Enabled(r, Start(next)) && Enabled(r, Stop) && !Enabled(r, Download)
    ensures var r := Step(s, Stop, safari);
            Enabled(r, Start(next)) && !Enabled(r, Stop) && Enabled(r, Download)
  {
  }

  // ----- Settings -----

  /**
   * The preset radios and the two number inputs change their own setting
   * and nothing else: no log line, no change to the buffer, the recorder or
   * the recording flag.
   */
  lemma SettingsSteps(s: State, e: Event, safari: bool)
    requires e.SelectPreset? || e.SetFrameRate? || e.SetTimeSlice?
    ensures var r := Step(s, e, safari);
            && r == s.(preset := r.preset, frameRate := r.frameRate, timeSlice := r.timeSlice)
            && (e.SelectPreset? ==> r.preset == e.preset)
            && (e.SetFrameRate? ==> r.frameRate == e.frameRate)
            && (e.SetTimeSlice? ==> r.timeSlice == e.timeSlice)
  {
  }

  /**
   * A time slice typed in during a recording does not change the seconds
   * the running recorder logs: its data callback keeps the slice of its start.
   */
  lemma SliceFixedAtStart(s: State, t: int, c: Chunk, safari: bool)
    requires s.recorder.Some?
    ensures Step(Step(s, SetTimeSlice(t), safari), DataAvailable(c), safari).log
         == Step(s, DataAvailable(c), safari).log
  {
    DataStep(s, DataAvailable(c), safari);
    var changed := Step(s, SetTimeSlice(t), safari);
    DataStep(changed, DataAvailable(c), safari);
  }

  /** Before any recorder has been attached, no chunk and no stop confirmation can change the page. */
  lemma CallbacksNeedRecorder(s: State, c: Chunk, safari: bool)
    requires s.recorder.None?
    ensures Step(s, DataAvailable(c), safari) == s
    ensures Step(s, RecorderStopped, safari) == s
  {
  }

  // ----- The first rendering -----

  lemma HeightDigitsXS()
    ensures NatToString(Height(XS)) == "480"
  {
    assert Height(XS) == 480;
    assert 480 / 10 == 48 && 480 % 10 == 0 && 48 / 10 == 4 && 48 % 10 == 8;
    assert NatToString(48) == "48";
  }

  /**
   * The freshly rendered page: one log line, Start, Download and the kind
   * buttons enabled and End disabled, no recorder, and an accepted start
   * that asks for 640 by 480 video at 10 frames per second with audio.
   */
  lemma InitialPage(safari: bool)
    ensures Lines(Initial().log) == ["Media console initialized..."]
    ensures Enabled(Initial(), Start(Granted)) && !Enabled(Initial(), Stop) && Enabled(Initial(), Download)
    ensures Initial().recorder.None? && Initial().buffer == [] && !Initial().recording
    ensures StartRecording(Initial(), Granted, safari).request
         == Some(Constraints(true, Some(VideoConstraints(640, 480, 10))))
  {
    var r := StartRecording(Initial(), Granted, safari);
    assert r.request.Some?;
  }

  lemma InitialFileName()
    ensures FileName(Video, XS, false) == "video480p.webm"
  {
    MimeTypeParts(Video, false);
    HeightDigitsXS();
    assert "video" + "480" + "p." + "webm" == "video480p.webm";
  }

  /** Download on the freshly rendered page (outside Safari): an empty `video480p.webm`. */
  lemma InitialDownload()
    ensures var r := DownloadRecording(Initial(), false);
            && r.file.name == "video480p.webm" && r.file.parts == []
            && r.state.log == [Initialized, Downloading, FileSize(0), Downloaded("video480p.webm")]
  {
    InitialFileName();
  }

  // ----- Log text -----

  /** The first, second, seventh and ninth characters of a line: enough to tell the kinds of line apart. */
  function Marks(t: string): string
    requires |t| > 8
  {
    [t[0], t[1], t[6], t[8]]
  }

  function MarksOf(e: Entry): string {
    match e
    case Initialized => "Mecn"
    case VideoStarted => "ViSa"
    case GotStream => "Goda"
    case RecorderStarted(_) => "MeRc"
    case Recorded(_) => "Ree."
    case Failure(_) => ""
    case Stopped => "Stdr"
    case ShowingPreview => "Shgt"
    case Downloading => "Doai"
    case FileSize(_) => "Fiie"
    case Downloaded(_) => "Doae"
  }

  lemma TextMarks(e: Entry)
    requires !e.Failure?
    ensures |Text(e)| > 8 && Marks(Text(e)) == MarksOf(e)
  {
    if e.RecorderStarted? || e.Recorded? || e.FileSize? || e.Downloaded? {
      PayloadMarks(e);
    } else {
      FixedMarks(e);
    }
  }

  lemma PayloadMarks(e: Entry)
    requires e.RecorderStarted? || e.Recorded? || e.FileSize? || e.Downloaded?
    ensures |Text(e)| > 8 && Marks(Text(e)) == MarksOf(e)
  {
    match e
    case RecorderStarted(m) =>
      PrefixMarks("Media Recored Started with mimeType ", m);
    case Recorded(n) =>
      PrefixMarks("Recorded...: ", IntToString(n));
      PrefixMarks("Recorded...: " + IntToString(n), "s");
    case FileSize(n) =>
      PrefixMarks("File Size: ", NatToString(n));
    case Downloaded(name) =>
      PrefixMarks("Downloaded: ", name);
  }

  lemma FixedMarks(e: Entry)
    requires !e.Failure? && !e.RecorderStarted? && !e.Recorded? && !e.FileSize? && !e.Downloaded?
    ensures |Text(e)| > 8 && Marks(Text(e)) == MarksOf(e)
  {
    match e
    case Initialized => LiteralMarks("Media console initialized...", "Mecn");
    case VideoStarted => LiteralMarks("Video Started", "ViSa");
    case GotStream => LiteralMarks("Got Media Stream", "Goda");
    case Stopped => LiteralMarks("Stopped recording", "Stdr");
    case ShowingPreview => LiteralMarks("Showing the preview", "Shgt");
    case Downloading => LiteralMarks("Downloading file", "Doai");
  }

  lemma LiteralMarks(t: string, m: string)
    requires |t| > 8 && m == [t[0], t[1], t[6], t[8]]
    ensures Marks(t) == m
  {
  }

  lemma PrefixMarks(p: string, x: string)
    requires |p| > 8
    ensures |p + x| > 8 && Marks(p + x) == Marks(p)
  {
  }

  lemma PrefixCancels(p: string, x: string, y: string)
    ensures p + x == p + y ==> x == y
  {
    if p + x == p + y {
      assert x == (p + x)[|p|..];
      assert y == (p + y)[|p|..];
    }
  }

  /**
   * Apart from error messages, which are whatever the browser reports, two
   * log entries read the same exactly when they are the same entry: the
   * displayed log determines the structured one.
   */
  lemma TextInjective(a: Entry, b: Entry)
    requires !a.Failure? && !b.Failure?
    ensures Text(a) == Text(b) <==> a == b
  {
    if Text(a) == Text(b) {
      TextMarks(a);
      TextMarks(b);
      match a
      case RecorderStarted(m) =>
        PrefixCancels("Media Recored Started with mimeType ", m, b.mime);
      case Recorded(n) =>
        RecordedTextInjective(n, b.seconds);
      case FileSize(n) =>
        PrefixCancels("File Size: ", NatToString(n), NatToString(b.size));
        NatToStringInjective(n, b.size);
      case Downloaded(name) =>
        PrefixCancels("Downloaded: ", name, b.name);
      case _ =>
    }
  }

  /** Two logs without error messages display the same lines exactly when they are the same log. */
  lemma LinesInjective(x: seq<Entry>, y: seq<Entry>)
    requires forall i :: 0 <= i < |x| ==> !x[i].Failure?
    requires forall i :: 0 <= i < |y| ==> !y[i].Failure?
    ensures Lines(x) == Lines(y) <==> x == y
  {
    if Lines(x) == Lines(y) {
      forall i | 0 <= i < |x|
        ensures x[i] == y[i]
      {
        TextInjective(x[i], y[i]);
      }
    }
  }
}
