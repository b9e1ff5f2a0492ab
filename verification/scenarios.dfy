/**
 * Whole sessions traced event by event from the freshly rendered page.
 */
module RecorderScenarios {

  import opened Optional
  import opened Decimal
  import opened Media
  import opened Recorder
  import opened RecorderProperties

  lemma RunCons(s: State, e: Event, rest: seq<Event>, safari: bool)
    ensures Run(s, [e] + rest, safari) == Run(Step(s, e, safari), rest, safari)
  {
    assert ([e] + rest)[0] == e;
    assert ([e] + rest)[1..] == rest;
  }

  /** Audio, one-second slices, then Start with the stream and the recorder obtained. */
  lemma AudioStart()
    ensures var r := Run(Initial(), [SelectKind(Audio), SetTimeSlice(1), Start(Granted)], false);
            && r.log == [Initialized, VideoStarted, GotStream, RecorderStarted("audio/webm")]
            && r.recorder == Some(Handle("audio/webm", 1, true))
            && r.counter == 0 && r.buffer == [] && r.recording
  {
    var s0 := Initial();
    var s1 := Step(s0, SelectKind(Audio), false);
    var s2 := Step(s1, SetTimeSlice(1), false);
    assert s2.kind == Audio && s2.timeSlice == 1 && s2.frameRate == 10;
    var s3 := Step(s2, Start(Granted), false);
    assert s3.log == [Initialized, VideoStarted, GotStream, RecorderStarted("audio/webm")];
    RunCons(s0, SelectKind(Audio), [SetTimeSlice(1), Start(Granted)], false);
    RunTwo(s1, SetTimeSlice(1), Start(Granted), false);
  }

  /** The three chunks of the audio session: one line per second. */
  lemma AudioData(s: State, c1: Chunk, c2: Chunk, c3: Chunk)
    requires s.recorder == Some(Handle("audio/webm", 1, true)) && s.counter == 0
    requires c1.size > 0 && c2.size > 0 && c3.size > 0
    ensures var r := Run(s, [DataAvailable(c1), DataAvailable(c2), DataAvailable(c3)], false);
            && r.log == s.log + [Recorded(1), Recorded(2), Recorded(3)]
            && r.buffer == s.buffer + [c1, c2, c3]
            && r.recorder == s.recorder && r.recording == s.recording
  {
    var data := [DataAvailable(c1), DataAvailable(c2), DataAvailable(c3)];
    DataRun(s, data, false);
    assert NonEmptyChunks(data) == [c1, c2, c3] by {
      NonEmptyChunksCons(data);
      NonEmptyChunksCons(data[1..]);
      NonEmptyChunksCons(data[2..]);
    }
    assert RecordedLines(0, 1, 3) == [Recorded(1), Recorded(2), Recorded(3)] by {
      RecordedLinesCons(0, 1, 3);
      RecordedLinesCons(1, 1, 2);
      RecordedLinesCons(2, 1, 1);
    }
  }

  /** End, the flushed chunk and the recorder's confirmation: the collected chunks are shown. */
  lemma AudioStop(s: State, flush: Chunk)
    requires s.recorder.Some? && s.recorder.value.mime == "audio/webm" && s.recorder.value.timeSlice == 1
    requires flush.size > 0
    ensures var r := Run(s, [Stop, DataAvailable(flush), RecorderStopped], false);
            && r.log == s.log + [Stopped, Recorded(1), ShowingPreview]
            && r.buffer == s.buffer + [flush]
            && r.playback == RecordedBlob(s.buffer + [flush], "audio/webm") && !r.muted
            && !r.recording
  {
    StopFlushConfirm(s, flush, false);
  }

  /**
   * Audio, one-second slices, three chunks, then End: the log shows the
   * start, the stream, the recorder, one line per second, the stop, the
   * line of the chunk the recorder flushes on stopping, and the preview.
   */
  lemma AudioSession(c1: Chunk, c2: Chunk, c3: Chunk, flush: Chunk)
    requires c1.size > 0 && c2.size > 0 && c3.size > 0 && flush.size > 0
    ensures var r := Run(Initial(), [SelectKind(Audio), SetTimeSlice(1), Start(Granted),
                                     DataAvailable(c1), DataAvailable(c2), DataAvailable(c3),
                                     Stop, DataAvailable(flush), RecorderStopped], false);
            && r.log == [Initialized, VideoStarted, GotStream, RecorderStarted("audio/webm"),
                         Recorded(1), Recorded(2), Recorded(3), Stopped, Recorded(1), ShowingPreview]
            && r.buffer == [c1, c2, c3, flush]
            && r.playback == RecordedBlob([c1, c2, c3, flush], "audio/webm") && !r.muted
            && !r.recording
  {
    var start := [SelectKind(Audio), SetTimeSlice(1), Start(Granted)];
    var data := [DataAvailable(c1), DataAvailable(c2), DataAvailable(c3)];
    var tail := [Stop, DataAvailable(flush), RecorderStopped];
    AudioStart();
    var started := Run(Initial(), start, false);
    AudioData(started, c1, c2, c3);
    var collected := Run(started, data, false);
    AudioStop(collected, flush);
    RunAppend(Initial(), start, data, false);
    RunAppend(Initial(), start + data, tail, false);
    assert start + data + tail
        == [SelectKind(Audio), SetTimeSlice(1), Start(Granted), DataAvailable(c1), DataAvailable(c2), DataAvailable(c3),
            Stop, DataAvailable(flush), RecorderStopped];
    assert collected.buffer == [c1, c2, c3];
  }

  /** The per-chunk lines of the session above. */
  lemma SecondsTexts()
    ensures Text(Recorded(1)) == "Recorded...: 1s"
    ensures Text(Recorded(2)) == "Recorded...: 2s"
    ensures Text(Recorded(3)) == "Recorded...: 3s"
  {
    assert NatToString(1) == "1" && NatToString(2) == "2" && NatToString(3) == "3";
  }

  /** How the page renders the log of the session above. */
  lemma AudioSessionLines()
    ensures Lines([Initialized, VideoStarted, GotStream, RecorderStarted("audio/webm"),
                   Recorded(1), Recorded(2), Recorded(3), Stopped, Recorded(1), ShowingPreview])
         == ["Media console initialized...", "Video Started", "Got Media Stream",
             "Media Recored Started with mimeType audio/webm",
             "Recorded...: 1s", "Recorded...: 2s", "Recorded...: 3s",
             "Stopped recording", "Recorded...: 1s", "Showing the preview"]
  {
    var log := [Initialized, VideoStarted, GotStream, RecorderStarted("audio/webm"),
                Recorded(1), Recorded(2), Recorded(3), Stopped, Recorded(1), ShowingPreview];
    var texts := [Text(Initialized), Text(VideoStarted), Text(GotStream), Text(RecorderStarted("audio/webm")),
                  Text(Recorded(1)), Text(Recorded(2)), Text(Recorded(3)), Text(Stopped), Text(Recorded(1)),
                  Text(ShowingPreview)];
    assert Lines(log) == texts;
    SecondsTexts();
    assert Text(RecorderStarted("audio/webm")) == "Media Recored Started with mimeType audio/webm";
  }

  /** The same session as the page displays it. */
  lemma AudioSessionText(c1: Chunk, c2: Chunk, c3: Chunk, flush: Chunk)
    requires c1.size > 0 && c2.size > 0 && c3.size > 0 && flush.size > 0
    ensures Lines(Run(Initial(), [SelectKind(Audio), SetTimeSlice(1), Start(Granted),
                                  DataAvailable(c1), DataAvailable(c2), DataAvailable(c3),
                                  Stop, DataAvailable(flush), RecorderStopped], false).log)
         == ["Media console initialized...", "Video Started", "Got Media Stream",
             "Media Recored Started with mimeType audio/webm",
             "Recorded...: 1s", "Recorded...: 2s", "Recorded...: 3s",
             "Stopped recording", "Recorded...: 1s", "Showing the preview"]
  {
    AudioSession(c1, c2, c3, flush);
    AudioSessionLines();
  }
}
