/**
 * Properties of the recording page over single events and over whole
 * sequences of events.
 */
module RecorderProperties {

  import opened Optional
  import opened Decimal
  import opened Media
  import opened Recorder

  /** The chunks of the sequence's non-empty data events, in arrival order. */
  function NonEmptyChunks(events: seq<Event>): (chunks: seq<Chunk>)
    ensures |chunks| <= |events|
    ensures forall i :: 0 <= i < |chunks| ==> chunks[i].size > 0
  {
    if events == [] then []
    else
      var head := if events[0].DataAvailable? && events[0].chunk.size > 0 then [events[0].chunk] else [];
      head + NonEmptyChunks(events[1..])
  }

  predicate NoStart(events: seq<Event>) {
    forall i :: 0 <= i < |events| ==> !events[i].Start?
  }

  predicate NoClear(events: seq<Event>) {
    forall i :: 0 <= i < |events| ==> !events[i].Clear?
  }

  predicate OnlyData(events: seq<Event>) {
    forall i :: 0 <= i < |events| ==> events[i].DataAvailable?
  }

  /** The log lines of `k` chunks counted after `c` earlier ones, `t` seconds each. */
  function RecordedLines(c: nat, t: int, k: nat): (lines: seq<Entry>)
    decreases k
    ensures |lines| == k
  {
    if k == 0 then [] else [Recorded((c + 1) * t)] + RecordedLines(c + 1, t, k - 1)
  }

  /** The i-th line reports (c + i + 1) slices. */
  lemma {:induction false} RecordedLinesAt(c: nat, t: int, k: nat, i: nat)
    requires i < k
    ensures RecordedLines(c, t, k)[i] == Recorded((c + i + 1) * t)
    decreases k
  {
    if i > 0 {
      RecordedLinesAt(c + 1, t, k - 1, i - 1);
    }
  }

  lemma {:induction false} RunAppend(s: State, a: seq<Event>, b: seq<Event>, safari: bool)
    ensures Run(s, a + b, safari) == Run(Run(s, a, safari), b, safari)
    decreases |a|
  {
    if a != [] {
      assert (a + b)[0] == a[0];
      assert (a + b)[1..] == a[1..] + b;
      RunAppend(Step(s, a[0], safari), a[1..], b, safari);
    } else {
      assert a + b == b;
    }
  }

  lemma RunOne(s: State, e: Event, safari: bool)
    ensures Run(s, [e], safari) == Step(s, e, safari)
  {
    assert [e][1..] == [];
  }

  lemma RunTwo(s: State, e1: Event, e2: Event, safari: bool)
    ensures Run(s, [e1, e2], safari) == Step(Step(s, e1, safari), e2, safari)
  {
    assert [e1, e2][1..] == [e2];
    RunOne(Step(s, e1, safari), e2, safari);
  }

  // ----- The log -----

  /** Two chunk lines read the same exactly when they report the same number of seconds. */
  lemma RecordedTextInjective(a: int, b: int)
    ensures Text(Recorded(a)) == Text(Recorded(b)) <==> a == b
  {
    var p := "Recorded...: ";
    var ta := Text(Recorded(a));
    var tb := Text(Recorded(b));
    assert ta == p + IntToString(a) + "s";
    assert tb == p + IntToString(b) + "s";
    if ta == tb {
      assert IntToString(a) == ta[|p|..|ta| - 1];
      assert IntToString(b) == tb[|p|..|tb| - 1];
      IntToStringInjective(a, b);
    }
  }

  /** Every event but Clear appends to the log; Clear puts back the single initial entry. */
  lemma StepLog(s: State, e: Event, safari: bool)
    ensures !e.Clear? ==> s.log <= Step(s, e, safari).log
    ensures e.Clear? ==> Step(s, e, safari).log == [Initialized]
  {
  }

  /** Without Clear, the log only ever grows at its end. */
  lemma {:induction false} LogOnlyGrows(s: State, events: seq<Event>, safari: bool)
    requires NoClear(events)
    ensures s.log <= Run(s, events, safari).log
    decreases |events|
  {
    if events != [] {
      StepLog(s, events[0], safari);
      LogOnlyGrows(Step(s, events[0], safari), events[1..], safari);
    }
  }

  // ----- Invariant -----

  /** The log is never empty and the buffer holds only non-empty chunks. */
  predicate Valid(s: State) {
    |s.log| >= 1 && forall i :: 0 <= i < |s.buffer| ==> s.buffer[i].size > 0
  }

  lemma InitialValid()
    ensures Valid(Initial())
  {
  }

  lemma StepValid(s: State, e: Event, safari: bool)
    requires Valid(s)
    ensures Valid(Step(s, e, safari))
  {
  }

  lemma {:induction false} RunValid(s: State, events: seq<Event>, safari: bool)
    requires Valid(s)
    ensures Valid(Run(s, events, safari))
    decreases |events|
  {
    if events != [] {
      StepValid(s, events[0], safari);
      RunValid(Step(s, events[0], safari), events[1..], safari);
    }
  }

  lemma {:induction false} TotalSizeZero(parts: seq<Chunk>)
    requires forall i :: 0 <= i < |parts| ==> parts[i].size > 0
    ensures TotalSize(parts) == 0 <==> parts == []
  {
    if parts != [] {
      assert parts[0].size > 0;
    }
  }

  /** In any reachable state, a download reports size 0 exactly when nothing was collected. */
  lemma DownloadSizeZero(events: seq<Event>, safari: bool)
    ensures var s := Run(Initial(), events, safari);
            FileSize(0) in DownloadRecording(s, safari).state.log[|s.log|..] <==> s.buffer == []
  {
    var s := Run(Initial(), events, safari);
    InitialValid();
    RunValid(Initial(), events, safari);
    TotalSizeZero(s.buffer);
    var added := DownloadRecording(s, safari).state.log[|s.log|..];
    assert added == [Downloading, FileSize(TotalSize(s.buffer)), Downloaded(DownloadRecording(s, safari).file.name)];
  }

  // ----- The buffer -----

  lemma NonEmptyChunksCons(events: seq<Event>)
    requires events != []
    ensures NonEmptyChunks(events) == NonEmptyChunks([events[0]]) + NonEmptyChunks(events[1..])
  {
    assert [events[0]][1..] == [];
  }

  lemma StepBuffer(s: State, e: Event, safari: bool)
    requires !e.Start? && s.recorder.Some?
    ensures Step(s, e, safari).recorder.Some?
    ensures Step(s, e, safari).buffer == s.buffer + NonEmptyChunks([e])
  {
    assert [e][1..] == [];
    match e {
      case DataAvailable(c) =>
      case _ =>
    }
  }

  /**
   * Between two starts, once a recorder is attached, the buffer gains
   * exactly the non-empty chunks delivered, in the order they arrive,
   * whatever else happens (stop, preview, download, clear, settings).
   */
  lemma {:induction false} BufferCollectsChunks(s: State, events: seq<Event>, safari: bool)
    requires s.recorder.Some? && NoStart(events)
    ensures Run(s, events, safari).buffer == s.buffer + NonEmptyChunks(events)
    decreases |events|
  {
    if events != [] {
      var next := Step(s, events[0], safari);
      assert Run(s, events, safari) == Run(next, events[1..], safari);
      StepBuffer(s, events[0], safari);
      assert NoStart(events[1..]);
      BufferCollectsChunks(next, events[1..], safari);
      NonEmptyChunksCons(events);
      var first := NonEmptyChunks([events[0]]);
      var later := NonEmptyChunks(events[1..]);
      calc {
        Run(s, events, safari).buffer;
        next.buffer + later;
        s.buffer + first + later;
        { AppendAssociates(s.buffer, first, later); }
        s.buffer + (first + later);
      }
    }
  }

  /**
   * After an accepted start that obtains a recorder, the buffer holds
   * exactly the non-empty chunks since that start, in arrival order; what
   * an earlier session left is gone.
   */
  lemma SessionBuffer(s: State, events: seq<Event>, safari: bool)
    requires 5 <= s.frameRate <= 60 && NoStart(events)
    ensures Run(s, [Start(Granted)] + events, safari).buffer == NonEmptyChunks(events)
  {
    var started := Step(s, Start(Granted), safari);
    RunAppend(s, [Start(Granted)], events, safari);
    BufferCollectsChunks(started, events, safari);
  }

  /** One data event, once a recorder is attached: the data callback with the recorder's slice. */
  lemma DataStep(s: State, e: Event, safari: bool)
    requires s.recorder.Some? && e.DataAvailable?
    ensures var next := Step(s, e, safari);
            && next.recorder == s.recorder && next.recording == s.recording
            && next.playback == s.playback && next.muted == s.muted
            && (e.chunk.size == 0 ==> next == s)
            && (e.chunk.size > 0 ==>
                  && next.buffer == s.buffer + [e.chunk]
                  && next.counter == s.counter + 1
                  && next.log == s.log + [Recorded((s.counter + 1) * s.recorder.value.timeSlice)])
  {
  }

  lemma AppendAssociates<T>(a: seq<T>, b: seq<T>, c: seq<T>)
    ensures a + b + c == a + (b + c)
  {
  }

  lemma RecordedLinesCons(c: nat, t: int, k: nat)
    requires k > 0
    ensures RecordedLines(c, t, k) == [Recorded((c + 1) * t)] + RecordedLines(c + 1, t, k - 1)
  {
  }

  /** A run of data events keeps the recorder and the flag, and counts its non-empty chunks. */
  lemma {:induction false} DataRunCounts(s: State, events: seq<Event>, safari: bool)
    requires s.recorder.Some? && OnlyData(events)
    ensures var r := Run(s, events, safari);
            && r.counter == s.counter + |NonEmptyChunks(events)|
            && r.recorder == s.recorder && r.recording == s.recording
            && r.playback == s.playback && r.muted == s.muted
    decreases |events|
  {
    if events != [] {
      var next := Step(s, events[0], safari);
      DataStep(s, events[0], safari);
      DataHead(s, events, safari);
      DataRunCounts(next, events[1..], safari);
    }
  }

  /** The first event of a run of data events, and what is left of the run. */
  lemma DataHead(s: State, events: seq<Event>, safari: bool)
    requires s.recorder.Some? && OnlyData(events) && events != []
    ensures var next := Step(s, events[0], safari);
            var c := events[0].chunk;
            && Run(s, events, safari) == Run(next, events[1..], safari)
            && OnlyData(events[1..])
            && next.recorder == s.recorder
            && (c.size == 0 ==> next == s && NonEmptyChunks(events) == NonEmptyChunks(events[1..]))
            && (c.size > 0 ==>
                  && NonEmptyChunks(events) == [c] + NonEmptyChunks(events[1..])
                  && next.counter == s.counter + 1
                  && next.log == s.log + [Recorded((s.counter + 1) * s.recorder.value.timeSlice)])
  {
    DataStep(s, events[0], safari);
    NonEmptyChunksCons(events);
  }

  /** A run of data events logs, for each non-empty chunk, the slices counted so far times the recorder's slice. */
  lemma {:induction false} DataRunLog(s: State, events: seq<Event>, safari: bool)
    requires s.recorder.Some? && OnlyData(events)
    ensures Run(s, events, safari).log
         == s.log + RecordedLines(s.counter, s.recorder.value.timeSlice, |NonEmptyChunks(events)|)
    decreases |events|
  {
    var t := s.recorder.value.timeSlice;
    if events == [] {
      assert RecordedLines(s.counter, t, 0) == [];
    } else {
      var next := Step(s, events[0], safari);
      DataHead(s, events, safari);
      DataRunLog(next, events[1..], safari);
      var rest := |NonEmptyChunks(events[1..])|;
      if events[0].chunk.size > 0 {
        RecordedLinesCons(s.counter, t, rest + 1);
        var line := Recorded((s.counter + 1) * t);
        var later := RecordedLines(s.counter + 1, t, rest);
        calc {
          Run(s, events, safari).log;
          next.log + later;
          s.log + [line] + later;
          { AppendAssociates(s.log, [line], later); }
          s.log + ([line] + later);
        }
      }
    }
  }

  /**
   * A run of data events adds its non-empty chunks to the buffer in
   * arrival order, counts them, and logs for each the slices counted so
   * far times the recorder's slice.
   */
  lemma DataRun(s: State, events: seq<Event>, safari: bool)
    requires s.recorder.Some? && OnlyData(events)
    ensures var r := Run(s, events, safari);
            var k := |NonEmptyChunks(events)|;
            && r.buffer == s.buffer + NonEmptyChunks(events)
            && r.counter == s.counter + k
            && r.log == s.log + RecordedLines(s.counter, s.recorder.value.timeSlice, k)
            && r.recorder == s.recorder && r.recording == s.recording
  {
    assert NoStart(events);
    BufferCollectsChunks(s, events, safari);
    DataRunCounts(s, events, safari);
    DataRunLog(s, events, safari);
  }

  /** A start that obtains the stream and the recorder. */
  lemma GrantedStart(s: State, safari: bool)
    requires 5 <= s.frameRate <= 60
    ensures var r := Step(s, Start(Granted), safari);
            && r.recorder == Some(Handle(MimeType(s.kind, safari), s.timeSlice, true))
            && r.recording && r.buffer == [] && r.counter == s.counter
            && r.playback == LiveStream && r.muted
            && r.log == s.log + [VideoStarted, GotStream, RecorderStarted(MimeType(s.kind, safari))]
            && r.kind == s.kind && r.preset == s.preset
            && r.frameRate == s.frameRate && r.timeSlice == s.timeSlice
  {
  }

  /** The recorder's confirmation, once a recorder is attached: the preview with the recorder's MIME type. */
  lemma ConfirmStep(s: State, safari: bool)
    requires s.recorder.Some?
    ensures Step(s, RecorderStopped, safari) == Preview(s, s.recorder.value.mime)
  {
  }

  /**
   * The chunks of a session are shown as one blob: start, data, stop and
   * the recorder's confirmation bind the collected chunks, with the MIME
   * type of the start, when there were any.
   */
  lemma SessionPreview(s: State, events: seq<Event>, safari: bool)
    requires 5 <= s.frameRate <= 60 && OnlyData(events)
    ensures var r := Run(s, [Start(Granted)] + events + [Stop, RecorderStopped], safari);
            && !r.recording
            && r.buffer == NonEmptyChunks(events)
            && (NonEmptyChunks(events) != [] ==> r.playback == RecordedBlob(NonEmptyChunks(events), MimeType(s.kind, safari)) && !r.muted)
            && (NonEmptyChunks(events) == [] ==> r.playback == LiveStream && r.muted)
  {
    var mime := MimeType(s.kind, safari);
    var started := Step(s, Start(Granted), safari);
    GrantedStart(s, safari);
    DataRun(started, events, safari);
    DataRunCounts(started, events, safari);
    var collected := Run(started, events, safari);
    assert collected.buffer == NonEmptyChunks(events) by {
      assert [] + NonEmptyChunks(events) == NonEmptyChunks(events);
    }
    RunAppend(s, [Start(Granted)], events, safari);
    RunOne(s, Start(Granted), safari);
    RunAppend(s, [Start(Granted)] + events, [Stop, RecorderStopped], safari);
    StopConfirm(collected, safari);
  }

  /**
   * End and the recorder's confirmation, with no final chunk in between:
   * the buffer is kept and shown, with the start's MIME type, when it is
   * not empty; otherwise the player is left as it was.
   */
  lemma StopConfirm(s: State, safari: bool)
    requires s.recorder.Some?
    ensures var r := Run(s, [Stop, RecorderStopped], safari);
            && !r.recording && r.counter == 0
            && r.buffer == s.buffer
            && r.log == s.log + [Stopped, ShowingPreview]
            && (s.buffer != [] ==> r.playback == RecordedBlob(s.buffer, s.recorder.value.mime) && !r.muted)
            && (s.buffer == [] ==> r.playback == s.playback && r.muted == s.muted)
  {
    RunTwo(s, Stop, RecorderStopped, safari);
    ConfirmStep(StopRecording(s), safari);
    AppendAssociates(s.log, [Stopped], [ShowingPreview]);
  }

  // ----- Ordering around stop -----

  /**
   * Stop resets the counter before the recorder flushes, and the data
   * callback does not look at the recording flag: a chunk flushed after
   * Stop is still kept and logs one time slice again.
   */
  lemma FlushAfterStop(s: State, c: Chunk, safari: bool)
    requires s.recorder.Some? && c.size > 0
    ensures var r := Run(s, [Stop, DataAvailable(c)], safari);
            && !r.recording
            && r.buffer == s.buffer + [c]
            && r.counter == 1
            && r.log == s.log + [Stopped, Recorded(s.recorder.value.timeSlice)]
            && r.recorder == Some(s.recorder.value.(active := false))
            && r.kind == s.kind && r.preset == s.preset
            && r.frameRate == s.frameRate && r.timeSlice == s.timeSlice
  {
    RunTwo(s, Stop, DataAvailable(c), safari);
  }

  /**
   * End, the recorder's final chunk and its confirmation: the final chunk
   * is counted as the first one and is shown with the others, as one blob
   * of the start's MIME type.
   */
  lemma StopFlushConfirm(s: State, c: Chunk, safari: bool)
    requires s.recorder.Some? && c.size > 0
    ensures var r := Run(s, [Stop, DataAvailable(c), RecorderStopped], safari);
            && !r.recording && r.counter == 1
            && r.buffer == s.buffer + [c]
            && r.log == s.log + [Stopped, Recorded(s.recorder.value.timeSlice), ShowingPreview]
            && r.playback == RecordedBlob(s.buffer + [c], s.recorder.value.mime) && !r.muted
            && r.kind == s.kind && r.preset == s.preset
            && r.frameRate == s.frameRate && r.timeSlice == s.timeSlice
  {
    assert [Stop, DataAvailable(c), RecorderStopped] == [Stop, DataAvailable(c)] + [RecorderStopped];
    RunAppend(s, [Stop, DataAvailable(c)], [RecorderStopped], safari);
    FlushAfterStop(s, c, safari);
    var flushed := Run(s, [Stop, DataAvailable(c)], safari);
    RunOne(flushed, RecorderStopped, safari);
    ConfirmStep(flushed, safari);
    AppendAssociates(s.log, [Stopped, Recorded(s.recorder.value.timeSlice)], [ShowingPreview]);
  }

  /** A start whose capture fails leaves the page marked recording, so only Stop is left to press. */
  lemma FailedStartKeepsRecording(s: State, outcome: CaptureOutcome, safari: bool)
    requires 5 <= s.frameRate <= 60 && !outcome.Granted?
    ensures var r := Step(s, Start(outcome), safari);
            r.recording && !Enabled(r, Start(Granted)) && Enabled(r, Stop)
  {
  }

  // ----- The kind cannot change during a recording -----

  /**
   * While the page is marked recording and neither Stop nor the recorder's
   * confirmation arrives, the enabled events never change the media kind.
   */
  lemma {:induction false} KindFixedWhileRecording(s: State, events: seq<Event>, safari: bool)
    requires s.recording && EnabledRun(s, events, safari)
    requires forall i :: 0 <= i < |events| ==> !events[i].Stop? && !events[i].RecorderStopped?
    ensures Run(s, events, safari).kind == s.kind
    ensures Run(s, events, safari).recording
    decreases |events|
  {
    if events != [] {
      var next := Step(s, events[0], safari);
      assert next.kind == s.kind && next.recording;
      KindFixedWhileRecording(next, events[1..], safari);
    }
  }
}
