/**
 * The chunk counter carries over from one recording to the next.
 *
 * Stop resets the counter before it asks the recorder to stop, so the
 * recorder's final chunk, which arrives after Stop, counts as one again,
 * and Start never resets it. The next recording's first chunk therefore
 * logs two slices of elapsed time instead of one. The corrected start
 * resets the counter whenever it is accepted.
 *
 * The corrected start fixes only the next recording's count. The chunk
 * flushed after End still logs one slice after the higher counts of the
 * recording it ends ("Recorded...: 3s", "Stopped recording",
 * "Recorded...: 1s"): `FlushAfterStop` holds under both starts, since a
 * start-free run is the same under both. Moving the reset out of the stop
 * handler and into the start handler would fix both lines.
 */
module CounterFinding {

  import opened Optional
  import opened Decimal
  import opened Media
  import opened Recorder
  import opened RecorderProperties

  // ----- As written -----

  /** A granted start and one non-empty chunk: the chunk is counted after whatever count was left. */
  lemma StartAndChunk(s: State, d: Chunk, safari: bool)
    requires 5 <= s.frameRate <= 60 && d.size > 0
    ensures var r := Run(s, [Start(Granted), DataAvailable(d)], safari);
            && r.counter == s.counter + 1
            && r.buffer == [d]
            && |r.log| > 0 && r.log[|r.log| - 1] == Recorded((s.counter + 1) * s.timeSlice)
  {
    RunTwo(s, Start(Granted), DataAvailable(d), safari);
    GrantedStart(s, safari);
    DataStep(Step(s, Start(Granted), safari), DataAvailable(d), safari);
  }

  /**
   * Stop, the recorder's final chunk and its confirmation, then a new
   * start and its first chunk: that chunk is counted as the second one.
   */
  lemma CounterCarriesOver(s: State, c: Chunk, d: Chunk, safari: bool)
    requires s.recorder.Some? && 5 <= s.frameRate <= 60 && c.size > 0 && d.size > 0
    ensures var r := Run(s, [Stop, DataAvailable(c), RecorderStopped, Start(Granted), DataAvailable(d)], safari);
            && r.counter == 2
            && r.buffer == [d]
            && |r.log| > 0 && r.log[|r.log| - 1] == Recorded(2 * s.timeSlice)
  {
    var first := [Stop, DataAvailable(c), RecorderStopped];
    var second := [Start(Granted), DataAvailable(d)];
    assert first + second == [Stop, DataAvailable(c), RecorderStopped, Start(Granted), DataAvailable(d)];
    RunAppend(s, first, second, safari);
    StopFlushConfirm(s, c, safari);
    StartAndChunk(Run(s, first, safari), d, safari);
  }

  /**
   * From the freshly rendered page, five-second slices: a recording with
   * only the final chunk, then a second recording whose first chunk is
   * reported as ten seconds.
   */
  lemma CounterCarriesOverExample(c: Chunk, d: Chunk)
    requires c.size > 0 && d.size > 0
    ensures var r := Run(Initial(), [Start(Granted), Stop, DataAvailable(c), RecorderStopped,
                                     Start(Granted), DataAvailable(d)], false);
            |r.log| > 0 && Text(r.log[|r.log| - 1]) == "Recorded...: 10s"
  {
    var started := Step(Initial(), Start(Granted), false);
    GrantedStart(Initial(), false);
    var rest := [Stop, DataAvailable(c), RecorderStopped, Start(Granted), DataAvailable(d)];
    assert [Start(Granted)] + rest
        == [Start(Granted), Stop, DataAvailable(c), RecorderStopped, Start(Granted), DataAvailable(d)];
    RunAppend(Initial(), [Start(Granted)], rest, false);
    RunOne(Initial(), Start(Granted), false);
    CounterCarriesOver(started, c, d, false);
    assert NatToString(10) == "10";
  }

  /** As written, a session's lines continue from whatever count the previous session left. */
  lemma SessionLogAsWritten(s: State, events: seq<Event>, safari: bool)
    requires 5 <= s.frameRate <= 60 && OnlyData(events)
    ensures var b := Step(s, Start(Granted), safari);
            Run(s, [Start(Granted)] + events, safari).log
              == b.log + RecordedLines(s.counter, s.timeSlice, |NonEmptyChunks(events)|)
  {
    var b := Step(s, Start(Granted), safari);
    assert ([Start(Granted)] + events)[0] == Start(Granted);
    assert ([Start(Granted)] + events)[1..] == events;
    DataRun(b, events, safari);
  }

  // ----- Corrected -----

  /** Start as intended: an accepted start also restarts the chunk count. */
  function StartFresh(s: State, outcome: CaptureOutcome, safari: bool): (r: StartReply)
    ensures var written := StartRecording(s, outcome, safari);
            && r.request == written.request
            && (r.request.None? ==> r.state == s)
            && (r.request.Some? ==> r.state.counter == 0 && r.state.(counter := s.counter) == written.state)
  {
    var reply := StartRecording(s, outcome, safari);
    if reply.request.Some? then reply.(state := reply.state.(counter := 0)) else reply
  }

  /** One event, with the corrected start. */
  function StepFixed(s: State, e: Event, safari: bool): State {
    match e
    case Start(outcome) => StartFresh(s, outcome, safari).state
    case _ => Step(s, e, safari)
  }

  /** A sequence of events, with the corrected start. */
  function RunFixed(s: State, events: seq<Event>, safari: bool): State
    decreases |events|
  {
    if events == [] then s else RunFixed(StepFixed(s, events[0], safari), events[1..], safari)
  }

  /** Without a start the correction changes nothing. */
  lemma {:induction false} RunFixedAgrees(s: State, events: seq<Event>, safari: bool)
    requires NoStart(events)
    ensures RunFixed(s, events, safari) == Run(s, events, safari)
    decreases |events|
  {
    if events != [] {
      assert !events[0].Start?;
      assert NoStart(events[1..]) by {
        forall i | 0 <= i < |events[1..]| ensures !events[1..][i].Start? {
          assert events[1..][i] == events[i + 1];
        }
      }
      RunFixedAgrees(Step(s, events[0], safari), events[1..], safari);
    }
  }

  lemma {:induction false} RunFixedAppend(s: State, a: seq<Event>, b: seq<Event>, safari: bool)
    ensures RunFixed(s, a + b, safari) == RunFixed(RunFixed(s, a, safari), b, safari)
    decreases |a|
  {
    if a != [] {
      assert (a + b)[0] == a[0];
      assert (a + b)[1..] == a[1..] + b;
      RunFixedAppend(StepFixed(s, a[0], safari), a[1..], b, safari);
    } else {
      assert a + b == b;
    }
  }

  /** With the corrected start, every session's lines count from one, whatever came before. */
  lemma FreshSessionLog(s: State, events: seq<Event>, safari: bool)
    requires 5 <= s.frameRate <= 60 && OnlyData(events)
    ensures var b := StepFixed(s, Start(Granted), safari);
            var r := RunFixed(s, [Start(Granted)] + events, safari);
            && r.log == b.log + RecordedLines(0, s.timeSlice, |NonEmptyChunks(events)|)
            && r.counter == |NonEmptyChunks(events)|
  {
    var b := StepFixed(s, Start(Granted), safari);
    assert b.recorder == Some(Handle(MimeType(s.kind, safari), s.timeSlice, true)) && b.counter == 0;
    assert ([Start(Granted)] + events)[0] == Start(Granted);
    assert ([Start(Granted)] + events)[1..] == events;
    assert NoStart(events);
    RunFixedAgrees(b, events, safari);
    DataRun(b, events, safari);
  }

  /** A granted corrected start and one non-empty chunk: the chunk is counted as the first. */
  lemma FreshStartAndChunk(s: State, d: Chunk, safari: bool)
    requires 5 <= s.frameRate <= 60 && d.size > 0
    ensures var r := RunFixed(s, [Start(Granted), DataAvailable(d)], safari);
            && r.counter == 1
            && r.buffer == [d]
            && |r.log| > 0 && r.log[|r.log| - 1] == Recorded(s.timeSlice)
  {
    assert [Start(Granted), DataAvailable(d)][1..] == [DataAvailable(d)];
    assert [DataAvailable(d)][1..] == [];
    GrantedStart(s, safari);
    var started := StepFixed(s, Start(Granted), safari);
    assert started == Step(s, Start(Granted), safari).(counter := 0);
    DataStep(started, DataAvailable(d), safari);
    assert RunFixed(s, [Start(Granted), DataAvailable(d)], safari) == RunFixed(started, [DataAvailable(d)], safari);
    assert RunFixed(started, [DataAvailable(d)], safari) == Step(started, DataAvailable(d), safari);
  }

  /**
   * The corrected start leaves the stop handler alone: the chunk flushed
   * after End still logs one slice, whatever count the recording reached.
   */
  lemma FixedFlushStillOne(s: State, c: Chunk, safari: bool)
    requires s.recorder.Some? && c.size > 0
    ensures RunFixed(s, [Stop, DataAvailable(c)], safari).log
         == s.log + [Stopped, Recorded(s.recorder.value.timeSlice)]
  {
    assert NoStart([Stop, DataAvailable(c)]);
    RunFixedAgrees(s, [Stop, DataAvailable(c)], safari);
    FlushAfterStop(s, c, safari);
  }

  /** The trace of the finding, corrected: the new recording's first chunk is counted as the first. */
  lemma CounterRestarts(s: State, c: Chunk, d: Chunk, safari: bool)
    requires s.recorder.Some? && 5 <= s.frameRate <= 60 && c.size > 0 && d.size > 0
    ensures var r := RunFixed(s, [Stop, DataAvailable(c), RecorderStopped, Start(Granted), DataAvailable(d)], safari);
            && r.counter == 1
            && r.buffer == [d]
            && |r.log| > 0 && r.log[|r.log| - 1] == Recorded(s.timeSlice)
  {
    var first := [Stop, DataAvailable(c), RecorderStopped];
    var second := [Start(Granted), DataAvailable(d)];
    assert first + second == [Stop, DataAvailable(c), RecorderStopped, Start(Granted), DataAvailable(d)];
    RunFixedAppend(s, first, second, safari);
    assert NoStart(first);
    RunFixedAgrees(s, first, safari);
    StopFlushConfirm(s, c, safari);
    FreshStartAndChunk(Run(s, first, safari), d, safari);
  }
}
