/** The session controls of App.tsx: the split-pane divider, the rehearsal
    timer, the recording lifecycle, notes, filters and the confirmed
    "new session" reset. Each React state variable is a field of `Session`;
    each handler is a method whose `modifies` clause names exactly the
    fields the handler's setters write. The pure step functions beside the
    class specify the handlers and carry the lemmas about event sequences. */
module App {
  import opened Types
  import TimeFormat

  // ---------------------------------------------------------------------
  // Divider
  // ---------------------------------------------------------------------

  const InitialDivider: real := 50.0

  /** The open interval (20, 80) in which `handleMouseMove` accepts a position. */
  predicate InsideDividerRange(p: real) { 20.0 < p < 80.0 }

  /** `handleMouseMove`'s guard: while dragging, a proposed percentage is taken
      if it lies strictly inside (20, 80); otherwise the position stays. */
  function MoveDivider(position: real, dragging: bool, proposed: real): (r: real)
    ensures r != position ==> dragging && r == proposed && InsideDividerRange(r)
    ensures dragging && InsideDividerRange(proposed) ==> r == proposed
    ensures InsideDividerRange(position) ==> InsideDividerRange(r)
  {
    if dragging && InsideDividerRange(proposed) then proposed else position
  }

  /** The mouse events the divider listens to; `Move` carries the percentage
      computed from the mouse's position. */
  datatype DragEvent = Press | Release | Move(percent: real)

  datatype DragState = DragState(position: real, dragging: bool)

  function DragStep(s: DragState, e: DragEvent): DragState
  {
    match e
    case Press => s.(dragging := true)
    case Release => s.(dragging := false)
    case Move(p) => s.(position := MoveDivider(s.position, s.dragging, p))
  }

  function DragRun(s: DragState, events: seq<DragEvent>): DragState
    decreases events
  {
    if events == [] then s else DragRun(DragStep(s, events[0]), events[1..])
  }

  /** Whatever the user does with the mouse, a divider inside (20, 80) stays there. */
  lemma {:induction false} DividerStaysInside(s: DragState, events: seq<DragEvent>)
    requires InsideDividerRange(s.position)
    ensures InsideDividerRange(DragRun(s, events).position)
    decreases events
  {
    if events != [] {
      DividerStaysInside(DragStep(s, events[0]), events[1..]);
    }
  }

  /** From the initial 50%, the divider is always strictly between 20% and 80%. */
  lemma DividerAlwaysInside(events: seq<DragEvent>)
    ensures InsideDividerRange(DragRun(DragState(InitialDivider, false), events).position)
  {
    DividerStaysInside(DragState(InitialDivider, false), events);
  }

  /** Without a press, moves never shift the divider. */
  lemma {:induction false} NoDragNoMove(s: DragState, events: seq<DragEvent>)
    requires !s.dragging
    requires forall i :: 0 <= i < |events| ==> events[i] != Press
    ensures DragRun(s, events) == s.(dragging := false)
    decreases events
  {
    if events != [] {
      NoDragNoMove(DragStep(s, events[0]), events[1..]);
    }
  }

  // ---------------------------------------------------------------------
  // Timer
  // ---------------------------------------------------------------------

  /** The timer button toggles, the interval ticks once a second, resetTimer stops and zeroes. */
  datatype TimerEvent = Toggle | Tick | Reset

  datatype TimerState = TimerState(time: nat, running: bool)

  function TimerStep(s: TimerState, e: TimerEvent): (r: TimerState)
    ensures e == Tick ==> r.running == s.running
    ensures e == Tick && s.running ==> r.time == s.time + 1
    ensures e == Tick && !s.running ==> r == s
    ensures e == Reset ==> r == TimerState(0, false)
    ensures e == Toggle ==> r.time == s.time && r.running == !s.running
  {
    match e
    case Toggle => s.(running := !s.running)
    case Tick => if s.running then s.(time := s.time + 1) else s
    case Reset => TimerState(0, false)
  }

  function TimerRun(s: TimerState, events: seq<TimerEvent>): TimerState
    decreases events
  {
    if events == [] then s else TimerRun(TimerStep(s, events[0]), events[1..])
  }

  function CountTicks(events: seq<TimerEvent>): nat
  {
    if events == [] then 0 else (if events[0] == Tick then 1 else 0) + CountTicks(events[1..])
  }

  /** The clock never runs ahead of the ticks delivered to it. */
  lemma {:induction false} TimerBoundedByTicks(s: TimerState, events: seq<TimerEvent>)
    ensures TimerRun(s, events).time <= s.time + CountTicks(events)
    decreases events
  {
    if events != [] {
      TimerBoundedByTicks(TimerStep(s, events[0]), events[1..]);
    }
  }

  /** While running and left alone, the clock counts every tick. */
  lemma {:induction false} RunningTimerCountsTicks(s: TimerState, n: nat)
    requires s.running
    ensures TimerRun(s, seq(n, _ => Tick)) == TimerState(s.time + n, true)
    decreases n
  {
    if n > 0 {
      var ticks := seq(n, _ => Tick);
      assert ticks[1..] == seq(n - 1, _ => Tick);
      RunningTimerCountsTicks(TimerStep(s, Tick), n - 1);
    }
  }

  /** A paused clock ignores ticks. */
  lemma {:induction false} PausedTimerHolds(s: TimerState, n: nat)
    requires !s.running
    ensures TimerRun(s, seq(n, _ => Tick)) == s
  {
    if n > 0 {
      var ticks := seq(n, _ => Tick);
      assert ticks[1..] == seq(n - 1, _ => Tick);
      PausedTimerHolds(s, n - 1);
    }
  }

  // ---------------------------------------------------------------------
  // Recording
  // ---------------------------------------------------------------------

  /** A recorded data chunk (a Blob); only its size matters to the session. */
  datatype Blob = Blob(bytes: seq<bv8>)
  {
    function Size(): nat { |bytes| }
  }

  type StreamId = nat

  /** The MediaRecorder created over a stream. */
  datatype Recorder = Recorder(stream: StreamId)

  /** `ondataavailable`: a chunk with data is appended, an empty one is dropped. */
  function AppendChunk(chunks: seq<Blob>, b: Blob): (r: seq<Blob>)
    ensures |r| == |chunks| || |r| == |chunks| + 1
    ensures r[..|chunks|] == chunks
    ensures |r| == |chunks| + 1 <==> b.Size() > 0
    ensures |r| > |chunks| ==> r[|chunks|] == b
  {
    if b.Size() > 0 then chunks + [b] else chunks
  }

  function CollectChunks(chunks: seq<Blob>, events: seq<Blob>): seq<Blob>
    decreases events
  {
    if events == [] then chunks else CollectChunks(AppendChunk(chunks, events[0]), events[1..])
  }

  /** The chunks of a sequence that carry data, in order. */
  function NonEmpty(bs: seq<Blob>): (r: seq<Blob>)
    ensures forall i :: 0 <= i < |r| ==> r[i].Size() > 0
    ensures |r| <= |bs|
  {
    if bs == [] then []
    else (if bs[0].Size() > 0 then [bs[0]] else []) + NonEmpty(bs[1..])
  }

  predicate AllNonEmpty(chunks: seq<Blob>) { forall i :: 0 <= i < |chunks| ==> chunks[i].Size() > 0 }

  /** After any run of data events, the recording is what it was followed by
      exactly the events that carried data, in arrival order. */
  lemma {:induction false} CollectedChunks(chunks: seq<Blob>, events: seq<Blob>)
    ensures CollectChunks(chunks, events) == chunks + NonEmpty(events)
    decreases events
  {
    if events != [] {
      CollectedChunks(AppendChunk(chunks, events[0]), events[1..]);
      assert events == [events[0]] + events[1..];
    }
  }

  // ---------------------------------------------------------------------
  // Camera filters
  // ---------------------------------------------------------------------

  /** The keys of `cameraFilters`. */
  datatype CameraFilter = NoFilter | Vibrant | Soften | Cool | Warm | Grayscale

  /** The CSS class applied to the video: `filter-<key>`. */
  function FilterClassName(f: CameraFilter): (c: string)
    ensures |c| > 7 && c[..7] == "filter-"
  {
    "filter-" + match f
      case NoFilter => "none"
      case Vibrant => "vibrant"
      case Soften => "soften"
      case Cool => "cool"
      case Warm => "warm"
      case Grayscale => "grayscale"
  }

  /** Distinct filters give distinct class names. */
  lemma FilterClassNamesDistinct(f: CameraFilter, g: CameraFilter)
    requires FilterClassName(f) == FilterClassName(g)
    ensures f == g
  {
    var a, b := FilterClassName(f)[7..], FilterClassName(g)[7..];
    assert a == b;
  }

  // ---------------------------------------------------------------------
  // The session
  // ---------------------------------------------------------------------

  class Session {
    var viewMode: ViewMode
    var file: Option<FileHandle>
    var isMirrored: bool
    var dividerPosition: real
    var isDragging: bool
    var mediaStream: Option<StreamId>
    var isRecording: bool
    var mediaRecorder: Option<Recorder>
    var recordedChunks: seq<Blob>
    var recordedVideoUrl: Option<string>
    var showNotes: bool
    var notes: string
    var time: nat
    var isTimerRunning: bool
    var activeFilter: CameraFilter
    var showFilterPanel: bool

    /** The session's invariant: the divider is inside (20, 80), a recording
        in progress has a recorder, and every stored chunk carries data. */
    ghost predicate Valid()
      reads this
    {
      && InsideDividerRange(dividerPosition)
      && (isRecording ==> mediaRecorder.Some?)
      && AllNonEmpty(recordedChunks)
    }

    /** `hasRecording`: under the invariant, some recorded data exists. */
    predicate HasRecording()
      reads this
      ensures Valid() ==>
        (HasRecording() <==> exists i :: 0 <= i < |recordedChunks| && recordedChunks[i].Size() > 0)
    {
      assert Valid() && |recordedChunks| > 0 ==> recordedChunks[0].Size() > 0;
      |recordedChunks| > 0
    }

    /** The clock shown on the timer button; it reads back as the elapsed
        seconds. */
    function Clock(): (c: string)
      reads this
      ensures TimeFormat.ParseTime(c) == Some(time)
    {
      TimeFormat.FormatTimeRoundTrip(time);
      TimeFormat.FormatTime(time)
    }

    /** The initial values of the component's `useState` calls. */
    constructor ()
      ensures Valid()
      ensures viewMode == Presentation && file == None && isMirrored
      ensures dividerPosition == InitialDivider && !isDragging
      ensures mediaStream == None && !isRecording && mediaRecorder == None
      ensures recordedChunks == [] && recordedVideoUrl == None
      ensures !showNotes && notes == ""
      ensures time == 0 && !isTimerRunning
      ensures activeFilter == NoFilter && !showFilterPanel
    {
      viewMode, file, isMirrored := Presentation, None, true;
      dividerPosition, isDragging := InitialDivider, false;
      mediaStream, isRecording, mediaRecorder := None, false, None;
      recordedChunks, recordedVideoUrl := [], None;
      showNotes, notes := false, "";
      time, isTimerRunning := 0, false;
      activeFilter, showFilterPanel := NoFilter, false;
    }

    // --- divider ---

    /** `handleMouseDown`. */
    method MouseDown()
      requires Valid()
      modifies this`isDragging
      ensures Valid() && isDragging
      ensures DragState(dividerPosition, isDragging) == DragStep(old(DragState(dividerPosition, isDragging)), Press)
    {
      isDragging := true;
    }

    /** `handleMouseUp`. */
    method MouseUp()
      requires Valid()
      modifies this`isDragging
      ensures Valid() && !isDragging
      ensures DragState(dividerPosition, isDragging) == DragStep(old(DragState(dividerPosition, isDragging)), Release)
    {
      isDragging := false;
    }

    /** `handleMouseMove`, given the percentage the mouse is at. */
    method MouseMove(percent: real)
      requires Valid()
      modifies this`dividerPosition
      ensures Valid()
      ensures dividerPosition == MoveDivider(old(dividerPosition), isDragging, percent)
    {
      if isDragging && 20.0 < percent && percent < 80.0 {
        dividerPosition := percent;
      }
    }

    // --- document and view ---

    /** `handleFileChange`: the first selected file, if any, becomes the document. */
    method FileChange(selected: seq<FileHandle>)
      requires Valid()
      modifies this`file
      ensures Valid()
      ensures file == if |selected| > 0 then Some(selected[0]) else old(file)
    {
      if |selected| > 0 {
        file := Some(selected[0]);
      }
    }

    /** The Document and Presentation buttons. */
    method SetViewMode(mode: ViewMode)
      requires Valid()
      modifies this`viewMode
      ensures Valid() && viewMode == mode
    {
      viewMode := mode;
    }

    method ToggleMirror()
      requires Valid()
      modifies this`isMirrored
      ensures Valid() && isMirrored == !old(isMirrored)
    {
      isMirrored := !isMirrored;
    }

    method ToggleNotes()
      requires Valid()
      modifies this`showNotes
      ensures Valid() && showNotes == !old(showNotes)
    {
      showNotes := !showNotes;
    }

    method EditNotes(text: string)
      requires Valid()
      modifies this`notes
      ensures Valid() && notes == text
    {
      notes := text;
    }

    // --- filters ---

    method ToggleFilterPanel()
      requires Valid()
      modifies this`showFilterPanel
      ensures Valid() && showFilterPanel == !old(showFilterPanel)
    {
      showFilterPanel := !showFilterPanel;
    }

    /** Choosing a filter applies it and closes the panel. */
    method SelectFilter(f: CameraFilter)
      requires Valid()
      modifies this`activeFilter, this`showFilterPanel
      ensures Valid() && activeFilter == f && !showFilterPanel
    {
      activeFilter := f;
      showFilterPanel := false;
    }

    // --- timer ---

    /** The timer button: `setIsTimerRunning(prev => !prev)`. */
    method ToggleTimer()
      requires Valid()
      modifies this`isTimerRunning
      ensures Valid()
      ensures TimerState(time, isTimerRunning) == TimerStep(old(TimerState(time, isTimerRunning)), Toggle)
    {
      isTimerRunning := !isTimerRunning;
    }

    /** One firing of the one-second interval, which exists only while the
        timer runs: `setTime(prevTime => prevTime + 1)`. */
    method Tick()
      requires Valid()
      modifies this`time
      ensures Valid()
      ensures TimerState(time, isTimerRunning) == TimerStep(old(TimerState(time, isTimerRunning)), TimerEvent.Tick)
    {
      if isTimerRunning {
        time := time + 1;
      }
    }

    /** `resetTimer`. */
    method ResetTimer()
      requires Valid()
      modifies this`time, this`isTimerRunning
      ensures Valid() && time == 0 && !isTimerRunning
    {
      isTimerRunning := false;
      time := 0;
    }

    // --- recording ---

    /** `onStreamReady`: the camera view reports its stream, or null. */
    method StreamReady(stream: Option<StreamId>)
      requires Valid()
      modifies this`mediaStream
      ensures Valid() && mediaStream == stream
    {
      mediaStream := stream;
    }

    /** `startRecording`: without a stream nothing happens; otherwise the
        timer is reset, the previous take is discarded, the playback URL is
        cleared and a recorder over the stream starts. */
    method StartRecording()
      requires Valid()
      modifies this`time, this`isTimerRunning, this`recordedChunks, this`recordedVideoUrl,
               this`isRecording, this`mediaRecorder
      ensures Valid()
      ensures old(mediaStream) == None ==>
        && time == old(time) && isTimerRunning == old(isTimerRunning)
        && recordedChunks == old(recordedChunks) && recordedVideoUrl == old(recordedVideoUrl)
        && isRecording == old(isRecording) && mediaRecorder == old(mediaRecorder)
      ensures old(mediaStream).Some? ==>
        && time == 0 && !isTimerRunning
        && recordedChunks == [] && !HasRecording() && recordedVideoUrl == None
        && isRecording && mediaRecorder == Some(Recorder(mediaStream.value))
    {
      if mediaStream.Some? {
        ResetTimer();
        recordedChunks := [];
        recordedVideoUrl := None;
        isRecording := true;
        mediaRecorder := Some(Recorder(mediaStream.value));
      }
    }

    /** The recorder's `ondataavailable` handler. */
    method DataAvailable(b: Blob)
      requires Valid()
      modifies this`recordedChunks
      ensures Valid()
      ensures recordedChunks == AppendChunk(old(recordedChunks), b)
    {
      if b.Size() > 0 {
        recordedChunks := recordedChunks + [b];
      }
    }

    /** `stopRecording`: only a session that has created a recorder stops. */
    method StopRecording()
      requires Valid()
      modifies this`isRecording
      ensures Valid()
      ensures mediaRecorder.Some? ==> !isRecording
      ensures mediaRecorder.None? ==> isRecording == old(isRecording)
    {
      if mediaRecorder.Some? {
        isRecording := false;
      }
    }

    /** The effect that publishes a finished take: once recording has stopped
        and there are chunks, the playback URL (made by the browser from
        them) is set. React runs it only when `isRecording` or
        `recordedChunks` has just changed, so a caller invokes it right after
        `StopRecording`, `DataAvailable`, `StartRecording` or `ResetSession`
        and not after `ClosePlayback` alone. */
    method RecordingSettled(url: string)
      requires Valid()
      modifies this`recordedVideoUrl
      ensures Valid()
      ensures recordedVideoUrl == if !isRecording && HasRecording() then Some(url) else old(recordedVideoUrl)
    {
      if !isRecording && |recordedChunks| > 0 {
        recordedVideoUrl := Some(url);
      }
    }

    /** The playback button, which is shown only for a finished take. */
    method OpenPlayback(url: string)
      requires Valid() && HasRecording() && !isRecording
      modifies this`recordedVideoUrl
      ensures Valid() && recordedVideoUrl == Some(url)
    {
      recordedVideoUrl := Some(url);
    }

    /** The Close button of the playback dialog. */
    method ClosePlayback()
      requires Valid()
      modifies this`recordedVideoUrl
      ensures Valid() && recordedVideoUrl == None
    {
      recordedVideoUrl := None;
    }

    // --- new session ---

    /** `handleResetSession`, given the user's answer to the confirmation:
        on yes, recording stops, the timer resets, and the document, take,
        playback URL and notes are cleared, back in Presentation mode; on no,
        nothing changes. */
    method ResetSession(confirmed: bool)
      requires Valid()
      modifies this`isRecording, this`time, this`isTimerRunning, this`file,
               this`recordedChunks, this`recordedVideoUrl, this`notes, this`viewMode
      ensures Valid()
      ensures confirmed ==>
        && !isRecording && time == 0 && !isTimerRunning && file == None
        && recordedChunks == [] && !HasRecording() && recordedVideoUrl == None
        && notes == "" && viewMode == Presentation
      ensures !confirmed ==>
        && isRecording == old(isRecording) && time == old(time)
        && isTimerRunning == old(isTimerRunning) && file == old(file)
        && recordedChunks == old(recordedChunks) && recordedVideoUrl == old(recordedVideoUrl)
        && notes == old(notes) && viewMode == old(viewMode)
    {
      if confirmed {
        if isRecording {
          StopRecording();
        }
        ResetTimer();
        file := None;
        recordedChunks := [];
        recordedVideoUrl := None;
        notes := "";
        viewMode := Presentation;
      }
    }
  }
}
