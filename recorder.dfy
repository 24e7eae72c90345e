/**
 * The video recorder (src/components/sell/VideoRecorder.tsx): a 3-tick
 * countdown, then a recording that a 15-tick timer stops, with the recorded
 * chunks collected in arrival order. The camera, `MediaRecorder` and the
 * intervals are reduced to events: the camera request succeeds or fails, an
 * interval delivers a tick, the recorder delivers a chunk or reports that it
 * stopped.
 */
module Recorder {
  import opened Wrappers

  const CountdownStart: int := 3
  const RecordingLimit: int := 15

  /** A piece of recorded media; only whether it is empty matters. */
  datatype Chunk = Chunk(bytes: seq<bv8>)

  /** The `MediaRecorder`: none created yet, recording, or stopped. */
  datatype RecorderState = NoRecorder | Recording | Inactive

  // The state updaters the two intervals pass to `setCountdown` and `setTimeLeft`

  /** What one tick of an interval does: the new counter, and whether the tick found it at 1. */
  datatype Step = Step(next: Option<int>, fired: bool)

  /** `prev! - 1`: a `null` counter counts as 0. */
  function Decrement(prev: Option<int>): int {
    if prev.Some? then prev.value - 1 else -1
  }

  /** One tick: at 1 the interval fires and leaves `firedValue`; otherwise the counter goes down by one. */
  function Tick(prev: Option<int>, firedValue: Option<int>): Step {
    if prev == Some(1) then Step(firedValue, true) else Step(Some(Decrement(prev)), false)
  }

  /** The countdown's updater: on firing the countdown becomes `null` and recording starts. */
  function CountdownStep(prev: Option<int>): Step {
    Tick(prev, None)
  }

  /** The recording timer's updater: on firing `timeLeft` becomes 0 and the recorder is stopped. */
  function TimerStep(prev: Option<int>): Step {
    Tick(prev, Some(0))
  }

  /** The counter after `k` ticks. */
  function Run(prev: Option<int>, k: nat, firedValue: Option<int>): Option<int>
    decreases k
  {
    if k == 0 then prev else Run(Tick(prev, firedValue).next, k - 1, firedValue)
  }

  /** Whether one of the first `k` ticks fires. */
  predicate FiresWithin(prev: Option<int>, k: nat, firedValue: Option<int>)
    decreases k
  {
    k > 0 && (Tick(prev, firedValue).fired || FiresWithin(Tick(prev, firedValue).next, k - 1, firedValue))
  }

  /** A counter started at `n` goes down by one per tick and does not fire before it reaches 1. */
  lemma {:induction false} CountsDown(n: int, k: nat, firedValue: Option<int>)
    requires k < n
    ensures Run(Some(n), k, firedValue) == Some(n - k)
    ensures !FiresWithin(Some(n), k, firedValue)
    decreases k
  {
    if k > 0 {
      assert Tick(Some(n), firedValue) == Step(Some(n - 1), false);
      CountsDown(n - 1, k - 1, firedValue);
    }
  }

  /** A counter started at `n >= 1` fires on its `n`-th tick, not earlier, and then holds `firedValue`. */
  lemma {:induction false} FiresOnTick(n: int, firedValue: Option<int>)
    requires n >= 1
    ensures !FiresWithin(Some(n), n - 1, firedValue)
    ensures FiresWithin(Some(n), n, firedValue)
    ensures Run(Some(n), n, firedValue) == firedValue
  {
    if n == 1 {
      assert Tick(Some(1), firedValue).fired;
    } else {
      assert Tick(Some(n), firedValue) == Step(Some(n - 1), false);
      FiresOnTick(n - 1, firedValue);
    }
  }

  /** The countdown shows 3, 2, 1 and recording starts on its third tick. */
  lemma CountdownStartsRecordingOnThirdTick()
    ensures Run(Some(CountdownStart), 1, None) == Some(2) && Run(Some(CountdownStart), 2, None) == Some(1)
    ensures !FiresWithin(Some(CountdownStart), 2, None) && FiresWithin(Some(CountdownStart), 3, None)
    ensures Run(Some(CountdownStart), 3, None) == None
  {
    CountsDown(CountdownStart, 1, None);
    CountsDown(CountdownStart, 2, None);
    FiresOnTick(CountdownStart, None);
  }

  /** The recording timer stops the recorder on its fifteenth tick and leaves `timeLeft` at 0. */
  lemma TimerStopsOnFifteenthTick()
    ensures !FiresWithin(Some(RecordingLimit), 14, Some(0)) && FiresWithin(Some(RecordingLimit), 15, Some(0))
    ensures Run(Some(RecordingLimit), 15, Some(0)) == Some(0)
  {
    FiresOnTick(RecordingLimit, Some(0));
  }

  /**
   * A timer whose counter is `null` or not positive never fires again: it goes
   * on counting below zero, and nothing clears it.
   */
  lemma {:induction false} StrayTimerNeverFires(prev: Option<int>, k: nat, firedValue: Option<int>)
    requires prev.None? || prev.value <= 0
    ensures !FiresWithin(prev, k, firedValue)
    ensures Run(prev, k, firedValue) == if k == 0 then prev else Some(prev.GetOr(0) - k)
    decreases k
  {
    if k > 0 {
      var next := Some(prev.GetOr(0) - 1);
      assert Tick(prev, firedValue) == Step(next, false);
      StrayTimerNeverFires(next, k - 1, firedValue);
    }
  }

  // Chunks

  /** The chunks of `delivered` that are not empty, in arrival order. */
  function NonEmpty(delivered: seq<Chunk>): seq<Chunk> {
    if delivered == [] then []
    else
      var last := delivered[|delivered| - 1];
      NonEmpty(delivered[..|delivered| - 1]) + (if |last.bytes| > 0 then [last] else [])
  }

  /** The kept chunks are exactly the delivered chunks that are not empty, and no more of them. */
  lemma {:induction false} NonEmptyKeepsExactly(delivered: seq<Chunk>)
    ensures |NonEmpty(delivered)| <= |delivered|
    ensures forall i :: 0 <= i < |NonEmpty(delivered)| ==> |NonEmpty(delivered)[i].bytes| > 0
    ensures forall c :: c in NonEmpty(delivered) <==> c in delivered && |c.bytes| > 0
  {
    if delivered != [] {
      var init := delivered[..|delivered| - 1];
      NonEmptyKeepsExactly(init);
      assert delivered == init + [delivered[|delivered| - 1]];
    }
  }

  /** One more chunk: it is kept, at the end, exactly when it is not empty. */
  lemma NonEmptyAppend(delivered: seq<Chunk>, c: Chunk)
    ensures NonEmpty(delivered + [c]) == NonEmpty(delivered) + (if |c.bytes| > 0 then [c] else [])
  {
    assert (delivered + [c])[..|delivered|] == delivered;
  }

  class VideoRecorder {
    /** `streamRef.current` is set. */
    var hasStream: bool
    var isRecording: bool
    /** `recordedVideoUrl`, standing for the chunks of the blob it points at. */
    var recordedVideo: Option<seq<Chunk>>
    var countdown: Option<int>
    var timeLeft: Option<int>
    /** The countdown interval is live. */
    var countdownRunning: bool
    /** Recording-timer intervals that are live. */
    var recordingTimers: nat
    var recorder: RecorderState
    /** The recorder was stopped and its `stop` event has not arrived yet. */
    var stopPending: bool
    /** `chunksRef.current`. */
    var chunks: seq<Chunk>
    /** Camera-error toasts raised. */
    var cameraErrors: nat
    /** Every chunk the current recorder delivered, empty ones included. */
    ghost var delivered: seq<Chunk>
    /** Timer ticks since the current recording started. */
    ghost var ticks: int

    ghost predicate Valid()
      reads this
    {
      (countdownRunning <==> countdown.Some?) &&
      (countdown.Some? ==> 1 <= countdown.value <= CountdownStart) &&
      (isRecording <==> recorder == Recording || stopPending) &&
      (stopPending ==> recorder == Inactive) &&
      (countdownRunning ==> !isRecording) &&
      (recorder == Recording ==>
         0 <= ticks < RecordingLimit && timeLeft == Some(RecordingLimit - ticks) && recordingTimers >= 1) &&
      (recordedVideo.Some? ==> !isRecording && !countdownRunning) &&
      chunks == NonEmpty(delivered)
    }

    /** The record button is disabled while recording or counting down. */
    predicate RecordButtonDisabled()
      reads this
    {
      isRecording || countdown.Some?
    }

    /** `startCamera`: the stream is kept when the camera is granted; otherwise an error toast is raised. */
    method StartCamera(granted: bool)
      modifies this`hasStream, this`cameraErrors
      ensures granted ==> hasStream && cameraErrors == old(cameraErrors)
      ensures !granted ==> hasStream == old(hasStream) && cameraErrors == old(cameraErrors) + 1
    {
      if granted {
        hasStream := true;
      } else {
        cameraErrors := cameraErrors + 1;
      }
    }

    /** Mounting: idle, and the camera is requested. */
    constructor (granted: bool)
      ensures Valid()
      ensures hasStream == granted && cameraErrors == (if granted then 0 else 1)
      ensures !isRecording && recordedVideo.None? && countdown.None? && timeLeft.None?
      ensures recorder == NoRecorder && recordingTimers == 0 && chunks == []
    {
      hasStream, isRecording, recordedVideo := false, false, None;
      countdown, timeLeft, countdownRunning, recordingTimers := None, None, false, 0;
      recorder, stopPending, chunks, cameraErrors := NoRecorder, false, [], 0;
      delivered, ticks := [], 0;
      new;
      StartCamera(granted);
    }

    /**
     * `startRecording`, from the enabled record button: without a stream it only
     * requests the camera; with one it starts the countdown at 3.
     */
    method StartRecording(granted: bool)
      requires Valid() && !RecordButtonDisabled() && recordedVideo.None?
      modifies this`hasStream, this`cameraErrors, this`countdown, this`countdownRunning
      ensures Valid()
      ensures !old(hasStream) ==> countdown.None? && !countdownRunning && hasStream == granted
      ensures !old(hasStream) ==> cameraErrors == old(cameraErrors) + (if granted then 0 else 1)
      ensures old(hasStream) ==> countdown == Some(CountdownStart) && countdownRunning
      ensures old(hasStream) ==> hasStream && cameraErrors == old(cameraErrors)
    {
      if !hasStream {
        StartCamera(granted);
        return;
      }
      countdown := Some(CountdownStart);
      countdownRunning := true;
    }

    /**
     * A tick of the countdown interval. At 1 it clears itself, empties the
     * chunks, starts a new recorder and a recording timer, and sets `timeLeft`
     * to 15; otherwise the countdown goes down by one.
     */
    method CountdownTick()
      requires Valid() && countdownRunning
      modifies this`countdown, this`countdownRunning, this`chunks, this`delivered
      modifies this`recorder, this`isRecording, this`timeLeft, this`ticks, this`recordingTimers
      ensures Valid()
      ensures countdown == CountdownStep(old(countdown)).next
      ensures old(countdown) == Some(1) ==>
                !countdownRunning && isRecording && recorder == Recording && timeLeft == Some(RecordingLimit) &&
                chunks == [] && recordingTimers == old(recordingTimers) + 1
      ensures old(countdown) != Some(1) ==>
                countdownRunning && countdown == Some(old(countdown).value - 1) &&
                !isRecording && recorder == old(recorder) && chunks == old(chunks) &&
                timeLeft == old(timeLeft) && recordingTimers == old(recordingTimers)
    {
      var step := CountdownStep(countdown);
      countdown := step.next;
      if step.fired {
        countdownRunning := false;
        chunks, delivered := [], [];
        recorder, isRecording := Recording, true;
        timeLeft, ticks := Some(RecordingLimit), 0;
        recordingTimers := recordingTimers + 1;
      }
    }

    /**
     * A tick of one live recording timer. At 1 it clears itself, stops the
     * recorder if it is still recording and leaves 0; otherwise `timeLeft` goes
     * down by one (from `null` to -1).
     */
    method RecordingTick()
      requires Valid() && recordingTimers > 0
      modifies this`timeLeft, this`ticks, this`recordingTimers, this`recorder, this`stopPending
      ensures Valid()
      ensures timeLeft == TimerStep(old(timeLeft)).next
      ensures old(timeLeft) == Some(1) ==> recordingTimers == old(recordingTimers) - 1 && recorder != Recording
      ensures old(timeLeft) == Some(1) && old(recorder) == Recording ==> recorder == Inactive && stopPending
      ensures old(timeLeft) != Some(1) ==>
                recordingTimers == old(recordingTimers) && recorder == old(recorder) && stopPending == old(stopPending)
      ensures old(recorder) == Recording && old(ticks) == RecordingLimit - 1 ==> recorder == Inactive
      ensures isRecording == old(isRecording) && chunks == old(chunks) && countdown == old(countdown)
    {
      var step := TimerStep(timeLeft);
      timeLeft := step.next;
      if recorder == Recording {
        ticks := ticks + 1;
      }
      if step.fired {
        recordingTimers := recordingTimers - 1;
        if recorder == Recording {
          recorder, stopPending := Inactive, true;
        }
      }
    }

    /** `ondataavailable`: the chunk is appended when it is not empty. */
    method OnDataAvailable(c: Chunk)
      requires Valid() && (recorder == Recording || stopPending)
      modifies this`chunks, this`delivered
      ensures Valid()
      ensures chunks == old(chunks) + (if |c.bytes| > 0 then [c] else [])
    {
      var kept := chunks + (if |c.bytes| > 0 then [c] else []);
      ghost var d := delivered + [c];
      assert kept == NonEmpty(d) by {
        NonEmptyAppend(delivered, c);
      }
      chunks, delivered := kept, d;
    }

    /**
     * `onstop`: the recorded video is the non-empty chunks in arrival order; it
     * is handed to `onVideoRecorded`, `isRecording` becomes false and `timeLeft` null.
     */
    method OnRecorderStop() returns (video: seq<Chunk>)
      requires Valid() && stopPending
      modifies this`recordedVideo, this`isRecording, this`timeLeft, this`stopPending
      ensures Valid()
      ensures video == NonEmpty(delivered) && recordedVideo == Some(video)
      ensures !isRecording && timeLeft.None? && !stopPending
    {
      video := chunks;
      recordedVideo := Some(chunks);
      isRecording, timeLeft, stopPending := false, None, false;
    }

    /** `stopRecording`: stops the recorder only when it is recording; the timer is left running. */
    method StopRecording()
      requires Valid()
      modifies this`recorder, this`stopPending
      ensures Valid()
      ensures old(recorder) == Recording ==> recorder == Inactive && stopPending
      ensures old(recorder) != Recording ==> recorder == old(recorder) && stopPending == old(stopPending)
    {
      if recorder == Recording {
        recorder, stopPending := Inactive, true;
      }
    }

    /** `resetRecording`, from the re-record button: back to idle, and the camera is requested again. */
    method ResetRecording(granted: bool)
      requires Valid() && recordedVideo.Some?
      modifies this`recordedVideo, this`isRecording, this`countdown, this`timeLeft, this`hasStream, this`cameraErrors
      ensures Valid()
      ensures recordedVideo.None? && !isRecording && countdown.None? && timeLeft.None?
      ensures !RecordButtonDisabled()
      ensures granted ==> hasStream && cameraErrors == old(cameraErrors)
      ensures !granted ==> hasStream == old(hasStream) && cameraErrors == old(cameraErrors) + 1
    {
      recordedVideo, isRecording, countdown, timeLeft := None, false, None, None;
      StartCamera(granted);
    }
  }
}
