/** The recording session controller shared, with variations, by the three
    speaking pages: read and speak (module A), listen and repeat (module B)
    and topic speaking (module C). Each page keeps its state in module-level
    variables that its event handlers reassign; here they are the fields of
    one `Controller`, configured by the page it drives. Timer callbacks,
    MediaRecorder events and network replies are methods the environment
    calls, and what the browser or the server answers is a parameter. */
module Recording {
  import opened Text
  import opened TimeDisplay

  /** Which page the controller drives. */
  datatype Module = ModuleA | ModuleB | ModuleC

  const COUNTDOWN_DURATION: int := 4
  const RECORDING_DURATION: int := 120

  /** Prompts per page before the page offers the next page. */
  function MaxQuestions(m: Module): nat { if m == ModuleC then 5 else 10 }

  /** Modules A and B count down before recording; module C does not. */
  predicate HasCountdown(m: Module) { m != ModuleC }

  /** Module B refuses to record before the prompt has been listened to. */
  predicate HasAudioGate(m: Module) { m == ModuleB }

  /** Module C stops a recording by itself after RECORDING_DURATION ticks. */
  predicate HasAutoStop(m: Module) { m == ModuleC }

  /** What a timer variable holds: null, the handle of a callback that is
      still scheduled, or a handle whose callback was cleared or has fired
      (the variable was not set back to null). */
  datatype Timer = Null | Armed | Spent

  /** The page's `mediaRecorder`: null, recording, or stopped. */
  datatype RecorderState = NoRecorder | Capturing | Inactive

  /** One piece of audio delivered by `ondataavailable`. */
  datatype Chunk = Chunk(size: nat, data: int)

  /** What asking for the microphone gives: no `mediaDevices` API at all, a
      stream and a recorder, `getUserMedia` rejecting with an error of the
      given name, a stream whose `MediaRecorder` could not be created, or a
      recorder whose `start()` threw. */
  datatype MediaOutcome =
    | ApiMissing | Granted | Refused(errorName: string)
    | RecorderRejected(errorName: string) | StartRejected(errorName: string)

  /** The reply to the prompt request. */
  datatype LoadOutcome = LoadUnauthorized | Loaded(promptId: int) | LoadRejected | LoadNetworkError

  /** The reply to the audio submission. */
  datatype SubmitOutcome = SubmitUnauthorized | Scored | SubmitRejected | SubmitNetworkError

  /** The message a handler shows the user. */
  datatype Notice =
    | SecureContextRequired | MicrophoneDenied | NoMicrophone | CouldNotStart
    | ListenFirst | SpeechUnsupported | PlaybackFailed
    | LoadFailed | NetworkError | ProcessingFailed | SubmitFailed

  /** Where the page sends the browser. */
  datatype Page = SamePage | LoginPage | NextModulePage

  /** How a failed microphone request is reported: modules A and C tell a
      refusal, a missing device and anything else apart; module B only tells
      a refusal from anything else. */
  function ErrorNotice(m: Module, errorName: string): Notice
  {
    if errorName == "NotAllowedError" || (m != ModuleB && errorName == "PermissionDeniedError") then MicrophoneDenied
    else if m != ModuleB && errorName == "NotFoundError" then NoMicrophone
    else CouldNotStart
  }

  function StartFailureNotice(m: Module, media: MediaOutcome): Notice
    requires !media.Granted?
  {
    match media
    case ApiMissing => SecureContextRequired
    case Refused(name) => ErrorNotice(m, name)
    case RecorderRejected(name) => ErrorNotice(m, name)
    case StartRejected(name) => ErrorNotice(m, name)
  }

  /** The chunk buffer keeps the chunks of positive size, in arrival order. */
  function NonEmptyChunks(arrived: seq<Chunk>): seq<Chunk>
  {
    if arrived == [] then []
    else (if arrived[0].size > 0 then [arrived[0]] else []) + NonEmptyChunks(arrived[1..])
  }

  /** The buffer holds only chunks of positive size, each of which arrived. */
  lemma {:induction false} NonEmptyChunksSound(arrived: seq<Chunk>)
    ensures |NonEmptyChunks(arrived)| <= |arrived|
    ensures forall i :: 0 <= i < |NonEmptyChunks(arrived)| ==> NonEmptyChunks(arrived)[i].size > 0
    ensures forall c :: c in NonEmptyChunks(arrived) ==> c in arrived
    decreases |arrived|
  {
    if arrived != [] {
      NonEmptyChunksSound(arrived[1..]);
      var head := if arrived[0].size > 0 then [arrived[0]] else [];
      assert NonEmptyChunks(arrived) == head + NonEmptyChunks(arrived[1..]);
      forall c | c in NonEmptyChunks(arrived)
        ensures c in arrived
      {
        if c !in head {
          assert c in arrived[1..];
        }
      }
    }
  }

  lemma {:induction false} NonEmptyChunksAppend(a: seq<Chunk>, b: seq<Chunk>)
    ensures NonEmptyChunks(a + b) == NonEmptyChunks(a) + NonEmptyChunks(b)
    decreases |a|
  {
    if a != [] {
      assert (a + b)[1..] == a[1..] + b;
      NonEmptyChunksAppend(a[1..], b);
    } else {
      assert a + b == b;
    }
  }

  /** Every chunk of positive size is kept, and nothing is reordered. */
  lemma {:induction false} NonEmptyChunksKeepsPositive(arrived: seq<Chunk>)
    requires forall i :: 0 <= i < |arrived| ==> arrived[i].size > 0
    ensures NonEmptyChunks(arrived) == arrived
    decreases |arrived|
  {
    if arrived != [] {
      NonEmptyChunksKeepsPositive(arrived[1..]);
    }
  }


  class Controller {
    const page: Module

    /** Prompts loaded so far, and the id of the current one. */
    var questionCount: nat
    var promptId: Option<int>

    var isRecording: bool
    /** Module B: the prompt has been spoken to the end, speech is under
        way, and the play button's `disabled`. */
    var hasPlayedAudio: bool
    var speaking: bool
    var playDisabled: bool

    /** The current `mediaRecorder`, the `onstop` callbacks it and its
        predecessors still owe, and whether `audioStream` holds a stream. */
    var recorder: RecorderState
    var pendingStops: nat
    var streamHeld: bool

    /** `audioChunks`, and every chunk delivered since the recording began. */
    var chunks: seq<Chunk>
    ghost var arrivals: seq<Chunk>
    /** Recorders left capturing when a new recording replaced them. */
    ghost var orphaned: nat

    /** Modules A and B: the countdown interval, its counter and the number shown. */
    var countdownTimer: Timer
    var timeLeft: int
    var countdownNumber: int

    /** Modules A and B: the elapsed-time timeout and the seconds it last
        showed; module C: the auto-stop interval and the seconds left. */
    var recordingTimer: Timer
    var elapsedShown: nat
    var timeRemaining: nat

    /** The record button's `disabled`, the results panel, the 5-second
        auto-advances still scheduled, and where the page has navigated. */
    var buttonDisabled: bool
    var resultsShown: bool
    var pendingAdvances: nat
    var location: Page

    /** The progress text `updateProgressUI` writes: `count/max`. */
    function ProgressText(): string
      reads this`questionCount
    {
      Joined(questionCount, '/', MaxQuestions(page))
    }

    /** The elapsed-time display of modules A and B. */
    function RecordingTimeText(): string
      reads this`elapsedShown
    {
      ElapsedText(elapsedShown)
    }

    /** The remaining-time display of module C. */
    function TimeRemainingText(): string
      reads this`timeRemaining
    {
      RemainingText(timeRemaining)
    }

    ghost predicate CountInRange()
      reads this`questionCount
    {
      questionCount <= MaxQuestions(page)
    }

    /** Only module B tracks listening. */
    ghost predicate AudioGateKept()
      reads this`hasPlayedAudio, this`speaking, this`playDisabled
    {
      !HasAudioGate(page) ==> !hasPlayedAudio && !speaking && !playDisabled
    }

    /** While the countdown runs it shows its positive counter and nothing records. */
    ghost predicate CountdownKept()
      reads this`countdownTimer, this`timeLeft, this`countdownNumber, this`isRecording
    {
      && (!HasCountdown(page) ==> countdownTimer == Null)
      && (countdownTimer == Armed ==>
            1 <= timeLeft <= COUNTDOWN_DURATION && countdownNumber == timeLeft && !isRecording)
    }

    /** A recording under way has a capturing recorder and a held stream. */
    ghost predicate CaptureKept()
      reads this`isRecording, this`recorder, this`streamHeld
    {
      isRecording ==> recorder == Capturing && streamHeld
    }

    /** Module C: its interval runs exactly while recording, within the duration. */
    ghost predicate AutoStopKept()
      reads this`recordingTimer, this`isRecording, this`timeRemaining, this`pendingAdvances
    {
      HasAutoStop(page) ==>
        && recordingTimer != Spent
        && (isRecording <==> recordingTimer == Armed)
        && timeRemaining <= RECORDING_DURATION
        && pendingAdvances == 0
    }

    ghost predicate ChunksKept()
      reads this`chunks, this`arrivals
    {
      chunks == NonEmptyChunks(arrivals)
    }

    /** Everything `Valid` demands except that an armed auto-stop interval
        has a second left; a tick that reaches zero holds only this until it
        stops the recording. */
    ghost predicate Consistent()
      reads this
    {
      && CountInRange() && AudioGateKept() && CountdownKept()
      && CaptureKept() && AutoStopKept() && ChunksKept()
    }

    ghost predicate SecondLeft()
      reads this`recordingTimer, this`timeRemaining
    {
      HasAutoStop(page) && recordingTimer == Armed ==> timeRemaining >= 1
    }

    ghost predicate Valid()
      reads this
    {
      Consistent() && SecondLeft()
    }

    constructor (m: Module)
      ensures Valid() && page == m
      ensures questionCount == 0 && promptId == None
      ensures !isRecording && !hasPlayedAudio && !speaking && !playDisabled
      ensures recorder == NoRecorder && pendingStops == 0 && !streamHeld && chunks == []
      ensures countdownTimer == Null && recordingTimer == Null && elapsedShown == 0 && timeRemaining == RECORDING_DURATION
      ensures !buttonDisabled && !resultsShown && pendingAdvances == 0 && location == SamePage
    {
      page := m;
      questionCount, promptId := 0, None;
      isRecording, hasPlayedAudio, speaking, playDisabled := false, false, false, false;
      recorder, pendingStops, streamHeld := NoRecorder, 0, false;
      chunks, arrivals, orphaned := [], [], 0;
      countdownTimer, timeLeft, countdownNumber := Null, 0, 0;
      recordingTimer, elapsedShown, timeRemaining := Null, 0, RECORDING_DURATION;
      buttonDisabled, resultsShown, pendingAdvances, location := false, false, 0, SamePage;
    }

    /** Modules A and B, `resetUI`: not recording, the record button (and
        module B's play button) enabled and both timers cleared and set to
        null. */
    method ResetUI()
      requires Valid() && HasCountdown(page)
      modifies this`isRecording, this`buttonDisabled, this`playDisabled, this`countdownTimer, this`recordingTimer
      ensures Valid()
      ensures !isRecording && !buttonDisabled && !playDisabled && countdownTimer == Null && recordingTimer == Null
    {
      if page == ModuleB {
        playDisabled := false;
      }
      buttonDisabled := false;
      isRecording := false;
      if countdownTimer != Null {
        countdownTimer := Null;
      }
      if recordingTimer != Null {
        recordingTimer := Null;
      }
    }

    /** Module C, `resetTimer`: the interval cleared, the full duration back
        on the display. */
    method ResetTimer()
      requires HasAutoStop(page)
      modifies this`recordingTimer, this`timeRemaining
      ensures recordingTimer == Null && timeRemaining == RECORDING_DURATION
    {
      recordingTimer := Null;
      timeRemaining := RECORDING_DURATION;
    }

    /** Modules B and C, `resetRecordButton`: not recording and the button
        enabled; module C also resets its timer. */
    method ResetRecordButton()
      requires Valid() && page != ModuleA
      modifies this`isRecording, this`buttonDisabled, this`recordingTimer, this`timeRemaining
      ensures Valid()
      ensures !isRecording && !buttonDisabled
      ensures page == ModuleB ==> unchanged(this`recordingTimer, this`timeRemaining)
      ensures page == ModuleC ==>
        recordingTimer == Null && timeRemaining == RECORDING_DURATION
    {
      buttonDisabled := false;
      isRecording := false;
      if page == ModuleC {
        ResetTimer();
      }
    }

    /** `stopRecording`: acts only when a recorder exists and a recording is
        under way; it then clears the recording timer, disables the button
        and stops the recorder, which owes one `onstop` callback. */
    method StopRecording()
      requires Consistent()
      modifies this`isRecording, this`recordingTimer, this`buttonDisabled, this`recorder, this`pendingStops
      ensures Consistent()
      ensures old(Valid()) || old(recorder != NoRecorder && isRecording) ==> Valid()
      ensures !isRecording
      ensures old(recorder != NoRecorder && isRecording) ==>
        recordingTimer == Null && buttonDisabled && recorder == Inactive && pendingStops == old(pendingStops) + 1
      ensures !old(recorder != NoRecorder && isRecording) ==> unchanged(this)
    {
      if recorder != NoRecorder && isRecording {
        isRecording := false;
        if recordingTimer != Null {
          recordingTimer := Null;
        }
        buttonDisabled := true;
        recorder := Inactive;
        pendingStops := pendingStops + 1;
      }
    }

    /** `startCountdown`: arms the countdown interval at COUNTDOWN_DURATION. */
    method StartCountdown()
      requires Valid() && HasCountdown(page) && countdownTimer != Armed && !isRecording
      modifies this`timeLeft, this`countdownNumber, this`countdownTimer
      ensures Valid()
      ensures countdownTimer == Armed && timeLeft == COUNTDOWN_DURATION && countdownNumber == COUNTDOWN_DURATION
    {
      timeLeft := COUNTDOWN_DURATION;
      countdownNumber := timeLeft;
      countdownTimer := Armed;
    }

    /** `startRecording`. When the microphone is granted, a fresh recorder
        starts with an empty chunk buffer and the recording timer is armed:
        the elapsed-time display at "00:00" (A, B), or the auto-stop interval
        at RECORDING_DURATION (C); a recorder still capturing is replaced
        without being stopped. Every failure ends not recording with the
        controls reset, except that module C returns without touching any
        state when the media API is missing; when `start()` throws, the new
        recorder has already replaced the old one and emptied the buffer. */
    method StartRecording(media: MediaOutcome) returns (notice: Option<Notice>)
      requires Valid() && !isRecording && countdownTimer != Armed
      modifies this`isRecording, this`recorder, this`streamHeld, this`chunks, this`arrivals, this`orphaned,
               this`recordingTimer, this`timeRemaining, this`elapsedShown,
               this`buttonDisabled, this`playDisabled, this`countdownTimer
      ensures Valid()
      ensures media.Granted? ==> notice == None
      ensures !media.Granted? ==> notice == Some(StartFailureNotice(page, media))
      ensures media.Granted? ==>
        && isRecording && recorder == Capturing && streamHeld && chunks == [] && arrivals == []
        && recordingTimer == Armed && unchanged(this`buttonDisabled, this`playDisabled, this`countdownTimer)
        && orphaned == old(orphaned) + (if old(recorder) == Capturing then 1 else 0)
      ensures media.Granted? && HasCountdown(page) ==>
        elapsedShown == 0 && unchanged(this`timeRemaining)
      ensures media.Granted? && HasAutoStop(page) ==>
        && timeRemaining == RECORDING_DURATION
        && unchanged(this`elapsedShown)
      ensures media.ApiMissing? && HasAutoStop(page) ==> unchanged(this)
      ensures !media.Granted? && (HasCountdown(page) || !media.ApiMissing?) ==>
        && !isRecording && !buttonDisabled && !playDisabled && recordingTimer == Null && countdownTimer == Null
        && unchanged(this`elapsedShown)
        && streamHeld == (old(streamHeld) || media.RecorderRejected? || media.StartRejected?)
        && (HasCountdown(page) ==> unchanged(this`timeRemaining))
        && (HasAutoStop(page) ==> timeRemaining == RECORDING_DURATION)
      ensures media.StartRejected? ==>
        && recorder == Inactive && chunks == [] && arrivals == []
        && orphaned == old(orphaned) + (if old(recorder) == Capturing then 1 else 0)
      ensures !media.Granted? && !media.StartRejected? ==>
        unchanged(this`recorder, this`chunks, this`arrivals, this`orphaned)
    {
      if media.Granted? {
        BeginCapture();
        notice := None;
      } else {
        notice := AbandonStart(media);
      }
    }

    /** The successful part of `startRecording`. */
    method BeginCapture()
      requires Valid() && !isRecording && countdownTimer != Armed
      modifies this`isRecording, this`recorder, this`streamHeld, this`chunks, this`arrivals, this`orphaned,
               this`recordingTimer, this`timeRemaining, this`elapsedShown
      ensures Valid()
      ensures && isRecording && recorder == Capturing && streamHeld && chunks == [] && arrivals == []
              && recordingTimer == Armed
              && orphaned == old(orphaned) + (if old(recorder) == Capturing then 1 else 0)
      ensures HasCountdown(page) ==>
        elapsedShown == 0 && unchanged(this`timeRemaining)
      ensures HasAutoStop(page) ==>
        && timeRemaining == RECORDING_DURATION
        && unchanged(this`elapsedShown)
    {
      orphaned := orphaned + if recorder == Capturing then 1 else 0;
      streamHeld := true;
      recorder := Capturing;
      chunks, arrivals := [], [];
      isRecording := true;
      ArmRecordingTimer();
    }

    /** The timer a new recording starts: module C's `startTimer`, or the
        first `updateRecordingTime` of modules A and B. */
    method ArmRecordingTimer()
      modifies this`timeRemaining, this`elapsedShown, this`recordingTimer
      ensures recordingTimer == Armed
      ensures HasAutoStop(page) ==> timeRemaining == RECORDING_DURATION && unchanged(this`elapsedShown)
      ensures HasCountdown(page) ==> elapsedShown == 0 && unchanged(this`timeRemaining)
    {
      if page == ModuleC {
        StartTimer();
      } else {
        StartClock();
      }
    }

    /** Module C, `startTimer`: the full duration on the display and the
        interval armed. */
    method StartTimer()
      requires HasAutoStop(page)
      modifies this`timeRemaining, this`recordingTimer
      ensures timeRemaining == RECORDING_DURATION
      ensures recordingTimer == Armed
    {
      timeRemaining := RECORDING_DURATION;
      recordingTimer := Armed;
    }

    /** Modules A and B, the first `updateRecordingTime` of a recording: no
        time has elapsed yet, and the next update is scheduled. */
    method StartClock()
      requires HasCountdown(page)
      modifies this`elapsedShown, this`recordingTimer
      ensures elapsedShown == 0 && recordingTimer == Armed
    {
      elapsedShown := 0;
      recordingTimer := Armed;
    }

    /** The failing part of `startRecording`: the notice for the failure,
        then the controls reset, except that module C returns at once when
        the media API is missing. */
    method AbandonStart(media: MediaOutcome) returns (notice: Option<Notice>)
      requires Valid() && !isRecording && !media.Granted?
      modifies this`streamHeld, this`isRecording, this`buttonDisabled, this`playDisabled, this`countdownTimer,
               this`recordingTimer, this`timeRemaining, this`recorder, this`chunks, this`arrivals, this`orphaned
      ensures Valid()
      ensures notice == Some(StartFailureNotice(page, media))
      ensures media.ApiMissing? && HasAutoStop(page) ==> unchanged(this)
      ensures HasCountdown(page) || !media.ApiMissing? ==>
        && !isRecording && !buttonDisabled && !playDisabled && recordingTimer == Null && countdownTimer == Null
        && streamHeld == (old(streamHeld) || media.RecorderRejected? || media.StartRejected?)
        && (HasCountdown(page) ==> unchanged(this`timeRemaining))
        && (HasAutoStop(page) ==> timeRemaining == RECORDING_DURATION)
      ensures media.StartRejected? ==>
        && recorder == Inactive && chunks == [] && arrivals == []
        && orphaned == old(orphaned) + (if old(recorder) == Capturing then 1 else 0)
      ensures !media.StartRejected? ==> unchanged(this`recorder, this`chunks, this`arrivals, this`orphaned)
    {
      if media.ApiMissing? {
        notice := Some(SecureContextRequired);
        if page != ModuleC {
          ResetUI();
        }
        return;
      }
      // the stream was obtained before the recorder constructor threw
      if media.RecorderRejected? {
        streamHeld := true;
      }
      if media.StartRejected? {
        DiscardRecorder();
      }
      notice := Some(ErrorNotice(page, media.errorName));
      if page == ModuleC {
        ResetRecordButton();
      } else {
        ResetUI();
      }
    }

    /** A recorder whose `start()` threw: it has already replaced the
        previous recorder, which is left as it was, and emptied the buffer. */
    method DiscardRecorder()
      requires Valid() && !isRecording
      modifies this`recorder, this`chunks, this`arrivals, this`orphaned, this`streamHeld
      ensures Valid()
      ensures recorder == Inactive && chunks == [] && arrivals == [] && streamHeld
      ensures orphaned == old(orphaned) + (if old(recorder) == Capturing then 1 else 0)
    {
      orphaned := orphaned + if recorder == Capturing then 1 else 0;
      streamHeld := true;
      recorder := Inactive;
      chunks, arrivals := [], [];
    }

    /** `toggleRecording`, as delivered by the record button: not while the
        countdown runs (`startCountdown` hides the button) and not while the
        button is disabled. The microphone outcome matters only to module C,
        which starts recording at once. */
    method ToggleRecording(media: MediaOutcome) returns (notice: Option<Notice>)
      requires Valid() && countdownTimer != Armed && !buttonDisabled
      modifies this`isRecording, this`recorder, this`streamHeld, this`chunks, this`arrivals, this`orphaned,
               this`recordingTimer, this`timeRemaining, this`elapsedShown,
               this`buttonDisabled, this`playDisabled, this`countdownTimer, this`timeLeft, this`countdownNumber, this`pendingStops
      ensures Valid()
      ensures HasAudioGate(page) && !old(hasPlayedAudio) ==> notice == Some(ListenFirst) && unchanged(this)
      ensures (HasAudioGate(page) ==> old(hasPlayedAudio)) && old(isRecording) ==>
        && notice == None && !isRecording && recordingTimer == Null && buttonDisabled
        && recorder == Inactive && pendingStops == old(pendingStops) + 1
        && unchanged(this`streamHeld, this`chunks, this`arrivals, this`countdownTimer)
      ensures (HasAudioGate(page) ==> old(hasPlayedAudio)) && !old(isRecording) && HasCountdown(page) ==>
        && notice == None && !isRecording
        && countdownTimer == Armed && timeLeft == COUNTDOWN_DURATION && countdownNumber == COUNTDOWN_DURATION
        && unchanged(this`recorder, this`chunks, this`arrivals, this`recordingTimer, this`pendingStops,
                     this`buttonDisabled)
      ensures !old(isRecording) && HasAutoStop(page) ==>
        && (isRecording <==> media.Granted?) && !buttonDisabled && pendingStops == old(pendingStops)
        && (media.Granted? ==> notice == None && chunks == [] && recordingTimer == Armed &&
                                timeRemaining == RECORDING_DURATION)
        && (!media.Granted? ==> notice == Some(StartFailureNotice(page, media)))
      ensures HasCountdown(page) && !old(isRecording) ==> !isRecording
    {
      if page == ModuleB && !hasPlayedAudio {
        notice := Some(ListenFirst);
        return;
      }
      if !isRecording {
        if page == ModuleC {
          notice := StartRecording(media);
        } else {
          StartCountdown();
          notice := None;
        }
      } else {
        StopRecording();
        notice := None;
      }
    }

    /** One tick of the countdown interval (modules A and B). While the
        counter stays positive it is shown; on the tick where it reaches
        zero the interval is cleared and recording starts. */
    method CountdownTick(media: MediaOutcome) returns (notice: Option<Notice>)
      requires Valid() && HasCountdown(page) && countdownTimer == Armed
      modifies this`isRecording, this`recorder, this`streamHeld, this`chunks, this`arrivals, this`orphaned,
               this`recordingTimer, this`timeRemaining, this`elapsedShown,
               this`buttonDisabled, this`playDisabled, this`countdownTimer, this`timeLeft, this`countdownNumber
      ensures Valid()
      ensures timeLeft == old(timeLeft) - 1
      ensures old(timeLeft) > 1 ==>
        && notice == None && countdownTimer == Armed && countdownNumber == timeLeft
        && unchanged(this`isRecording, this`recorder, this`streamHeld, this`chunks, this`arrivals,
                     this`recordingTimer, this`elapsedShown, this`buttonDisabled, this`playDisabled)
      ensures old(timeLeft) == 1 ==> countdownTimer != Armed && (isRecording <==> media.Granted?)
      ensures old(timeLeft) == 1 && media.Granted? ==>
        && notice == None && countdownTimer == Spent && recorder == Capturing && chunks == []
        && unchanged(this`buttonDisabled, this`playDisabled)
        && recordingTimer == Armed && elapsedShown == 0
      ensures old(timeLeft) == 1 && !media.Granted? ==>
        notice == Some(StartFailureNotice(page, media)) && countdownTimer == Null &&
        recordingTimer == Null && !buttonDisabled && !playDisabled
      ensures isRecording ==> old(timeLeft) == 1
    {
      timeLeft := timeLeft - 1;
      if timeLeft > 0 {
        countdownNumber := timeLeft;
        notice := None;
      } else {
        countdownTimer := Spent;
        notice := StartRecording(media);
      }
    }

    /** One run of `updateRecordingTime` (modules A and B), `elapsed` whole
        seconds after the recording began: while recording it shows the
        elapsed time and schedules itself again; otherwise it stops. */
    method RecordingClockTick(elapsed: nat)
      requires Valid() && HasCountdown(page) && recordingTimer == Armed
      modifies this`elapsedShown, this`recordingTimer
      ensures Valid()
      ensures old(isRecording) ==> elapsedShown == elapsed && recordingTimer == Armed
      ensures !old(isRecording) ==> recordingTimer == Spent && unchanged(this`elapsedShown)
    {
      if !isRecording {
        recordingTimer := Spent;
        return;
      }
      elapsedShown := elapsed;
      recordingTimer := Armed;
    }

    /** One tick of module C's interval: one second less on the display,
        and when none is left the recording is stopped. */
    method TimerTick()
      requires Valid() && HasAutoStop(page) && recordingTimer == Armed
      modifies this`timeRemaining,
               this`isRecording, this`recordingTimer, this`buttonDisabled, this`recorder, this`pendingStops
      ensures Valid()
      ensures timeRemaining == old(timeRemaining) - 1 >= 0
      ensures old(timeRemaining) > 1 ==>
        unchanged(this`isRecording, this`recordingTimer, this`buttonDisabled, this`recorder, this`pendingStops)
      ensures old(timeRemaining) == 1 ==>
        !isRecording && recordingTimer == Null && buttonDisabled && recorder == Inactive &&
        pendingStops == old(pendingStops) + 1
    {
      timeRemaining := timeRemaining - 1;
      if timeRemaining <= 0 {
        StopRecording();
      }
    }

    /** `ondataavailable`: a chunk of positive size is appended to the buffer. */
    method DataAvailable(chunk: Chunk)
      requires Valid() && recorder != NoRecorder
      modifies this`chunks, this`arrivals
      ensures Valid()
      ensures chunks == old(chunks) + (if chunk.size > 0 then [chunk] else [])
      ensures arrivals == old(arrivals) + [chunk]
    {
      NonEmptyChunksAppend(arrivals, [chunk]);
      if chunk.size > 0 {
        chunks := chunks + [chunk];
      }
      arrivals := arrivals + [chunk];
    }

    /** `onstop`: the buffered chunks are submitted; whatever the reply, the
        `finally` block resets the controls (`resetUI` in module A,
        `resetRecordButton` in modules B and C), and then the stream is
        released. A scored submission shows the results and, in modules A and
        B, schedules the 5-second auto-advance. */
    method RecorderStopped(outcome: SubmitOutcome) returns (payload: seq<Chunk>, notice: Option<Notice>)
      requires Valid() && pendingStops > 0
      modifies this`location, this`resultsShown, this`pendingAdvances,
               this`isRecording, this`buttonDisabled, this`playDisabled, this`countdownTimer, this`recordingTimer,
               this`timeRemaining, this`streamHeld, this`pendingStops
      ensures Valid()
      ensures payload == old(chunks)
      ensures !isRecording && !buttonDisabled && !streamHeld && pendingStops == old(pendingStops) - 1
      ensures notice == match outcome
                        case SubmitRejected => Some(ProcessingFailed)
                        case SubmitNetworkError => Some(SubmitFailed)
                        case _ => None
      ensures location == if outcome.SubmitUnauthorized? then LoginPage else old(location)
      ensures resultsShown == (outcome.Scored? || old(resultsShown))
      ensures pendingAdvances == old(pendingAdvances) + if outcome.Scored? && HasCountdown(page) then 1 else 0
      ensures page == ModuleA ==>
        countdownTimer == Null && recordingTimer == Null && unchanged(this`timeRemaining)
      ensures page == ModuleB ==>
        unchanged(this`countdownTimer, this`recordingTimer, this`timeRemaining, this`playDisabled)
      ensures page == ModuleC ==>
        recordingTimer == Null && timeRemaining == RECORDING_DURATION
    {
      payload := chunks;
      notice := ShowSubmission(outcome);
      if page == ModuleA {
        ResetUI();
      } else {
        ResetRecordButton();
      }
      streamHeld := false;
      pendingStops := pendingStops - 1;
    }

    /** The `try` part of `submitAudio` once the server has answered: a
        401 goes to the login page; a scored answer shows the results and,
        in modules A and B, schedules the next prompt; a rejection or a
        network failure is reported. */
    method ShowSubmission(outcome: SubmitOutcome) returns (notice: Option<Notice>)
      requires Valid()
      modifies this`location, this`resultsShown, this`pendingAdvances
      ensures Valid()
      ensures notice == match outcome
                        case SubmitRejected => Some(ProcessingFailed)
                        case SubmitNetworkError => Some(SubmitFailed)
                        case _ => None
      ensures location == if outcome.SubmitUnauthorized? then LoginPage else old(location)
      ensures resultsShown == (outcome.Scored? || old(resultsShown))
      ensures pendingAdvances == old(pendingAdvances) + if outcome.Scored? && HasCountdown(page) then 1 else 0
    {
      notice := None;
      match outcome {
        case SubmitUnauthorized =>
          location := LoginPage;
        case Scored =>
          resultsShown := true;
          if page != ModuleC {
            pendingAdvances := pendingAdvances + 1;
          }
        case SubmitRejected =>
          notice := Some(ProcessingFailed);
        case SubmitNetworkError =>
          notice := Some(SubmitFailed);
      }
    }

    /** `loadSentence` (A, B) and `loadTopic` (C). Once MaxQuestions prompts
        have been loaded nothing is requested and the counter stays put; the
        page offers the next module and goes there if the user agrees. A
        loaded prompt increments the counter by exactly one and resets the
        controls; module B must then be listened to again. */
    method LoadPrompt(load: LoadOutcome, proceed: bool) returns (notice: Option<Notice>)
      requires Valid()
      modifies this`location, this`promptId, this`hasPlayedAudio, this`questionCount,
               this`resultsShown, this`isRecording, this`buttonDisabled, this`playDisabled, this`countdownTimer,
               this`recordingTimer, this`timeRemaining
      ensures Valid()
      ensures questionCount <= MaxQuestions(page)
      ensures hasPlayedAudio ==> old(hasPlayedAudio)
      ensures old(questionCount) >= MaxQuestions(page) ==>
        && notice == None && location == (if proceed then NextModulePage else old(location))
        && unchanged(this`promptId, this`hasPlayedAudio, this`questionCount,
                     this`resultsShown, this`isRecording, this`buttonDisabled, this`playDisabled, this`countdownTimer,
                     this`recordingTimer, this`timeRemaining)
      ensures old(questionCount) < MaxQuestions(page) && load.Loaded? ==>
        && notice == None && unchanged(this`location)
        && questionCount == old(questionCount) + 1 && promptId == Some(load.promptId)
        && !resultsShown && !isRecording && !buttonDisabled && !playDisabled && recordingTimer == Null
        && countdownTimer == Null && (HasAudioGate(page) ==> !hasPlayedAudio)
        && (HasAutoStop(page) ==> timeRemaining == RECORDING_DURATION)
      ensures old(questionCount) < MaxQuestions(page) && !load.Loaded? ==>
        && notice == (match load
                      case LoadRejected => Some(LoadFailed)
                      case LoadNetworkError => Some(NetworkError)
                      case _ => None)
        && location == (if load.LoadUnauthorized? then LoginPage else old(location))
        && unchanged(this`promptId, this`hasPlayedAudio, this`questionCount,
                     this`resultsShown, this`isRecording, this`buttonDisabled, this`playDisabled, this`countdownTimer,
                     this`recordingTimer, this`timeRemaining)
    {
      notice := None;
      if questionCount >= MaxQuestions(page) {
        // goToNextModule
        if proceed {
          location := NextModulePage;
        }
        return;
      }
      match load {
        case LoadUnauthorized =>
          location := LoginPage;
        case Loaded(id) =>
          ShowPrompt(id);
        case LoadRejected =>
          notice := Some(LoadFailed);
        case LoadNetworkError =>
          notice := Some(NetworkError);
      }
    }

    /** The success branch of `loadSentence` and `loadTopic`: the new prompt
        is current, counted and shown with the controls reset. */
    method ShowPrompt(id: int)
      requires Valid() && questionCount < MaxQuestions(page)
      modifies this`promptId, this`hasPlayedAudio, this`questionCount,
               this`resultsShown, this`isRecording, this`buttonDisabled, this`playDisabled, this`countdownTimer,
               this`recordingTimer, this`timeRemaining
      ensures Valid()
      ensures questionCount == old(questionCount) + 1 && promptId == Some(id)
      ensures !resultsShown && !isRecording && !buttonDisabled && !playDisabled
      ensures recordingTimer == Null && countdownTimer == Null
      ensures hasPlayedAudio == (old(hasPlayedAudio) && !HasAudioGate(page))
      ensures HasAutoStop(page) ==> timeRemaining == RECORDING_DURATION
      ensures HasCountdown(page) ==> unchanged(this`timeRemaining)
    {
      promptId := Some(id);
      if page == ModuleB {
        hasPlayedAudio := false;
      }
      questionCount := questionCount + 1;
      resultsShown := false;
      if page == ModuleC {
        ResetRecordButton();
        ResetTimer();
      } else {
        ResetUI();
      }
    }

    /** The 5-second timeout `displayResults` schedules in modules A and B:
        close the results and load the next prompt. */
    method ResultsTimeout(load: LoadOutcome, proceed: bool) returns (notice: Option<Notice>)
      requires Valid() && HasCountdown(page) && pendingAdvances > 0
      modifies this`location, this`promptId, this`hasPlayedAudio, this`questionCount,
               this`resultsShown, this`isRecording, this`buttonDisabled, this`playDisabled, this`countdownTimer,
               this`recordingTimer, this`timeRemaining, this`pendingAdvances
      ensures Valid()
      ensures pendingAdvances == old(pendingAdvances) - 1 && !resultsShown
      ensures questionCount == old(questionCount) + if old(questionCount) < MaxQuestions(page) && load.Loaded? then 1 else 0
      ensures hasPlayedAudio ==> old(hasPlayedAudio)
      ensures isRecording ==> old(isRecording)
      ensures old(questionCount) >= MaxQuestions(page) ==>
        && notice == None && location == (if proceed then NextModulePage else old(location))
        && unchanged(this`promptId, this`hasPlayedAudio, this`isRecording, this`buttonDisabled, this`playDisabled,
                     this`countdownTimer, this`recordingTimer, this`timeRemaining)
      ensures old(questionCount) < MaxQuestions(page) && load.Loaded? ==>
        && notice == None && unchanged(this`location)
        && promptId == Some(load.promptId) && !isRecording && !buttonDisabled && !playDisabled
        && countdownTimer == Null && recordingTimer == Null && (HasAudioGate(page) ==> !hasPlayedAudio)
      ensures old(questionCount) < MaxQuestions(page) && !load.Loaded? ==>
        && notice == (match load
                      case LoadRejected => Some(LoadFailed)
                      case LoadNetworkError => Some(NetworkError)
                      case _ => None)
        && location == (if load.LoadUnauthorized? then LoginPage else old(location))
        && unchanged(this`promptId, this`hasPlayedAudio, this`isRecording, this`buttonDisabled, this`playDisabled,
                     this`countdownTimer, this`recordingTimer, this`timeRemaining)
    {
      resultsShown := false;
      pendingAdvances := pendingAdvances - 1;
      notice := LoadPrompt(load, proceed);
    }

    /** `closeResults`, module C's close button. */
    method CloseResults()
      requires Valid()
      modifies this`resultsShown
      ensures Valid() && !resultsShown
    {
      resultsShown := false;
    }

    /** Module B, `playAudio`, pressed while the play button is enabled:
        the button is disabled and any speech under way is cancelled for the
        new utterance; without speech synthesis the button is enabled again.
        `resetUI` enables the button even while an utterance is speaking. */
    method PlayAudio(speechAvailable: bool) returns (notice: Option<Notice>)
      requires Valid() && HasAudioGate(page) && !playDisabled
      modifies this`speaking, this`playDisabled
      ensures Valid()
      ensures speechAvailable ==> speaking && playDisabled && notice == None
      ensures !speechAvailable ==> speaking == old(speaking) && !playDisabled && notice == Some(SpeechUnsupported)
    {
      playDisabled := true;
      if speechAvailable {
        speaking := true;
        notice := None;
      } else {
        notice := Some(SpeechUnsupported);
        playDisabled := false;
      }
    }

    /** Module B, the utterance's `onend`: the only place `hasPlayedAudio` becomes true. */
    method UtteranceEnded()
      requires Valid() && speaking
      modifies this`hasPlayedAudio, this`speaking, this`playDisabled
      ensures Valid() && hasPlayedAudio && !speaking && !playDisabled
    {
      hasPlayedAudio := true;
      speaking := false;
      playDisabled := false;
    }

    /** Module B, the utterance's `onerror`. */
    method UtteranceFailed() returns (notice: Option<Notice>)
      requires Valid() && speaking
      modifies this`speaking, this`playDisabled
      ensures Valid() && !speaking && !playDisabled && notice == Some(PlaybackFailed)
    {
      speaking := false;
      playDisabled := false;
      notice := Some(PlaybackFailed);
    }
  }
}
