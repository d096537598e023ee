/** Whole sessions driven through the controller, one event after another,
    as the browser would deliver them. */
module RecordingScenarios {
  import opened Text
  import opened TimeDisplay
  import opened Recording

  /** Modules A and B: from a fresh countdown, the countdown ticks exactly
      COUNTDOWN_DURATION times and recording begins on the last tick, with
      an empty chunk buffer. */
  method RunCountdown(c: Controller) returns (ticks: nat)
    requires c.Valid() && HasCountdown(c.page)
    requires c.countdownTimer == Armed && c.timeLeft == COUNTDOWN_DURATION && !c.buttonDisabled
    modifies c`isRecording, c`recorder, c`streamHeld, c`chunks, c`arrivals, c`orphaned,
             c`recordingTimer, c`timeRemaining, c`elapsedShown,
             c`buttonDisabled, c`playDisabled, c`countdownTimer, c`timeLeft, c`countdownNumber
    ensures c.Valid()
    ensures ticks == COUNTDOWN_DURATION
    ensures c.isRecording && c.chunks == [] && c.countdownTimer == Spent && !c.buttonDisabled
  {
    ticks := 0;
    while c.countdownTimer == Armed
      invariant c.Valid()
      invariant ticks <= COUNTDOWN_DURATION && !c.buttonDisabled
      invariant c.countdownTimer == Armed ==> c.timeLeft == COUNTDOWN_DURATION - ticks
      invariant c.countdownTimer != Armed ==>
        ticks == COUNTDOWN_DURATION && c.isRecording && c.chunks == [] && c.countdownTimer == Spent
      decreases COUNTDOWN_DURATION - ticks
    {
      var tick := c.CountdownTick(Granted);
      ticks := ticks + 1;
    }
  }

  /** Modules A and B: after the record button, recording begins on the
      COUNTDOWN_DURATION-th tick of the countdown. */
  method CountdownThenRecord(page: Module) returns (ticks: nat, recording: bool)
    requires HasCountdown(page)
    ensures ticks == COUNTDOWN_DURATION && recording
  {
    var c := new Controller(page);
    var loaded := c.LoadPrompt(Loaded(1), false);
    if page == ModuleB {
      var played := c.PlayAudio(true);
      c.UtteranceEnded();
    }
    var toggled := c.ToggleRecording(Granted);
    ticks := RunCountdown(c);
    recording := c.isRecording;
  }

  /** Module C: a recording left alone is stopped by its own timer after
      exactly RECORDING_DURATION one-second ticks, and is then owed exactly
      one submission. */
  method AutoStopAfterFullDuration() returns (ticks: nat, owed: nat, shown: string)
    ensures ticks == RECORDING_DURATION && owed == 1 && shown == "0:00"
  {
    var c := new Controller(ModuleC);
    var loaded := c.LoadPrompt(Loaded(1), false);
    var toggled := c.ToggleRecording(Granted);
    ticks := 0;
    while c.isRecording
      invariant c.Valid() && c.page == ModuleC
      invariant ticks <= RECORDING_DURATION
      invariant c.timeRemaining == RECORDING_DURATION - ticks
      invariant c.isRecording ==> c.pendingStops == 0
      invariant !c.isRecording ==> ticks == RECORDING_DURATION && c.pendingStops == 1
      decreases c.timeRemaining
    {
      c.TimerTick();
      ticks := ticks + 1;
    }
    owed := c.pendingStops;
    shown := c.TimeRemainingText();
  }

  /** Module B: the record button does nothing but warn until the prompt
      has been heard to the end; afterwards it starts the countdown. */
  method ListenBeforeRecording() returns (first: Option<Notice>, firstArmed: bool, secondArmed: bool)
    ensures first == Some(ListenFirst) && !firstArmed && secondArmed
  {
    var c := new Controller(ModuleB);
    var loaded := c.LoadPrompt(Loaded(1), false);
    first := c.ToggleRecording(Granted);
    firstArmed := c.countdownTimer == Armed;
    var played := c.PlayAudio(true);
    c.UtteranceEnded();
    var second := c.ToggleRecording(Granted);
    secondArmed := c.countdownTimer == Armed;
  }

  /** Module C: a refused microphone is reported and leaves the button
      usable, with nothing recording. */
  method RefusedMicrophone() returns (notice: Option<Notice>, recording: bool, clickable: bool)
    ensures notice == Some(MicrophoneDenied) && !recording && clickable
  {
    var c := new Controller(ModuleC);
    var loaded := c.LoadPrompt(Loaded(1), false);
    notice := c.ToggleRecording(Refused("NotAllowedError"));
    recording := c.isRecording;
    clickable := !c.buttonDisabled;
  }

  /** Stopping twice stops once: the second call finds no recording and
      the recorder owes a single submission. */
  method StopTwice() returns (owed: nat)
    ensures owed == 1
  {
    var c := new Controller(ModuleC);
    var loaded := c.LoadPrompt(Loaded(1), false);
    var toggled := c.ToggleRecording(Granted);
    c.StopRecording();
    c.StopRecording();
    owed := c.pendingStops;
  }

  /** Modules A and B: `resetUI` in the middle of a countdown, and again:
      the second call finds nothing left to change. */
  method ResetTwice(page: Module) returns (once: (bool, bool, Timer, Timer), twice: (bool, bool, Timer, Timer))
    requires HasCountdown(page)
    ensures once == twice == (false, false, Null, Null)
  {
    var c := new Controller(page);
    var loaded := c.LoadPrompt(Loaded(1), false);
    if page == ModuleB {
      var played := c.PlayAudio(true);
      c.UtteranceEnded();
    }
    var toggled := c.ToggleRecording(Granted);
    c.ResetUI();
    once := (c.isRecording, c.buttonDisabled, c.countdownTimer, c.recordingTimer);
    c.ResetUI();
    twice := (c.isRecording, c.buttonDisabled, c.countdownTimer, c.recordingTimer);
  }

  /** Three chunks arrive during a recording; the empty one is dropped. */
  method DeliverChunks(c: Controller)
    requires c.Valid() && c.recorder != NoRecorder && c.chunks == []
    modifies c`chunks, c`arrivals
    ensures c.Valid() && c.chunks == [Chunk(3, 1), Chunk(5, 3)]
  {
    c.DataAvailable(Chunk(3, 1));
    c.DataAvailable(Chunk(0, 2));
    c.DataAvailable(Chunk(5, 3));
  }

  lemma SecondPromptText()
    ensures Joined(2, '/', MaxQuestions(ModuleA)) == "2/10"
  {
  }

  /** Module A: the first prompt is loaded and recorded, three chunks arrive
      and the recording is stopped. */
  method RecordFirstPrompt() returns (c: Controller)
    ensures fresh(c) && c.Valid() && c.page == ModuleA
    ensures c.questionCount == 1 && c.pendingStops == 1 && c.pendingAdvances == 0
    ensures c.chunks == [Chunk(3, 1), Chunk(5, 3)] && !c.isRecording
  {
    c := new Controller(ModuleA);
    var loaded := c.LoadPrompt(Loaded(1), false);
    var toggled := c.ToggleRecording(Granted);
    var ticks := RunCountdown(c);
    DeliverChunks(c);
    var stopped := c.ToggleRecording(Granted);
  }

  /** Module A, one prompt from start to finish: the chunks of positive size
      are submitted in arrival order, and five seconds after the score the
      second prompt is loaded and counted. */
  method OnePromptCycle() returns (payload: seq<Chunk>, progress: string, recording: bool)
    ensures payload == [Chunk(3, 1), Chunk(5, 3)]
    ensures progress == "2/10" && !recording
  {
    var c := RecordFirstPrompt();
    var notice;
    payload, notice := c.RecorderStopped(Scored);
    var next := c.ResultsTimeout(Loaded(2), false);
    SecondPromptText();
    progress := c.ProgressText();
    recording := c.isRecording;
  }

  /** Module B: once the 5-second auto-advance has loaded the next
      sentence, the record button asks for it to be heard first; whatever
      the load gives, nothing is recording afterwards. */
  method AdvanceNeedsListening(c: Controller, load: LoadOutcome) returns (notice: Option<Notice>)
    requires c.Valid() && c.page == ModuleB && c.pendingAdvances > 0 && !c.isRecording
    modifies c`location, c`promptId, c`hasPlayedAudio, c`questionCount,
             c`resultsShown, c`isRecording, c`buttonDisabled, c`playDisabled, c`countdownTimer,
             c`recordingTimer, c`timeRemaining, c`pendingAdvances,
             c`recorder, c`streamHeld, c`chunks, c`arrivals, c`orphaned, c`elapsedShown,
             c`timeLeft, c`countdownNumber, c`pendingStops
    ensures c.Valid() && !c.isRecording
    ensures load.Loaded? && old(c.questionCount) < MaxQuestions(ModuleB) ==> notice == Some(ListenFirst)
  {
    var before := c.questionCount;
    notice := c.ResultsTimeout(load, false);
    if load.Loaded? && before < MaxQuestions(ModuleB) {
      notice := c.ToggleRecording(Granted);
    }
  }

  /** Module B: "Play Again" pressed before recording, then the microphone
      refused on the last countdown tick: `resetUI` enables the play button
      while the utterance is still speaking, and a press starts a new one. */
  method ReplayAfterRefusedStart(c: Controller) returns (refused: Option<Notice>, replayed: Option<Notice>)
    requires c.Valid() && c.page == ModuleB && c.speaking && c.countdownTimer == Armed && c.timeLeft == 1
    modifies c`isRecording, c`recorder, c`streamHeld, c`chunks, c`arrivals, c`orphaned,
             c`recordingTimer, c`timeRemaining, c`elapsedShown,
             c`buttonDisabled, c`playDisabled, c`countdownTimer, c`timeLeft, c`countdownNumber, c`speaking
    ensures c.Valid()
    ensures refused == Some(MicrophoneDenied) && replayed == None
    ensures !c.isRecording && c.speaking && c.playDisabled
  {
    refused := c.CountdownTick(Refused("NotAllowedError"));
    replayed := c.PlayAudio(true);
  }
}
