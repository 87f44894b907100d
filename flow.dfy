/**
 * The desktop experiment's control flow as functions on a snapshot of its
 * state. Each function is what one method of the experiment window does to
 * that state; the window's class is proved against them, and the lemmas
 * of `FlowProperties` state what the trial, break and retry logic promises.
 *
 * Events are the two things tkinter can do next: a click on the one
 * `next_button`, which runs the command it was last configured with if it is
 * on the grid, and the firing of a callback registered with `master.after`.
 * The ear-check tone's samples, the peaks detected in the recording, REPP's
 * stimulus preparation and whether anything in the analysis `try` of
 * `run_trial` raised are the inputs an event receives in `Env`.
 */
module Flow {
  import opened Basics
  import opened Protocol
  import opened Stereo

  /** The commands `next_button` can be configured with. */
  datatype Command =
    | StartExperiment
    | ValidateParticipantId
    | ShowTappingInstructions
    | StartHeadphoneCheck
    | CheckRightEar
    | PerformLeftCheck
    | PlayPractice
    | RunTrial
    | ContinueAfterBreak
    | Destroy

  /** The callbacks registered with `master.after`. */
  datatype Callback = RunTrialLater | BreakTimerTick | StartTrialsLater

  /** A registered callback and the id `after` returned for it. */
  datatype Scheduled = Scheduled(id: nat, callback: Callback)

  /**
   * What the outside world answers during one event. `analysisRaised` says
   * whether something in the analysis `try` of `run_trial` raised; REPP's
   * own `is_failed` verdict is not consulted by the window.
   */
  datatype Env = Env(
    earCheckTone: seq<real>,
    earCheckPeaks: seq<int>,
    prepare: seq<nat> -> seq<real>,
    analysisRaised: bool)

  /** The window's state: its counters, its button, its pending callbacks and what it wrote or played. */
  datatype Gui = Gui(
    currentTrial: int,
    currentStimulus: int,
    remainingTime: int,
    button: Command,
    buttonShown: bool,
    pending: seq<Scheduled>,
    nextId: nat,
    timerId: Option<nat>,
    outputDir: Option<string>,
    allocation: Option<string>,
    rhythm: seq<nat>,
    stimulus: seq<real>,
    played: seq<Frame>,
    destroyed: bool)

  const TrialsPerStimulus := 12
  const MidBlockTrial := 6
  const ShortBreak := 15
  const LongBreak := 120

  /** The state `__init__` leaves: trial 0 of stimulus 1, the Start button showing. */
  function Initial(): Gui {
    Gui(0, 1, 0, StartExperiment, true, [], 0, None, None, None, [], [], [], false)
  }

  /** The counters stay in range: trial 0 to 12, stimulus 1 or 2, a non-negative break timer. */
  predicate Inv(g: Gui) {
    && 0 <= g.currentTrial <= TrialsPerStimulus
    && (g.currentStimulus == 1 || g.currentStimulus == 2)
    && g.remainingTime >= 0
  }

  /**
   * 1 when the next successful trial ends a half block, 0 otherwise: the
   * measure that bounds run_trial -> take_break -> update_break_timer ->
   * continue_after_break -> run_trial, which never goes round twice.
   */
  function Closing(currentTrial: int): nat {
    if currentTrial == MidBlockTrial - 1 || currentTrial == TrialsPerStimulus - 1 then 1 else 0
  }

  /** `master.after(1000, callback)`. */
  function Schedule(g: Gui, cb: Callback): Gui {
    g.(pending := g.pending + [Scheduled(g.nextId, cb)], nextId := g.nextId + 1)
  }

  /** `master.after_cancel(id)`: drops the callback if it has not fired yet. */
  function Cancel(p: seq<Scheduled>, id: nat): (r: seq<Scheduled>)
    ensures forall s :: s in r <==> s in p && s.id != id
  {
    if p == [] then []
    else
      assert forall s :: s in p <==> s == p[0] || s in p[1..];
      (if p[0].id == id then [] else [p[0]]) + Cancel(p[1..], id)
  }

  function StartExperimentStep(g: Gui): Gui {
    g.(button := ValidateParticipantId)
  }

  /**
   * An invalid ID leaves everything as it was; a valid one creates the output
   * directory and the allocation file. The directory is joined with the POSIX
   * separator `/` that `os.path.join` uses there.
   */
  function ValidateParticipantIdStep(a: Assignment, g: Gui, pid: string): Gui {
    if !ValidParticipantId(pid) then g
    else g.(outputDir := Some("output/" + pid), allocation := Some(AllocationText(a)),
            button := ShowTappingInstructions)
  }

  function ShowTappingInstructionsStep(g: Gui): Gui {
    g.(button := StartHeadphoneCheck)
  }

  function StartHeadphoneCheckStep(g: Gui): Gui {
    g.(button := CheckRightEar)
  }

  function CheckLeftEarStep(g: Gui): Gui {
    g.(button := PerformLeftCheck, buttonShown := true)
  }

  /** Prepares the current stimulus's rhythm and offers its practice playback. */
  function StartRhythmPracticeStep(a: Assignment, g: Gui, env: Env): Gui {
    var r := RhythmFor(a, g.currentStimulus);
    g.(rhythm := r, stimulus := env.prepare(r), button := PlayPractice, buttonShown := true)
  }

  /**
   * `perform_ear_check`: the tone goes to one ear; a tap found in the window
   * moves from the right ear to the left ear and from the left ear to the
   * practice, and no tap offers the same check again.
   */
  function EarCheckStep(a: Assignment, g: Gui, ear: Ear, env: Env): Gui {
    var g1 := g.(played := StereoLayout(EarCheckAudio(env.earCheckTone), ear));
    if TapDetected(env.earCheckPeaks, EarCheckRate) then
      if ear == Right then CheckLeftEarStep(g1) else StartRhythmPracticeStep(a, g1, env)
    else
      g1.(button := if ear == Right then CheckRightEar else PerformLeftCheck, buttonShown := true)
  }

  function CheckRightEarStep(a: Assignment, g: Gui, env: Env): Gui {
    EarCheckStep(a, g.(buttonShown := false), Right, env)
  }

  function PerformLeftCheckStep(a: Assignment, g: Gui, env: Env): Gui {
    EarCheckStep(a, g.(buttonShown := false), Left, env)
  }

  /** The practice thread plays twice and then registers `start_trials`. */
  function PlayPracticeStep(g: Gui): Gui {
    Schedule(g.(buttonShown := false), StartTrialsLater)
  }

  function StartTrialsStep(g: Gui): Gui {
    g.(currentTrial := 0, button := RunTrial, buttonShown := true)
  }

  function ExperimentCompleteStep(g: Gui): Gui {
    g.(button := Destroy, buttonShown := true)
  }

  /**
   * `run_trial`: below 12 trials, plays the stimulus to the stimulus's ear;
   * an exception from the analysis step offers the same trial again;
   * otherwise the trial counts, whatever REPP's own verdict on it, and the
   * window then breaks, finishes or registers the next trial.
   */
  function RunTrialStep(a: Assignment, g: Gui, env: Env): Gui
    decreases Closing(g.currentTrial), 0
  {
    var g1 := g.(buttonShown := false);
    if g.currentTrial >= TrialsPerStimulus then g1
    else
      var g2 := g1.(played := StereoLayout(g.stimulus, StimulusEar(a.firstEar, g.currentStimulus)));
      if env.analysisRaised then g2.(button := RunTrial, buttonShown := true)
      else
        var g3 := g2.(currentTrial := g.currentTrial + 1);
        if g3.currentTrial == MidBlockTrial then TakeBreakStep(a, g3, ShortBreak, env)
        else if g3.currentTrial == TrialsPerStimulus then
          if g3.currentStimulus == 1 then TakeBreakStep(a, g3, LongBreak, env)
          else ExperimentCompleteStep(g3)
        else Schedule(g3, RunTrialLater)
  }

  function TakeBreakStep(a: Assignment, g: Gui, duration: int, env: Env): Gui
    decreases Closing(g.currentTrial), 3
  {
    UpdateBreakTimerStep(a, g.(remainingTime := duration), env)
  }

  /**
   * `update_break_timer`: counts down one second and registers the next
   * tick, or at 0 runs `continue_after_break`; either way it then shows the
   * Continue button.
   */
  function UpdateBreakTimerStep(a: Assignment, g: Gui, env: Env): Gui
    decreases Closing(g.currentTrial), 2
  {
    var g1 :=
      if g.remainingTime > 0 then
        Schedule(g.(remainingTime := g.remainingTime - 1), BreakTimerTick).(timerId := Some(g.nextId))
      else ContinueAfterBreakStep(a, g, env);
    g1.(button := ContinueAfterBreak, buttonShown := true)
  }

  /**
   * `continue_after_break`: cancels the timer, then resumes the trials after
   * the sixth one, and otherwise moves on to stimulus 2 and its practice.
   */
  function ContinueAfterBreakStep(a: Assignment, g: Gui, env: Env): Gui
    decreases Closing(g.currentTrial), 1
  {
    var g1 := if g.timerId.Some? then g.(pending := Cancel(g.pending, g.timerId.value)) else g;
    if g1.currentTrial == MidBlockTrial then RunTrialStep(a, g1, env)
    else StartRhythmPracticeStep(a, g1.(currentStimulus := 2), env)
  }

  /** A click runs the button's command when the button is on the grid and the window is alive. */
  function ClickStep(a: Assignment, g: Gui, pid: string, env: Env): Gui {
    if !g.buttonShown || g.destroyed then g
    else
      match g.button
      case StartExperiment => StartExperimentStep(g)
      case ValidateParticipantId => ValidateParticipantIdStep(a, g, pid)
      case ShowTappingInstructions => ShowTappingInstructionsStep(g)
      case StartHeadphoneCheck => StartHeadphoneCheckStep(g)
      case CheckRightEar => CheckRightEarStep(a, g, env)
      case PerformLeftCheck => PerformLeftCheckStep(a, g, env)
      case PlayPractice => PlayPracticeStep(g)
      case RunTrial => RunTrialStep(a, g, env)
      case ContinueAfterBreak => ContinueAfterBreakStep(a, g, env)
      case Destroy => g.(destroyed := true)
  }

  /** The k-th pending callback fires: it leaves the queue and runs. */
  function FireStep(a: Assignment, g: Gui, k: nat, env: Env): Gui
    requires k < |g.pending|
  {
    if g.destroyed then g
    else
      var g1 := g.(pending := g.pending[..k] + g.pending[k + 1..]);
      match g.pending[k].callback
      case RunTrialLater => RunTrialStep(a, g1, env)
      case BreakTimerTick => UpdateBreakTimerStep(a, g1, env)
      case StartTrialsLater => StartTrialsStep(g1)
  }
}
