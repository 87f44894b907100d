/**
 * The experiment window as the object it is: its fields are the counters,
 * the button, the registered callbacks and what it has written or played,
 * and each method changes them as the window's method of the same name does.
 * Every method is proved to do what the matching step function of `Flow`
 * describes, so the properties proved in `FlowProperties` hold of the object.
 */
module Experiment {
  import opened Basics
  import opened Protocol
  import opened Stereo
  import opened Flow

  class RhythmExperimentGUI {
    const complexity: Complexity
    const firstEar: Ear
    const sequenceOrder: Order

    var currentTrial: int
    var currentStimulus: int
    var remainingTime: int
    var button: Command
    var buttonShown: bool
    var pending: seq<Scheduled>
    var nextId: nat
    var timerId: Option<nat>
    var outputDir: Option<string>
    var allocation: Option<string>
    var rhythm: seq<nat>
    var stimulus: seq<real>
    var played: seq<Frame>
    var destroyed: bool

    /** The session's random draws. */
    function Draws(): Assignment {
      Assignment(complexity, firstEar, sequenceOrder)
    }

    ghost function State(): Gui
      reads this
    {
      Gui(currentTrial, currentStimulus, remainingTime, button, buttonShown, pending, nextId, timerId,
          outputDir, allocation, rhythm, stimulus, played, destroyed)
    }

    /** `__init__` with `setup_experiment`'s three random choices passed in. */
    constructor (complexity: Complexity, firstEar: Ear, sequenceOrder: Order)
      ensures Draws() == Assignment(complexity, firstEar, sequenceOrder)
      ensures State() == Initial()
    {
      this.complexity, this.firstEar, this.sequenceOrder := complexity, firstEar, sequenceOrder;
      currentTrial, currentStimulus, remainingTime := 0, 1, 0;
      button, buttonShown := Command.StartExperiment, true;
      pending, nextId, timerId := [], 0, None;
      outputDir, allocation := None, None;
      rhythm, stimulus, played := [], [], [];
      destroyed := false;
    }

    /** `master.after(1000, cb)`, returning the id tkinter hands back. */
    method After(cb: Callback) returns (id: nat)
      modifies this
      ensures id == old(nextId)
      ensures State() == Schedule(old(State()), cb)
    {
      id := nextId;
      pending := pending + [Scheduled(id, cb)];
      nextId := nextId + 1;
    }

    method StartExperiment()
      modifies this
      ensures State() == StartExperimentStep(old(State()))
    {
      button := Command.ValidateParticipantId;
    }

    method ValidateParticipantId(pid: string)
      modifies this
      ensures State() == ValidateParticipantIdStep(Draws(), old(State()), pid)
    {
      if !ValidParticipantId(pid) {
        return;
      }
      outputDir := Some("output/" + pid);
      allocation := Some(AllocationText(Draws()));
      button := Command.ShowTappingInstructions;
    }

    method ShowTappingInstructions()
      modifies this
      ensures State() == ShowTappingInstructionsStep(old(State()))
    {
      button := Command.StartHeadphoneCheck;
    }

    method StartHeadphoneCheck()
      modifies this
      ensures State() == StartHeadphoneCheckStep(old(State()))
    {
      button := Command.CheckRightEar;
    }

    method CheckRightEar(env: Env)
      modifies this
      ensures State() == CheckRightEarStep(Draws(), old(State()), env)
    {
      buttonShown := false;
      PerformEarCheck(Right, env);
    }

    method CheckLeftEar()
      modifies this
      ensures State() == CheckLeftEarStep(old(State()))
    {
      button, buttonShown := Command.PerformLeftCheck, true;
    }

    method PerformLeftCheck(env: Env)
      modifies this
      ensures State() == PerformLeftCheckStep(Draws(), old(State()), env)
    {
      buttonShown := false;
      PerformEarCheck(Left, env);
    }

    /** Plays the ear-check tone to one ear and judges the recording's peaks. */
    method PerformEarCheck(ear: Ear, env: Env)
      modifies this
      ensures State() == EarCheckStep(Draws(), old(State()), ear, env)
    {
      var stereo := RouteToEar(EarCheckAudio(env.earCheckTone), ear);
      played := Frames(stereo);
      if TapDetected(env.earCheckPeaks, EarCheckRate) {
        if ear == Right {
          CheckLeftEar();
        } else {
          StartRhythmPractice(env);
        }
      } else {
        button := if ear == Right then Command.CheckRightEar else Command.PerformLeftCheck;
        buttonShown := true;
      }
    }

    method StartRhythmPractice(env: Env)
      modifies this
      ensures State() == StartRhythmPracticeStep(Draws(), old(State()), env)
    {
      rhythm := RhythmFor(Draws(), currentStimulus);
      stimulus := env.prepare(rhythm);
      button, buttonShown := Command.PlayPractice, true;
    }

    /** Hides the button; the playback thread ends by registering `start_trials`. */
    method PlayPractice()
      modifies this
      ensures State() == PlayPracticeStep(old(State()))
    {
      buttonShown := false;
      var _ := After(StartTrialsLater);
    }

    method StartTrials()
      modifies this
      ensures State() == StartTrialsStep(old(State()))
    {
      currentTrial := 0;
      button, buttonShown := Command.RunTrial, true;
    }

    method RunTrial(env: Env)
      modifies this
      ensures State() == RunTrialStep(Draws(), old(State()), env)
      decreases Closing(currentTrial), 0
    {
      buttonShown := false;
      if currentTrial < TrialsPerStimulus {
        var ear := StimulusEar(firstEar, currentStimulus);
        var stereo := RouteToEar(stimulus, ear);
        played := Frames(stereo);
        if !env.analysisRaised {
          currentTrial := currentTrial + 1;
          if currentTrial == MidBlockTrial {
            TakeBreak(ShortBreak, env);
          } else if currentTrial == TrialsPerStimulus {
            if currentStimulus == 1 {
              TakeBreak(LongBreak, env);
            } else {
              ExperimentComplete();
            }
          } else {
            var _ := After(RunTrialLater);
          }
        } else {
          button, buttonShown := Command.RunTrial, true;
        }
      }
    }

    method TakeBreak(duration: int, env: Env)
      modifies this
      ensures State() == TakeBreakStep(Draws(), old(State()), duration, env)
      decreases Closing(currentTrial), 3
    {
      remainingTime := duration;
      UpdateBreakTimer(env);
    }

    method UpdateBreakTimer(env: Env)
      modifies this
      ensures State() == UpdateBreakTimerStep(Draws(), old(State()), env)
      decreases Closing(currentTrial), 2
    {
      if remainingTime > 0 {
        remainingTime := remainingTime - 1;
        var id := After(BreakTimerTick);
        timerId := Some(id);
      } else {
        ContinueAfterBreak(env);
      }
      button, buttonShown := Command.ContinueAfterBreak, true;
    }

    method ContinueAfterBreak(env: Env)
      modifies this
      ensures State() == ContinueAfterBreakStep(Draws(), old(State()), env)
      decreases Closing(currentTrial), 1
    {
      if timerId.Some? {
        pending := Cancel(pending, timerId.value);
      }
      if currentTrial == MidBlockTrial {
        RunTrial(env);
      } else {
        currentStimulus := 2;
        StartRhythmPractice(env);
      }
    }

    method ExperimentComplete()
      modifies this
      ensures State() == ExperimentCompleteStep(old(State()))
    {
      button, buttonShown := Command.Destroy, true;
    }

    /** A click on the button: runs its command if the button is on the grid. */
    method Click(pid: string, env: Env)
      modifies this
      ensures State() == ClickStep(Draws(), old(State()), pid, env)
    {
      if !buttonShown || destroyed {
        return;
      }
      match button
      case StartExperiment => StartExperiment();
      case ValidateParticipantId => ValidateParticipantId(pid);
      case ShowTappingInstructions => ShowTappingInstructions();
      case StartHeadphoneCheck => StartHeadphoneCheck();
      case CheckRightEar => CheckRightEar(env);
      case PerformLeftCheck => PerformLeftCheck(env);
      case PlayPractice => PlayPractice();
      case RunTrial => RunTrial(env);
      case ContinueAfterBreak => ContinueAfterBreak(env);
      case Destroy => destroyed := true;
    }

    /** The main loop runs the k-th registered callback. */
    method Fire(k: nat, env: Env)
      requires k < |pending|
      modifies this
      ensures State() == FireStep(Draws(), old(State()), k, env)
    {
      if destroyed {
        return;
      }
      var cb := pending[k].callback;
      pending := pending[..k] + pending[k + 1..];
      match cb
      case RunTrialLater => RunTrial(env);
      case BreakTimerTick => UpdateBreakTimer(env);
      case StartTrialsLater => StartTrials();
    }
  }
}
