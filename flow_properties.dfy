/** What the experiment's control flow promises, stated over the step functions of `Flow`. */
module FlowProperties {
  import opened Basics
  import opened Protocol
  import opened Stereo
  import opened Flow

  /**
   * The reachable-state invariant: the counters are in range and the rhythm
   * loaded for practice and trials is the current stimulus's rhythm.
   */
  predicate Consistent(a: Assignment, g: Gui) {
    && Inv(g)
    && (g.rhythm == [] || g.rhythm == RhythmFor(a, g.currentStimulus))
    && IdsFresh(g)
  }

  /**
   * Callback ids as `after` hands them out: every pending id and the recorded
   * timer id lie below the next id to be handed out, and no two pending
   * callbacks share an id.
   */
  predicate IdsFresh(g: Gui) {
    && (forall s :: s in g.pending ==> s.id < g.nextId)
    && (g.timerId.Some? ==> g.timerId.value < g.nextId)
    && (forall s, t :: s in g.pending && t in g.pending && s.id == t.id ==> s == t)
  }

  /**
   * With fresh ids, cancelling the timer removes at most one pending
   * callback, and never one registered after the timer.
   */
  lemma CancelDropsOnlyTimer(g: Gui)
    requires IdsFresh(g) && g.timerId.Some?
    ensures forall s, u ::
      (s in g.pending && u in g.pending &&
       s !in Cancel(g.pending, g.timerId.value) && u !in Cancel(g.pending, g.timerId.value)) ==> s == u
    ensures forall s :: s in g.pending && s.id > g.timerId.value ==> s in Cancel(g.pending, g.timerId.value)
  {
  }

  /** A break of `duration` seconds has begun: one second counted, the next tick registered, Continue offered. */
  predicate BreakStarted(g: Gui, h: Gui, duration: int) {
    && h.remainingTime == duration - 1
    && h.timerId == Some(g.nextId)
    && h.pending == g.pending + [Scheduled(g.nextId, BreakTimerTick)]
    && h.button == ContinueAfterBreak && h.buttonShown
  }

  lemma InitialConsistent(a: Assignment)
    ensures Consistent(a, Initial())
  {
  }

  lemma {:induction false} RunTrialConsistent(a: Assignment, g: Gui, env: Env)
    requires Consistent(a, g)
    ensures Consistent(a, RunTrialStep(a, g, env))
    decreases Closing(g.currentTrial), 0
  {
    if g.currentTrial < TrialsPerStimulus && !env.analysisRaised {
      var g3 := g.(buttonShown := false,
                   played := StereoLayout(g.stimulus, StimulusEar(a.firstEar, g.currentStimulus)),
                   currentTrial := g.currentTrial + 1);
      if g3.currentTrial == MidBlockTrial {
        TakeBreakConsistent(a, g3, ShortBreak, env);
      } else if g3.currentTrial == TrialsPerStimulus && g3.currentStimulus == 1 {
        TakeBreakConsistent(a, g3, LongBreak, env);
      }
    }
  }

  lemma {:induction false} TakeBreakConsistent(a: Assignment, g: Gui, duration: int, env: Env)
    requires Consistent(a, g) && duration >= 0
    ensures Consistent(a, TakeBreakStep(a, g, duration, env))
    decreases Closing(g.currentTrial), 3
  {
    UpdateBreakTimerConsistent(a, g.(remainingTime := duration), env);
  }

  lemma {:induction false} UpdateBreakTimerConsistent(a: Assignment, g: Gui, env: Env)
    requires Consistent(a, g)
    ensures Consistent(a, UpdateBreakTimerStep(a, g, env))
    decreases Closing(g.currentTrial), 2
  {
    if g.remainingTime <= 0 {
      ContinueAfterBreakConsistent(a, g, env);
    }
  }

  lemma {:induction false} ContinueAfterBreakConsistent(a: Assignment, g: Gui, env: Env)
    requires Consistent(a, g)
    ensures Consistent(a, ContinueAfterBreakStep(a, g, env))
    decreases Closing(g.currentTrial), 1
  {
    var g1 := if g.timerId.Some? then g.(pending := Cancel(g.pending, g.timerId.value)) else g;
    if g1.currentTrial == MidBlockTrial {
      RunTrialConsistent(a, g1, env);
    }
  }

  /** Whatever the user clicks and the devices answer, the window stays consistent. */
  lemma ClickConsistent(a: Assignment, g: Gui, pid: string, env: Env)
    requires Consistent(a, g)
    ensures Consistent(a, ClickStep(a, g, pid, env))
  {
    if g.buttonShown && !g.destroyed {
      match g.button
      case RunTrial => RunTrialConsistent(a, g, env);
      case ContinueAfterBreak => ContinueAfterBreakConsistent(a, g, env);
      case _ =>
    }
  }

  /** Whichever registered callback fires, the window stays consistent. */
  lemma FireConsistent(a: Assignment, g: Gui, k: nat, env: Env)
    requires Consistent(a, g) && k < |g.pending|
    ensures Consistent(a, FireStep(a, g, k, env))
  {
    if !g.destroyed {
      var g1 := g.(pending := g.pending[..k] + g.pending[k + 1..]);
      match g.pending[k].callback
      case RunTrialLater => RunTrialConsistent(a, g1, env);
      case BreakTimerTick => UpdateBreakTimerConsistent(a, g1, env);
      case StartTrialsLater =>
    }
  }

  /**
   * A trial whose analysis step raises nothing counts exactly one trial, even
   * one REPP judges failed, and plays the stimulus to the
   * stimulus's ear; after the 6th trial a 15 s break starts, after the 12th a
   * 120 s break on stimulus 1 and the end of the experiment on stimulus 2,
   * and otherwise the next trial is registered.
   */
  lemma TrialCounted(a: Assignment, g: Gui, env: Env)
    requires Inv(g) && g.currentTrial < TrialsPerStimulus && !env.analysisRaised
    ensures var h := RunTrialStep(a, g, env);
      && h.currentTrial == g.currentTrial + 1
      && h.currentStimulus == g.currentStimulus
      && h.rhythm == g.rhythm
      && h.played == StereoLayout(g.stimulus, StimulusEar(a.firstEar, g.currentStimulus))
      && (h.currentTrial == 6 ==> BreakStarted(g, h, 15))
      && (h.currentTrial == 12 && g.currentStimulus == 1 ==> BreakStarted(g, h, 120))
      && (h.currentTrial == 12 && g.currentStimulus == 2 ==>
            h.button == Destroy && h.buttonShown && h.pending == g.pending)
      && (h.currentTrial != 6 && h.currentTrial != 12 ==>
            !h.buttonShown && h.pending == g.pending + [Scheduled(g.nextId, RunTrialLater)])
  {
    var g3 := g.(buttonShown := false,
                 played := StereoLayout(g.stimulus, StimulusEar(a.firstEar, g.currentStimulus)),
                 currentTrial := g.currentTrial + 1);
    if g3.currentTrial == MidBlockTrial {
      BreakTimerTicks(a, g3.(remainingTime := ShortBreak), env);
    } else if g3.currentTrial == TrialsPerStimulus && g3.currentStimulus == 1 {
      BreakTimerTicks(a, g3.(remainingTime := LongBreak), env);
    }
  }

  /** When the analysis step raises, nothing is counted and the same trial is offered again. */
  lemma RaisedTrialRetries(a: Assignment, g: Gui, env: Env)
    requires g.currentTrial < TrialsPerStimulus && env.analysisRaised
    ensures var h := RunTrialStep(a, g, env);
      && h.currentTrial == g.currentTrial
      && h.currentStimulus == g.currentStimulus
      && h.remainingTime == g.remainingTime
      && h.pending == g.pending
      && h.played == StereoLayout(g.stimulus, StimulusEar(a.firstEar, g.currentStimulus))
      && h.button == RunTrial && h.buttonShown
  {
  }

  /** A trial whose analysis raised, retried without an exception, counts once. */
  lemma RetryThenCount(a: Assignment, g: Gui, pid: string, raising: Env, clean: Env)
    requires Inv(g) && !g.destroyed && g.currentTrial < TrialsPerStimulus
    requires raising.analysisRaised && !clean.analysisRaised
    ensures ClickStep(a, RunTrialStep(a, g, raising), pid, clean).currentTrial == g.currentTrial + 1
  {
    var h := RunTrialStep(a, g, raising);
    RaisedTrialRetries(a, g, raising);
    TrialCounted(a, h, clean);
  }

  /** Once 12 trials are counted, running a trial only hides the button. */
  lemma NoThirteenthTrial(a: Assignment, g: Gui, env: Env)
    requires g.currentTrial >= TrialsPerStimulus
    ensures RunTrialStep(a, g, env) == g.(buttonShown := false)
  {
  }

  /**
   * While time remains, a tick counts down one second and registers the
   * next; at 0 it continues as `continue_after_break` does, and in both cases
   * the Continue button is shown afterwards.
   */
  lemma BreakTimerTicks(a: Assignment, g: Gui, env: Env)
    ensures var h := UpdateBreakTimerStep(a, g, env);
      && h.button == ContinueAfterBreak && h.buttonShown
      && (g.remainingTime > 0 ==>
            && h.remainingTime == g.remainingTime - 1
            && h.currentTrial == g.currentTrial && h.currentStimulus == g.currentStimulus
            && h.pending == g.pending + [Scheduled(g.nextId, BreakTimerTick)]
            && h.timerId == Some(g.nextId))
      && (g.remainingTime <= 0 ==>
            h == ContinueAfterBreakStep(a, g, env).(button := ContinueAfterBreak, buttonShown := true))
  {
  }

  /** The main loop firing the most recently registered callback `n` times in a row. */
  function FireLatest(a: Assignment, g: Gui, env: Env, n: nat): Gui
    decreases n
  {
    if n == 0 || g.pending == [] then g
    else FireLatest(a, FireStep(a, g, |g.pending| - 1, env), env, n - 1)
  }

  /** Each of n ticks takes one second off the timer and registers the next tick. */
  lemma {:induction false} TicksCountDown(a: Assignment, g: Gui, env: Env, n: nat)
    requires !g.destroyed && g.remainingTime >= n
    requires g.pending != [] && g.pending[|g.pending| - 1].callback == BreakTimerTick
    ensures var h := FireLatest(a, g, env, n);
      && h.remainingTime == g.remainingTime - n
      && h.currentTrial == g.currentTrial && h.currentStimulus == g.currentStimulus
      && !h.destroyed
      && h.pending != [] && h.pending[|h.pending| - 1].callback == BreakTimerTick
    decreases n
  {
    if n > 0 {
      var k := |g.pending| - 1;
      var g1 := g.(pending := g.pending[..k] + g.pending[k + 1..]);
      BreakTimerTicks(a, g1, env);
      TicksCountDown(a, FireStep(a, g, k, env), env, n - 1);
    }
  }

  /**
   * A break of d seconds runs out on its own: taking the break counts the
   * first second, d - 1 further ticks bring the timer to 0, and the tick
   * after that continues the experiment.
   */
  lemma BreakRunsOut(a: Assignment, g: Gui, d: nat, env: Env)
    requires !g.destroyed && d >= 1
    ensures var h := FireLatest(a, TakeBreakStep(a, g, d, env), env, d - 1);
      && h.remainingTime == 0
      && h.currentTrial == g.currentTrial && h.currentStimulus == g.currentStimulus
      && h.pending != []
      && FireStep(a, h, |h.pending| - 1, env) ==
         ContinueAfterBreakStep(a, h.(pending := h.pending[..|h.pending| - 1]), env)
           .(button := ContinueAfterBreak, buttonShown := true)
  {
    var t := TakeBreakStep(a, g, d, env);
    BreakTimerTicks(a, g.(remainingTime := d), env);
    TicksCountDown(a, t, env, d - 1);
    var h := FireLatest(a, t, env, d - 1);
    var k := |h.pending| - 1;
    assert h.pending[..k] + h.pending[k + 1..] == h.pending[..k];
    BreakTimerTicks(a, h.(pending := h.pending[..k]), env);
  }

  /**
   * Continuing after the mid-block break resumes the same stimulus's trials;
   * continuing after any other break moves to stimulus 2 and its rhythm and
   * offers its practice. The timer's tick is gone from the pending callbacks
   * either way; after the mid-block break this rests on fresh ids, since the
   * resumed trial registers a callback of its own.
   */
  lemma ContinueResumesOrSwitches(a: Assignment, g: Gui, env: Env)
    requires Inv(g)
    ensures var h := ContinueAfterBreakStep(a, g, env);
      && (g.currentTrial == 6 ==>
            && h.currentStimulus == g.currentStimulus
            && (!env.analysisRaised ==> h.currentTrial == 7)
            && (IdsFresh(g) && g.timerId.Some? ==> forall s :: s in h.pending ==> s.id != g.timerId.value))
      && (g.currentTrial != 6 ==>
            && h.currentStimulus == 2 && h.currentTrial == g.currentTrial
            && h.rhythm == RhythmFor(a, 2)
            && h.button == PlayPractice && h.buttonShown
            && (g.timerId.Some? ==> forall s :: s in h.pending ==> s.id != g.timerId.value))
  {
    if g.currentTrial == 6 {
      var g1 := if g.timerId.Some? then g.(pending := Cancel(g.pending, g.timerId.value)) else g;
      if !env.analysisRaised {
        TrialCounted(a, g1, env);
      }
    }
  }

  /** Starting the trials always starts counting from trial 0. */
  lemma StartTrialsResets(g: Gui)
    ensures StartTrialsStep(g).currentTrial == 0
    ensures StartTrialsStep(g).button == RunTrial && StartTrialsStep(g).buttonShown
  {
  }

  /** A refused participant ID changes nothing; an accepted one records the allocation label. */
  lemma ParticipantIdGate(a: Assignment, g: Gui, pid: string)
    ensures !ValidParticipantId(pid) ==> ValidateParticipantIdStep(a, g, pid) == g
    ensures ValidParticipantId(pid) ==>
      && ValidateParticipantIdStep(a, g, pid).allocation == Some(AllocationText(a))
      && ValidateParticipantIdStep(a, g, pid).outputDir == Some("output/" + pid)
      && ParseAllocation(ValidateParticipantIdStep(a, g, pid).allocation.value) == Some(a)
  {
    AllocationRoundTrip(a);
  }

  /**
   * The ear check plays the tone to the ear under test only; a tap in the
   * first second of the recording (within 0.25 s of the tone's start, which
   * follows 0.75 s of silence) passes the right ear on to the left ear and the left ear
   * on to the practice, and no tap offers the same check again.
   */
  lemma EarCheckOutcome(a: Assignment, g: Gui, ear: Ear, env: Env)
    ensures var h := EarCheckStep(a, g, ear, env);
      && h.played == StereoLayout(EarCheckAudio(env.earCheckTone), ear)
      && h.buttonShown
      && h.currentTrial == g.currentTrial
      && ((exists i :: 0 <= i < |env.earCheckPeaks| && 0 < env.earCheckPeaks[i] < EarCheckRate as int) ==>
            h.button == (if ear == Right then PerformLeftCheck else PlayPractice))
      && ((forall i :: 0 <= i < |env.earCheckPeaks| ==> !(0 < env.earCheckPeaks[i] < EarCheckRate as int)) ==>
            h.button == (if ear == Right then CheckRightEar else PerformLeftCheck))
  {
    TapDetectedIff(env.earCheckPeaks, EarCheckRate);
  }

  /**
   * When the 15 s break runs out by itself, trial 7 runs at once and the
   * timer then shows Continue again; clicking it before the next trial's
   * callback fires abandons stimulus 1 after 7 of its 12 trials.
   */
  lemma ExpiredMidBlockBreakLeavesContinueArmed(a: Assignment, g: Gui, env: Env)
    requires Inv(g) && g.currentTrial == 6 && g.remainingTime == 0 && g.currentStimulus == 1
    requires !env.analysisRaised
    ensures var h := UpdateBreakTimerStep(a, g, env);
      && h.currentTrial == 7
      && h.button == ContinueAfterBreak && h.buttonShown
      && ContinueAfterBreakStep(a, h, env).currentStimulus == 2
      && ContinueAfterBreakStep(a, h, env).currentTrial == 7
  {
    var g1 := if g.timerId.Some? then g.(pending := Cancel(g.pending, g.timerId.value)) else g;
    TrialCounted(a, g1, env);
  }
}
