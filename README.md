# Cognitive Rhythm Experiment — a Dafny model of its decision logic

The Cognitive Rhythm Experiment measures how well participants tap in time
with rhythms played to one ear. This model covers two parts of it.

**The desktop program** (`New_experiment.py`, class `RhythmExperimentGUI`)
works as follows:

- It draws a complexity level, a first ear and a rhythm order for the session.
- It checks a nine-digit participant ID and writes an allocation label.
- It checks each earbud: a 440 Hz tone plays after 0.75 s of silence, and the
  participant must tap within the first second of the recording, that is
  within 0.25 s of the tone's start.
- For each of two stimuli, it plays a practice twice. It then records 12
  tapping trials.
- There is a 15 s break after the sixth trial of a stimulus and a 120 s break
  between the two stimuli.
- When something in a trial's analysis step raises, the same trial is
  offered again. A trial that REPP itself judges failed still counts.

The model of this part has three layers:

- `Protocol` and `Stereo` hold the pure decisions: counterbalancing, the ID
  check, the allocation label, the progress value, the tap window, and the
  routing of a mono signal into one column of a two-column buffer.
- `Flow` describes each window method as a function on a snapshot (`Gui`) of
  the window's state. `FlowProperties` proves what the trial, retry and break
  logic promises about those functions.
- `Experiment.RhythmExperimentGUI` is the window as a class. Its fields are
  updated in place, and each method is proved to do what its `Flow` function
  describes.

Events are of two kinds:

- a click on the single `next_button`, which runs the command it was last
  configured with, but only while the button is on the grid;
- the firing of a callback registered with `master.after`.

Any pending callback may fire next. The ear-check tone's samples, the peaks
detected in the recording, REPP's stimulus preparation and whether the
analysis step raised reach the model as parameters (`Flow.Env`).

**The Django web app** (`experiment/`) contributes these pieces:

- the reaction-time rule `calculate_reaction_time`;
- the `tap_times` format check of the tap-recording endpoint;
- the empty-input guard of the trial endpoint;
- the serializer check `validate_response`;
- the form check `clean_response`;
- the two admin list helpers that cut text at 75 characters.

Python's own judgements are modelled as Python makes them:

- Truthiness: `None`, `False`, `0`, `""` and empty containers are false.
- `isinstance(x, (int, float))` also accepts `True` and `False`.
- `min` keeps the first of equally good candidates.
- `int()` truncates toward zero.
- `str.strip()` removes the whitespace set of `str.isspace()`.

Two behaviours of the code are easy to miss:

- `calculate_reaction_time` is not a one-to-one matcher. It measures each
  response against its own nearest onset, so several responses can share one
  onset and other onsets may go unused (`Views.OnsetSharedByResponses`). A tie
  goes to the onset listed first (`Views.TieGoesToFirstListed`).
- Both the 15 s break and the 120 s break end by themselves when the timer
  reaches 0. `update_break_timer` then shows "Continue" again, even after it
  has already continued. After the mid-block break this means trial 7 runs at
  once, and a click on the re-armed button moves the session to stimulus 2
  after only 7 trials (`FlowProperties.ExpiredMidBlockBreakLeavesContinueArmed`).

## Model

| member | source | states |
|---|---|---|
| Views.NearestIndex | experiment/views.py:305 | the chosen onset is at least as near to the response as every onset, and strictly nearer than every onset listed before it (`min`'s first-wins rule) |
| Views.NearestIndexUnique | experiment/views.py:305 | only one index has those two properties, so `NearestIndex` is exactly `min`'s choice |
| Views.ClosestStimulus | experiment/views.py:305 | the scan returns the onset `min` picks: an element of the onsets, no farther from the response than any other |
| Views.ReactionTimes | experiment/views.py:302-308 | reference definition of `calculate_reaction_time`: each response minus its `min`-chosen onset, in response order; stated by `Views.CalculateReactionTime`, `CoincidentResponseIsZero`, `TieGoesToFirstListed` and `OnsetSharedByResponses` |
| Views.CalculateReactionTime | experiment/views.py:302-308 | one result per response, in order; each result is the response minus the onset `min` picks, which is no farther from it than any other onset |
| Views.CoincidentResponseIsZero | experiment/views.py:302-308 | a response that falls exactly on an onset has reaction time 0 |
| Views.TieGoesToFirstListed | experiment/views.py:305 | with two onsets exactly 0.5 from the response, the one listed first wins, whichever side it is on |
| Views.OnsetSharedByResponses | experiment/views.py:302-308 | matching is not one-to-one: two responses can both be measured against the same onset |
| Views.TapRecordPost | experiment/views.py:57-60 | a record is created exactly when `tap_times` is a list whose every item is an int, float or bool; otherwise the answer is 400 "Invalid tap_times data format" |
| Views.TapRecordEdgeCases | experiment/views.py:57-60 | an empty list and a list of booleans pass; a missing value and a list holding a string are rejected |
| Views.TrialPost | experiment/views.py:199-259 | 400 "Invalid data received" exactly when either value is missing or falsy; success exactly when both are non-empty lists of numbers, with the reaction times of their timestamps, one per tap; a 500 otherwise |
| JsonValue.Truthy | experiment/views.py:205 | Python truthiness of a decoded value: None, False, 0, 0.0, the empty string and empty containers are false; `Views.TrialPost` states the guard built on it |
| Serializers.ValidateResponse | experiment/serializers.py:26-30 | accepted exactly when the value is a list of ints, floats or bools; an accepted value is returned unchanged; a rejected one carries the validation message |
| Serializers.OneBadItemRejects | experiment/serializers.py:28 | a single item that is not a number rejects the whole list |
| Serializers.NonListRejected | experiment/serializers.py:28 | a value that is not a list is rejected |
| Serializers.EdgeCasesAccepted | experiment/serializers.py:28 | the empty list is accepted, and so are booleans |
| Serializers.ValidateIdempotent | experiment/serializers.py:26-30 | validating an accepted value again accepts it unchanged |
| Forms.LeftStripEmptyIffBlank | experiment/forms.py:49 | stripping the left end leaves nothing exactly when the text is all whitespace; what is left starts with a non-space |
| Forms.RightStripEmptyIffBlank | experiment/forms.py:49 | stripping the right end leaves nothing exactly when the text is all whitespace |
| Forms.Strip | experiment/forms.py:49 | `response.strip()` is empty exactly when the text is all whitespace |
| Forms.CleanResponse | experiment/forms.py:47-51 | rejected with "Response cannot be empty." exactly when the text is all whitespace (the empty text included); otherwise returned as it came in |
| Forms.CleanIdempotent | experiment/forms.py:47-51 | cleaning an accepted response again accepts the same text |
| Forms.CleanExamples | experiment/forms.py:47-51 | the empty text and a whitespace-only text are rejected; a padded word is kept with its padding |
| Admin.Shorten | experiment/admin.py:25 | text of at most 75 characters is kept; longer text becomes its first 75 characters and "...", 78 in all |
| Admin.ShortenBounded | experiment/admin.py:25 | the result never exceeds 78 characters and begins with the first 75 characters of the text |
| Admin.ShortenIdempotent | experiment/admin.py:25 | shortening twice gives the same as shortening once |
| Admin.SequenceDataDisplay | experiment/admin.py:24-25 | the JSON value itself when its `str` fits in 75 characters; otherwise the cut `str` with "..." |
| Admin.SequenceDisplayAgreesWithShorten | experiment/admin.py:24-25 | the value itself is returned only when cutting its `str` would change nothing; otherwise the result is exactly the cut `str` |
| Admin.ShortResponse | experiment/admin.py:66-68 | None stays None; a response of at most 75 characters is returned unchanged; a longer one is cut to 75 characters and "..." |
| Protocol.StimulusEar | New_experiment.py:316 | a stimulus is played to the first ear exactly when it is stimulus 1 |
| Protocol.RhythmFor | New_experiment.py:317 | a stimulus's rhythm is one of the drawn complexity's two rhythms and starts at 0 |
| Protocol.Counterbalanced | New_experiment.py:117-132 | stimulus 1 goes to the first ear and stimulus 2 to the other; the two stimuli use the two different rhythms of the drawn complexity; every rhythm starts at 0 |
| Protocol.ValidParticipantId | New_experiment.py:171 | nine characters, each a digit; its cases are stated by `Protocol.ParticipantIdExamples` and its use by `FlowProperties.ParticipantIdGate` |
| Protocol.ParticipantIdExamples | New_experiment.py:171 | exactly nine digits are accepted; eight, ten, none, or a letter among them are refused |
| Protocol.AllocationText | New_experiment.py:180 | the allocation label; `Protocol.AllocationRoundTrip` and `Protocol.AllocationCanonical` show it records the three draws and nothing else |
| Protocol.LabelSplits | New_experiment.py:180 | the allocation label is the complexity, "-stimulus", then a tail that reads back to the draws |
| Protocol.AllocationRoundTrip | New_experiment.py:180 | the allocation label records all three draws: reading it back gives them again |
| Protocol.AllocationCanonical | New_experiment.py:180 | every label the reader accepts is the allocation label of what it reads |
| Protocol.AllocationExample | New_experiment.py:180 | complex rhythms, order 1 and the left ear give "complex-stimulus2-leftear" |
| Protocol.Progress | New_experiment.py:227-233 | the progress value is in [0, 100) |
| Protocol.ProgressWraps | New_experiment.py:232 | 0 at trial 0, 50 at trial 6, and back to 0 at trial 12 |
| Protocol.Truncate | New_experiment.py:310-311 | reference definition of Python's `int()` on a float: truncation toward zero |
| Protocol.WindowStart | New_experiment.py:310 | reference definition of the window's lower bound `int((beat_time - 0.5) * fs)`; stated by `Protocol.TapDetectedIff` |
| Protocol.WindowEnd | New_experiment.py:311 | reference definition of the window's upper bound `int((beat_time + 0.5) * fs)`; stated by `Protocol.TapDetectedIff` |
| Protocol.PeaksInWindow | New_experiment.py:310-311 | a peak is kept exactly when it lies strictly inside the window; nothing is added |
| Protocol.TapDetected | New_experiment.py:309-313 | a tap is detected exactly when some peak lies strictly between the window's two bounds |
| Protocol.TapDetectedIff | New_experiment.py:309-313 | with the beat at 0.5 s the window is (0, fs); a tap is detected exactly when some peak lies strictly inside it |
| Protocol.WindowIsOpen | New_experiment.py:309-313 | peaks exactly at sample 0 or sample fs do not count; one at sample 1 does |
| Stereo.StereoLayout | New_experiment.py:385-391 | reference definition of the n-by-2 buffer `run_trial` builds for the stimulus (and `perform_ear_check` for the tone, lines 262-265): the signal in the ear's column, zeros in the other; stated by `Stereo.OneChannelOnly`, `EarsAreMirrored` and `RouteToEar` |
| Stereo.OneChannelOnly | New_experiment.py:384-391 | the ear's column carries the signal unchanged; the other column is all zeros; no sample is added or lost |
| Stereo.EarsAreMirrored | New_experiment.py:262-265 | the left-ear buffer is the right-ear buffer with its columns swapped |
| Stereo.RouteToEar | New_experiment.py:385-391 | the freshly built n-by-2 array holds exactly the ear's layout of the signal |
| Flow.Initial | New_experiment.py:100-106 | reference definition of the state `__init__` leaves; stated by `FlowProperties.InitialConsistent` and `Experiment.RhythmExperimentGUI.constructor` |
| Flow.Schedule | New_experiment.py:485 | reference definition of `master.after`: the callback is appended under the next id; stated by `Experiment.RhythmExperimentGUI.After` and used by `FlowProperties.CancelDropsOnlyTimer` |
| Flow.StartExperimentStep | New_experiment.py:162-166 | reference definition of `start_experiment`: the button now submits the participant ID; stated by `Experiment.RhythmExperimentGUI.StartExperiment` and `FlowProperties.ClickConsistent` |
| Flow.ValidateParticipantIdStep | New_experiment.py:169-201 | reference definition of `validate_participant_id`; stated by `FlowProperties.ParticipantIdGate` |
| Flow.ShowTappingInstructionsStep | New_experiment.py:203-215 | reference definition of `show_tapping_instructions`: the button now starts the headphone check; stated by `Experiment.RhythmExperimentGUI.ShowTappingInstructions` |
| Flow.StartHeadphoneCheckStep | New_experiment.py:217-225 | reference definition of `start_headphone_check`: the button now starts the right-ear check; stated by `Experiment.RhythmExperimentGUI.StartHeadphoneCheck` |
| Flow.CheckRightEarStep | New_experiment.py:235-237 | reference definition of `check_right_ear`: the button is hidden and the right ear is checked; stated by `FlowProperties.EarCheckOutcome` |
| Flow.CheckLeftEarStep | New_experiment.py:239-243 | reference definition of `check_left_ear`: the left-ear check is offered; stated by `FlowProperties.EarCheckOutcome` |
| Flow.PerformLeftCheckStep | New_experiment.py:245-247 | reference definition of `perform_left_check`: the button is hidden and the left ear is checked; stated by `FlowProperties.EarCheckOutcome` |
| Flow.PlayPracticeStep | New_experiment.py:336-351 | reference definition of `play_practice`: the button is hidden and `start_trials` is registered; stated by `Experiment.RhythmExperimentGUI.PlayPractice` and `FlowProperties.ClickConsistent` |
| Flow.ExperimentCompleteStep | New_experiment.py:531-543 | reference definition of `experiment_complete`: the button now closes the window; stated by `Experiment.RhythmExperimentGUI.ExperimentComplete` |
| Flow.Cancel | New_experiment.py:516-517 | cancelling drops exactly the callbacks with that id and keeps all others |
| Flow.RunTrialStep | New_experiment.py:371-496 | reference definition of `run_trial`; its behaviour is stated by `FlowProperties.TrialCounted`, `RaisedTrialRetries`, `NoThirteenthTrial` and `RunTrialConsistent` |
| Flow.TakeBreakStep | New_experiment.py:499-501 | reference definition of `take_break`; stated by `FlowProperties.BreakRunsOut` and `TakeBreakConsistent` |
| Flow.UpdateBreakTimerStep | New_experiment.py:503-513 | reference definition of `update_break_timer`; stated by `FlowProperties.BreakTimerTicks` and `TicksCountDown` |
| Flow.ContinueAfterBreakStep | New_experiment.py:515-528 | reference definition of `continue_after_break`; stated by `FlowProperties.ContinueResumesOrSwitches` |
| Flow.StartTrialsStep | New_experiment.py:353-368 | reference definition of `start_trials`; stated by `FlowProperties.StartTrialsResets` |
| Protocol.EarCheckAudio | New_experiment.py:253-260 | reference definition of the ear-check audio: 0.75 s of silence, the tone, 0.75 s of silence; stated by `FlowProperties.EarCheckOutcome` |
| Flow.EarCheckStep | New_experiment.py:249-283 | reference definition of `perform_ear_check`; stated by `FlowProperties.EarCheckOutcome` |
| Flow.StartRhythmPracticeStep | New_experiment.py:315-334 | reference definition of `start_rhythm_practice`: the current stimulus's rhythm and its prepared audio are loaded and the practice is offered |
| Flow.ClickStep | New_experiment.py:158-159 | a click runs the button's configured command, and only while the button is on the grid; stated by `FlowProperties.ClickConsistent` |
| Flow.FireStep | New_experiment.py:485 | a registered callback leaves the queue and runs; stated by `FlowProperties.FireConsistent` |
| FlowProperties.CancelDropsOnlyTimer | New_experiment.py:516-517 | with ids as `after` hands them out, cancelling the timer removes at most one pending callback and never one registered after it |
| FlowProperties.InitialConsistent | New_experiment.py:100-106 | the initial state satisfies the invariant |
| FlowProperties.RunTrialConsistent | New_experiment.py:371-496 | a trial keeps the counters in range, the loaded rhythm equal to the current stimulus's rhythm, and the callback ids fresh and distinct |
| FlowProperties.TakeBreakConsistent | New_experiment.py:499-501 | taking a break keeps that invariant |
| FlowProperties.UpdateBreakTimerConsistent | New_experiment.py:503-513 | a timer tick keeps that invariant |
| FlowProperties.ContinueAfterBreakConsistent | New_experiment.py:515-528 | continuing after a break keeps that invariant, including the switch to stimulus 2 and its rhythm |
| FlowProperties.ClickConsistent | New_experiment.py:158-159 | whatever the button does when clicked, the invariant holds afterwards |
| FlowProperties.FireConsistent | New_experiment.py:485 | whichever registered callback fires, the invariant holds afterwards |
| FlowProperties.TrialCounted | New_experiment.py:474-485 | a trial whose analysis step raises nothing counts exactly one, even one REPP judges failed, plays the stimulus to the stimulus's ear, and then starts the 15 s break after trial 6, the 120 s break after trial 12 of stimulus 1, the end after trial 12 of stimulus 2, or otherwise registers the next trial |
| FlowProperties.RaisedTrialRetries | New_experiment.py:487-496 | when the analysis step raises, nothing is counted or registered and the same trial is offered again |
| FlowProperties.RetryThenCount | New_experiment.py:474-496 | a trial whose analysis raised, retried without an exception, counts exactly one trial |
| FlowProperties.NoThirteenthTrial | New_experiment.py:372-374 | once 12 trials are counted, a trial only hides the button |
| FlowProperties.BreakTimerTicks | New_experiment.py:503-513 | while time remains, a tick takes one second off and registers the next tick under the recorded timer id; at 0 it continues; Continue is shown afterwards in both cases |
| FlowProperties.TicksCountDown | New_experiment.py:503-508 | n ticks in a row take n seconds off the timer, change no counter, and leave a tick pending |
| FlowProperties.BreakRunsOut | New_experiment.py:499-513 | a break of d seconds reaches 0 after d - 1 ticks, and the next tick continues the experiment |
| FlowProperties.ContinueResumesOrSwitches | New_experiment.py:515-528 | after trial 6 the same stimulus resumes with trial 7; otherwise the session moves to stimulus 2, its rhythm and its practice; either way the timer's tick is no longer pending (after trial 6 given fresh ids) |
| FlowProperties.StartTrialsResets | New_experiment.py:353-368 | starting the trials resets the trial count to 0 and offers the first recording |
| FlowProperties.ParticipantIdGate | New_experiment.py:169-185 | a refused ID changes nothing; an accepted one sets the output directory and writes an allocation label that reads back to the draws |
| FlowProperties.EarCheckOutcome | New_experiment.py:249-283 | the tone goes to the ear under test only; a tap in the first second of the recording (within 0.25 s of the tone's start) moves the right ear on to the left ear and the left ear on to the practice; no tap offers the same check again |
| FlowProperties.ExpiredMidBlockBreakLeavesContinueArmed | New_experiment.py:503-528 | when the 15 s break expires, trial 7 runs at once and Continue is shown again; clicking it moves to stimulus 2 at trial 7 |
| Experiment.RhythmExperimentGUI.constructor | New_experiment.py:95-111 | the window starts at trial 0 of stimulus 1 with the Start button showing, and keeps the session's draws |
| Experiment.RhythmExperimentGUI.After | New_experiment.py:485 | registering a callback appends it with a fresh id and returns that id |
| Experiment.RhythmExperimentGUI.StartExperiment | New_experiment.py:162-166 | the button now submits the participant ID |
| Experiment.RhythmExperimentGUI.ValidateParticipantId | New_experiment.py:169-185 | updates the state as `Flow.ValidateParticipantIdStep` does |
| Experiment.RhythmExperimentGUI.ShowTappingInstructions | New_experiment.py:203-215 | the button now starts the headphone check |
| Experiment.RhythmExperimentGUI.StartHeadphoneCheck | New_experiment.py:217-225 | the button now starts the right-ear check |
| Experiment.RhythmExperimentGUI.CheckRightEar | New_experiment.py:235-237 | hides the button and checks the right ear |
| Experiment.RhythmExperimentGUI.CheckLeftEar | New_experiment.py:239-243 | shows the button for the left-ear check |
| Experiment.RhythmExperimentGUI.PerformLeftCheck | New_experiment.py:245-247 | hides the button and checks the left ear |
| Experiment.RhythmExperimentGUI.PerformEarCheck | New_experiment.py:249-283 | updates the state as `Flow.EarCheckStep` does, with the tone routed through `RouteToEar` |
| Experiment.RhythmExperimentGUI.StartRhythmPractice | New_experiment.py:315-334 | loads the current stimulus's rhythm and its prepared audio, and offers the practice |
| Experiment.RhythmExperimentGUI.PlayPractice | New_experiment.py:336-351 | hides the button and registers `start_trials` |
| Experiment.RhythmExperimentGUI.StartTrials | New_experiment.py:353-368 | updates the state as `Flow.StartTrialsStep` does |
| Experiment.RhythmExperimentGUI.RunTrial | New_experiment.py:371-496 | updates the state as `Flow.RunTrialStep` does, with the stimulus routed through `RouteToEar` |
| Experiment.RhythmExperimentGUI.TakeBreak | New_experiment.py:499-501 | updates the state as `Flow.TakeBreakStep` does |
| Experiment.RhythmExperimentGUI.UpdateBreakTimer | New_experiment.py:503-513 | updates the state as `Flow.UpdateBreakTimerStep` does |
| Experiment.RhythmExperimentGUI.ContinueAfterBreak | New_experiment.py:515-528 | updates the state as `Flow.ContinueAfterBreakStep` does |
| Experiment.RhythmExperimentGUI.ExperimentComplete | New_experiment.py:531-543 | the button now closes the window |
| Experiment.RhythmExperimentGUI.Click | New_experiment.py:158-159 | updates the state as `Flow.ClickStep` does |
| Experiment.RhythmExperimentGUI.Fire | New_experiment.py:485 | updates the state as `Flow.FireStep` does |

## Left out

- Audio and devices: playback, recording, the ear-check tone's samples and
  `detect_tap`'s filtering, envelope and peak finding. The tone and the found
  peaks are inputs (`Flow.Env`); only the window test on the peaks is modelled.
- REPP: stimulus preparation and trial analysis. The prepared stimulus is a
  function of the rhythm, and whether the analysis step raised is a boolean.
  REPP is not part of this model.
- REPP's own verdict: the `is_failed` flag that `do_analysis` returns is
  written to the CSV but never tested by `run_trial`, so it does not affect
  the flow, and the model does not carry it.
- Files: WAV files, plots, JSON dumps, the analysis CSV
  (`create_participant_analysis_csv`) and the error log. The output directory
  and the allocation label are kept as values. No file contents are written
  or read back. The output directory is joined with `/`, the separator
  `os.path.join` uses on POSIX (New_experiment.py:176, 188); Windows paths are
  not modelled.
- Labels, texts and message boxes: the window's wording is not modelled. One
  consequence is that the trial label "Recording trial {current_trial + 2}/12"
  is one ahead of the trial being recorded, and that is not captured.
- Timing and threads: the practice thread, the 1000 ms delays and the order
  in which tkinter fires callbacks. Any pending callback may fire next, which
  covers every order tkinter can produce.
- Exceptions raised outside the analysis `try`, and exceptions raised by
  steps that the `try` happens to enclose (a break or a practice started from
  inside it).
- Floating point: times and samples are reals. Rounding and NumPy's
  normalisation of recordings are not modelled.
- Protocol.Progress: `update_progress` is modelled as a value. It is never
  called, and the progress bar it writes to is never created.
- Protocol.ValidParticipantId: digits are ASCII `0`-`9`. Python's
  `str.isdigit` also accepts other Unicode digits.
- Forms.CleanResponse: models `clean_response` alone. Django's `CharField`
  strips the text, and rejects an empty one, before this method runs.
- Django plumbing: sessions, `get_object_or_404`, the ORM, JSON decoding
  errors, CSRF, and the 500 answers for exceptions other than the one
  arithmetic on a non-list payload raises.
- Views.TrialPost: stores nothing and runs no REPP analysis. It models only
  the guard, the reaction-time computation and its answer. A payload that
  passes the guard but is not a list of numbers is answered as a server
  error. REPP's `do_analysis` runs before the reaction times
  (experiment/views.py:230-236), and any exception from it is answered with
  500. The web view passes it a dict of onsets where the desktop program
  passes a WAV path (New_experiment.py:447-452), so `Success` may never be
  reached in practice; the model takes the analysis to succeed. The view then
  writes `json.dumps(reaction_times)`, a string, into `reaction_time`
  (experiment/views.py:239-243), which is a `DurationField`
  (experiment/models.py:50, experiment/migrations/0001_initial.py:120). As
  written, that create raises and experiment/views.py:257-259 answers 500, so
  every payload that passes the guard ends in a 500 and `Success` is never
  reached. The model does not capture this: its `Success` is the answer the
  view would give if the write succeeded.
- Admin list rendering: how Django's admin prints a returned value (a list
  as its items joined by ", ", None as "-", numbers localised) is not part
  of this model. `Admin.SequenceDataDisplay` states only what
  `sequence_data_display` returns.
- Other endpoints, views, serializers and admin classes, the S3 helpers,
  signals, and `playback_record.py`: no decision of the core depends on them.
