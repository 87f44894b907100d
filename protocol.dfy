/**
 * The pure decisions of the desktop experiment: the counterbalanced
 * assignment of ears and rhythms to the two stimuli, the participant-ID
 * check, the allocation label, the progress value and the sample window in
 * which the ear check looks for a tap.
 */
module Protocol {
  import opened Basics

  datatype Ear = Left | Right
  datatype Complexity = Simple | Complex

  /** `sequence_order`, drawn from [0, 1]. */
  type Order = n: nat | n <= 1

  /** The three random draws of `setup_experiment`, fixed for a session. */
  datatype Assignment = Assignment(complexity: Complexity, firstEar: Ear, sequenceOrder: Order)

  function EarName(e: Ear): string {
    match e
    case Left => "left"
    case Right => "right"
  }

  function ComplexityName(c: Complexity): string {
    match c
    case Simple => "simple"
    case Complex => "complex"
  }

  /** `'left' if first_ear == 'right' else 'right'`. */
  function Opposite(e: Ear): Ear {
    if e == Right then Left else Right
  }

  /** The two rhythms of each complexity level, as inter-onset intervals in ms. */
  const SimpleRhythms: seq<seq<nat>> := [
    [0, 520, 520, 520, 260, 260, 520, 520],
    [0, 520, 260, 260, 520, 260, 260, 520, 520]
  ]
  const ComplexRhythms: seq<seq<nat>> := [
    [0, 130, 260, 390, 260, 130, 260, 390, 260],
    [0, 390, 130, 260, 520, 260, 130, 390]
  ]

  function Rhythms(c: Complexity): (rs: seq<seq<nat>>)
    ensures |rs| == 2
  {
    if c == Simple then SimpleRhythms else ComplexRhythms
  }

  /** The ear a stimulus is played to: the first ear for stimulus 1, the other one after. */
  function StimulusEar(firstEar: Ear, currentStimulus: int): (e: Ear)
    ensures e == firstEar <==> currentStimulus == 1
  {
    if currentStimulus == 1 then firstEar else Opposite(firstEar)
  }

  /** The rhythm index of a stimulus: `sequence_order` for stimulus 1, `1 - sequence_order` after. */
  function RhythmIndex(order: Order, currentStimulus: int): Order {
    if currentStimulus == 1 then order else 1 - order
  }

  /** The rhythm a stimulus is practised and tapped with: one of the drawn complexity's two, starting at 0. */
  function RhythmFor(a: Assignment, currentStimulus: int): (r: seq<nat>)
    ensures r in Rhythms(a.complexity) && |r| > 0 && r[0] == 0
  {
    Rhythms(a.complexity)[RhythmIndex(a.sequenceOrder, currentStimulus)]
  }

  /**
   * The two stimuli of a session differ in ear and in rhythm, between them
   * use both rhythms of the drawn complexity, and every rhythm starts at 0.
   */
  lemma Counterbalanced(a: Assignment)
    ensures StimulusEar(a.firstEar, 1) == a.firstEar
    ensures StimulusEar(a.firstEar, 2) != StimulusEar(a.firstEar, 1)
    ensures RhythmIndex(a.sequenceOrder, 1) == a.sequenceOrder
    ensures RhythmIndex(a.sequenceOrder, 2) != RhythmIndex(a.sequenceOrder, 1)
    ensures RhythmFor(a, 1) != RhythmFor(a, 2)
    ensures {RhythmFor(a, 1), RhythmFor(a, 2)} == {Rhythms(a.complexity)[0], Rhythms(a.complexity)[1]}
    ensures RhythmFor(a, 1)[0] == 0 && RhythmFor(a, 2)[0] == 0
  {
    assert |SimpleRhythms[0]| != |SimpleRhythms[1]|;
    assert |ComplexRhythms[0]| != |ComplexRhythms[1]|;
  }

  predicate IsDigit(c: char) {
    '0' <= c <= '9'
  }

  /** `pid.isdigit() and len(pid) == 9`. */
  predicate ValidParticipantId(pid: string) {
    |pid| == 9 && forall i :: 0 <= i < |pid| ==> IsDigit(pid[i])
  }

  /** Shorter, longer, empty and non-digit IDs are refused. */
  lemma ParticipantIdExamples()
    ensures ValidParticipantId("123456789")
    ensures !ValidParticipantId("12345678")
    ensures !ValidParticipantId("1234567890")
    ensures !ValidParticipantId("")
    ensures !ValidParticipantId("12345678a")
  {
    assert !IsDigit("12345678a"[8]);
  }

  /** `str(n)` for a single decimal digit. */
  function DigitChar(n: nat): char
    requires n <= 9
  {
    ('0' as int + n) as char
  }

  /** `f"{complexity}-stimulus{sequence_order + 1}-{first_ear}ear"`, written to allocation.txt. */
  function AllocationText(a: Assignment): string {
    ComplexityName(a.complexity) + "-stimulus" + [DigitChar(a.sequenceOrder + 1)] + "-" + EarName(a.firstEar) + "ear"
  }

  /** Reads an allocation label back into the draws it records. */
  function ParseAllocation(s: string): Option<Assignment> {
    if "simple-stimulus" <= s then ParseStimulusAndEar(Simple, s[15..])
    else if "complex-stimulus" <= s then ParseStimulusAndEar(Complex, s[16..])
    else None
  }

  /** The part of a label after "-stimulus": the stimulus number, "-", the ear and "ear". */
  function ParseStimulusAndEar(c: Complexity, rest: string): Option<Assignment> {
    if |rest| >= 2 && (rest[0] == '1' || rest[0] == '2') && rest[1] == '-' then
      var order: Order := if rest[0] == '1' then 0 else 1;
      if rest[2..] == "rightear" then Some(Assignment(c, Right, order))
      else if rest[2..] == "leftear" then Some(Assignment(c, Left, order))
      else None
    else None
  }

  function LabelTail(a: Assignment): string {
    [DigitChar(a.sequenceOrder + 1)] + "-" + (EarName(a.firstEar) + "ear")
  }

  lemma LabelSplits(a: Assignment)
    ensures AllocationText(a) == ComplexityName(a.complexity) + "-stimulus" + LabelTail(a)
    ensures ParseStimulusAndEar(a.complexity, LabelTail(a)) == Some(a)
  {
    var t := LabelTail(a);
    assert t[2..] == EarName(a.firstEar) + "ear";
  }

  /** The label records all three draws: reading it back gives them again. */
  lemma AllocationRoundTrip(a: Assignment)
    ensures ParseAllocation(AllocationText(a)) == Some(a)
  {
    LabelSplits(a);
    var t := LabelTail(a);
    var s := AllocationText(a);
    if a.complexity == Simple {
      assert s == "simple-stimulus" + t;
      assert s[..15] == "simple-stimulus" && s[15..] == t;
    } else {
      assert s == "complex-stimulus" + t;
      assert s[..16] == "complex-stimulus" && s[16..] == t;
      assert s[0] == 'c';
    }
  }

  /** Every label the reader accepts is the label of what it reads. */
  lemma AllocationCanonical(s: string)
    requires ParseAllocation(s).Some?
    ensures AllocationText(ParseAllocation(s).value) == s
  {
    var a := ParseAllocation(s).value;
    LabelSplits(a);
    var n := if "simple-stimulus" <= s then 15 else 16;
    var head, rest := s[..n], s[n..];
    assert head == ComplexityName(a.complexity) + "-stimulus";
    assert rest == [rest[0]] + "-" + rest[2..];
    assert rest == LabelTail(a);
    assert s == head + rest;
  }

  lemma AllocationExample()
    ensures AllocationText(Assignment(Complex, Left, 1)) == "complex-stimulus2-leftear"
  {
  }

  /**
   * `(current_trial % 12) / 12 * 100`; Python's `%` and Dafny's agree for a
   * positive divisor.
   */
  function Progress(currentTrial: int): (p: real)
    ensures 0.0 <= p < 100.0
  {
    var done := currentTrial % 12;
    assert 0 <= done < 12;
    (done as real) / 12.0 * 100.0
  }

  /** After the twelfth trial the bar is back at 0. */
  lemma ProgressWraps()
    ensures Progress(0) == 0.0 && Progress(6) == 50.0 && Progress(12) == 0.0
  {
  }

  /** Python's `int()` on a float: truncation toward zero. */
  function Truncate(x: real): int {
    if x >= 0.0 then x.Floor else -((-x).Floor)
  }

  /** The time the ear check expects the tap around, in seconds. */
  const BeatTime: real := 0.5
  const EarCheckRate: nat := 44100
  /** `int(0.75 * fs)` samples of silence on each side of the ear-check tone. */
  const EarCheckSilence: nat := 33075

  function WindowStart(fs: nat): int {
    Truncate((BeatTime - 0.5) * fs as real)
  }

  function WindowEnd(fs: nat): int {
    Truncate((BeatTime + 0.5) * fs as real)
  }

  /** `peaks[(peaks > lo) & (peaks < hi)]`: the peaks strictly inside the window. */
  function PeaksInWindow(peaks: seq<int>, lo: int, hi: int): (v: seq<int>)
    ensures |v| <= |peaks|
    ensures forall x :: x in v <==> x in peaks && lo < x < hi
  {
    if peaks == [] then []
    else
      var rest := PeaksInWindow(peaks[1..], lo, hi);
      assert forall x :: x in peaks <==> x == peaks[0] || x in peaks[1..];
      if lo < peaks[0] < hi then [peaks[0]] + rest else rest
  }

  /** The last line of `detect_tap`: some peak lies in the window. */
  function TapDetected(peaks: seq<int>, fs: nat): (detected: bool)
    ensures detected <==> exists i :: 0 <= i < |peaks| && WindowStart(fs) < peaks[i] < WindowEnd(fs)
  {
    var v := PeaksInWindow(peaks, WindowStart(fs), WindowEnd(fs));
    assert |v| > 0 ==> v[0] in v;
    assert forall i :: 0 <= i < |peaks| && WindowStart(fs) < peaks[i] < WindowEnd(fs) ==> peaks[i] in v;
    |v| > 0
  }

  /**
   * With the beat at 0.5 s the window is (0, fs): a tap counts iff a peak
   * falls in the first second of the recording, which is the first 0.25 s of
   * the tone after 0.75 s of silence.
   */
  lemma TapDetectedIff(peaks: seq<int>, fs: nat)
    ensures WindowStart(fs) == 0 && WindowEnd(fs) == fs
    ensures TapDetected(peaks, fs) <==> exists i :: 0 <= i < |peaks| && 0 < peaks[i] < fs as int
  {
  }

  /** Peaks at the window's edges do not count. */
  lemma WindowIsOpen()
    ensures !TapDetected([0, 44100], EarCheckRate)
    ensures TapDetected([0, 1, 44100], EarCheckRate)
  {
    TapDetectedIff([0, 44100], EarCheckRate);
    TapDetectedIff([0, 1, 44100], EarCheckRate);
  }

  function Zeros(n: nat): seq<real> {
    seq(n, _ => 0.0)
  }

  /** The ear-check signal: 0.75 s of silence, the 440 Hz tone, 0.75 s of silence. */
  function EarCheckAudio(tone: seq<real>): seq<real> {
    Zeros(EarCheckSilence) + tone + Zeros(EarCheckSilence)
  }
}
