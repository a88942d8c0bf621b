/**
 * The speaking detector the transport builds per participant from audio
 * levels: a level above the threshold means speech; the first quiet
 * level while speaking arms a silence timer, a loud level disarms it,
 * and when it fires the participant has stopped speaking.  Timer firing
 * is an input; levels are reals.
 */
module Speaking {
  import opened Types

  const Threshold: real := 0.05
  /** How long the silence timer waits, in milliseconds. */
  const SilenceDelayMs: nat := 750

  datatype Detector = Detector(speaking: bool, timerPending: bool)

  const Fresh: Detector := Detector(false, false)

  datatype Signal = StartedSpeaking | StoppedSpeaking

  /** What the detector observes: a level, or its silence timer firing. */
  datatype Input = Level(level: real) | SilenceElapsed

  /** A loud level starts speech (once) and cancels the timer; a quiet one arms the timer once. */
  function OnLevel(d: Detector, level: real): (r: (Detector, seq<Signal>))
    ensures level > Threshold ==> r.0 == Detector(true, false)
    ensures level > Threshold ==> (r.1 == [] <==> d.speaking) && (r.1 != [] ==> r.1 == [StartedSpeaking])
    ensures level <= Threshold ==> r.1 == [] && r.0.speaking == d.speaking
    ensures level <= Threshold ==> (r.0.timerPending <==> d.timerPending || d.speaking)
  {
    if level > Threshold then
      (Detector(true, false), if d.speaking then [] else [StartedSpeaking])
    else if d.speaking && !d.timerPending then
      (d.(timerPending := true), [])
    else
      (d, [])
  }

  /** The timer, if armed, ends the speech. */
  function OnTimer(d: Detector): (r: (Detector, seq<Signal>))
    ensures d.timerPending ==> r == (Fresh, [StoppedSpeaking])
    ensures !d.timerPending ==> r == (d, [])
  {
    if d.timerPending then (Fresh, [StoppedSpeaking]) else (d, [])
  }

  function Step(d: Detector, i: Input): (Detector, seq<Signal>) {
    match i
    case Level(x) => OnLevel(d, x)
    case SilenceElapsed => OnTimer(d)
  }

  /** Runs the detector over inputs, collecting the signals it gives. */
  function Run(d: Detector, inputs: seq<Input>): (Detector, seq<Signal>)
    decreases |inputs|
  {
    if inputs == [] then (d, [])
    else
      var (d1, s1) := Step(d, inputs[0]);
      var (d2, s2) := Run(d1, inputs[1..]);
      (d2, s1 + s2)
  }

  /** An armed timer only exists during speech. */
  predicate Consistent(d: Detector) {
    d.timerPending ==> d.speaking
  }

  /** `sigs` alternates starting from `first`. */
  predicate AlternatesFrom(sigs: seq<Signal>, first: Signal) {
    forall i :: 0 <= i < |sigs| ==> sigs[i] == (if i % 2 == 0 then first else Other(first))
  }

  function Other(s: Signal): Signal {
    match s
    case StartedSpeaking => StoppedSpeaking
    case StoppedSpeaking => StartedSpeaking
  }

  /** The signal a detector gives next. */
  function Next(d: Detector): Signal {
    if d.speaking then StoppedSpeaking else StartedSpeaking
  }

  lemma StepAlternates(d: Detector, i: Input)
    requires Consistent(d)
    ensures Consistent(Step(d, i).0)
    ensures |Step(d, i).1| <= 1
    ensures Step(d, i).1 != [] ==> Step(d, i).1 == [Next(d)] && Step(d, i).0.speaking != d.speaking
    ensures Step(d, i).1 == [] ==> Step(d, i).0.speaking == d.speaking
  {
  }

  /**
   * From a consistent detector, the signals alternate starting with the
   * one it owes next, the detector stays consistent, and it ends up
   * speaking exactly when it was speaking and gave an even number of
   * signals, or was silent and gave an odd number.
   */
  lemma {:induction false} RunAlternates(d: Detector, inputs: seq<Input>)
    requires Consistent(d)
    ensures Consistent(Run(d, inputs).0)
    ensures AlternatesFrom(Run(d, inputs).1, Next(d))
    ensures Run(d, inputs).0.speaking == (d.speaking != (|Run(d, inputs).1| % 2 == 1))
    decreases |inputs|
  {
    if inputs != [] {
      var (d1, s1) := Step(d, inputs[0]);
      StepAlternates(d, inputs[0]);
      RunAlternates(d1, inputs[1..]);
      var (d2, s2) := Run(d1, inputs[1..]);
      assert Run(d, inputs) == (d2, s1 + s2);
      if s1 != [] {
        assert Next(d1) == Other(Next(d));
        forall k | 0 <= k < |s1 + s2|
          ensures (s1 + s2)[k] == (if k % 2 == 0 then Next(d) else Other(Next(d)))
        {
          if k > 0 {
            assert (s1 + s2)[k] == s2[k - 1];
          }
        }
      }
    }
  }

  /** A fresh detector says "started" first, then alternates, and is speaking after an odd count. */
  lemma FreshAlternates(inputs: seq<Input>)
    ensures AlternatesFrom(Run(Fresh, inputs).1, StartedSpeaking)
    ensures Run(Fresh, inputs).0.speaking <==> |Run(Fresh, inputs).1| % 2 == 1
  {
    RunAlternates(Fresh, inputs);
  }

  /** A level equal to the threshold is silence. */
  lemma ThresholdIsSilence(d: Detector)
    ensures OnLevel(d, Threshold).1 == []
    ensures OnLevel(d, Threshold).0.speaking == d.speaking
  {
  }

  /** Further quiet levels do not re-arm the timer: the stop comes one delay after the first quiet level. */
  lemma QuietKeepsTimer(d: Detector, x: real, y: real)
    requires d.speaking && x <= Threshold && y <= Threshold
    ensures OnLevel(OnLevel(d, x).0, y).0 == OnLevel(d, x).0
    ensures OnLevel(d, x).0.timerPending
  {
  }

  /** Which callback a signal becomes: the local participant's, or the bot's with the participant. */
  datatype TalkCallback = LocalStartedTalking | LocalStoppedTalking | BotStartedTalking(p: Participant) | BotStoppedTalking(p: Participant)

  function Notify(p: Participant, s: Signal): (c: TalkCallback)
    ensures p.local <==> c.LocalStartedTalking? || c.LocalStoppedTalking?
    ensures !p.local ==> c.p == p
    ensures (c.LocalStartedTalking? || c.BotStartedTalking?) <==> s == StartedSpeaking
  {
    match s
    case StartedSpeaking => if p.local then LocalStartedTalking else BotStartedTalking(p)
    case StoppedSpeaking => if p.local then LocalStoppedTalking else BotStoppedTalking(p)
  }
}
