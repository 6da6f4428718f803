/**
 * The motor gestures of the robot face: the mapping from a mood to a gesture,
 * the hard-coded step table of every gesture, and the actuator events one
 * run of a gesture sends to the dock.
 */
module MotorActions {
  import opened DataTypes

  datatype FastMotorAction =
    | QuickNod | DoubleNod | Shake | Lookup | TiltLeft | TiltRight
    | Bounce | Tremor | Scan | ReturnToCenter

  /** One nudge of the dock: a direction, a speed and how long to wait after it. */
  datatype FastMotionStep = FastMotionStep(direction: ChevronType, speed: real, duration: real)

  const MinSpeed: real := 0.5
  const MaxSpeed: real := 3.0
  const MinDuration: real := 0.1
  const MaxDuration: real := 1.0

  /** `min(max(v, lo), hi)`: the value itself inside [lo, hi], otherwise the nearer bound. */
  function ClampReal(lo: real, hi: real, v: real): (r: real)
    ensures lo <= hi ==> lo <= r <= hi
    ensures lo <= v <= hi ==> r == v
    ensures v < lo ==> r == lo
    ensures lo <= hi && hi < v ==> r == hi
  {
    if v < lo then lo else if hi < v then hi else v
  }

  /** The step initialiser: clamps speed into [0.5, 3.0] and duration into [0.1, 1.0]. */
  function MakeStep(direction: ChevronType, speed: real, duration: real): (s: FastMotionStep)
    ensures s.direction == direction
    ensures MinSpeed <= s.speed <= MaxSpeed && MinDuration <= s.duration <= MaxDuration
    ensures MinSpeed <= speed <= MaxSpeed ==> s.speed == speed
    ensures MinDuration <= duration <= MaxDuration ==> s.duration == duration
    ensures speed < MinSpeed ==> s.speed == MinSpeed
    ensures duration < MinDuration ==> s.duration == MinDuration
    ensures MaxSpeed < speed ==> s.speed == MaxSpeed
    ensures MaxDuration < duration ==> s.duration == MaxDuration
  {
    FastMotionStep(direction, ClampReal(MinSpeed, MaxSpeed, speed), ClampReal(MinDuration, MaxDuration, duration))
  }

  /** A step whose speed and duration satisfy the initialiser's bounds. */
  predicate WellFormedStep(s: FastMotionStep) {
    MinSpeed <= s.speed <= MaxSpeed && MinDuration <= s.duration <= MaxDuration
  }

  // ---------------------------------------------------------------------
  // Mood to gesture
  // ---------------------------------------------------------------------

  /**
   * The gesture a mood is expressed with. Total: moods the switch does not
   * list (sleepy, anticipation) fall to its default, a quick nod.
   */
  function MotorActionForMood(mood: RobotMood): (a: Option<FastMotorAction>)
    ensures a.Some?
    ensures mood in {Happy, Joy, Love, Sleepy, Anticipation} <==> a == Some(QuickNod)
    ensures mood in {Anger, Fear} <==> a == Some(Tremor)
    ensures mood in {Sad, Sadness} <==> a == Some(Shake)
    ensures mood == Normal <==> a == Some(ReturnToCenter)
    ensures mood in {Guilt, Shame, Surprise, Pride} <==> a == Some(Lookup)
    ensures mood in {Curiosity, Envy} <==> a == Some(Scan)
    ensures mood in {Trust, Acceptance} <==> a == Some(DoubleNod)
    ensures mood == Excited <==> a == Some(Bounce)
    ensures mood == Disgust <==> a == Some(TiltLeft)
    ensures mood == Contempt <==> a == Some(TiltRight)
  {
    match mood
    case Happy | Joy => Some(QuickNod)
    case Excited => Some(Bounce)
    case Sad | Sadness => Some(Shake)
    case Guilt | Shame => Some(Lookup)
    case Surprise => Some(Lookup)
    case Anger => Some(Tremor)
    case Fear => Some(Tremor)
    case Curiosity => Some(Scan)
    case Pride => Some(Lookup)
    case Normal => Some(ReturnToCenter)
    case Disgust => Some(TiltLeft)
    case Trust | Acceptance => Some(DoubleNod)
    case Contempt => Some(TiltRight)
    case Love => Some(QuickNod)
    case Envy => Some(Scan)
    case _ => Some(QuickNod)
  }

  // ---------------------------------------------------------------------
  // Gesture table
  // ---------------------------------------------------------------------

  /** The steps of a tilt gesture: lean one way on the pan axis, then come back. */
  function TiltSteps(direction: ChevronType): seq<FastMotionStep> {
    var opposite := if direction == PanLeft then PanRight else PanLeft;
    [MakeStep(direction, 1.5, 0.4), MakeStep(opposite, 1.2, 0.3)]
  }

  /** The hard-coded steps of every gesture, after the initialiser's clamping. */
  function GestureSteps(a: FastMotorAction): (s: seq<FastMotionStep>)
    ensures 2 <= |s| <= 8
    ensures forall i :: 0 <= i < |s| ==> WellFormedStep(s[i])
  {
    match a
    case QuickNod => [
      MakeStep(TiltDown, 2.0, 0.2), MakeStep(TiltUp, 1.8, 0.15),
      MakeStep(TiltDown, 1.5, 0.15), MakeStep(TiltUp, 1.5, 0.15)]
    case DoubleNod => [
      MakeStep(TiltDown, 2.0, 0.15), MakeStep(TiltUp, 2.0, 0.1),
      MakeStep(TiltDown, 2.2, 0.15), MakeStep(TiltUp, 1.8, 0.1)]
    case Shake => [
      MakeStep(PanLeft, 1.8, 0.2), MakeStep(PanRight, 2.0, 0.3),
      MakeStep(PanLeft, 1.5, 0.2), MakeStep(PanRight, 1.2, 0.15)]
    case Lookup => [
      MakeStep(TiltUp, 2.5, 0.3), MakeStep(TiltDown, 1.2, 0.2)]
    case TiltLeft => TiltSteps(PanLeft)
    case TiltRight => TiltSteps(PanRight)
    case Bounce => [
      MakeStep(TiltUp, 2.5, 0.1), MakeStep(TiltDown, 2.8, 0.12),
      MakeStep(TiltUp, 2.2, 0.1), MakeStep(TiltDown, 1.8, 0.1),
      MakeStep(TiltUp, 1.2, 0.08)]
    case Tremor => [
      MakeStep(PanLeft, 1.5, 0.08), MakeStep(PanRight, 1.6, 0.08),
      MakeStep(TiltUp, 1.4, 0.08), MakeStep(TiltDown, 1.7, 0.08),
      MakeStep(PanRight, 1.3, 0.08), MakeStep(PanLeft, 1.5, 0.08),
      MakeStep(TiltDown, 1.2, 0.08), MakeStep(TiltUp, 1.1, 0.08)]
    case Scan => [
      MakeStep(PanLeft, 2.0, 0.3), MakeStep(PanRight, 2.5, 0.4),
      MakeStep(PanLeft, 1.5, 0.2), MakeStep(PanRight, 0.8, 0.1)]
    case ReturnToCenter => [
      MakeStep(TiltUp, 0.8, 0.15), MakeStep(TiltDown, 0.6, 0.1),
      MakeStep(PanLeft, 0.7, 0.1), MakeStep(PanRight, 0.5, 0.08)]
  }

  /** The number of steps each gesture sends. */
  function GestureLength(a: FastMotorAction): nat {
    match a
    case QuickNod => 4
    case DoubleNod => 4
    case Shake => 4
    case Lookup => 2
    case TiltLeft => 2
    case TiltRight => 2
    case Bounce => 5
    case Tremor => 8
    case Scan => 4
    case ReturnToCenter => 4
  }

  predicate IsTilt(d: ChevronType) { d == TiltUp || d == TiltDown }
  predicate IsPan(d: ChevronType) { d == PanLeft || d == PanRight }

  /** The directions of a step sequence, in order. */
  function Directions(steps: seq<FastMotionStep>): seq<ChevronType> {
    seq(|steps|, i requires 0 <= i < |steps| => steps[i].direction)
  }

  /** Every gesture has the listed number of steps. */
  lemma GestureLengths(a: FastMotorAction)
    ensures |GestureSteps(a)| == GestureLength(a)
  {
  }

  /** Every step of every gesture is well formed and moves the tilt or the pan axis. */
  lemma GestureStepsOnAxes(a: FastMotorAction)
    ensures forall i :: 0 <= i < |GestureSteps(a)| ==>
      WellFormedStep(GestureSteps(a)[i]) &&
      (IsTilt(GestureSteps(a)[i].direction) || IsPan(GestureSteps(a)[i].direction))
  {
  }

  /** Every axis a gesture moves on is moved in both directions. */
  lemma GestureAxesBalanced(a: FastMotorAction)
    ensures TiltUp in Directions(GestureSteps(a)) <==> TiltDown in Directions(GestureSteps(a))
    ensures PanLeft in Directions(GestureSteps(a)) <==> PanRight in Directions(GestureSteps(a))
  {
    var d := Directions(GestureSteps(a));
    match a
    case QuickNod => assert d == [TiltDown, TiltUp, TiltDown, TiltUp];
    case DoubleNod => assert d == [TiltDown, TiltUp, TiltDown, TiltUp];
    case Shake => assert d == [PanLeft, PanRight, PanLeft, PanRight];
    case Lookup => assert d == [TiltUp, TiltDown];
    case TiltLeft => assert d == [PanLeft, PanRight];
    case TiltRight => assert d == [PanRight, PanLeft];
    case Bounce => assert d == [TiltUp, TiltDown, TiltUp, TiltDown, TiltUp];
    case Tremor => assert d == [PanLeft, PanRight, TiltUp, TiltDown, PanRight, PanLeft, TiltDown, TiltUp];
    case Scan => assert d == [PanLeft, PanRight, PanLeft, PanRight];
    case ReturnToCenter => assert d == [TiltUp, TiltDown, PanLeft, PanRight];
  }

  /** The 0.08 s steps of tremor, bounce and return-to-centre are lengthened to 0.1 s. */
  lemma ShortStepsClamped()
    ensures forall i :: 0 <= i < 8 ==> GestureSteps(Tremor)[i].duration == 0.1
    ensures GestureSteps(Bounce)[4].duration == 0.1
    ensures GestureSteps(ReturnToCenter)[3].duration == 0.1
  {
  }

  // ---------------------------------------------------------------------
  // Actuator events
  // ---------------------------------------------------------------------

  /**
   * What the executor sends to the dock or to its owner: a tracking-mode
   * change, a chevron nudge at a speed, or the completion callback.
   */
  datatype Event = SetMode(mode: TrackingMode) | Rotate(direction: ChevronType, speed: real) | Completed

  /** The nudges a step sequence sends, in order. */
  function Rotations(steps: seq<FastMotionStep>): (r: seq<Event>)
    ensures |r| == |steps|
    ensures forall i :: 0 <= i < |steps| ==> r[i] == Rotate(steps[i].direction, steps[i].speed)
  {
    if steps == [] then [] else Rotations(steps[..|steps| - 1]) + [Rotate(steps[|steps| - 1].direction, steps[|steps| - 1].speed)]
  }

  /** The extra recentring nudges `executeSteps` sends when asked to (never, in the gesture table). */
  const ExtraReturnToCenter: seq<Event> := [Rotate(TiltUp, 0.5), Rotate(PanLeft, 0.3)]

  /** The nudges `executeSteps` sends. */
  function StepEvents(steps: seq<FastMotionStep>, needsReturnToCenter: bool): (e: seq<Event>)
    ensures |e| == |steps| + (if needsReturnToCenter then 2 else 0)
    ensures e[..|steps|] == Rotations(steps)
    ensures !needsReturnToCenter ==> e == Rotations(steps)
  {
    Rotations(steps) + if needsReturnToCenter then ExtraReturnToCenter else []
  }

  /**
   * What the dock answers during one run: the tracking mode it reports when
   * the run snapshots it, whether it accepts the switch to manual control, and
   * whether the run's task has been cancelled when it checks after settling.
   */
  datatype RunInputs = RunInputs(currentMode: TrackingMode, manualSwitchOk: bool, cancelledAtCheck: bool)

  /**
   * The events of one run of a gesture: switch to manual; if the switch is
   * accepted, the gesture's nudges (skipped when cancelled) and the restore of
   * the snapshot mode; and in every case the completion callback.
   */
  function RunEvents(steps: seq<FastMotionStep>, inp: RunInputs): (e: seq<Event>)
    ensures |e| >= 2 && e[0] == SetMode(Manual) && e[|e| - 1] == Completed
    ensures !inp.manualSwitchOk ==> e == [SetMode(Manual), Completed]
  {
    CoreEvents(steps, inp) + [Completed]
  }

  /** The actuator events of one run, before the completion callback. */
  function CoreEvents(steps: seq<FastMotionStep>, inp: RunInputs): (e: seq<Event>)
    ensures |e| >= 1 && e[0] == SetMode(Manual)
    ensures !inp.manualSwitchOk ==> e == [SetMode(Manual)]
    ensures inp.manualSwitchOk ==> e[|e| - 1] == SetMode(inp.currentMode)
  {
    [SetMode(Manual)]
    + (if !inp.manualSwitchOk then []
       else (if inp.cancelledAtCheck then [] else StepEvents(steps, false)) + [SetMode(inp.currentMode)])
  }

  function CountCompleted(t: seq<Event>): nat {
    if t == [] then 0 else CountCompleted(t[..|t| - 1]) + (if t[|t| - 1] == Completed then 1 else 0)
  }

  function CountModeChanges(t: seq<Event>): nat {
    if t == [] then 0 else CountModeChanges(t[..|t| - 1]) + (if t[|t| - 1].SetMode? then 1 else 0)
  }

  predicate HasRotation(t: seq<Event>) {
    exists i :: 0 <= i < |t| && t[i].Rotate?
  }

  lemma {:induction false} CountCompletedAppend(a: seq<Event>, b: seq<Event>)
    ensures CountCompleted(a + b) == CountCompleted(a) + CountCompleted(b)
    decreases |b|
  {
    if b == [] {
      assert a + b == a;
    } else {
      CountCompletedAppend(a, b[..|b| - 1]);
      assert (a + b)[..|a + b| - 1] == a + b[..|b| - 1];
    }
  }

  lemma {:induction false} CountModeChangesAppend(a: seq<Event>, b: seq<Event>)
    ensures CountModeChanges(a + b) == CountModeChanges(a) + CountModeChanges(b)
    decreases |b|
  {
    if b == [] {
      assert a + b == a;
    } else {
      CountModeChangesAppend(a, b[..|b| - 1]);
      assert (a + b)[..|a + b| - 1] == a + b[..|b| - 1];
    }
  }

  /** Nudges are neither mode changes nor completions. */
  lemma {:induction false} RotationsCounts(steps: seq<FastMotionStep>)
    ensures CountCompleted(Rotations(steps)) == 0 && CountModeChanges(Rotations(steps)) == 0
    decreases |steps|
  {
    if steps != [] {
      var init := steps[..|steps| - 1];
      var last := Rotate(steps[|steps| - 1].direction, steps[|steps| - 1].speed);
      RotationsCounts(init);
      CountCompletedAppend(Rotations(init), [last]);
      CountModeChangesAppend(Rotations(init), [last]);
    }
  }

  /**
   * One run: the manual switch comes first; the completion callback fires
   * exactly once, last; a refused switch sends no nudge and no restore;
   * an accepted one is restored exactly once, to the snapshot mode, right
   * before the callback, after every step in order unless the run was
   * cancelled at its check. No run sends the extra recentring nudges.
   */
  lemma RunShape(steps: seq<FastMotionStep>, inp: RunInputs)
    ensures RunEvents(steps, inp)[0] == SetMode(Manual)
    ensures RunEvents(steps, inp)[|RunEvents(steps, inp)| - 1] == Completed
    ensures CountCompleted(RunEvents(steps, inp)) == 1
    ensures !inp.manualSwitchOk ==> RunEvents(steps, inp) == [SetMode(Manual), Completed]
    ensures inp.manualSwitchOk ==>
      CountModeChanges(RunEvents(steps, inp)) == 2 &&
      RunEvents(steps, inp)[|RunEvents(steps, inp)| - 2] == SetMode(inp.currentMode)
    ensures inp.manualSwitchOk && !inp.cancelledAtCheck ==>
      RunEvents(steps, inp) == [SetMode(Manual)] + Rotations(steps) + [SetMode(inp.currentMode), Completed]
    ensures inp.cancelledAtCheck ==> !HasRotation(RunEvents(steps, inp))
  {
    var t := RunEvents(steps, inp);
    var sent := if inp.manualSwitchOk && !inp.cancelledAtCheck then Rotations(steps) else [];
    RotationsCounts(steps);
    assert StepEvents(steps, false) == Rotations(steps);
    if inp.manualSwitchOk {
      assert t == [SetMode(Manual)] + sent + [SetMode(inp.currentMode)] + [Completed];
      CountCompletedAppend([SetMode(Manual)] + sent + [SetMode(inp.currentMode)], [Completed]);
      CountCompletedAppend([SetMode(Manual)] + sent, [SetMode(inp.currentMode)]);
      CountCompletedAppend([SetMode(Manual)], sent);
      CountModeChangesAppend([SetMode(Manual)] + sent + [SetMode(inp.currentMode)], [Completed]);
      CountModeChangesAppend([SetMode(Manual)] + sent, [SetMode(inp.currentMode)]);
      CountModeChangesAppend([SetMode(Manual)], sent);
      if inp.cancelledAtCheck {
        assert t == [SetMode(Manual), SetMode(inp.currentMode), Completed];
      }
    } else {
      assert t == [SetMode(Manual)] + [Completed];
      CountCompletedAppend([SetMode(Manual)], [Completed]);
    }
  }
}
