/**
 * The per-exercise classifiers: BaseExercise and its eleven subclasses.
 *
 * Each classifier reads one frame and updates its own private fields.  The
 * pure function `Step` says what one `update` call does: the new fields, the
 * returned `{repIncrement?, state?, feedback?}` object, and (for the plank
 * only) the value written straight into the global repetition count.  The
 * class `Exercise` holds the mutable fields and performs the same updates
 * in place; each of its update methods is proved to agree with `Step`.
 */
module Exercises {
  import opened Wrappers
  import opened Geometry
  import opened AppState

  /** The eleven classifier classes of the source. */
  datatype Kind =
    | PushUp | Squats | Plank | JumpingJacks | Lunge | Crunches
    | HighKnees | Burpees | ShoulderTap | CalfRaise | RussianTwists

  datatype Side = Left | Right

  /**
   * The private fields of one classifier instance: the phase tag `state`
   * and the auxiliary fields some subclasses add (`lastLeg` of HighKnees,
   * `step` of Burpees, `startTime` of Plank, `baseY` of CalfRaise).
   */
  datatype Fields = Fields(
    state: string,
    lastLeg: Option<Side>,
    step: int,
    startTime: Option<int>,
    baseY: Option<real>)

  /** The object `update` returns: `{repIncrement?, state?, feedback?}`. */
  datatype Outcome = Outcome(repIncrement: Option<real>, state: Option<string>, feedback: Option<string>)

  /**
   * Everything one `update` call does: the classifier's new fields, its
   * returned outcome, and the seconds the plank writes into STATE.reps.
   */
  datatype Effect = Effect(fields: Fields, outcome: Outcome, heldSeconds: Option<int>)

  /** The fields of a newly constructed classifier of any kind. */
  const Initial := Fields("UP", None, 0, None, None)

  /** What each `reset()` override clears. */
  function ResetFields(k: Kind, f: Fields): Fields
  {
    match k
    case Plank => f.(startTime := None)
    case Burpees => f.(step := 0)
    case _ => f.(state := "UP")
  }

  // ----- landmark indices (MediaPipe Pose) -----
  const Nose: nat := 0
  const LeftShoulder: nat := 11
  const RightShoulder: nat := 12
  const LeftElbow: nat := 13
  const LeftWrist: nat := 15
  const RightWrist: nat := 16
  const LeftHip: nat := 23
  const RightHip: nat := 24
  const LeftKnee: nat := 25
  const RightKnee: nat := 26
  const LeftAnkle: nat := 27
  const RightAnkle: nat := 28

  // ----- outcome shapes -----

  /** `{feedback}` alone. */
  function Cue(feedback: string): Outcome
  {
    Outcome(None, None, Some(feedback))
  }

  /** `{state, feedback}` with no increment. */
  function Show(state: string, feedback: string): Outcome
  {
    Outcome(None, Some(state), Some(feedback))
  }

  /** The numeric increment an outcome carries, 0 when it carries none. */
  function Increment(o: Outcome): real
  {
    o.repIncrement.GetOr(0.0)
  }

  function Abs(x: real): real
  {
    if x < 0.0 then -x else x
  }

  // ===== PushUp and Squats: elbow / knee angle hysteresis =====

  /** The feedback strings of one hinge classifier. */
  datatype HingeCues = HingeCues(unseen: string, counted: string, extended: string, flexed: string, between: string)

  const PushUpCues := HingeCues("Align side to camera", "Good rep!", "Go down", "Push up!", "Keep going")
  const SquatCues := HingeCues("Legs out of view", "Good!", "Squat down", "Drive up!", "Lower")

  /** Above this angle the joint counts as extended. */
  const HingeOpen: real := 160.0
  /** Below this angle the joint counts as bent. */
  const HingeBent: real := 90.0

  /** The left elbow angle: push-ups look at the left arm only. */
  function PushUpAngle(frame: Frame, raw: RawAngle): real
    requires WellFormed(frame)
  {
    CalculateAngle(Some(frame[LeftShoulder]), Some(frame[LeftElbow]), Some(frame[LeftWrist]), raw)
  }

  /** The left knee angle: squats look at the left leg only. */
  function LeftKneeAngle(frame: Frame, raw: RawAngle): real
    requires WellFormed(frame)
  {
    CalculateAngle(Some(frame[LeftHip]), Some(frame[LeftKnee]), Some(frame[LeftAnkle]), raw)
  }

  function RightKneeAngle(frame: Frame, raw: RawAngle): real
    requires WellFormed(frame)
  {
    CalculateAngle(Some(frame[RightHip]), Some(frame[RightKnee]), Some(frame[RightAnkle]), raw)
  }

  /** One PushUp/Squats update, given the measured angle. */
  function HingeStep(f: Fields, angle: real, cues: HingeCues): Effect
  {
    if angle == NoAngle then Effect(f, Cue(cues.unseen), None)
    else if angle > HingeOpen then
      if f.state == "DOWN" then Effect(f.(state := "UP"), Outcome(Some(1.0), Some("UP"), Some(cues.counted)), None)
      else Effect(f, Show("UP", cues.extended), None)
    else if angle < HingeBent then Effect(f.(state := "DOWN"), Show("DOWN", cues.flexed), None)
    else Effect(f, Show(f.state, cues.between), None)
  }

  // ===== Plank: timed hold =====

  /** Above this hip angle the body counts as straight. */
  const PlankStraight: real := 165.0

  /** The hip angle shoulder-hip-ankle on the left side. */
  function HipAngle(frame: Frame, raw: RawAngle): real
    requires WellFormed(frame)
  {
    CalculateAngle(Some(frame[LeftShoulder]), Some(frame[LeftHip]), Some(frame[LeftAnkle]), raw)
  }

  /** `this.startTime` is truthy: set, and not the timestamp 0. */
  predicate Timing(startTime: Option<int>)
  {
    startTime.Some? && startTime.value != 0
  }

  /** Math.floor((now - start) / 1000) on millisecond timestamps. */
  function HeldSeconds(start: int, now: int): int
  {
    (now - start) / 1000
  }

  function PlankStep(f: Fields, frame: Frame, now: int, raw: RawAngle): Effect
    requires WellFormed(frame)
  {
    var hip := HipAngle(frame, raw);
    if hip == NoAngle then Effect(f, Cue("Body out of view"), None)
    else if hip > PlankStraight then
      var start := if Timing(f.startTime) then f.startTime.value else now;
      Effect(f.(startTime := Some(start)), Show("HOLD", "Hold it!"), Some(HeldSeconds(start, now)))
    else Effect(f.(startTime := None), Show("FORM", "Lower hips"), None)
  }

  // ===== JumpingJacks: hands and feet position latch =====

  /** Ankle separation above which the feet count as wide. */
  const WideStance: real := 0.4

  predicate HandsVisible(frame: Frame)
    requires WellFormed(frame)
  {
    frame[LeftWrist].visibility >= VisibilityThreshold && frame[RightWrist].visibility >= VisibilityThreshold
  }

  predicate HandsUp(frame: Frame)
    requires WellFormed(frame)
  {
    frame[LeftWrist].y < frame[Nose].y && frame[RightWrist].y < frame[Nose].y
  }

  predicate FeetWide(frame: Frame)
    requires WellFormed(frame)
  {
    SquaredDistance(Some(frame[LeftAnkle]), Some(frame[RightAnkle])) > WideStance * WideStance
  }

  function JumpingJacksStep(f: Fields, frame: Frame): Effect
    requires WellFormed(frame)
  {
    if !HandsVisible(frame) then Effect(f, Cue("Hands in view"), None)
    else if HandsUp(frame) && FeetWide(frame) then Effect(f.(state := "UP"), Show("OPEN", "Back in"), None)
    else if !HandsUp(frame) && !FeetWide(frame) then
      if f.state == "UP" then Effect(f.(state := "DOWN"), Outcome(Some(1.0), Some("CLOSED"), Some("Nice!")), None)
      else Effect(f, Show("DOWN", "Jump!"), None)
    else Effect(f, Show(f.state, "Keep jumping"), None)
  }

  // ===== Lunge: both knee angles =====

  /** Below this knee angle (either knee) the lunge counts as down. */
  const LungeBent: real := 100.0

  function LungeStep(f: Fields, frame: Frame, raw: RawAngle): Effect
    requires WellFormed(frame)
  {
    var l := LeftKneeAngle(frame, raw);
    var r := RightKneeAngle(frame, raw);
    if l == NoAngle || r == NoAngle then Effect(f, Cue("Show legs"), None)
    else if l < LungeBent || r < LungeBent then Effect(f.(state := "DOWN"), Show("DOWN", "Up"), None)
    else if l > HingeOpen && r > HingeOpen && f.state == "DOWN" then
      Effect(f.(state := "UP"), Outcome(Some(1.0), Some("UP"), Some("Good!")), None)
    else Effect(f, Show(f.state, "Lunge"), None)
  }

  // ===== Crunches: shoulder-knee distance against hip-knee length =====

  /** dist < 1.1 * ref: curled in. */
  const CurledRatio: real := 1.1
  /** dist > 1.7 * ref: stretched out. */
  const OpenRatio: real := 1.7

  /** Squared shoulder-knee distance. */
  function TorsoSpan(frame: Frame): real
    requires WellFormed(frame)
  {
    SquaredDistance(Some(frame[LeftShoulder]), Some(frame[LeftKnee]))
  }

  /** Squared hip-knee distance, the body-scaled reference length. */
  function ThighSpan(frame: Frame): real
    requires WellFormed(frame)
  {
    SquaredDistance(Some(frame[LeftHip]), Some(frame[LeftKnee]))
  }

  function CrunchesStep(f: Fields, frame: Frame): Effect
    requires WellFormed(frame)
  {
    if frame[LeftShoulder].visibility < VisibilityThreshold then Effect(f, Cue("Torso in view"), None)
    else if TorsoSpan(frame) < (CurledRatio * CurledRatio) * ThighSpan(frame) then
      Effect(f.(state := "IN"), Show("CRUNCH", "Down"), None)
    else if TorsoSpan(frame) > (OpenRatio * OpenRatio) * ThighSpan(frame) && f.state == "IN" then
      Effect(f.(state := "OUT"), Outcome(Some(1.0), Some("OUT"), Some("Crunch!")), None)
    else Effect(f, Show(f.state, "Crunch"), None)
  }

  // ===== HighKnees: alternating legs =====

  /** How far above the hip a knee must rise. */
  const KneeLift: real := 0.1

  /** A knee is raised: visible (strictly above the threshold) and above its hip. */
  predicate KneeUp(knee: Landmark, hip: Landmark)
  {
    knee.visibility > VisibilityThreshold && knee.y < hip.y - KneeLift
  }

  predicate LeftKneeUp(frame: Frame)
    requires WellFormed(frame)
  {
    KneeUp(frame[LeftKnee], frame[LeftHip])
  }

  predicate RightKneeUp(frame: Frame)
    requires WellFormed(frame)
  {
    KneeUp(frame[RightKnee], frame[RightHip])
  }

  function HighKneesStep(f: Fields, frame: Frame): Effect
    requires WellFormed(frame)
  {
    if LeftKneeUp(frame) && f.lastLeg != Some(Left) then
      Effect(f.(lastLeg := Some(Left)), Outcome(Some(0.5), Some("LEFT"), Some("Next!")), None)
    else if RightKneeUp(frame) && f.lastLeg != Some(Right) then
      Effect(f.(lastLeg := Some(Right)), Outcome(Some(0.5), Some("RIGHT"), Some("Next!")), None)
    else Effect(f, Show("RUN", "Knees high"), None)
  }

  // ===== Burpees: plank then stand =====

  /** Tolerance for "level" (shoulder and ankle heights) and "upright" (their x). */
  const Alignment: real := 0.2

  predicate Horizontal(frame: Frame)
    requires WellFormed(frame)
  {
    Abs(frame[LeftShoulder].y - frame[LeftAnkle].y) < Alignment
  }

  predicate Vertical(frame: Frame)
    requires WellFormed(frame)
  {
    frame[LeftShoulder].y < frame[LeftHip].y && Abs(frame[LeftShoulder].x - frame[LeftAnkle].x) < Alignment
  }

  function BurpeesStep(f: Fields, frame: Frame): Effect
    requires WellFormed(frame)
  {
    if Horizontal(frame) && f.step == 0 then Effect(f.(step := 1), Show("PLANK", "Up!"), None)
    else if Vertical(frame) && f.step == 1 then Effect(f.(step := 0), Outcome(Some(1.0), Some("STAND"), Some("Down!")), None)
    else Effect(f, Show(if f.step == 1 then "PLANK" else "STAND", "Move!"), None)
  }

  // ===== ShoulderTap: wrist touches the opposite shoulder =====

  /** A wrist closer than this to the opposite shoulder is a tap. */
  const TapReach: real := 0.15

  predicate LeftTap(frame: Frame)
    requires WellFormed(frame)
  {
    SquaredDistance(Some(frame[LeftWrist]), Some(frame[RightShoulder])) < TapReach * TapReach
  }

  predicate RightTap(frame: Frame)
    requires WellFormed(frame)
  {
    SquaredDistance(Some(frame[RightWrist]), Some(frame[LeftShoulder])) < TapReach * TapReach
  }

  function ShoulderTapStep(f: Fields, frame: Frame): Effect
    requires WellFormed(frame)
  {
    if (LeftTap(frame) || RightTap(frame)) && f.state != "TAP" then
      Effect(f.(state := "TAP"), Outcome(Some(0.5), None, Some("Tap!")), None)
    else if !LeftTap(frame) && !RightTap(frame) then Effect(f.(state := "IDLE"), Cue("Tap shoulders"), None)
    else Effect(f, Cue("Tap shoulders"), None)
  }

  // ===== CalfRaise: ankle height against a baseline =====

  /** The ankle must rise this far above the baseline. */
  const RaiseHeight: real := 0.05
  /** Back within this distance of the baseline counts as down again. */
  const ReturnBand: real := 0.02

  /** `this.baseY` is truthy: set, and not 0. */
  predicate HasBaseline(baseY: Option<real>)
  {
    baseY.Some? && baseY.value != 0.0
  }

  /** The baseline this frame is judged against: the stored one, or this frame's ankle. */
  function Baseline(f: Fields, frame: Frame): real
    requires WellFormed(frame)
  {
    if HasBaseline(f.baseY) then f.baseY.value else frame[LeftAnkle].y
  }

  function CalfRaiseStep(f: Fields, frame: Frame): Effect
    requires WellFormed(frame)
  {
    var y := frame[LeftAnkle].y;
    var base := Baseline(f, frame);
    var g := f.(baseY := Some(base));
    if y < base - RaiseHeight then Effect(g.(state := "UP"), Show("UP", "Down"), None)
    else if g.state == "UP" && y > base - ReturnBand then Effect(g.(state := "DOWN"), Outcome(Some(1.0), Some("DOWN"), Some("Up")), None)
    else Effect(g, Cue("Rise"), None)
  }

  // ===== RussianTwists: shoulder line rotation =====

  /** How far one shoulder must pass the other horizontally. */
  const TwistOffset: real := 0.1

  predicate TwistedLeft(frame: Frame)
    requires WellFormed(frame)
  {
    frame[LeftShoulder].x > frame[RightShoulder].x + TwistOffset
  }

  predicate TwistedRight(frame: Frame)
    requires WellFormed(frame)
  {
    frame[RightShoulder].x > frame[LeftShoulder].x + TwistOffset
  }

  function RussianTwistsStep(f: Fields, frame: Frame): Effect
    requires WellFormed(frame)
  {
    if TwistedLeft(frame) && f.state != "LEFT" then Effect(f.(state := "LEFT"), Outcome(Some(0.5), None, Some("Right")), None)
    else if TwistedRight(frame) && f.state != "RIGHT" then Effect(f.(state := "RIGHT"), Outcome(Some(0.5), None, Some("Left")), None)
    else Effect(f, Cue("Twist"), None)
  }

  // ===== dispatch =====

  /** One `update(landmarks)` call on a classifier of kind `k`. */
  function Step(k: Kind, f: Fields, frame: Frame, now: int, raw: RawAngle): Effect
    requires WellFormed(frame)
  {
    match k
    case PushUp => HingeStep(f, PushUpAngle(frame, raw), PushUpCues)
    case Squats => HingeStep(f, LeftKneeAngle(frame, raw), SquatCues)
    case Plank => PlankStep(f, frame, now, raw)
    case JumpingJacks => JumpingJacksStep(f, frame)
    case Lunge => LungeStep(f, frame, raw)
    case Crunches => CrunchesStep(f, frame)
    case HighKnees => HighKneesStep(f, frame)
    case Burpees => BurpeesStep(f, frame)
    case ShoulderTap => ShoulderTapStep(f, frame)
    case CalfRaise => CalfRaiseStep(f, frame)
    case RussianTwists => RussianTwistsStep(f, frame)
  }

  /**
   * One classifier instance; `kind` is its class in the source.
   */
  class Exercise {
    const kind: Kind
    var state: string
    var lastLeg: Option<Side>
    var step: int
    var startTime: Option<int>
    var baseY: Option<real>

    function Snapshot(): Fields
      reads this
    {
      Fields(state, lastLeg, step, startTime, baseY)
    }

    /** `new PushUp()` and its siblings: BaseExercise's constructor, then the subclass's. */
    constructor (kind: Kind)
      ensures this.kind == kind
      ensures Snapshot() == Initial
    {
      this.kind := kind;
      state := "UP";
      lastLeg := None;
      step := 0;
      startTime := None;
      baseY := None;
    }

    /** `reset()`: BaseExercise's, or the Plank / Burpees override. */
    method Reset()
      modifies this
      ensures Snapshot() == ResetFields(kind, old(Snapshot()))
    {
      match kind
      case Plank => startTime := None;
      case Burpees => step := 0;
      case _ => state := "UP";
    }

    /**
     * `update(landmarks)`.  The plank writes its hold time into the global
     * count; every other kind leaves the session alone.
     */
    method Update(frame: Frame, now: int, raw: RawAngle, session: Session) returns (o: Outcome)
      requires WellFormed(frame)
      modifies this, session`reps
      ensures var e := Step(kind, old(Snapshot()), frame, now, raw);
        && Snapshot() == e.fields
        && o == e.outcome
        && session.reps == (if e.heldSeconds.Some? then e.heldSeconds.value as real else old(session.reps))
    {
      match kind
      case PushUp => o := UpdateHinge(PushUpAngle(frame, raw), PushUpCues);
      case Squats => o := UpdateHinge(LeftKneeAngle(frame, raw), SquatCues);
      case Plank => o := UpdatePlank(frame, now, raw, session);
      case JumpingJacks => o := UpdateJumpingJacks(frame);
      case Lunge => o := UpdateLunge(frame, raw);
      case Crunches => o := UpdateCrunches(frame);
      case HighKnees => o := UpdateHighKnees(frame);
      case Burpees => o := UpdateBurpees(frame);
      case ShoulderTap => o := UpdateShoulderTap(frame);
      case CalfRaise => o := UpdateCalfRaise(frame);
      case RussianTwists => o := UpdateRussianTwists(frame);
    }

    /** PushUp.update / Squats.update once the angle is measured. */
    method UpdateHinge(angle: real, cues: HingeCues) returns (o: Outcome)
      modifies this
      ensures var e := HingeStep(old(Snapshot()), angle, cues);
        Snapshot() == e.fields && o == e.outcome
    {
      if angle == NoAngle {
        return Cue(cues.unseen);
      }
      if angle > HingeOpen {
        if state == "DOWN" {
          state := "UP";
          return Outcome(Some(1.0), Some("UP"), Some(cues.counted));
        }
        return Show("UP", cues.extended);
      }
      if angle < HingeBent {
        state := "DOWN";
        return Show("DOWN", cues.flexed);
      }
      return Show(state, cues.between);
    }

    method UpdatePlank(frame: Frame, now: int, raw: RawAngle, session: Session) returns (o: Outcome)
      requires WellFormed(frame)
      modifies this, session`reps
      ensures var e := PlankStep(old(Snapshot()), frame, now, raw);
        && Snapshot() == e.fields
        && o == e.outcome
        && session.reps == (if e.heldSeconds.Some? then e.heldSeconds.value as real else old(session.reps))
    {
      var hip := HipAngle(frame, raw);
      if hip == NoAngle {
        return Cue("Body out of view");
      }
      if hip > PlankStraight {
        if !Timing(startTime) {
          startTime := Some(now);
        }
        var seconds := HeldSeconds(startTime.value, now);
        session.reps := seconds as real;
        return Show("HOLD", "Hold it!");
      }
      startTime := None;
      return Show("FORM", "Lower hips");
    }

    method UpdateJumpingJacks(frame: Frame) returns (o: Outcome)
      requires WellFormed(frame)
      modifies this
      ensures var e := JumpingJacksStep(old(Snapshot()), frame);
        Snapshot() == e.fields && o == e.outcome
    {
      if !HandsVisible(frame) {
        return Cue("Hands in view");
      }
      var handsUp := HandsUp(frame);
      var feetWide := FeetWide(frame);
      if handsUp && feetWide {
        state := "UP";
        return Show("OPEN", "Back in");
      }
      if !handsUp && !feetWide {
        if state == "UP" {
          state := "DOWN";
          return Outcome(Some(1.0), Some("CLOSED"), Some("Nice!"));
        }
        return Show("DOWN", "Jump!");
      }
      return Show(state, "Keep jumping");
    }

    method UpdateLunge(frame: Frame, raw: RawAngle) returns (o: Outcome)
      requires WellFormed(frame)
      modifies this
      ensures var e := LungeStep(old(Snapshot()), frame, raw);
        Snapshot() == e.fields && o == e.outcome
    {
      var l := LeftKneeAngle(frame, raw);
      var r := RightKneeAngle(frame, raw);
      if l == NoAngle || r == NoAngle {
        return Cue("Show legs");
      }
      if l < LungeBent || r < LungeBent {
        state := "DOWN";
        return Show("DOWN", "Up");
      }
      if l > HingeOpen && r > HingeOpen {
        if state == "DOWN" {
          state := "UP";
          return Outcome(Some(1.0), Some("UP"), Some("Good!"));
        }
      }
      return Show(state, "Lunge");
    }

    method UpdateCrunches(frame: Frame) returns (o: Outcome)
      requires WellFormed(frame)
      modifies this
      ensures var e := CrunchesStep(old(Snapshot()), frame);
        Snapshot() == e.fields && o == e.outcome
    {
      if frame[LeftShoulder].visibility < VisibilityThreshold {
        return Cue("Torso in view");
      }
      var dist := TorsoSpan(frame);
      var ref := ThighSpan(frame);
      if dist < (CurledRatio * CurledRatio) * ref {
        state := "IN";
        return Show("CRUNCH", "Down");
      }
      if dist > (OpenRatio * OpenRatio) * ref && state == "IN" {
        state := "OUT";
        return Outcome(Some(1.0), Some("OUT"), Some("Crunch!"));
      }
      return Show(state, "Crunch");
    }

    method UpdateHighKnees(frame: Frame) returns (o: Outcome)
      requires WellFormed(frame)
      modifies this
      ensures var e := HighKneesStep(old(Snapshot()), frame);
        Snapshot() == e.fields && o == e.outcome
    {
      var lUp := LeftKneeUp(frame);
      var rUp := RightKneeUp(frame);
      if lUp && lastLeg != Some(Left) {
        lastLeg := Some(Left);
        return Outcome(Some(0.5), Some("LEFT"), Some("Next!"));
      }
      if rUp && lastLeg != Some(Right) {
        lastLeg := Some(Right);
        return Outcome(Some(0.5), Some("RIGHT"), Some("Next!"));
      }
      return Show("RUN", "Knees high");
    }

    method UpdateBurpees(frame: Frame) returns (o: Outcome)
      requires WellFormed(frame)
      modifies this
      ensures var e := BurpeesStep(old(Snapshot()), frame);
        Snapshot() == e.fields && o == e.outcome
    {
      var isHorizontal := Horizontal(frame);
      var isVertical := Vertical(frame);
      if isHorizontal && step == 0 {
        step := 1;
        return Show("PLANK", "Up!");
      }
      if isVertical && step == 1 {
        step := 0;
        return Outcome(Some(1.0), Some("STAND"), Some("Down!"));
      }
      return Show(if step == 1 then "PLANK" else "STAND", "Move!");
    }

    method UpdateShoulderTap(frame: Frame) returns (o: Outcome)
      requires WellFormed(frame)
      modifies this
      ensures var e := ShoulderTapStep(old(Snapshot()), frame);
        Snapshot() == e.fields && o == e.outcome
    {
      var lTap := LeftTap(frame);
      var rTap := RightTap(frame);
      if (lTap || rTap) && state != "TAP" {
        state := "TAP";
        return Outcome(Some(0.5), None, Some("Tap!"));
      }
      if !lTap && !rTap {
        state := "IDLE";
      }
      return Cue("Tap shoulders");
    }

    method UpdateCalfRaise(frame: Frame) returns (o: Outcome)
      requires WellFormed(frame)
      modifies this
      ensures var e := CalfRaiseStep(old(Snapshot()), frame);
        Snapshot() == e.fields && o == e.outcome
    {
      var ankle := frame[LeftAnkle];
      if !HasBaseline(baseY) {
        baseY := Some(ankle.y);
      }
      if ankle.y < baseY.value - RaiseHeight {
        state := "UP";
        return Show("UP", "Down");
      }
      if state == "UP" && ankle.y > baseY.value - ReturnBand {
        state := "DOWN";
        return Outcome(Some(1.0), Some("DOWN"), Some("Up"));
      }
      return Cue("Rise");
    }

    method UpdateRussianTwists(frame: Frame) returns (o: Outcome)
      requires WellFormed(frame)
      modifies this
      ensures var e := RussianTwistsStep(old(Snapshot()), frame);
        Snapshot() == e.fields && o == e.outcome
    {
      if TwistedLeft(frame) && state != "LEFT" {
        state := "LEFT";
        return Outcome(Some(0.5), None, Some("Right"));
      }
      if TwistedRight(frame) && state != "RIGHT" {
        state := "RIGHT";
        return Outcome(Some(0.5), None, Some("Left"));
      }
      return Cue("Twist");
    }
  }
}
