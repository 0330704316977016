/**
 * What the classifiers promise over one frame and over a whole run of
 * frames: when a repetition is credited, what arms the next one, how the
 * half-repetition exercises alternate, how the plank times a hold, and
 * what `reset()` does and does not restore.
 */
module ExerciseProperties {
  import opened Wrappers
  import opened Geometry
  import opened Exercises

  /** One camera frame and the clock reading taken while handling it. */
  datatype Tick = Tick(frame: Frame, now: int)

  predicate AllWellFormed(ticks: seq<Tick>)
  {
    forall i :: 0 <= i < |ticks| ==> WellFormed(ticks[i].frame)
  }

  /** The classifier's fields after `update` has seen every tick in order. */
  function After(k: Kind, f: Fields, ticks: seq<Tick>, raw: RawAngle): Fields
    requires AllWellFormed(ticks)
    decreases |ticks|
  {
    if |ticks| == 0 then f
    else After(k, Step(k, f, ticks[0].frame, ticks[0].now, raw).fields, ticks[1..], raw)
  }

  /** The sum of the increments `update` returns over the run. */
  function Total(k: Kind, f: Fields, ticks: seq<Tick>, raw: RawAngle): real
    requires AllWellFormed(ticks)
    decreases |ticks|
  {
    if |ticks| == 0 then 0.0
    else
      var e := Step(k, f, ticks[0].frame, ticks[0].now, raw);
      Increment(e.outcome) + Total(k, e.fields, ticks[1..], raw)
  }

  function Bit(b: bool): real
  {
    if b then 1.0 else 0.0
  }

  /** Every increment any classifier returns is a whole or a half repetition. */
  lemma IncrementsAreHalfOrOne(k: Kind, f: Fields, frame: Frame, now: int, raw: RawAngle)
    requires WellFormed(frame)
    ensures var o := Step(k, f, frame, now, raw).outcome;
      o.repIncrement == None || o.repIncrement == Some(1.0) || o.repIncrement == Some(0.5)
  {
  }

  // ===== latching classifiers =====

  /**
   * The classifiers that work as a latch: one movement arms them, a second
   * movement fires them (once) if they are armed.
   */
  predicate Latching(k: Kind)
  {
    k != Plank && k != HighKnees && k != RussianTwists
  }

  /** What one firing of the latch is worth. */
  function RepValue(k: Kind): real
  {
    if k == ShoulderTap then 0.5 else 1.0
  }

  /** A measured angle below the bent threshold. */
  predicate Bent(angle: real)
  {
    angle != NoAngle && angle < HingeBent
  }

  /** A measured angle above the extended threshold. */
  predicate Extended(angle: real)
  {
    angle != NoAngle && angle > HingeOpen
  }

  /** The latch is armed: the next completing movement will be credited. */
  predicate Armed(k: Kind, f: Fields)
  {
    match k
    case PushUp => f.state == "DOWN"
    case Squats => f.state == "DOWN"
    case Lunge => f.state == "DOWN"
    case Crunches => f.state == "IN"
    case JumpingJacks => f.state == "UP"
    case CalfRaise => f.state == "UP"
    case Burpees => f.step == 1
    case ShoulderTap => f.state != "TAP"
    case _ => false
  }

  /** The movement, seen on `frame`, that arms the latch. */
  predicate Arms(k: Kind, f: Fields, frame: Frame, raw: RawAngle)
    requires WellFormed(frame)
  {
    match k
    case PushUp => Bent(PushUpAngle(frame, raw))
    case Squats => Bent(LeftKneeAngle(frame, raw))
    case Lunge =>
      var l := LeftKneeAngle(frame, raw);
      var r := RightKneeAngle(frame, raw);
      l != NoAngle && r != NoAngle && (l < LungeBent || r < LungeBent)
    case Crunches =>
      frame[LeftShoulder].visibility >= VisibilityThreshold
      && TorsoSpan(frame) < (CurledRatio * CurledRatio) * ThighSpan(frame)
    case JumpingJacks => HandsVisible(frame) && HandsUp(frame) && FeetWide(frame)
    case CalfRaise => frame[LeftAnkle].y < Baseline(f, frame) - RaiseHeight
    case Burpees => Horizontal(frame) && f.step == 0
    case ShoulderTap => !LeftTap(frame) && !RightTap(frame)
    case _ => false
  }

  /** The movement, seen on `frame`, that completes a repetition. */
  predicate Completes(k: Kind, f: Fields, frame: Frame, raw: RawAngle)
    requires WellFormed(frame)
  {
    match k
    case PushUp => Extended(PushUpAngle(frame, raw))
    case Squats => Extended(LeftKneeAngle(frame, raw))
    case Lunge => Extended(LeftKneeAngle(frame, raw)) && Extended(RightKneeAngle(frame, raw))
    case Crunches =>
      frame[LeftShoulder].visibility >= VisibilityThreshold
      && TorsoSpan(frame) > (OpenRatio * OpenRatio) * ThighSpan(frame)
    case JumpingJacks => HandsVisible(frame) && !HandsUp(frame) && !FeetWide(frame)
    case CalfRaise =>
      var y := frame[LeftAnkle].y;
      var base := Baseline(f, frame);
      !(y < base - RaiseHeight) && y > base - ReturnBand
    case Burpees => Vertical(frame)
    case ShoulderTap => LeftTap(frame) || RightTap(frame)
    case _ => false
  }

  /**
   * Each latching classifier is exactly a two-state latch: it credits one
   * repetition when it is armed and sees the completing movement (and then
   * disarms), it is armed afterwards precisely when it saw the arming
   * movement or was armed and did not fire.
   */
  lemma LatchStep(k: Kind, f: Fields, frame: Frame, now: int, raw: RawAngle)
    requires Latching(k) && WellFormed(frame)
    ensures var e := Step(k, f, frame, now, raw);
      && e.outcome.repIncrement == (if Armed(k, f) && Completes(k, f, frame, raw) then Some(RepValue(k)) else None)
      && (Armed(k, e.fields) <==> Arms(k, f, frame, raw) || (Armed(k, f) && !Completes(k, f, frame, raw)))
      && !(Arms(k, f, frame, raw) && Armed(k, f) && Completes(k, f, frame, raw))
  {
    if k == Crunches {
      var thigh := ThighSpan(frame);
      assert thigh >= 0.0;
      assert (CurledRatio * CurledRatio) * thigh <= (OpenRatio * OpenRatio) * thigh;
    }
  }

  /** How many frames of the run showed the arming movement. */
  function Armings(k: Kind, f: Fields, ticks: seq<Tick>, raw: RawAngle): nat
    requires AllWellFormed(ticks)
    decreases |ticks|
  {
    if |ticks| == 0 then 0
    else
      var e := Step(k, f, ticks[0].frame, ticks[0].now, raw);
      (if Arms(k, f, ticks[0].frame, raw) then 1 else 0) + Armings(k, e.fields, ticks[1..], raw)
  }

  /**
   * No repetition without an arming movement before it: over any run, the
   * credited total is at most one repetition per arming frame, plus one if
   * the classifier started out armed; a classifier still armed at the end
   * has one arming frame not yet spent.
   */
  lemma {:induction false} RepsNeedArming(k: Kind, f: Fields, ticks: seq<Tick>, raw: RawAngle)
    requires Latching(k) && AllWellFormed(ticks)
    ensures Total(k, f, ticks, raw) + RepValue(k) * Bit(Armed(k, After(k, f, ticks, raw)))
      <= RepValue(k) * (Armings(k, f, ticks, raw) as real + Bit(Armed(k, f)))
    decreases |ticks|
  {
    if |ticks| > 0 {
      var t := ticks[0];
      var e := Step(k, f, t.frame, t.now, raw);
      LatchStep(k, f, t.frame, t.now, raw);
      assert AllWellFormed(ticks[1..]);
      RepsNeedArming(k, e.fields, ticks[1..], raw);
    }
  }

  /**
   * No latching classifier credits two frames in a row: the frame after a
   * credited one never completes a repetition.
   */
  lemma NoRepTwiceInARow(k: Kind, f: Fields, first: Tick, second: Tick, raw: RawAngle)
    requires Latching(k) && WellFormed(first.frame) && WellFormed(second.frame)
    requires Step(k, f, first.frame, first.now, raw).outcome.repIncrement.Some?
    ensures
      var g := Step(k, f, first.frame, first.now, raw).fields;
      Step(k, g, second.frame, second.now, raw).outcome.repIncrement.None?
  {
    var g := Step(k, f, first.frame, first.now, raw).fields;
    LatchStep(k, f, first.frame, first.now, raw);
    LatchStep(k, g, second.frame, second.now, raw);
  }

  // ===== PushUp and Squats =====

  /** The joint angle a hinge classifier measures. */
  function HingeAngle(k: Kind, frame: Frame, raw: RawAngle): real
    requires WellFormed(frame)
  {
    if k == PushUp then PushUpAngle(frame, raw) else LeftKneeAngle(frame, raw)
  }

  /**
   * An unmeasurable angle, or one between the two thresholds, changes
   * nothing and credits nothing; an unmeasurable one only gives feedback.
   */
  lemma HingeHolds(k: Kind, f: Fields, frame: Frame, now: int, raw: RawAngle)
    requires (k == PushUp || k == Squats) && WellFormed(frame)
    requires var a := HingeAngle(k, frame, raw); a == NoAngle || HingeBent <= a <= HingeOpen
    ensures var e := Step(k, f, frame, now, raw);
      && e.fields == f && e.outcome.repIncrement.None?
      && (HingeAngle(k, frame, raw) == NoAngle <==> e.outcome.state.None?)
  {
  }

  /**
   * Angles 175, 85, 178 from a new classifier: nothing on the first two
   * frames (the second bends the joint), one repetition on the third.
   */
  lemma HingeSequence(k: Kind, ticks: seq<Tick>, raw: RawAngle)
    requires (k == PushUp || k == Squats) && |ticks| == 3 && AllWellFormed(ticks)
    requires HingeAngle(k, ticks[0].frame, raw) == 175.0
    requires HingeAngle(k, ticks[1].frame, raw) == 85.0
    requires HingeAngle(k, ticks[2].frame, raw) == 178.0
    ensures Total(k, Initial, ticks[..2], raw) == 0.0 && After(k, Initial, ticks[..2], raw).state == "DOWN"
    ensures Total(k, Initial, ticks, raw) == 1.0 && After(k, Initial, ticks, raw).state == "UP"
  {
    var cues := if k == PushUp then PushUpCues else SquatCues;
    var e0 := Step(k, Initial, ticks[0].frame, ticks[0].now, raw);
    assert e0 == HingeStep(Initial, 175.0, cues);
    var e1 := Step(k, e0.fields, ticks[1].frame, ticks[1].now, raw);
    assert e1 == HingeStep(e0.fields, 85.0, cues);
    var e2 := Step(k, e1.fields, ticks[2].frame, ticks[2].now, raw);
    assert e2 == HingeStep(e1.fields, 178.0, cues);
    assert e0.outcome.repIncrement.None? && e1.outcome.repIncrement.None? && e1.fields.state == "DOWN";
    assert e2.outcome.repIncrement == Some(1.0) && e2.fields.state == "UP";
    var two := ticks[..2];
    assert two[1..] == [ticks[1]] && [ticks[1]][1..] == [];
    assert Total(k, e1.fields, [], raw) == 0.0 && After(k, e1.fields, [], raw) == e1.fields;
    assert Total(k, e0.fields, [ticks[1]], raw) == 0.0 && After(k, e0.fields, [ticks[1]], raw) == e1.fields;
    assert ticks[1..] == [ticks[1], ticks[2]] && ticks[1..][1..] == [ticks[2]] && [ticks[2]][1..] == [];
    assert Total(k, e2.fields, [], raw) == 0.0 && After(k, e2.fields, [], raw) == e2.fields;
    assert Total(k, e1.fields, [ticks[2]], raw) == 1.0 && After(k, e1.fields, [ticks[2]], raw) == e2.fields;
    assert Total(k, e0.fields, ticks[1..], raw) == 1.0;
  }

  // ===== HighKnees and RussianTwists =====

  /** The classifiers that pay half a repetition each time a side changes. */
  predicate Alternating(k: Kind)
  {
    k == HighKnees || k == RussianTwists
  }

  /** The side the classifier last credited changed between `f` and `g`. */
  predicate Switched(k: Kind, f: Fields, g: Fields)
  {
    if k == HighKnees then g.lastLeg != f.lastLeg else g.state != f.state
  }

  /**
   * Half a repetition is paid exactly when the credited side changes, and
   * it only ever changes to a side that this frame shows raised or twisted.
   */
  lemma AlternatingStep(k: Kind, f: Fields, frame: Frame, now: int, raw: RawAngle)
    requires Alternating(k) && WellFormed(frame)
    ensures var e := Step(k, f, frame, now, raw);
      && e.outcome.repIncrement == (if Switched(k, f, e.fields) then Some(0.5) else None)
      && (k == HighKnees ==>
            && e.fields == f.(lastLeg := e.fields.lastLeg)
            && (Switched(k, f, e.fields) && e.fields.lastLeg == Some(Left) ==> LeftKneeUp(frame))
            && (Switched(k, f, e.fields) && e.fields.lastLeg == Some(Right) ==> RightKneeUp(frame))
            && (Switched(k, f, e.fields) ==> e.fields.lastLeg.Some?))
      && (k == RussianTwists ==>
            && e.fields == f.(state := e.fields.state)
            && (Switched(k, f, e.fields) && e.fields.state == "LEFT" ==> TwistedLeft(frame))
            && (Switched(k, f, e.fields) && e.fields.state == "RIGHT" ==> TwistedRight(frame))
            && (Switched(k, f, e.fields) ==> e.fields.state == "LEFT" || e.fields.state == "RIGHT"))
  {
  }

  /** How many frames of the run changed the credited side. */
  function Switches(k: Kind, f: Fields, ticks: seq<Tick>, raw: RawAngle): nat
    requires AllWellFormed(ticks)
    decreases |ticks|
  {
    if |ticks| == 0 then 0
    else
      var g := Step(k, f, ticks[0].frame, ticks[0].now, raw).fields;
      (if Switched(k, f, g) then 1 else 0) + Switches(k, g, ticks[1..], raw)
  }

  /** Over any run, an alternating classifier pays half a repetition per change of side. */
  lemma {:induction false} HalfPerSwitch(k: Kind, f: Fields, ticks: seq<Tick>, raw: RawAngle)
    requires Alternating(k) && AllWellFormed(ticks)
    ensures Total(k, f, ticks, raw) == 0.5 * Switches(k, f, ticks, raw) as real
    decreases |ticks|
  {
    if |ticks| > 0 {
      var t := ticks[0];
      AlternatingStep(k, f, t.frame, t.now, raw);
      assert AllWellFormed(ticks[1..]);
      HalfPerSwitch(k, Step(k, f, t.frame, t.now, raw).fields, ticks[1..], raw);
    }
  }

  /** Only the left knee is up on this frame. */
  predicate LeftOnly(frame: Frame)
    requires WellFormed(frame)
  {
    LeftKneeUp(frame) && !RightKneeUp(frame)
  }

  /** Only the right knee is up on this frame. */
  predicate RightOnly(frame: Frame)
    requires WellFormed(frame)
  {
    RightKneeUp(frame) && !LeftKneeUp(frame)
  }

  /**
   * Raising the same knee again and again pays once: half a repetition for
   * the first frame if that leg was not the last one credited, nothing after.
   */
  lemma {:induction false} SameLegPaysOnce(f: Fields, ticks: seq<Tick>, raw: RawAngle)
    requires AllWellFormed(ticks)
    requires forall i :: 0 <= i < |ticks| ==> LeftOnly(ticks[i].frame)
    ensures Total(HighKnees, f, ticks, raw) == (if |ticks| > 0 && f.lastLeg != Some(Left) then 0.5 else 0.0)
    decreases |ticks|
  {
    if |ticks| > 0 {
      var g := Step(HighKnees, f, ticks[0].frame, ticks[0].now, raw).fields;
      assert g.lastLeg == Some(Left);
      assert AllWellFormed(ticks[1..]);
      assert forall i :: 0 <= i < |ticks[1..]| ==> LeftOnly(ticks[1..][i].frame) by {
        forall i | 0 <= i < |ticks[1..]| ensures LeftOnly(ticks[1..][i].frame) {
          assert ticks[1..][i] == ticks[i + 1];
        }
      }
      SameLegPaysOnce(g, ticks[1..], raw);
    }
  }

  /** Left, right, left, right from a new classifier: two whole repetitions. */
  lemma HighKneesLeftRightTwice(ticks: seq<Tick>, raw: RawAngle)
    requires |ticks| == 4 && AllWellFormed(ticks)
    requires LeftOnly(ticks[0].frame) && RightOnly(ticks[1].frame)
    requires LeftOnly(ticks[2].frame) && RightOnly(ticks[3].frame)
    ensures Total(HighKnees, Initial, ticks, raw) == 2.0
  {
    var e0 := Step(HighKnees, Initial, ticks[0].frame, ticks[0].now, raw);
    var e1 := Step(HighKnees, e0.fields, ticks[1].frame, ticks[1].now, raw);
    var e2 := Step(HighKnees, e1.fields, ticks[2].frame, ticks[2].now, raw);
    var e3 := Step(HighKnees, e2.fields, ticks[3].frame, ticks[3].now, raw);
    assert e0.fields.lastLeg == Some(Left) && e0.outcome.repIncrement == Some(0.5);
    assert e1.fields.lastLeg == Some(Right) && e1.outcome.repIncrement == Some(0.5);
    assert e2.fields.lastLeg == Some(Left) && e2.outcome.repIncrement == Some(0.5);
    assert e3.outcome.repIncrement == Some(0.5);
    assert ticks[1..][1..] == ticks[2..] && ticks[2..][1..] == [ticks[3]] && [ticks[3]][1..] == [];
    assert Total(HighKnees, e3.fields, [], raw) == 0.0;
    assert Total(HighKnees, e2.fields, [ticks[3]], raw) == 0.5;
    assert Total(HighKnees, e1.fields, ticks[2..], raw) == 1.0;
    assert Total(HighKnees, e0.fields, ticks[1..], raw) == 1.5;
  }

  /** Twisting to the same side again and again pays once. */
  lemma {:induction false} SameTwistPaysOnce(f: Fields, ticks: seq<Tick>, raw: RawAngle)
    requires AllWellFormed(ticks)
    requires forall i :: 0 <= i < |ticks| ==> TwistedLeft(ticks[i].frame)
    ensures Total(RussianTwists, f, ticks, raw) == (if |ticks| > 0 && f.state != "LEFT" then 0.5 else 0.0)
    decreases |ticks|
  {
    if |ticks| > 0 {
      var g := Step(RussianTwists, f, ticks[0].frame, ticks[0].now, raw).fields;
      assert g.state == "LEFT";
      assert AllWellFormed(ticks[1..]);
      assert forall i :: 0 <= i < |ticks[1..]| ==> TwistedLeft(ticks[1..][i].frame) by {
        forall i | 0 <= i < |ticks[1..]| ensures TwistedLeft(ticks[1..][i].frame) {
          assert ticks[1..][i] == ticks[i + 1];
        }
      }
      SameTwistPaysOnce(g, ticks[1..], raw);
    }
  }

  // ===== Plank =====

  /** The body is measured and straight on this frame. */
  predicate Straight(frame: Frame, raw: RawAngle)
    requires WellFormed(frame)
  {
    var hip := HipAngle(frame, raw);
    hip != NoAngle && hip > PlankStraight
  }

  /** Whole seconds held never go below zero on a clock that has not gone back. */
  lemma HeldSecondsNonNegative(start: int, now: int)
    requires start <= now
    ensures HeldSeconds(start, now) >= 0
  {
  }

  /** Whole seconds held never decrease as the clock advances. */
  lemma HeldSecondsMonotone(start: int, earlier: int, later: int)
    requires earlier <= later
    ensures HeldSeconds(start, earlier) <= HeldSeconds(start, later)
  {
    var a, b := earlier - start, later - start;
    assert a == (a / 1000) * 1000 + a % 1000;
    assert b == (b / 1000) * 1000 + b % 1000;
  }

  /**
   * A plank classifier only ever times, never credits: on a straight frame
   * it keeps a start time already set (starting the clock now otherwise)
   * and reports the whole seconds since it; on a measured bent frame it
   * clears the start time; an unmeasured frame changes nothing.
   */
  lemma PlankStepRules(f: Fields, frame: Frame, now: int, raw: RawAngle)
    requires WellFormed(frame)
    ensures var e := Step(Plank, f, frame, now, raw);
      && e.outcome.repIncrement.None?
      && e.fields == f.(startTime := e.fields.startTime)
      && (Straight(frame, raw) ==>
            && (Timing(f.startTime) ==> e.fields.startTime == f.startTime)
            && (!Timing(f.startTime) ==> e.fields.startTime == Some(now))
            && e.heldSeconds == Some(HeldSeconds(e.fields.startTime.value, now)))
      && (!Straight(frame, raw) ==> e.heldSeconds.None?)
      && (!Straight(frame, raw) && HipAngle(frame, raw) != NoAngle ==> e.fields.startTime.None?)
      && (HipAngle(frame, raw) == NoAngle ==> e.fields == f)
  {
  }

  /**
   * While every frame stays straight, a running hold keeps the start time it
   * had, so the seconds reported on the last frame are counted from it.
   */
  lemma {:induction false} HoldKeepsStart(f: Fields, ticks: seq<Tick>, raw: RawAngle)
    requires AllWellFormed(ticks) && Timing(f.startTime)
    requires forall i :: 0 <= i < |ticks| ==> Straight(ticks[i].frame, raw)
    ensures After(Plank, f, ticks, raw).startTime == f.startTime
    ensures Total(Plank, f, ticks, raw) == 0.0
    decreases |ticks|
  {
    if |ticks| > 0 {
      var g := Step(Plank, f, ticks[0].frame, ticks[0].now, raw).fields;
      PlankStepRules(f, ticks[0].frame, ticks[0].now, raw);
      assert AllWellFormed(ticks[1..]);
      assert forall i :: 0 <= i < |ticks[1..]| ==> Straight(ticks[1..][i].frame, raw) by {
        forall i | 0 <= i < |ticks[1..]| ensures Straight(ticks[1..][i].frame, raw) {
          assert ticks[1..][i] == ticks[i + 1];
        }
      }
      HoldKeepsStart(g, ticks[1..], raw);
    }
  }

  /**
   * A hold that starts on a straight frame at a nonzero clock reading is
   * timed from that frame for as long as the body stays straight.
   */
  lemma HoldTimedFromFirstFrame(f: Fields, ticks: seq<Tick>, raw: RawAngle)
    requires AllWellFormed(ticks) && |ticks| > 0 && !Timing(f.startTime) && ticks[0].now != 0
    requires forall i :: 0 <= i < |ticks| ==> Straight(ticks[i].frame, raw)
    ensures After(Plank, f, ticks, raw).startTime == Some(ticks[0].now)
  {
    var g := Step(Plank, f, ticks[0].frame, ticks[0].now, raw).fields;
    PlankStepRules(f, ticks[0].frame, ticks[0].now, raw);
    assert AllWellFormed(ticks[1..]);
    assert forall i :: 0 <= i < |ticks[1..]| ==> Straight(ticks[1..][i].frame, raw) by {
      forall i | 0 <= i < |ticks[1..]| ensures Straight(ticks[1..][i].frame, raw) {
        assert ticks[1..][i] == ticks[i + 1];
      }
    }
    HoldKeepsStart(g, ticks[1..], raw);
  }

  /** After a form break, the next straight frame starts again from zero seconds. */
  lemma BreakRestartsFromZero(f: Fields, broken: Tick, resumed: Tick, raw: RawAngle)
    requires WellFormed(broken.frame) && WellFormed(resumed.frame)
    requires HipAngle(broken.frame, raw) != NoAngle && !Straight(broken.frame, raw)
    requires Straight(resumed.frame, raw)
    ensures
      var g := Step(Plank, f, broken.frame, broken.now, raw).fields;
      Step(Plank, g, resumed.frame, resumed.now, raw).heldSeconds == Some(0)
  {
    PlankStepRules(f, broken.frame, broken.now, raw);
  }

  // ===== reset() =====

  /**
   * The fields `reset()` leaves alone are still as constructed, so
   * resetting restores a new classifier.
   */
  predicate ResetsToInitial(k: Kind, f: Fields)
  {
    ResetFields(k, f) == Initial
  }

  /**
   * Every kind but HighKnees and CalfRaise only writes the field its
   * `reset()` clears: resetting after an update gives what resetting before
   * it gives, so a classifier of those kinds stays resettable.
   */
  lemma ResettableStep(k: Kind, f: Fields, frame: Frame, now: int, raw: RawAngle)
    requires k != HighKnees && k != CalfRaise && WellFormed(frame)
    ensures ResetFields(k, Step(k, f, frame, now, raw).fields) == ResetFields(k, f)
    ensures ResetsToInitial(k, f) ==> ResetsToInitial(k, Step(k, f, frame, now, raw).fields)
  {
  }

  /**
   * For every kind but HighKnees and CalfRaise, `reset()` after any run
   * gives back exactly the fields of a newly constructed classifier.
   */
  lemma {:induction false} ResetRestoresInitial(k: Kind, f: Fields, ticks: seq<Tick>, raw: RawAngle)
    requires k != HighKnees && k != CalfRaise && AllWellFormed(ticks)
    requires ResetsToInitial(k, f)
    ensures ResetFields(k, After(k, f, ticks, raw)) == Initial
    decreases |ticks|
  {
    if |ticks| > 0 {
      ResettableStep(k, f, ticks[0].frame, ticks[0].now, raw);
      assert AllWellFormed(ticks[1..]);
      ResetRestoresInitial(k, Step(k, f, ticks[0].frame, ticks[0].now, raw).fields, ticks[1..], raw);
    }
  }

  /**
   * HighKnees keeps `lastLeg` across `reset()`: after one left-knee frame
   * and a reset, the same frame no longer pays, though it pays on a new
   * classifier.
   */
  lemma ResetKeepsLastLeg(frame: Frame, now: int, raw: RawAngle)
    requires WellFormed(frame) && LeftOnly(frame)
    ensures
      var used := ResetFields(HighKnees, Step(HighKnees, Initial, frame, now, raw).fields);
      && used.lastLeg == Some(Left)
      && Step(HighKnees, Initial, frame, now, raw).outcome.repIncrement == Some(0.5)
      && Step(HighKnees, used, frame, now, raw).outcome.repIncrement.None?
  {
  }

  /**
   * CalfRaise keeps `baseY` across `reset()`: a frame judged against the
   * old baseline is a raise, while a new classifier takes that frame as its
   * baseline and credits a repetition at once.
   */
  lemma ResetKeepsBaseline(first: Frame, later: Frame, raw: RawAngle)
    requires WellFormed(first) && WellFormed(later)
    requires first[LeftAnkle].y != 0.0 && later[LeftAnkle].y < first[LeftAnkle].y - RaiseHeight
    ensures
      var used := ResetFields(CalfRaise, Step(CalfRaise, Initial, first, 0, raw).fields);
      && used.baseY == Some(first[LeftAnkle].y)
      && Step(CalfRaise, used, later, 0, raw).outcome == Show("UP", "Down")
      && Step(CalfRaise, Initial, later, 0, raw).outcome.repIncrement == Some(1.0)
  {
  }

  /**
   * A new CalfRaise classifier starts in "UP" and takes its first frame as
   * the baseline, so it credits a repetition on its very first frame.
   */
  lemma CalfRaiseFirstFrameCounts(frame: Frame, now: int, raw: RawAngle)
    requires WellFormed(frame)
    ensures Step(CalfRaise, Initial, frame, now, raw).outcome.repIncrement == Some(1.0)
  {
  }

  /**
   * A new JumpingJacks classifier also starts in "UP", so its first frame
   * with hands down and feet together is credited before any jump.
   */
  lemma JumpingJacksFirstCloseCounts(frame: Frame, now: int, raw: RawAngle)
    requires WellFormed(frame) && HandsVisible(frame) && !HandsUp(frame) && !FeetWide(frame)
    ensures Step(JumpingJacks, Initial, frame, now, raw).outcome.repIncrement == Some(1.0)
  {
  }
}
