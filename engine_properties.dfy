/**
 * What `ExerciseEngine.process` does to the global totals over one frame
 * and over a run of frames, and how a selector value finds its classifier.
 */
module EngineProperties {
  import opened Wrappers
  import opened Geometry
  import opened AppState
  import opened Exercises
  import opened Engine
  import opened ExerciseProperties

  /** Whatever identifier a selector value finds, the value is that identifier's key. */
  lemma RegisteredSound(s: string)
    ensures Registered(s).Some? ==> s == Key(Registered(s).value)
  {
  }

  /** A selector value finds an identifier exactly when it is that identifier's key. */
  lemma RegisteredIff(s: string, id: ExerciseId)
    ensures Registered(s) == Some(id) <==> s == Key(id)
  {
    RegisteredSound(s);
    KeyRoundTrip(id);
  }

  /** The lookup `process` performs fails exactly for the values that are no identifier's key. */
  lemma UnregisteredIff(s: string)
    ensures Registered(s).None? <==> forall id :: s != Key(id)
  {
    RegisteredSound(s);
    if Registered(s).None? {
      forall id ensures s != Key(id) {
        KeyRoundTrip(id);
      }
    }
  }

  /**
   * The merge adds an increment only when the result carries a nonzero
   * one, and replaces the phase and the message only with a non-empty
   * value the result carries; otherwise they keep their previous values.
   */
  lemma MergeRules(t: Totals, o: Outcome)
    ensures Merge(t, o).reps == t.reps + (if Counts(o) then o.repIncrement.value else 0.0)
    ensures o.state.None? || o.state == Some("") ==> Merge(t, o).movementState == t.movementState
    ensures o.state.Some? && o.state.value != "" ==> Merge(t, o).movementState == o.state.value
    ensures o.feedback.None? || o.feedback == Some("") ==> Merge(t, o).lastFeedback == t.lastFeedback
    ensures o.feedback.Some? && o.feedback.value != "" ==> Merge(t, o).lastFeedback == o.feedback.value
  {
  }

  /** Only the plank writes the repetition count directly. */
  lemma OnlyPlankWrites(k: Kind, f: Fields, frame: Frame, now: int, raw: RawAngle)
    requires WellFormed(frame)
    ensures Step(k, f, frame, now, raw).heldSeconds.Some? ==> k == Plank
  {
  }

  /**
   * For every classifier but the plank one frame adds exactly the returned
   * increment to the count, which therefore never goes down.
   */
  lemma RepsNeverDecrease(k: Kind, f: Fields, t: Totals, frame: Frame, now: int, raw: RawAngle)
    requires k != Plank && WellFormed(frame)
    ensures var e := Step(k, f, frame, now, raw);
      Apply(t, e).reps == t.reps + Increment(e.outcome) >= t.reps
  {
    IncrementsAreHalfOrOne(k, f, frame, now, raw);
    OnlyPlankWrites(k, f, frame, now, raw);
  }

  /**
   * For the plank `STATE.reps` holds the seconds held while the body is
   * straight, and keeps its previous value on any other frame.
   */
  lemma PlankWritesSeconds(f: Fields, t: Totals, frame: Frame, now: int, raw: RawAngle)
    requires WellFormed(frame)
    ensures var e := Step(Plank, f, frame, now, raw);
      Apply(t, e).reps == (if Straight(frame, raw) then HeldSeconds(e.fields.startTime.value, now) as real else t.reps)
  {
    PlankStepRules(f, frame, now, raw);
  }

  /** The totals after `process` has handled every tick with one classifier selected. */
  function Accumulate(k: Kind, f: Fields, t: Totals, ticks: seq<Tick>, raw: RawAngle): Totals
    requires AllWellFormed(ticks)
    decreases |ticks|
  {
    if |ticks| == 0 then t
    else
      var e := Step(k, f, ticks[0].frame, ticks[0].now, raw);
      Accumulate(k, e.fields, Apply(t, e), ticks[1..], raw)
  }

  /**
   * Over any run, for every classifier but the plank, the count grows by
   * exactly the increments the classifier returned.
   */
  lemma {:induction false} CountIsTotal(k: Kind, f: Fields, t: Totals, ticks: seq<Tick>, raw: RawAngle)
    requires k != Plank && AllWellFormed(ticks)
    ensures Accumulate(k, f, t, ticks, raw).reps == t.reps + Total(k, f, ticks, raw)
    decreases |ticks|
  {
    if |ticks| > 0 {
      var e := Step(k, f, ticks[0].frame, ticks[0].now, raw);
      RepsNeverDecrease(k, f, t, ticks[0].frame, ticks[0].now, raw);
      assert AllWellFormed(ticks[1..]);
      CountIsTotal(k, e.fields, Apply(t, e), ticks[1..], raw);
    }
  }

  /**
   * From any totals and any classifier fields, including the fields a reset
   * leaves behind, a latching classifier adds at most one repetition per
   * arming movement, plus one if it starts out armed.
   */
  lemma CountNeedsArming(k: Kind, f: Fields, t: Totals, ticks: seq<Tick>, raw: RawAngle)
    requires Latching(k) && AllWellFormed(ticks)
    ensures Accumulate(k, f, t, ticks, raw).reps
      <= t.reps + RepValue(k) * (Armings(k, f, ticks, raw) as real + Bit(Armed(k, f)))
  {
    CountIsTotal(k, f, t, ticks, raw);
    RepsNeedArming(k, f, ticks, raw);
  }

  /**
   * Push-ups at elbow angles 175, 85, 178 after a reset of the engine,
   * whatever the push-up classifier had seen before: the totals show no
   * repetition and "DOWN" after the second frame, one repetition and "UP"
   * after the third.
   */
  lemma PushUpTotals(g: Fields, ticks: seq<Tick>, raw: RawAngle)
    requires |ticks| == 3 && AllWellFormed(ticks)
    requires PushUpAngle(ticks[0].frame, raw) == 175.0
    requires PushUpAngle(ticks[1].frame, raw) == 85.0
    requires PushUpAngle(ticks[2].frame, raw) == 178.0
    ensures Accumulate(PushUp, ResetFields(PushUp, g), Idle, ticks[..2], raw) == Totals(0.0, "DOWN", "Push up!")
    ensures Accumulate(PushUp, ResetFields(PushUp, g), Idle, ticks, raw) == Totals(1.0, "UP", "Good rep!")
  {
    var f := ResetFields(PushUp, g);
    var e0 := Step(PushUp, f, ticks[0].frame, ticks[0].now, raw);
    var e1 := Step(PushUp, e0.fields, ticks[1].frame, ticks[1].now, raw);
    var e2 := Step(PushUp, e1.fields, ticks[2].frame, ticks[2].now, raw);
    var t1 := Apply(Idle, e0);
    var t2 := Apply(t1, e1);
    var t3 := Apply(t2, e2);
    assert t1 == Totals(0.0, "UP", "Go down");
    assert t2 == Totals(0.0, "DOWN", "Push up!");
    assert t3 == Totals(1.0, "UP", "Good rep!");
    assert ticks[..2][1..] == [ticks[1]] && [ticks[1]][1..] == [];
    assert Accumulate(PushUp, e1.fields, t2, [], raw) == t2;
    assert Accumulate(PushUp, e0.fields, t1, [ticks[1]], raw) == t2;
    assert ticks[1..] == [ticks[1], ticks[2]] && ticks[1..][1..] == [ticks[2]] && [ticks[2]][1..] == [];
    assert Accumulate(PushUp, e2.fields, t3, [], raw) == t3;
    assert Accumulate(PushUp, e1.fields, t2, [ticks[2]], raw) == t3;
    assert Accumulate(PushUp, e0.fields, t1, ticks[1..], raw) == t3;
  }
}
