/**
 * ExerciseEngine: one classifier instance per exercise identifier, frame
 * dispatch to the selected one, merging of its result into the global
 * totals, and the reset protocol.
 */
module Engine {
  import opened Wrappers
  import opened Geometry
  import opened AppState
  import opened Exercises

  /** The keys of `this.exercises`, in the order the source lists them. */
  datatype ExerciseId =
    | pushup
    | plankupdown
    | pikepushup
    | shouldertap
    | lunge
    | glutebridge
    | calfraise
    | plank
    | highknees
    | burpees
    | mountainclimbers
    | jumpingjacks
    | legraises
    | russiantwists
    | crunches
    | squats

  /** The keys of the object literal `this.exercises` is built from, in its order. */
  const Identifiers: seq<ExerciseId> := [
    pushup, plankupdown, pikepushup, shouldertap, lunge, glutebridge, calfraise, plank,
    highknees, burpees, mountainclimbers, jumpingjacks, legraises, russiantwists, crunches, squats]

  /** Every identifier is one of the literal's keys. */
  lemma Listed(id: ExerciseId)
    ensures exists j :: 0 <= j < |Identifiers| && Identifiers[j] == id
  {
    match id
    case pushup => assert Identifiers[0] == id;
    case plankupdown => assert Identifiers[1] == id;
    case pikepushup => assert Identifiers[2] == id;
    case shouldertap => assert Identifiers[3] == id;
    case lunge => assert Identifiers[4] == id;
    case glutebridge => assert Identifiers[5] == id;
    case calfraise => assert Identifiers[6] == id;
    case plank => assert Identifiers[7] == id;
    case highknees => assert Identifiers[8] == id;
    case burpees => assert Identifiers[9] == id;
    case mountainclimbers => assert Identifiers[10] == id;
    case jumpingjacks => assert Identifiers[11] == id;
    case legraises => assert Identifiers[12] == id;
    case russiantwists => assert Identifiers[13] == id;
    case crunches => assert Identifiers[14] == id;
    case squats => assert Identifiers[15] == id;
  }

  /** The selector value that names each identifier. */
  function Key(id: ExerciseId): string
  {
    match id
    case pushup => "pushup"
    case plankupdown => "plankupdown"
    case pikepushup => "pikepushup"
    case shouldertap => "shouldertap"
    case lunge => "lunge"
    case glutebridge => "glutebridge"
    case calfraise => "calfraise"
    case plank => "plank"
    case highknees => "highknees"
    case burpees => "burpees"
    case mountainclimbers => "mountainclimbers"
    case jumpingjacks => "jumpingjacks"
    case legraises => "legraises"
    case russiantwists => "russiantwists"
    case crunches => "crunches"
    case squats => "squats"
  }

  /** The classifier class each identifier is bound to (aliases share a class, not an instance). */
  function KindOf(id: ExerciseId): Kind
  {
    match id
    case pushup => PushUp
    case plankupdown => PushUp
    case pikepushup => PushUp
    case shouldertap => ShoulderTap
    case lunge => Lunge
    case glutebridge => Squats
    case calfraise => CalfRaise
    case plank => Plank
    case highknees => HighKnees
    case burpees => Burpees
    case mountainclimbers => HighKnees
    case jumpingjacks => JumpingJacks
    case legraises => Crunches
    case russiantwists => RussianTwists
    case crunches => Crunches
    case squats => Squats
  }

  /** Looking a selector value up among the keys of `this.exercises`. */
  function Registered(s: string): Option<ExerciseId>
  {
    if s == "pushup" then Some(pushup)
    else if s == "plankupdown" then Some(plankupdown)
    else if s == "pikepushup" then Some(pikepushup)
    else if s == "shouldertap" then Some(shouldertap)
    else if s == "lunge" then Some(lunge)
    else if s == "glutebridge" then Some(glutebridge)
    else if s == "calfraise" then Some(calfraise)
    else if s == "plank" then Some(plank)
    else if s == "highknees" then Some(highknees)
    else if s == "burpees" then Some(burpees)
    else if s == "mountainclimbers" then Some(mountainclimbers)
    else if s == "jumpingjacks" then Some(jumpingjacks)
    else if s == "legraises" then Some(legraises)
    else if s == "russiantwists" then Some(russiantwists)
    else if s == "crunches" then Some(crunches)
    else if s == "squats" then Some(squats)
    else None
  }

  /** Looking up an identifier's selector value finds that identifier. */
  lemma KeyRoundTrip(id: ExerciseId)
    ensures Registered(Key(id)) == Some(id)
  {
  }

  /** A JavaScript-truthy increment: present and non-zero. */
  predicate Counts(o: Outcome)
  {
    o.repIncrement.Some? && o.repIncrement.value != 0.0
  }

  /** `x || fallback` for an optional string: empty and absent both fall back. */
  function OrElse(x: Option<string>, fallback: string): string
  {
    if x.Some? && x.value != "" then x.value else fallback
  }

  /** How `process` folds one update result into the totals. */
  function Merge(t: Totals, o: Outcome): Totals
  {
    Totals(
      if Counts(o) then t.reps + o.repIncrement.value else t.reps,
      OrElse(o.state, t.movementState),
      OrElse(o.feedback, t.lastFeedback))
  }

  /**
   * The totals after one update: first the plank's direct write of its hold
   * time (made inside `update`), then the merge `process` performs.
   */
  function Apply(t: Totals, e: Effect): Totals
  {
    var written := if e.heldSeconds.Some? then t.(reps := e.heldSeconds.value as real) else t;
    Merge(written, e.outcome)
  }

  /** No two identifiers share an instance. */
  ghost predicate Distinct(m: map<ExerciseId, Exercise>)
  {
    forall i, j :: i in m && j in m && i != j ==> m[i] != m[j]
  }

  /** Each bound instance is of its identifier's registered class. */
  ghost predicate Binds(m: map<ExerciseId, Exercise>)
  {
    forall id :: id in m ==> m[id].kind == KindOf(id)
  }

  /** Every bound instance is in the state a new classifier starts in. */
  ghost predicate AllInitial(m: map<ExerciseId, Exercise>)
    reads m.Values
  {
    forall id :: id in m ==> m[id].Snapshot() == Initial
  }

  class ExerciseEngine {
    /** `this.exercises`: identifier to classifier instance. */
    const exercises: map<ExerciseId, Exercise>
    /** The global STATE: the engine reads the selection from it and writes the totals to it. */
    const session: Session

    /**
     * Every identifier is bound to an instance of its registered class, and
     * no two identifiers share an instance.
     */
    ghost predicate Valid()
    {
      && (forall id: ExerciseId :: id in exercises)
      && Binds(exercises)
      && Distinct(exercises)
    }

    /**
     * `new ExerciseEngine()`: a new instance for every identifier, each in
     * the state a new classifier starts in.
     */
    constructor (session: Session)
      ensures Valid() && this.session == session
      ensures forall id :: fresh(exercises[id]) && exercises[id].Snapshot() == Initial
    {
      var m := map[];
      for i := 0 to |Identifiers|
        invariant Binds(m) && Distinct(m) && AllInitial(m)
        invariant forall id :: id in m ==> fresh(m[id])
        invariant m.Keys == set j | 0 <= j < i :: Identifiers[j]
      {
        m := Register(m, Identifiers[i]);
      }
      forall id ensures id in m {
        Listed(id);
      }
      exercises := m;
      this.session := session;
    }

    /**
     * Binds `id` to a new instance of the class registered under it, in the
     * state a new classifier starts in, and keeps every other binding.
     */
    static method Register(m: map<ExerciseId, Exercise>, id: ExerciseId) returns (m': map<ExerciseId, Exercise>)
      requires Binds(m) && Distinct(m) && AllInitial(m)
      ensures Binds(m') && Distinct(m') && AllInitial(m')
      ensures m'.Keys == m.Keys + {id}
      ensures id in m' && m' == m[id := m'[id]]
      ensures fresh(m'[id]) && m'[id].Snapshot() == Initial
    {
      var exercise := new Exercise(KindOf(id));
      m' := m[id := exercise];
    }

    /**
     * `process(landmarks)`: nothing happens when the selection is not a
     * registered identifier; otherwise the selected instance alone is
     * updated and its result is merged into the totals.
     */
    method Process(frame: Frame, now: int, raw: RawAngle)
      requires Valid() && WellFormed(frame)
      modifies session, exercises.Values
      ensures session.currentExercise == old(session.currentExercise)
      ensures forall id :: Registered(session.currentExercise) != Some(id) ==> unchanged(exercises[id])
      ensures Registered(session.currentExercise).None? ==> session.Current() == old(session.Current())
      ensures Registered(session.currentExercise).Some? ==>
        var id := Registered(session.currentExercise).value;
        var e := Step(KindOf(id), old(exercises[id].Snapshot()), frame, now, raw);
        exercises[id].Snapshot() == e.fields && session.Current() == Apply(old(session.Current()), e)
    {
      var selected := Registered(session.currentExercise);
      if selected.None? {
        return;
      }
      var exercise := exercises[selected.value];
      var result := exercise.Update(frame, now, raw, session);
      if Counts(result) {
        session.reps := session.reps + result.repIncrement.value;
      }
      session.movementState := OrElse(result.state, session.movementState);
      session.lastFeedback := OrElse(result.feedback, session.lastFeedback);
    }

    /**
     * `reset()`: idle totals, and every registered instance reset in place,
     * not only the selected one.
     */
    method Reset()
      requires Valid()
      modifies session`reps, session`movementState, session`lastFeedback, exercises.Values
      ensures session.Current() == Idle
      ensures session.currentExercise == old(session.currentExercise)
      ensures forall id :: id in exercises ==>
        exercises[id].Snapshot() == ResetFields(exercises[id].kind, old(exercises[id].Snapshot()))
    {
      session.reps := 0.0;
      session.movementState := "IDLE";
      session.lastFeedback := "Get Ready";
      var pending := exercises.Values;
      while pending != {}
        invariant pending <= exercises.Values
        invariant forall ex :: ex in exercises.Values && ex !in pending ==>
          ex.Snapshot() == ResetFields(ex.kind, old(ex.Snapshot()))
        invariant forall ex :: ex in pending ==> ex.Snapshot() == old(ex.Snapshot())
        invariant session.Current() == Idle
        invariant session.currentExercise == old(session.currentExercise)
        decreases pending
      {
        var ex :| ex in pending;
        ex.Reset();
        pending := pending - {ex};
      }
    }

    /** The exercise selector's change handler: select `s`, then reset. */
    method SelectExercise(s: string)
      requires Valid()
      modifies session, exercises.Values
      ensures session.currentExercise == s && session.Current() == Idle
      ensures forall id :: id in exercises ==>
        exercises[id].Snapshot() == ResetFields(exercises[id].kind, old(exercises[id].Snapshot()))
    {
      session.currentExercise := s;
      Reset();
    }
  }
}
