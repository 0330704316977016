/**
 * The application's global STATE object, reduced to the fields the
 * counting engine reads and writes.
 */
module AppState {

  /** What STATE holds for the display: the running count, the phase label and the cue. */
  datatype Totals = Totals(reps: real, movementState: string, lastFeedback: string)

  /** The totals at page load and after every reset. */
  const Idle := Totals(0.0, "IDLE", "Get Ready")

  /** STATE: the selected exercise and the session totals, updated in place. */
  class Session {
    var currentExercise: string
    var reps: real
    var movementState: string
    var lastFeedback: string

    function Current(): Totals
      reads this
    {
      Totals(reps, movementState, lastFeedback)
    }

    /** STATE as initialised at load time: push-ups selected, idle totals. */
    constructor ()
      ensures currentExercise == "pushup" && Current() == Idle
    {
      currentExercise := "pushup";
      reps := 0.0;
      movementState := "IDLE";
      lastFeedback := "Get Ready";
    }
  }
}
