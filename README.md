# Rep counter classification engine

A model of the exercise classification and repetition-counting engine of the
browser client (`client/app.js`). The client feeds each pose detection to
`ExerciseEngine.process`. Each detection is a list of 33 MediaPipe Pose
landmarks. The engine looks up the classifier registered under the selected
exercise and calls its `update`. It then merges the returned
`{repIncrement, state, feedback}` into the global `STATE` totals. The totals
are the rep count, the displayed movement phase and the feedback message.
Changing the exercise selector resets the totals and every classifier.

Modules:

- `Geometry` (`geometry.dfy`): `calculateAngle` with its visibility gate and
  its -1 sentinel, and `calculateDistance`, compared through its square.
- `AppState` (`app_state.dfy`): the part of `STATE` the engine reads and
  writes, as a `Session` class updated in place.
- `Exercises` (`exercises.dfy`): `BaseExercise` and its eleven subclasses.
  - They are one `Exercise` class with a `kind` tag and the union of the
    subclasses' fields (`state`, `lastLeg`, `step`, `startTime`, `baseY`).
  - Its `Update` and `Reset` methods change those fields in place.
  - Each method is proved equal to a pure step function (`HingeStep`,
    `PlankStep`, ... dispatched by `Step`), and the properties are proved
    about those functions.
- `Engine` (`engine.dfy`): `ExerciseEngine` with one instance per
  identifier, `process`, `reset`, and the selector's change handler.
- `ExerciseProperties` and `EngineProperties`: what the classifiers and the
  engine promise over one frame and over whole runs of frames.

JavaScript truthiness is written out:

- `if (!this.startTime)` treats a start time of 0 as unset (`Timing`).
- `if (!this.baseY)` treats a baseline of 0 as unset (`HasBaseline`).
- `if (result.repIncrement)` ignores an increment of 0 (`Counts`).
- `result.state || STATE.movementState` falls back on an empty string as
  well as on a missing one (`OrElse`).

`Math.floor` of a millisecond difference divided by 1000 is Dafny's `/` on
`int`. The two agree because the divisor is positive.

Behaviour of the code worth knowing:

- Aliased identifiers get separate instances, not a shared one.
  `plankupdown` and `pikepushup` get their own `PushUp`, `glutebridge` its own
  `Squats`, `mountainclimbers` its own `HighKnees` and `legraises` its own
  `Crunches`.
- PushUp and Squats measure the left side only. They do not combine left and
  right.
- The thresholds are strict (`> 160`, `< 90`), not inclusive.
- JumpingJacks compares ankle separation with the absolute value 0.4. It
  does not use a body-scaled ratio.
- A plank form break clears the hold timer, but `STATE.reps` keeps the last
  number of seconds until the next straight frame.
- The plank writes its seconds into `STATE.reps`, but they never reach the
  rep display. `updateUI` runs only after a truthy increment, on reset and on
  selection, and the plank never returns an increment. So the display shows
  0 for the whole plank session.
- `reset()` is not a full restore for two classes:
  - HighKnees keeps `lastLeg`, so its first knee after a reset may not pay.
  - CalfRaise keeps `baseY`.
- A new or reset JumpingJacks or CalfRaise classifier starts in `"UP"`.
  - JumpingJacks therefore credits its first closed stance.
  - A new CalfRaise credits a repetition on its very first frame. A reset
    one is judged against the baseline it kept.

## Model

| member | source | states |
|---|---|---|
| Geometry.CalculateAngle | client/app.js:42-53 | The sentinel -1 is returned exactly when a landmark is missing or below the visibility threshold. Otherwise the result is the raw angle folded into [0, 180]. |
| Geometry.SquaredDistance | client/app.js:55-58 | The squared distance is non-negative. It is 0 when either landmark is missing or the two points coincide. |
| Geometry.BelowIffSquareBelow | client/app.js:209-210 | For non-negative values, comparing a distance with a bound has the same outcome as comparing their squares. This justifies comparing squared distances where the source takes square roots. |
| AppState.Session.constructor | client/app.js:15-23 | STATE starts with push-ups selected, 0 reps, phase "IDLE" and message "Get Ready". |
| Exercises.Exercise.constructor | client/app.js:78-82 | A new classifier of any class starts in "UP", with no last leg, step 0, no start time and no baseline. |
| Exercises.Exercise.Reset | client/app.js:83-86 | `reset()` clears only the field the class's reset touches: `startTime` for Plank, `step` for Burpees, `state` for every other class. |
| Exercises.Exercise.Update | client/app.js:92-311 | `update` moves the fields to the class's step result and returns its outcome. Only the plank overwrites the global rep count, with its hold seconds. |
| Exercises.Exercise.UpdateHinge | client/app.js:92-134 | The push-up and squat update agrees with the hinge step for the measured elbow or knee angle. |
| Exercises.Exercise.UpdatePlank | client/app.js:139-154 | The plank update agrees with the plank step and writes the held seconds into the global count on a straight frame. |
| Exercises.Exercise.UpdateJumpingJacks | client/app.js:158-181 | The jumping-jacks update agrees with its step function. |
| Exercises.Exercise.UpdateLunge | client/app.js:185-200 | The lunge update agrees with its step function. |
| Exercises.Exercise.UpdateCrunches | client/app.js:204-220 | The crunches update agrees with its step function. |
| Exercises.Exercise.UpdateHighKnees | client/app.js:225-241 | The high-knees update agrees with its step function. |
| Exercises.Exercise.UpdateBurpees | client/app.js:247-261 | The burpees update agrees with its step function. |
| Exercises.Exercise.UpdateShoulderTap | client/app.js:265-278 | The shoulder-tap update agrees with its step function. |
| Exercises.Exercise.UpdateCalfRaise | client/app.js:282-294 | The calf-raise update agrees with its step function. |
| Exercises.Exercise.UpdateRussianTwists | client/app.js:298-310 | The Russian-twists update agrees with its step function. |
| Engine.KeyRoundTrip | client/app.js:315-332 | Looking up an identifier's selector value finds that identifier. |
| Engine.Listed | client/app.js:315-332 | Every identifier is one of the object literal's keys. |
| Engine.ExerciseEngine.constructor | client/app.js:314-333 | Every identifier is bound to a newly allocated instance of its registered class, in the state a new classifier starts in. No two identifiers share an instance. |
| Engine.ExerciseEngine.Register | client/app.js:315-332 | One entry of the literal: the identifier is bound to a newly allocated instance of its class, in the new-classifier state. Every other binding is kept, and the bindings stay distinct. |
| Engine.ExerciseEngine.Process | client/app.js:334-345 | Nothing changes when the selection is not a registered identifier. Otherwise only the selected instance is updated, and the totals become the merge of its result. |
| Engine.ExerciseEngine.Reset | client/app.js:346-353 | The totals become idle and every registered instance, not only the selected one, is reset. The selection is kept. |
| Engine.ExerciseEngine.SelectExercise | client/app.js:383-387 | The selection becomes the selector's value, the totals are idle and every instance is reset. |
| EngineProperties.RegisteredSound | client/app.js:335-336 | A selector value that finds an identifier is that identifier's key. |
| EngineProperties.RegisteredIff | client/app.js:335-336 | A selector value finds an identifier if and only if it is that identifier's key. |
| EngineProperties.UnregisteredIff | client/app.js:335-336 | The lookup in `process` fails exactly for the values that are no identifier's key. |
| EngineProperties.MergeRules | client/app.js:338-343 | The count grows only by a present nonzero increment. Phase and message change only to a present non-empty value and otherwise persist. |
| EngineProperties.OnlyPlankWrites | client/app.js:148 | No classifier but the plank writes the count directly. |
| EngineProperties.RepsNeverDecrease | client/app.js:338-339 | For every classifier but the plank, one frame adds exactly the returned increment, so the count never goes down. |
| EngineProperties.PlankWritesSeconds | client/app.js:145-153 | Under the plank, `STATE.reps` holds the seconds held on a straight frame and keeps its previous value on any other frame. |
| EngineProperties.CountIsTotal | client/app.js:334-345 | Over any run, for every classifier but the plank, the count grows by the sum of the increments returned. |
| EngineProperties.CountNeedsArming | client/app.js:334-353 | From any totals and any classifier fields, including those a reset leaves behind, a latching classifier adds at most one repetition per arming frame, plus one if it starts armed. |
| EngineProperties.PushUpTotals | client/app.js:92-112 | After a reset, whatever the push-up classifier saw before, elbow angles 175, 85 and 178 give totals (0, "DOWN", "Push up!") after the second frame and (1, "UP", "Good rep!") after the third. |
| ExerciseProperties.IncrementsAreHalfOrOne | client/app.js:92-311 | Every increment a classifier returns is 1 or 0.5. |
| ExerciseProperties.LatchStep | client/app.js:92-295 | Eight classes (PushUp, Squats, Lunge, Crunches, JumpingJacks, CalfRaise, Burpees, ShoulderTap) work as a two-state latch. A repetition is credited exactly when the latch is armed and the completing movement is seen. It is armed afterwards exactly when the arming movement was seen, or it was armed and did not fire. |
| ExerciseProperties.RepsNeedArming | client/app.js:92-295 | Over any run, a latching classifier credits at most one repetition per arming frame, plus one if it started armed. |
| ExerciseProperties.NoRepTwiceInARow | client/app.js:92-295 | A latching classifier never credits two consecutive frames. |
| ExerciseProperties.HingeHolds | client/app.js:97-111 | For push-ups and squats, an unmeasured angle or one between the thresholds changes nothing and credits nothing. Only an unmeasured one omits the phase. |
| ExerciseProperties.HingeSequence | client/app.js:92-134 | Angles 175, 85, 178 on a new push-up or squat classifier credit nothing after two frames, leaving "DOWN", and one repetition after three, leaving "UP". |
| ExerciseProperties.AlternatingStep | client/app.js:225-241 | HighKnees and RussianTwists pay 0.5 exactly when the credited side changes. They change it only to a side this frame shows raised or twisted. |
| ExerciseProperties.HalfPerSwitch | client/app.js:225-241 | Over any run, an alternating classifier's total is 0.5 per change of side. |
| ExerciseProperties.SameLegPaysOnce | client/app.js:232-240 | Raising only the left knee on every frame pays 0.5 once, and nothing if left was already the last leg. |
| ExerciseProperties.HighKneesLeftRightTwice | client/app.js:225-241 | Left, right, left, right on a new HighKnees classifier totals 2 repetitions. |
| ExerciseProperties.SameTwistPaysOnce | client/app.js:298-310 | Twisting left on every frame pays 0.5 once, and nothing if the last twist was already left. |
| ExerciseProperties.HeldSecondsNonNegative | client/app.js:147 | The whole seconds held are never negative when the clock has not gone back. |
| ExerciseProperties.HeldSecondsMonotone | client/app.js:147 | The whole seconds held never decrease as the clock advances. |
| ExerciseProperties.PlankStepRules | client/app.js:139-154 | The plank never returns an increment. On a straight frame it keeps a running start time, or starts one now, and reports the seconds since it. A measured bent frame clears the start time. An unmeasured frame changes nothing. |
| ExerciseProperties.HoldKeepsStart | client/app.js:145-149 | While every frame is straight, a running hold keeps its start time and credits nothing. |
| ExerciseProperties.HoldTimedFromFirstFrame | client/app.js:145-149 | A hold starting on a straight frame at a nonzero clock reading is timed from that frame for as long as the body stays straight. |
| ExerciseProperties.BreakRestartsFromZero | client/app.js:145-153 | After a form break, the next straight frame reports 0 seconds. |
| ExerciseProperties.ResettableStep | client/app.js:83-86 | For every class but HighKnees and CalfRaise, resetting after an update gives the same fields as resetting before it, so a classifier whose other fields are as new stays so. |
| ExerciseProperties.ResetRestoresInitial | client/app.js:83-86 | For every class but HighKnees and CalfRaise, `reset()` after any run gives back the fields of a new classifier. |
| ExerciseProperties.ResetKeepsLastLeg | client/app.js:223-241 | HighKnees keeps `lastLeg` through `reset()`. The same left-knee frame pays on a new classifier but not after one left-knee frame and a reset. |
| ExerciseProperties.ResetKeepsBaseline | client/app.js:281-294 | CalfRaise keeps `baseY` through `reset()`. A lower frame is judged a raise against the old baseline, while a new classifier credits it at once. |
| ExerciseProperties.CalfRaiseFirstFrameCounts | client/app.js:281-294 | A new CalfRaise classifier credits a repetition on its first frame. |
| ExerciseProperties.JumpingJacksFirstCloseCounts | client/app.js:157-181 | A new JumpingJacks classifier credits its first closed stance before any jump. |

## Left out

- DOM and display: `updateUI`, `updateFeedbackUI` and the canvas drawing. They only copy `STATE` to the page, `updateUI` only at client/app.js:340, 350 and 386.
- MediaPipe `Pose` and `Camera`, the start/stop buttons and the 30 fps frame gate in `onResults`. The model takes each frame that reaches `process` as an input. `stopCamera` also calls `engine.reset()`, which is the same `Reset` as modelled.
- `Math.atan2`, `Math.sqrt` and floating-point arithmetic are not computed. The caller supplies the raw ray angle in degrees, and distances are compared through their squares. Landmark values are exact reals.
- `Date.now()` becomes a `now` parameter. The plank reads the clock twice in one update, and the model uses a single reading for both.
- Landmark lists shorter than 29 entries are excluded by `WellFormed`. MediaPipe Pose always delivers 33 landmarks. On shorter lists the source's behaviour varies by classifier and is not modelled: missing landmarks make `calculateAngle` return -1 and `calculateDistance` return 0, and some classifiers throw on a property access.
- A selector value that names an inherited property of a JavaScript object, such as `"constructor"`, is treated as unregistered. In the source it would find a non-classifier and throw.
- The `counter` field that `BaseExercise.reset` sets is never read and is not modelled.
- `STATE.isCameraRunning`, `STATE.startTime` and `STATE.landmarks` are not read by the engine and are not modelled.
- The object literal of `this.exercises` is built by registering its keys one by one, in the literal's order (`Identifiers`). The model does not capture any other evaluation detail of the literal.
- `client/firebase-service.js`, `client/src/App.tsx` and `server/routes.ts` are not part of this model: they do not touch the counting engine.
