# Dino runner engine and pinch classifier, in Dafny

This project models the side-scrolling "dino" runner of the repository: two ground
segments scroll and wrap, a dino runs with a two-frame animation and jumps under
gravity, cacti spawn on a random countdown and scroll off to the left, speed and score
grow with time, and a frame on which a cactus overlaps the dino ends the run. It also
models the two pieces of hand tracking around the game: the pinch classifier, which
turns the distance between the thumb tip and the index tip into a `'p'` keydown, and
the hand-drawing helper, as the list of canvas commands it issues.

Every position travels through CSS custom properties. These are modelled as a map from
(element, property) to a value, where a missing or unreadable value reads as 0
(`PropertyStore`). Each imperative JavaScript module is a class whose fields are that
module's mutable state: `Store`, `Dino`, `Spawner`, `Game` and `App`. Each method is
proved equal to a pure function of the old state, for example `RunStep`, `JumpStep`,
`CactusStep`, `GroundStep` or `UpdateSpec`. The lemmas state what the source promises
about those functions.

Modules, one per source file:

- `Common`: shared points, rectangles, and the 21-landmark hand.
- `PropertyStore`: `updateCustomProperty.js`.
- `Ground`: `ground.js`.
- `DinoController`: `dino.js`.
- `CactusSpawner`: `cactus.js`.
- `GameLoop`: `Game.js`.
- `PinchClassifier`: `App.js`.
- `HandDrawing`: `utilities.js`.

External inputs become parameters:

- The geometry `getBoundingClientRect` would report is a function `layout: Elem -> Rect`.
- The value of `Math.random()` is a `draw` in [0, 1).
- The window size is passed to the game's constructor.
- Detector output is a sequence of predictions.

Scheduling is three flags on the game. `frameRequested` means a `requestAnimationFrame`
callback is pending. `restartPending` means the 100 ms `setTimeout` of `handleLose` is
pending. `startArmed` means the once-only click listener is registered. Exactly one of
them is set at any time (`OnePhase`), so the game is always running, lost or idle: the
mounted world has exactly one set (`MountedWorldInvariants`), and every transition keeps it so
(`OnePhaseKept`).

The DOM's `[data-cactus]` elements are the spawner's `live` list of ids, in document
order. `createCactus` hands out a fresh id and appends it; `cactus.remove()` deletes the
id from the list.

Behaviour of the code worth noting, all of it kept in the model:

- Negative deltas are stepped as they come; nothing clamps them to 0.
- Gravity is applied on the landing tick too.
- The spawn countdown is tested before it is decremented.
- With several hands, the last hand decides the pinch flag.
- A `'p'` keydown is sent once on mount and then on every change of the flag, in both
  directions.

## Model

| member | source | states |
|---|---|---|
| `PropertyStore.GetElement` | src/components/game/updateCustomProperty.js:4-6 | a ref with a current element resolves to that element; a bare element, or a ref without one, resolves to itself |
| `PropertyStore.GetElementIdempotent` | src/components/game/updateCustomProperty.js:4-6 | resolving twice is the same as resolving once |
| `PropertyStore.ReadUnsetIsZero` | src/components/game/updateCustomProperty.js:11-14 | a property that is unset or not a number reads as 0 |
| `PropertyStore.Read` | src/components/game/updateCustomProperty.js:13 | the number a property holds, or 0 when it is unset or not a number; its properties are stated by `ReadUnsetIsZero` and by `Write` |
| `PropertyStore.Store.GetCustomProperty` | src/components/game/updateCustomProperty.js:11-14 | the reading of the property on the resolved element in the current style; `IncrementCustomProperty` states what a write does to it |
| `PropertyStore.Write` | src/components/game/updateCustomProperty.js:19-22 | reading after a set gives the value set; every other (element, property) pair keeps its value |
| `PropertyStore.IncrementUnset` | src/components/game/updateCustomProperty.js:27-29 | incrementing an unset property leaves it at exactly the increment |
| `PropertyStore.Store.constructor` | src/components/game/updateCustomProperty.js:13 | before any write, values come from the stylesheet |
| `PropertyStore.Store.SetCustomProperty` | src/components/game/updateCustomProperty.js:19-22 | the store becomes the old store with the resolved element's property set to the value |
| `PropertyStore.Store.IncrementCustomProperty` | src/components/game/updateCustomProperty.js:27-29 | the property becomes its old reading plus the increment, and nothing else changes |
| `Ground.SetupGround` | src/components/game/ground.js:9-12 | the two segments are placed at 0 and 300 |
| `Ground.UpdateGround` | src/components/game/ground.js:14-23 | the forEach loop gives each segment, in turn, its move-then-wrap step of `delta*speedScale*0.05` |
| `Ground.SetupPlacesSegments` | src/components/game/ground.js:10-11 | after setup the segments read 0 and 300, are tiled, and nothing else changed |
| `Ground.ScrollBoth` | src/components/game/ground.js:15-22 | the loop's result gives each segment the scroll of its own old offset, and touches nothing else |
| `Ground.GroundStepSegments` | src/components/game/ground.js:15-17 | both segments receive the same shift `delta*speedScale*0.05`, each independently of the other |
| `Ground.ScrollIsMoveThenWrap` | src/components/game/ground.js:17-21 | a segment ending at or below -300 is shifted by exactly +600; otherwise it is only moved |
| `Ground.ScrollStaysOnScreen` | src/components/game/ground.js:17-21 | an offset in (-300, 300] stays in (-300, 300] for any step from 0 to 300 |
| `Ground.ScrollKeepsPhase` | src/components/game/ground.js:15-22 | one step changes the difference of the two offsets by -600, 0 or +600, so it is kept modulo 600 |
| `Ground.GroundStaysTiled` | src/components/game/ground.js:14-23 | over any run of steps of at most 300, tiled segments stay in (-300, 300] and exactly 300 apart |
| `DinoController.Dino.constructor` | src/components/game/dino.js:16-19 | the controller starts not jumping, with no keydown listener |
| `DinoController.Dino.SetupDino` | src/components/game/dino.js:21-29 | resets the state to not jumping, frame 0, accumulator 0 and velocity 0; sets `--bottom` to 0; registers the listener |
| `DinoController.SetupGrounds` | src/components/game/dino.js:21-26 | after setup the dino is grounded with `--bottom` 0, and the floor invariant holds |
| `DinoController.Dino.UpdateDino` | src/components/game/dino.js:31-34 | the run step, then the jump step, with the same delta |
| `DinoController.Dino.SetDinoLose` | src/components/game/dino.js:40-42 | only the pose changes, to the lose sprite |
| `DinoController.Dino.HandleRun` | src/components/game/dino.js:44-56 | the state becomes `RunStep(old state)` |
| `DinoController.RunStepFacts` | src/components/game/dino.js:44-56 | details below the table |
| `DinoController.RunAccumulatorConserves` | src/components/game/dino.js:50-55 | after any run of grounded ticks, accumulator + 100 × frame changes = old accumulator + scaled time, and the frame has alternated once per change |
| `DinoController.Dino.HandleJump` | src/components/game/dino.js:58-69 | the state and `--bottom` become `JumpStep` of the old ones |
| `DinoController.JumpStepGroundedNoOp` | src/components/game/dino.js:59 | the jump step changes nothing when not jumping |
| `DinoController.LandingClamp` | src/components/game/dino.js:61-68 | details below the table |
| `DinoController.FloorInvariantKept` | src/components/game/dino.js:58-69 | "`--bottom` ≥ 0, and exactly 0 when not jumping" survives every tick and every key |
| `DinoController.Dino.OnJump` | src/components/game/dino.js:71-76 | the state becomes `OnJumpSpec(old state, key)` |
| `DinoController.JumpGuard` | src/components/game/dino.js:72 | a key other than `"p"`, or any key while jumping, changes nothing |
| `DinoController.JumpAccepted` | src/components/game/dino.js:74-75 | an accepted jump sets velocity 0.45 and jumping, and nothing else |
| `DinoController.Dino.KeyDown` | src/components/game/dino.js:27-28 | a keydown reaches `onJump` only once `setupDino` has registered it |
| `CactusSpawner.RandomNumberBetween` | src/components/game/cactus.js:68-70 | for a draw in [0, 1) and min ≤ max, the result is an integer in [min, max] |
| `CactusSpawner.GetCactusRects` | src/components/game/cactus.js:53-56 | one rectangle per live cactus, in document order |
| `CactusSpawner.Spawner.constructor` | src/components/game/cactus.js:22 | the countdown starts at 500 with no cactus on the page |
| `CactusSpawner.Spawner.SetupCactus` | src/components/game/cactus.js:24-32 | the loop removes every cactus, and the countdown is reset to 500 |
| `CactusSpawner.SetupClears` | src/components/game/cactus.js:24-31 | after setup the page is empty and the countdown is 500, whatever came before |
| `CactusSpawner.Spawner.CreateCactus` | src/components/game/cactus.js:58-66 | a fresh cactus with `--left` 100 is appended to the page |
| `CactusSpawner.Spawner.MoveAndCull` | src/components/game/cactus.js:36-43 | the `for` loop moves every cactus and removes the ones at or below -100 |
| `CactusSpawner.Spawner.UpdateCactus` | src/components/game/cactus.js:34-51 | the spawner and store become `CactusStep` / `CactusStyle` of the old ones |
| `CactusSpawner.MoveAllMovesEach` | src/components/game/cactus.js:38 | each listed cactus moves left by exactly the shift, once |
| `CactusSpawner.SurvivorsExact` | src/components/game/cactus.js:37-43 | a cactus survives culling iff it was listed and ends right of -100 |
| `CactusSpawner.SurvivorsDistinct` | src/components/game/cactus.js:37-43 | culling keeps the page free of repeats |
| `CactusSpawner.CactusStepPositions` | src/components/game/cactus.js:37-47 | details below the table |
| `CactusSpawner.CactusStepCulls` | src/components/game/cactus.js:37-49 | after a tick the page holds exactly the earlier cacti that ended right of -100, plus the new one iff the countdown was ≤ 0 |
| `CactusSpawner.CactusStepSpawns` | src/components/game/cactus.js:46-49 | at most one cactus is created per tick, one exactly when the countdown was ≤ 0, appended after the survivors |
| `CactusSpawner.CactusStepTimer` | src/components/game/cactus.js:46-50 | on a spawn the countdown becomes the respawn time; otherwise it only drops by delta |
| `CactusSpawner.RespawnTimeWhole` | src/components/game/cactus.js:48 | the countdown after a spawn equals r/speedScale - delta for an integer r in [500, 2000] |
| `CactusSpawner.CactusStepValid` | src/components/game/cactus.js:34-51 | a tick keeps every id on the page distinct and already handed out |
| `GameLoop.WorldToPixelScale` | src/components/game/Game.js:23-33 | a 100:30 world box scaled by the result fits the window in both dimensions, and fills it in at least one |
| `GameLoop.Game.SetPixelToWorldScale` | src/components/game/Game.js:23-33 | the world is sized to 100 and 30 times the chosen scale |
| `GameLoop.Game.constructor` | src/components/game/Game.js:102-107 | mounting sizes the world and arms the start click; no frame or timer is pending |
| `GameLoop.Game.HandleStart` | src/components/game/Game.js:35-44 | time, speed and score are reset; ground, dino and cacti are set up; a frame is requested |
| `GameLoop.StartResets` | src/components/game/Game.js:35-41 | details below the table |
| `GameLoop.Game.Update` | src/components/game/Game.js:46-69 | the game becomes `UpdateSpec` of its old state: order ground, dino, cacti, speed, score, then the lose check |
| `GameLoop.Game.AdvanceAll` | src/components/game/Game.js:58-62 | the five update calls in source order leave the game equal to `Advance` of its old state, with the world size unchanged |
| `GameLoop.FirstFrameOnlyRecords` | src/components/game/Game.js:47-53 | the first frame only records its time and asks for the next; nothing moves |
| `GameLoop.TickGains` | src/components/game/Game.js:71-77 | on every later frame, the losing one included, speed rises by exactly delta×0.00001 and score by delta×0.01; neither falls when delta ≥ 0 |
| `GameLoop.TickMovesWorld` | src/components/game/Game.js:58-60 | ground segments and pre-existing cacti all move by the same delta×speedScale×0.05, with the speed from before this tick |
| `GameLoop.TickMovesDino` | src/components/game/Game.js:58-59 | on the same tick the dino takes its run and jump step with that tick's delta and the speed from before the tick: every field but the pose, and `--bottom`, are that step's result, whether or not the frame is lost |
| `GameLoop.LossStopsTicking` | src/components/game/Game.js:63-68 | details below the table |
| `GameLoop.Game.UpdateSpeedScale` | src/components/game/Game.js:71-73 | speed rises by delta×0.00001 and nothing else changes |
| `GameLoop.Game.UpdateScore` | src/components/game/Game.js:75-78 | score rises by delta×0.01, and the shown text is its floor |
| `GameLoop.CheckLose` | src/components/game/Game.js:80-83 | true iff some cactus rectangle collides with the dino rectangle |
| `GameLoop.IsCollision` | src/components/game/Game.js:85-92 | two rectangles overlap with strictly positive area on both axes; `CollisionSymmetric` and `TouchingIsNoCollision` state its properties |
| `GameLoop.NoCactiNoLoss` | src/components/game/Game.js:80-83 | with no cacti there is no loss |
| `GameLoop.CollisionSymmetric` | src/components/game/Game.js:85-92 | collision is symmetric |
| `GameLoop.TouchingIsNoCollision` | src/components/game/Game.js:85-92 | rectangles sharing only an edge do not collide |
| `GameLoop.Game.HandleLose` | src/components/game/Game.js:94-100 | the dino shows the lose sprite and the restart timer is set |
| `GameLoop.Game.RestartTimerFires` | src/components/game/Game.js:96-99 | the firing timer arms the start click |
| `GameLoop.Game.Click` | src/components/game/Game.js:105 | the armed once-only listener starts a run and is removed; other clicks do nothing |
| `GameLoop.Game.AnimationFrame` | src/components/game/Game.js:66-68 | a frame runs update only when one was requested |
| `GameLoop.Game.KeyDown` | src/components/game/dino.js:27-28 | a document keydown goes to the dino controller |
| `GameLoop.ConsistentKept` | src/components/game/Game.js:46-69 | details below the table |
| `GameLoop.OnePhaseKept` | src/components/game/Game.js:94-100 | exactly one of frame, restart timer and start click stays pending across every transition |
| `GameLoop.MountedWorldInvariants` | src/components/game/Game.js:102-107 | the world the mounted game starts from is consistent and has exactly one of frame, restart timer and start click pending (the start click) |
| `PinchClassifier.PinchMatchesDistance` | src/App.js:57-59 | comparing the squared distance with 900 agrees with `dist < 30`; exactly 30 is not a pinch |
| `PinchClassifier.IsPinching` | src/App.js:52-59 | whether one prediction's thumb tip and index tip are closer than 30; `PinchMatchesDistance` ties it to the distance |
| `PinchClassifier.Classify` | src/App.js:50-65 | the flag after one `handleDistance` pass: the committed value when there are no predictions, otherwise the last prediction's class (`LastPredictionDecides`) |
| `PinchClassifier.Dispatches` | src/App.js:68-70 | whether the pass changes the committed flag, which is when the effect dispatches a `'p'` (`DispatchOnBothEdges`) |
| `PinchClassifier.OnlyTipsMatter` | src/App.js:52-57 | only landmarks 4 and 8 influence the result |
| `PinchClassifier.EmptyKeepsFlag` | src/App.js:50 | an empty prediction list leaves the flag unchanged and dispatches nothing |
| `PinchClassifier.LastPredictionDecides` | src/App.js:51-63 | with several predictions, the last one alone decides the flag |
| `PinchClassifier.DispatchOnBothEdges` | src/App.js:68-70 | a `'p'` is dispatched iff the flag changes, on both the rising and the falling edge |
| `PinchClassifier.App.constructor` | src/App.js:68-70 | on mount one `'p'` is dispatched, and no dino is listening yet |
| `PinchClassifier.App.HandleDistance` | src/App.js:49-66 | details below the table |
| `HandDrawing.GetJointStyle` | src/utilities.js:32-37 | 0 is base, 4/8/12/16/20 are tips, 1/5/9/13/17 are knuckles, all other indices are joints |
| `HandDrawing.JointStylesByChain` | src/utilities.js:6-16 | along every finger chain, the wrist is base, the second point a knuckle, the last a tip, the rest joints |
| `HandDrawing.MirrorInvolution` | src/utilities.js:54 | mirroring is `width - x`, undone by mirroring again, and the identity when off |
| `HandDrawing.MirrorX` | src/utilities.js:54 | `width - x` when mirrored, `x` otherwise; `MirrorInvolution` states its properties |
| `HandDrawing.NoHandsOnlyClear` | src/utilities.js:49-51 | with no hands only the clear command is issued |
| `HandDrawing.DrawHand` | src/utilities.js:45-100 | the trace is the clear followed by each hand's commands, in order |
| `HandDrawing.DrawHandDefault` | src/utilities.js:45 | a call with no third argument draws mirrored, as `mirrored = true` makes it |
| `HandDrawing.DrawOneHand` | src/utilities.js:56-99 | the nested loops issue exactly `HandCommands` of the hand |
| `HandDrawing.ChainSegmentsShape` | src/utilities.js:63-74 | link j of a chain joins its j-th and (j+1)-th keypoints, mirrored |
| `HandDrawing.FingerSegmentsShape` | src/utilities.js:60-75 | details below the table |
| `HandDrawing.DotsShape` | src/utilities.js:78-91 | dot i sits at keypoint i, mirrored, with the style of i |
| `HandDrawing.HandShape` | src/utilities.js:56-99 | details below the table |

Rows whose third column says "details below the table":

- `DinoController.RunStepFacts`
  - It keeps the frame in {0, 1}.
  - While jumping it changes only the pose.
  - Otherwise it subtracts 100 when the accumulator has reached 100, rather than resetting it, and then adds delta×speedScale.
- `DinoController.LandingClamp`
  - After a jumping tick `--bottom` ≥ 0.
  - If the height reached ≤ 0, `--bottom` is exactly 0 and the jump ends. Otherwise it is the integrated height.
  - Velocity drops by exactly 0.0015×delta, on the landing tick too.
  - Nothing else moves.
- `CactusSpawner.CactusStepPositions`
  - Every pre-existing cactus moves left by exactly delta×speedScale×0.05.
  - A cactus spawned in this tick sits at 100, unmoved.
- `GameLoop.StartResets`
  - Whatever the prior state, start leaves lastTime unset, speed 1 and score 0, with a frame requested.
  - The page is empty, the dino is grounded and listening, and the ground is at 0 and 300.
  - Start keeps the world consistent.
- `GameLoop.LossStopsTicking`
  - A losing frame requests no further frame, does not advance lastTime, sets the restart timer and shows the lose sprite.
  - A frame that does not lose records its time and requests the next frame.
- `GameLoop.ConsistentKept`
  - Every transition keeps the world consistent, given frames whose times do not run backwards.
  - Consistent means: speed ≥ 1, score ≥ 0, distinct cactus ids, and the floor invariant once the dino listens.
- `PinchClassifier.App.HandleDistance`
  - The flag becomes the classification of the last prediction, or stays as it was if there are none.
  - A `'p'` reaches the game exactly when the flag changed.
- `HandDrawing.FingerSegmentsShape`
  - Link k of chain f is line 4f+k, which makes 20 lines.
  - Every chain's first line starts at the wrist, keypoint 0.
- `HandDrawing.HandShape`
  - A hand yields 20 lines, then 21 dots, then a label.
  - The label is present iff handedness is a non-empty string. It sits at (mirrored wrist x - 20, wrist y + 30).

## Left out

- React scaffolding, refs, JSX and CSS are not modelled. Refs are always resolved: each handle the engine uses has a `current` element.
- `requestAnimationFrame`, `setTimeout` and listener registration are not modelled. They are represented by the three flags, and by the dino's `listening` field.
- Detection plumbing is not modelled: the webcam, the handpose model load, the 100 ms `setInterval` detection loop, and `console.log`. Predictions are inputs.
- Image `src` swaps are presentational. They appear only as the dino's `Pose`, and the start screen's `hide` class is not modelled.
- Floating point and `Math.sqrt` are not modelled: numbers are exact reals, and the pinch test compares the squared distance with 900.
- Four things are inputs, not computed: DOM geometry (`getBoundingClientRect`), `Math.random`, the window size, and the canvas size.
- The resize listener on src/components/game/Game.js:104 is not modelled. It is passed the call's result rather than the function, so resizing rescales nothing. The world is sized once, in the game's constructor.
- Canvas styling in `drawHand` is not modelled: colours, widths, arc angles and fonts. Only which commands are issued, in order, is kept.
- src/App.test.js is not part of this model. It tests text and a package that src/App.js does not use.
- `drawHand` is modelled on its documented input, hands of 21 `{x, y}` keypoints with an optional `handedness`. The `landmarks` arrays src/App.js passes it are not modelled. Read as text, src/App.js:44 passes it handpose predictions, which carry `landmarks` and no `keypoints`, so src/utilities.js:57-68 would throw on the first non-empty detection and `handleDistance` at src/App.js:45 would not be reached while a hand is in view; this is an observation from the code, not from a run. The classifier is modelled on its own, on the predictions it is written for.
- Predictions are modelled as having exactly 21 landmarks.
- React's state batching is modelled as "the last `setIsTouching` of one pass is committed, and the effect runs once if the committed value changed".
- GameLoop.Game.Update: requires the world to be consistent. This includes speedScale ≥ 1, so that the spawn-interval division is defined. It also includes distinct cactus ids, which holds of any DOM.
- GameLoop.ConsistentKept: keeps speedScale ≥ 1 only for frames whose timestamp is not earlier than the last one. `requestAnimationFrame` promises this. A backwards delta is still stepped exactly as the code does.
- CactusSpawner.Spawner.UpdateCactus: requires speedScale ≠ 0 for the division, where JavaScript would produce Infinity.
- CactusSpawner.Spawner.MoveAndCull: requires distinct ids, as the DOM guarantees. A removed cactus is deleted from the live list. The DOM `NodeList` being iterated is a static snapshot, which the loop copies first.
- GameLoop.WorldToPixelScale: requires a positive window width and height. A zero-height window would divide by zero.
