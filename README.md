# leapdrone-js: hand geometry, hover loop and motion controllers in Dafny

This project models the logic at the core of leapdrone-js, which turns hand
tracking into drone control. Three parts are modelled:

- **Hand-geometry helpers** (`Helpers`). `calculateRoll` and `calculatePitch`
  are loops over a hand's fingers. They skip thumbs (type 0) and pinkies
  (type 4), sum per-finger quantities, and divide by the number of *all*
  fingers. `calculateYaw` is the constant 0. Each loop is a method proved equal
  to a reference function (`Roll`, `Pitch`). Lemmas then state what those
  functions mean:
  - the consecutive deltas telescope to "last kept minus first kept";
  - the finger count cancels out of roll;
  - where thumbs and pinkies are has no influence; their number changes pitch
    but not roll;
  - pitch divides by all fingers.
- **Hover loop** (`Hover`). The module-level PID state is a class,
  `HoverLoop`, whose methods are proved against a step function `Next` on a
  `HoverState` value. Lemmas over runs of events state the loop's properties:
  the events ignored while unarmed, the anchor captured by the first armed
  event, the update order that uses the previous error, and reset.
- **Motion controllers** (`MotionHandler`, `LeapDrone`). The banked and
  translational controller classes are one class tagged with a `Variant`.
  - The options object is a shared mutable `OptionsObject`: each constructor
    merges into the module's single defaults object and keeps a reference to it.
  - The sender and the callbacks are an `EffectLog`, the ordered trace of emits
    and callback calls.
  - `HandOutcome` is the reference for one `onHand` call.

Numbers are exact reals. `Math.atan` is a parameter `atan: real -> real`, about
which nothing is assumed. A division by zero gives the value `Degenerate`, and
every operation on a degenerate value stays degenerate (`Geometry.Div`,
`Add`, `Neg`, `Atan`). In IEEE arithmetic the same division gives NaN or
±Infinity.

The files are:

- `wrappers.dfy`: `Option`.
- `geometry.dfy`: `Vec3`, `Axis`, the `Number` arithmetic.
- `helpers.dfy`: models src/helpers.js.
- `hover.dfy`: models src/hover.js.
- `motion_handler.dfy`: models src/motionHandler.js.
- `leapdrone.dfy`: models the plugin in index.js.

index.js repeats src/helpers.js:3-51 and src/motionHandler.js:10-38 word for
word, except that its `calculateNewPosition` (index.js:81-87) calls its own
inline helpers `calculateRoll`, `calculatePitch` and `calculateYaw` where
src/motionHandler.js:32-34 calls `helper.roll`, `helper.pitch` and
`helper.yaw`; those behave the same. index.js:94 repeats the factory's ternary
(src/motionHandler.js:41) inside the plugin. index.js has no copy of
src/hover.js. This mapping lists each copy and the src/ file whose model
covers it:

- index.js:11-59 copies src/helpers.js:3-51.
- index.js:61-89 copies src/motionHandler.js:10-38.
- index.js:5-8 is a second `defaultOptions` object, with the same contents as
  src/motionHandler.js:5-8.

The table below cites the src/ lines for those copies. The index.js rows cover
only the plugin callback. It receives its own defaults object as a parameter.

## Model

| member | source | states |
|---|---|---|
| Helpers.SumConsecutiveDeltas | src/helpers.js:9-23 | the `forEach` pass yields, on x and on y, the sum of the changes between consecutive kept fingers: thumbs and pinkies are skipped, and the first kept finger is only a reference (loop invariants tie the cursor and both sums to `Kept` and `DeltaSum` of the prefix) |
| Helpers.CalculateRoll | src/helpers.js:3-29 | roll equals `Roll`: both delta sums divided by the number of all fingers, then `-atan(avgY/avgX)` |
| Helpers.SumAngles | src/helpers.js:36-44 | the `forEach` pass yields the sum over kept fingers of `atan((dipY-palmY)/(dipZ-palmZ))`, undetermined once a kept finger has zero depth offset; thumbs and pinkies are skipped |
| Helpers.AngleTotalIsAngleSum | src/helpers.js:36-44 | the pass's running total is the real angle sum exactly when no kept finger is level with the palm, and undetermined otherwise |
| Helpers.CalculatePitch | src/helpers.js:31-47 | pitch equals `Pitch`: minus the angle sum of the kept fingers, divided by the number of all fingers; undetermined when there are no fingers or a kept finger has zero depth offset |
| Helpers.CalculateYaw | src/helpers.js:49-51 | yaw is 0 for every hand |
| Helpers.Roll | src/helpers.js:3-29 | roll has a value only when the hand has fingers and the x-deltas between consecutive kept fingers do not cancel; with fewer than two kept fingers it has none |
| Helpers.Pitch | src/helpers.js:31-47 | a hand without fingers has no pitch; a hand of only thumbs and pinkies has pitch 0, since nothing is summed but the divisor is positive |
| Helpers.KeptIsFilter | src/helpers.js:10-12 | a finger is kept exactly when it belongs to the hand and is neither type 0 nor type 4 |
| Helpers.DeltaSumTelescopes | src/helpers.js:14-22 | the sum of deltas between consecutive kept fingers is `dip(last kept) - dip(first kept)` on each axis, and 0 when fewer than two fingers are kept (the first kept finger adds no delta) |
| Helpers.RollIsEndpointSlope | src/helpers.js:25-28 | the finger count cancels: roll is `-atan((last.y-first.y)/(last.x-first.x))` over the kept fingers, and undetermined exactly when there are no fingers, fewer than two kept, or equal first and last x |
| Helpers.PitchIsDetermined | src/helpers.js:36-46 | pitch has a value exactly when the hand has fingers and no kept finger lies at the palm's depth |
| Helpers.SkippedFingersDoNotMatter | src/helpers.js:10-12 | two hands that differ only in where their thumbs and pinkies are have the same roll and the same pitch |
| Helpers.KeptIgnoresInsertedSkipped | src/helpers.js:10-12 | a thumb or pinky inserted at any position of the finger list leaves the kept fingers unchanged |
| Helpers.ExtraSkippedFingerKeepsRoll | src/helpers.js:25-26 | one more tracked thumb or pinky, inserted at any position of the finger list, raises the divisor but leaves roll unchanged |
| Helpers.ThumbCountsInPitchDivisor | src/helpers.js:46 | pitch divides by all fingers, thumbs included: a thumb and one index finger at angle `atan(1)` give pitch `-atan(1)/2`, not `-atan(1)` |
| Hover.Next | src/hover.js:26-43 | one event never changes the armed flag or `lastQuadPosition`, never moves an existing anchor, and leaves an anchor exactly when there was one or the loop was armed |
| Hover.Terms | src/hover.js:28-43 | PID terms exist exactly when the loop is armed and anchored; the proportional term is the error `Next` stores as `lastError`, the integral term is the sum `Next` stores as `integral`, and the derivative is the difference of the new error and the previous `lastError` |
| Hover.Correction | src/hover.js:16-18 | with the gains P = I = D = 0 the throttle correction `P·proportional.y + I·integral.y + D·derivative.y` (src/hover.js:45) is 0 for all terms |
| Hover.HoverLoop.constructor | src/hover.js:7-24 | the loaded module is unarmed, with no anchor, `integral` the number 0 and both vectors zero |
| Hover.HoverLoop.OnPosition | src/hover.js:26-53 | the handler's new state is `Next` of the old one; it returns the corrected position only on the PID path, `current` with throttle plus the correction; it modifies only the loop's own state, so nothing is actuated |
| Hover.HoverLoop.Start | src/hover.js:55-57 | start sets the armed flag and keeps every other variable |
| Hover.HoverLoop.ResetParams | src/hover.js:59-73 | reset leaves the loop unarmed, with no anchor, `integral` 0 and `lastError`, `lastQuadPosition` zero vectors |
| Hover.HoverLoop.End | src/hover.js:75-77 | end is reset: it ends in the initial state from any state, so ending twice equals ending once |
| Hover.UnarmedEventIgnored | src/hover.js:28-30 | an event while unarmed changes no variable and computes no PID terms |
| Hover.FirstArmedEventAnchors | src/hover.js:32-35 | the first armed event sets `desiredPosition` to the event data and changes nothing else |
| Hover.AnchoredEventUsesPreviousError | src/hover.js:39-43 | a later armed event sets `lastError` to `difference(desired, data)`; the derivative is `difference(error, previous lastError)` and `integral` becomes `sum(integral, previous lastError)` |
| Hover.UnarmedRunIgnored | src/hover.js:28-30 | any series of events while unarmed leaves the whole state unchanged |
| Hover.AnchorIsStable | src/hover.js:32-43 | once anchored, no series of events changes `desiredPosition` or the armed flag |
| Hover.RestartAnchorsFirstEvent | src/hover.js:32-43 | after end and start, the first event is the anchor for good, and after two or more events `lastError` is the anchor's difference from the latest event |
| Hover.IntegralLagsOneEvent | src/hover.js:42-43 | each armed, anchored event adds the previous event's error to the integral, not its own |
| Hover.RunSnoc | src/hover.js:26-53 | processing one more event after a series is one more handler step on the state that series left |
| MotionHandler.Assign | src/motionHandler.js:12 | the shallow merge writes every supplied key over the target and keeps every target key not supplied |
| MotionHandler.Truthy | src/motionHandler.js:41 | the `?:` test is false exactly for `undefined`, `null`, `false`, `0` and the empty string; functions and objects are truthy |
| MotionHandler.SelectVariant | src/motionHandler.js:40-42 | the factory chooses the banked variant exactly when `options.bankedController` is truthy |
| MotionHandler.MotionController.constructor | src/motionHandler.js:11-13 | the constructor merges the caller's options into the shared defaults object and keeps that same object as its options |
| MotionHandler.MotionController.CalculateNewPosition | src/motionHandler.js:30-36 | only the banked variant has it; the position is roll, pitch and yaw from the helpers |
| MotionHandler.MotionController.OnHand | src/motionHandler.js:15-21 | the sender's trace grows by exactly the effects of `HandOutcome` for the options read at call time, and the call fails as `HandOutcome` says |
| MotionHandler.HandOutcome | src/motionHandler.js:15-21 | one call has at most two effects, and any only for a right hand on the banked variant; it fails only for a right hand; on a banked right hand it makes both the emit and the callback exactly when it succeeds, which is exactly when `onNewPosition` is a function |
| MotionHandler.ControllerModule.constructor | src/motionHandler.js:5-8 | the module's defaults hold the no-op `onNewPosition` and the event name `'newPosition'` |
| MotionHandler.ControllerModule.CreateController | src/motionHandler.js:40-42 | the factory returns a fresh controller of the selected variant whose options are the module's defaults object, after merging the supplied options into it |
| MotionHandler.SecondControllerInherits | src/motionHandler.js:12 | two controllers share one options object; the second sees the keys supplied only by the first caller, and the first sees the second's keys |
| MotionHandler.FirstControllerOptions | src/motionHandler.js:5-12 | supplied keys override; without them the event name is `'newPosition'` and the callback the no-op |
| MotionHandler.LaterMergeKeepsEarlierKeys | src/motionHandler.js:12 | a key an earlier caller supplied survives every later merge that does not name it |
| MotionHandler.OnlyRightHandsAct | src/motionHandler.js:16 | a hand whose type is not `"right"` produces no emit, no callback and no error |
| MotionHandler.EmitBeforeCallback | src/motionHandler.js:16-19 | for a banked right hand, the position is first emitted under `newPositionEventName`; then the same position goes to `onNewPosition` exactly when that is a function, and otherwise the call fails after the emit |
| MotionHandler.BankedPositionFromHelpers | src/motionHandler.js:30-36 | the banked position's roll, pitch and yaw are `Roll`, `Pitch` and 0; the type has no throttle field |
| MotionHandler.TranslationalRightHandFails | src/motionHandler.js:25-26 | the translational variant has no `calculateNewPosition`, so a right hand fails before any effect |
| LeapDrone.Plugin | index.js:92-95 | the plugin builds one fresh controller, banked exactly when `options.bankedController` is truthy, merging into and keeping the file's own defaults object |
| LeapDrone.PluginHooks.HandHook | index.js:96-100 | the `hand` hook has exactly the effects and the failure of `onHand` with the tracking controller as sender |

## Left out

- The event broker (src/beacon.js), the browser demo, logging, process start-up (server.js) and the tracking SDK: network, UI and foreign-library I/O. A hand is a plain record, and `log.info` calls have no counterpart.
- src/drone.js: it probes a foreign I2C driver, and its `update` is empty. It exports no `currentPosition`, so the hover handler takes that call's value as the parameter `current`.
- `helpers.positionDifference` and `helpers.positionSum` are not defined in the helpers file. The hover handler takes them as the function parameters `difference` and `sum`. src/helpers.js exports only `roll`, `pitch` and `yaw` (src/helpers.js:53-57), so the first anchored event would raise a TypeError. src/beacon.js exports a bare function (src/beacon.js:46-50), so `beacon.events.position` already fails when the hover module loads. The model follows the intended behaviour instead.
- Helpers.Roll, Helpers.Pitch: IEEE behaviour is not modelled. A zero divisor gives `Degenerate`, while JavaScript gives NaN, or ±π/2 when `atan` meets ±Infinity. Rounding and the precision of `atan` are not modelled either.
- Helpers.ThumbCountsInPitchDivisor: pitch's division by all fingers is shown on one concrete hand. The general law, that one more thumb or pinky scales a determined pitch by n/(n+1), is not stated, because it needs nonlinear real arithmetic over symbolic sums.
- Hover.HoverLoop.OnPosition: `newPosition.throttle += throttle` changes the object `drone.currentPosition()` returns. That object may be the drone's own state. The model returns a corrected copy and does not model the aliasing.
- Hover.HoverLoop.OnPosition: `desiredPosition = event.data` (src/hover.js:33) keeps a reference to the event's object. A publisher that later mutates that object would move the anchor; the model stores a value, so `Hover.AnchorIsStable` does not capture this.
- Hover.HoverLoop.OnPosition: event data is always a position object. Data the source would find falsy, such as `null`, is not modelled; the source would then re-anchor on the next event.
- MotionHandler.EmitBeforeCallback: the emitted position and the callback's argument are equal values. The model does not show that they are one object, nor what one side's mutation would do to the other.
- MotionHandler.SelectVariant, LeapDrone.Plugin: the factory (src/motionHandler.js:41) and the plugin (index.js:94) read `options.bankedController` first, so a call with `undefined` or `null` options throws a TypeError. The options are a map here and such a call cannot be expressed.
- MotionHandler.Truthy: NaN is not a value here. As an option value, NaN would be falsy.
- The callbacks' own behaviour: a callback is recorded in the trace and has no further effect.
- `Leap.plugin` registration itself is not modelled. `LeapDrone.Plugin` is the callback it registers.
