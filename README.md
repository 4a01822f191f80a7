# OrbitControls and the ball game, modelled in Dafny

This project models the interaction core of `src/hw6.js`, which has two parts.

The first part is a vendored copy of three.js's `OrbitControls`. The model covers:

- the gesture state machine (`STATE` and the mouse, touch, wheel and key handlers);
- the pointer registry (`pointers`, `pointerPositions`);
- the scalar part of `update()`: auto-rotation, damping, the azimuth, polar and distance clamps, the pending pan, and the `change` event;
- `dollyIn`/`dollyOut`, `rotateLeft`/`rotateUp` and `pan`;
- `saveState`/`reset`.

The second part is the small game driven next to the controls:

- the route switch of `handle_keydown`;
- the animation parameter `t`;
- the collision bookkeeping of `checkCollisions`.

Modules:

- `Vectors` (vectors.dfy) holds plain 2-D and 3-D values.
- `Orbit` (orbit.dfy) is pure. It covers:
  - limits and the `Math.max(min, Math.min(max, x))` clamps;
  - azimuth normalisation and wrap-around clamping;
  - the azimuth that `spherical.setFromVector3` reads back into (-PI, PI] (`WrapAzimuth`), and `spherical.makeSafe()` (`MakeSafe`);
  - the damping split;
  - `UpdateOrbit`, the specification of one `update()`, and lemmas on one and on repeated updates.
- `Gesture` (gesture.dfy) is pure. It holds the eight states, the signals (`start`, `change`, `end`), the `mouseButtons`/`touches` bindings, and the decision a pointer-down makes (binding, then the ctrl/meta/shift swap, then the capability gate).
- `Pointers` (pointers.dfy) is pure. It specifies the registry: first-match removal and `getSecondPointerPosition`.
- `Controls` (controls.dfy) holds the class `OrbitControls`. Its fields are those of the source, and the closure variables (`state`, `spherical`, `sphericalDelta`, `scale`, `panOffset`, `zoomChanged`, the drag anchors and the registry) are fields too. Every handler is a method proved against a pure specification function of one step (`RotateTo`, `PanTo`, `DollyInStep`, `MouseMoveStep`, `TouchMoveStep`, `Updated`, …). Dispatched events are appended to `signals`.
- `Game` (game.dfy) holds the class `Round`: the current route, `t`, the cards, their visibility and the two collision counters. `Valid()` states that each counter equals the number of hidden cards of its kind.

Where the library computes something numeric, the model takes it as an input of type `Library`:

- the dolly factor (`0.95 ** zoomSpeed`, or for a pinch the distance ratio to that power);
- the world vectors one pixel of drag moves the target by, which come from the camera matrix, the target distance and `tan(fov / 2)`;
- whether the camera moved by more than `EPS`.

The game takes two geometric results as inputs: the closest curve parameter (a value in [0, 1]) and the per-card box intersection.

Code behaviour worth noting:

- A wrap-around azimuth range such as min = 170°, max = -170° keeps an azimuth of 175° at 175°. The clamp compares with the midpoint and clamps only the side it falls on, so one clamp never moves an allowed azimuth (`ClampAzimuthIsNearestAllowed`).
- That clamp works on the azimuth after the frame's rotation is added, before it is read back into (-PI, PI]. A step that crosses PI inside a wrap-around range can therefore leave the camera in the excluded arc for one frame. The next `update()` reads the azimuth back and only then clamps it (`WrapAroundStepCanLandInGap`).
- `onPointerUp` dispatches `end` and returns to `NONE` on every release, even while another pointer is still down (`OnPointerUp`).
- `reset()` runs `update()` after restoring, which still applies any pending rotation, dolly or pan. The saved pose is restored exactly only at rest (`Reset`, `UpdateAtRestKeepsPose`).

## Model

| member | source | states |
|---|---|---|
| Orbit.ClampWithinBounds | src/hw6.js:221-229 | With ordered limits the clamped value lies between them. A value already inside is kept. A value below a finite lower limit becomes that limit; with ordered limits, a value above a finite upper limit becomes that limit. With crossed limits the lower one wins. The result is always x or a limit. |
| Orbit.ClampIdempotent | src/hw6.js:221-229 | Clamping twice is clamping once. |
| Orbit.NormalizeAzimuthIntoHalfTurns | src/hw6.js:197-204 | A limit moves by at most one turn. Limits in [-PI, PI] are unchanged, and anything in [-3 PI, 3 PI] lands in [-PI, PI]. |
| Orbit.ClampAzimuthIsNearestAllowed | src/hw6.js:197-218 | With a non-finite limit the azimuth is untouched. Otherwise the result is allowed (inside [lo, hi], or outside the gap of a wrap-around range), an allowed azimuth is kept, and the result is theta or a limit. With lo <= hi, an azimuth below lo becomes lo and one above hi becomes hi. An azimuth in the gap (hi, lo) becomes lo above the midpoint (lo + hi) / 2 and hi otherwise, a limit at least as near as the other. |
| Orbit.ConsumeLosesNothing | src/hw6.js:183-193 | One update splits a pending angle into applied plus kept, with nothing lost. Kept is 0 without damping and (1 - dampingFactor) times the pending angle with damping. |
| Orbit.ConsumeOffsetLosesNothing | src/hw6.js:233-265 | The same split holds for panOffset: what moves the target plus what stays pending equals the old panOffset. |
| Orbit.Clamp | src/hw6.js:221-229 | With ordered limits the result lies between them, and a value already between them is returned unchanged. A value below a finite lower limit becomes that limit. With ordered limits, a value above a finite upper limit becomes that limit. |
| Orbit.ClampAzimuth | src/hw6.js:197-218 | With a non-finite limit the azimuth is untouched. Otherwise the result lies in the range of the normalised limits lo and hi. With lo <= hi, an azimuth below lo becomes lo and one above hi becomes hi. In the gap (hi, lo) of a wrap-around range, it becomes lo above the midpoint and hi otherwise. |
| Orbit.WrapAzimuth | src/hw6.js:175 | The read-back azimuth lies in (-PI, PI] and is a whole number of turns from the written one. An azimuth already in (-PI, PI] reads back unchanged. |
| Orbit.WrapAzimuthIsUnique | src/hw6.js:175 | No other azimuth in (-PI, PI] points the same way, so the read-back value is determined by the direction alone. |
| Orbit.MakeSafe | src/hw6.js:223 | The polar angle ends in [EPS, PI - EPS], and one already there is kept. One below EPS becomes EPS, and one above PI - EPS becomes PI - EPS. |
| Orbit.UpdateOrbit | src/hw6.js:165-267 | After one update() the scale is 1, the azimuth is allowed by the limits, and phi is in [EPS, PI - EPS]. |
| Orbit.DefaultAutoRotateIsThirtySecondsPerTurn | src/hw6.js:80 | At speed 2, 30 s of 60 updates per second make one full turn. |
| Orbit.UpdateOrbitRespectsLimits | src/hw6.js:195-229 | After update() the scale is 1 and the azimuth is allowed. phi is in [EPS, PI - EPS], and within ordered polar limits that makeSafe does not override. The radius is within ordered distance limits. |
| Orbit.UpdateWithoutDampingClearsPending | src/hw6.js:233-265 | Without damping, the deltas and panOffset are cleared and the target moves by the whole panOffset. |
| Orbit.UpdateWithDampingDecaysPending | src/hw6.js:233-265 | With damping, the deltas and panOffset shrink by (1 - dampingFactor), and target + panOffset is conserved. |
| Orbit.UpdateOrbitConservesMotion | src/hw6.js:175-223 | Where the limits do not cut in, the new azimuth plus the still pending rotation equals the read-back azimuth plus the pending rotation (auto-rotation included). The same holds for phi and its delta. |
| Orbit.DollyRadiusClamps | src/hw6.js:226-229 | The radius times scale is kept within the distance limits. Below a finite minDistance it becomes minDistance; with ordered limits, above a finite maxDistance it becomes maxDistance. |
| Orbit.UpdateAppliesScale | src/hw6.js:226-229 | Where the distance limits do not cut in, the new radius is the old radius times scale. A scaled radius below a finite minDistance ends at minDistance; with ordered limits, one above a finite maxDistance ends at maxDistance. |
| Orbit.UpdateAtRestKeepsPose | src/hw6.js:165-267 | With nothing pending and no auto-rotation, update() changes nothing for a pose within the limits that reads back as written (theta in (-PI, PI], phi in [EPS, PI - EPS]). |
| Orbit.UpdateWithoutDampingSettles | src/hw6.js:175-265 | Without damping or auto-rotation, a second update() only reads the azimuth back into (-PI, PI], in the same direction. Where that direction is allowed, nothing else changes. |
| Orbit.WrapAroundStepCanLandInGap | src/hw6.js:175-218 | With limits 170° and -170°, an azimuth of 3.0 turned by 1.0 stays at 4.0, in the excluded arc. The next update() reads it back and moves it to -170°. |
| Orbit.AutoRotationTurnsIdleCamera | src/hw6.js:177-193 | With no other pending azimuth and no finite azimuth limits, an idle update() turns the camera by -2 PI autoRotateSpeed / 3600 (all of it at once without damping), and a non-idle one does not turn it. |
| Orbit.RepeatedDampedUpdates | src/hw6.js:183-265 | After n damped update() calls without auto-rotation, each delta and each panOffset component is KeptAfter of its start value. The target has moved by AppliedOver of the pan. |
| Orbit.KeptAfterIsGeometric | src/hw6.js:252-257 | After n damped updates (see RepeatedDampedUpdates), the pending increment is pending × (1 - dampingFactor)^n. |
| Orbit.DampingConservesIncrement | src/hw6.js:183-186 | Over n damped updates (see RepeatedDampedUpdates), what was applied plus what is still pending equals the original increment. |
| Orbit.DampedIncrementNeverVanishes | src/hw6.js:252-257 | Unless dampingFactor is 1, a non-zero pending increment is never exactly 0 after any number of damped updates (see RepeatedDampedUpdates). |
| Gesture.MouseDownStartsIffGestureAllowed | src/hw6.js:889-955 | A mouse-down dispatches `start` exactly when its button, after the modifier swap, is bound to a gesture whose capability is on. |
| Gesture.TouchStartStartsIffGestureAllowed | src/hw6.js:1019-1095 | A touch start dispatches `start` exactly when one or two pointers are down, that count is bound to a gesture, and its capabilities allow it. |
| Gesture.ModifierSwapsRotateAndPan | src/hw6.js:899-941 | Holding ctrl, meta or shift decides exactly as the bindings with rotate and pan swapped. |
| Gesture.OtherButtonsSelectNone | src/hw6.js:866-887 | A button other than 0, 1 and 2 maps to -1 and selects NONE whatever the flags. |
| Gesture.MouseDownRefusedIffDisabled | src/hw6.js:889-949 | A mouse-down returns early exactly when its gesture needs a disabled capability. Otherwise it enters that gesture. |
| Gesture.TwoFingerRefusedOnlyWhenBothDisabled | src/hw6.js:1055-1081 | A two-finger start returns early only when both capabilities of its gesture are off. |
| Gesture.OtherTouchCountsSelectNone | src/hw6.js:1019-1089 | With a pointer count other than 1 or 2, a touch start selects NONE. |
| Pointers.FirstIndex | src/hw6.js:1171-1180 | The index is the first entry with the id, or -1 when no entry has it. |
| Pointers.WithoutRemovesOneOccurrence | src/hw6.js:1167-1182 | Removal takes out exactly one entry with the id when there is one, and none otherwise. Every other entry keeps its relative order. |
| Pointers.RemovedIdIsGone | src/hw6.js:1167-1182 | With unique ids, the removed id no longer occurs. |
| Pointers.SecondPointerPosition | src/hw6.js:1199-1205 | The partner is pointers[1] when the event is from pointers[0], pointers[0] otherwise. A position is found exactly when that partner exists and has a stored position, and it is that position. It is Missing with no pointers and for an event from the only pointer, where the source throws. With two or more distinct pointers, the event of one of the first two finds the other's stored position. |
| Controls.PanVectorIsLinear | src/hw6.js:424-462 | pan() is linear in the pixel delta: two pans add up to one pan by their sum, and a zero pan adds nothing. |
| Controls.FullHeightDragIsFullTurn | src/hw6.js:536-538 | A drag over the element's full height turns by rotateSpeed × 2 PI, from any starting point. |
| Controls.DragsCompose | src/hw6.js:568-580 | Dragging through an intermediate point pans exactly as far as dragging straight to the end, because the anchor follows the pointer. |
| Controls.DollyInThenOutRestoresScale | src/hw6.js:464-504 | On a perspective camera, dollyIn then dollyOut by the same factor restores the state. |
| Controls.OrthographicZoomStaysWithinLimits | src/hw6.js:470-495 | On an orthographic camera the zoom ends within ordered minZoom/maxZoom and zoomChanged is set. |
| Controls.OrthographicDollyRoundTrip | src/hw6.js:470-495 | Away from the zoom limits, dollyIn then dollyOut restores the zoom. |
| Controls.UnknownCameraDisablesZoom | src/hw6.js:476-481 | On an unknown camera, a dolly by any factor only switches enableZoom off, and a pan by any vector only switches enablePan off. |
| Controls.DollyInStep | src/hw6.js:485-504 | Only scale, zoom, zoomChanged and enableZoom can change. On a perspective camera the scale is multiplied by the factor. On an orthographic one zoomChanged is set, and the zoom becomes zoom / f when that is within minZoom/maxZoom, the limit it crossed otherwise, and minZoom when the limits are crossed. Otherwise only enableZoom is switched off. |
| Controls.DollyOutStep | src/hw6.js:464-483 | Only scale, zoom, zoomChanged and enableZoom can change. On a perspective camera the scale is divided by the factor. On an orthographic one zoomChanged is set, and the zoom becomes zoom × f when that is within minZoom/maxZoom, the limit it crossed otherwise, and minZoom when the limits are crossed. Otherwise only enableZoom is switched off. |
| Controls.TouchMoveHalvesRespectTheirFlags | src/hw6.js:772-786 | In a two-finger move, a disabled capability's half leaves its part (scale and zoom, panOffset, rotation deltas) unchanged. The move returns early exactly when both halves are disabled. |
| Controls.OrbitControls.constructor | src/hw6.js:22-95 | The source's defaults: limits, damping 0.05, speeds 1, keyPanSpeed 7, autoRotateSpeed 2, the arrow keys, the mouse and touch bindings, an empty registry, state NONE. It ends with one update(). |
| Controls.OrbitControls.SaveState | src/hw6.js:128-134 | target0, position0 and zoom0 become the current target, position and zoom. |
| Controls.OrbitControls.Reset | src/hw6.js:136-149 | The result is the restored target, position and zoom after one update(). It dispatches `change`, then update()'s `change` if any, and the state becomes NONE. |
| Controls.OrbitControls.Restore | src/hw6.js:138-140 | Only target, position and zoom are replaced by the saved ones. |
| Controls.OrbitControls.RotateLeft | src/hw6.js:371-375 | sphericalDelta.theta decreases by the angle; nothing else changes. |
| Controls.OrbitControls.RotateUp | src/hw6.js:377-381 | sphericalDelta.phi decreases by the angle; nothing else changes. |
| Controls.OrbitControls.Pan | src/hw6.js:424-462 | panOffset grows by the world vector of the pixel delta. On an unknown camera, pan is switched off instead. |
| Controls.OrbitControls.DollyOut | src/hw6.js:464-483 | The motion becomes DollyOutStep of the old one: scale divided by the factor, or the zoom multiplied and clamped (its values as DollyOutStep states them) with zoomChanged set, or zoom switched off, by camera kind. |
| Controls.OrbitControls.DollyIn | src/hw6.js:485-504 | The motion becomes DollyInStep of the old one: scale multiplied by the factor, or the zoom divided and clamped (its values as DollyInStep states them) with zoomChanged set, or zoom switched off. |
| Controls.OrbitControls.Update | src/hw6.js:152-291 | The orbit state becomes UpdateOrbit of the old one, idle exactly when the state is NONE. The configuration is untouched. It returns and dispatches `change` exactly when the zoom changed or the camera moved, then clears zoomChanged. |
| Controls.OrbitControls.StepOrbit | src/hw6.js:165-267 | The orbit state becomes UpdateOrbit(config, state == NONE, old orbit state): the azimuth read back, auto-rotation, the split of the pending values, the clamps, makeSafe and the pan. |
| Controls.OrbitControls.RestrictAzimuth | src/hw6.js:197-218 | The result is the azimuth clamp of the configured limits (see ClampAzimuthIsNearestAllowed). |
| Controls.OrbitControls.AddPointer | src/hw6.js:1161-1165 | The event is appended to pointers. |
| Controls.OrbitControls.RemovePointer | src/hw6.js:1167-1182 | The id's position is deleted and the first entry with the id is spliced out (see WithoutRemovesOneOccurrence). |
| Controls.OrbitControls.TrackPointer | src/hw6.js:1184-1197 | The id's stored position becomes the event's page position. |
| Controls.OrbitControls.OnPointerDown | src/hw6.js:792-819 | When disabled, nothing changes. Otherwise the pointer is added and the touch or mouse start decision is applied: the new state, `start` iff a state other than NONE is entered, and the anchors. |
| Controls.OrbitControls.OnPointerMove | src/hw6.js:821-835 | When disabled, nothing changes. Otherwise it is the touch step (the position is tracked, failure on a missing pointer, a non-touch state becomes NONE) or the mouse step, each followed by update() when it proceeds. |
| Controls.OrbitControls.OnPointerUp | src/hw6.js:837-854 | The pointer is removed, `end` is dispatched and the state is NONE, on every release. |
| Controls.OrbitControls.OnPointerCancel | src/hw6.js:856-860 | The pointer is only removed. |
| Controls.OrbitControls.OnMouseDown | src/hw6.js:862-957 | The state follows MouseDownDecision. `start` is dispatched iff a state other than NONE is entered, and the anchor of the entered gesture is set. |
| Controls.OrbitControls.OnMouseMove | src/hw6.js:959-991 | The active gesture's step (rotate, dolly by the sign of the drag, or pan) runs only if its capability is on, then update(). Otherwise nothing changes. |
| Controls.OrbitControls.MouseGestureMove | src/hw6.js:963-989 | Without its update(), the step is MouseMoveStep, and `moved` says whether it proceeds. |
| Controls.OrbitControls.OnMouseWheel | src/hw6.js:993-1005 | It acts only if enabled, zoom is on and the state is NONE. Then it dispatches `start`, dollies in for negative deltaY and out for positive, runs update(), and dispatches `end`. |
| Controls.OrbitControls.OnKeyDown | src/hw6.js:1007-1013 | When enabled with pan on, a key of `keys` pans by keyPanSpeed pixels in its direction and runs update(). Otherwise nothing changes. |
| Controls.OrbitControls.PanForKey | src/hw6.js:598-624 | Up, down, left and right pan by (0, s), (0, -s), (s, 0) and (-s, 0). Other keys do nothing and report no update. |
| Controls.OrbitControls.OnTouchStart | src/hw6.js:1015-1097 | The position is tracked, the state follows TouchStartDecision, `start` is dispatched iff a state other than NONE is entered, and the anchors follow the entered gesture. |
| Controls.OrbitControls.EnterTouchGesture | src/hw6.js:1019-1089 | This is the touch-count switch. The anchor is the lone pointer or the midpoint of two, and it reports whether a `start` follows. |
| Controls.OrbitControls.OnTouchMove | src/hw6.js:1099-1151 | The position is tracked. In a touch state its step runs, then update() when it proceeds; any other state becomes NONE. `ok` is false where the source throws on a missing pointer. |
| Controls.OrbitControls.TouchGestureMove | src/hw6.js:1103-1149 | Without its update(), the step is TouchMoveStep. |
| Controls.OrbitControls.DollyPanMove | src/hw6.js:772-778 | The pinch runs if zoom is on, then the pan if pan is still on. |
| Controls.OrbitControls.DollyRotateMove | src/hw6.js:780-786 | The pinch runs if zoom is on, then the rotation if rotate is on. |
| Controls.OrbitControls.HandleRotateTo | src/hw6.js:528-540 | rotateLeft and rotateUp are applied by 2 PI times the drag over clientHeight, scaled by rotateSpeed, and the anchor moves. |
| Controls.OrbitControls.HandlePanTo | src/hw6.js:568-576 | It pans by the drag times panSpeed and moves the anchor. |
| Controls.OrbitControls.HandleTouchMoveRotate | src/hw6.js:699-726 | It rotates towards the lone pointer, or the midpoint with the other pointer. It fails when that pointer's position is missing. |
| Controls.OrbitControls.HandleTouchMovePan | src/hw6.js:728-751 | It pans towards the same end point, and fails on the same missing position. |
| Controls.OrbitControls.HandleTouchMoveDolly | src/hw6.js:753-770 | It dollies out by the pinch factor, and fails when the other pointer's position is missing. |
| Game.NextRoute | src/hw6.js:1499-1511 | The route moves at most one lane: never right on ArrowLeft, never left on ArrowRight, and not at all on other keys. |
| Game.NextRouteMovesOneLane | src/hw6.js:1499-1511 | ArrowLeft moves one lane left and ArrowRight one lane right, stopping at the outer routes. Other keys keep the route. |
| Game.OppositeKeysUndo | src/hw6.js:1499-1511 | A right step undoes a left step that did not hit the edge, and the mirror. |
| Game.Tick | src/hw6.js:1601-1605 | t stays in [0, 1], and the new t is either 0 or t + increment. |
| Game.TickStaysInUnitInterval | src/hw6.js:1601-1605 | One frame keeps t in [0, 1], and t wraps to 0 exactly when t + increment exceeds 1. |
| Game.TicksFromZero | src/hw6.js:1601-1605 | From 0, t after k ≤ 500 frames is k / 500. |
| Game.LapLasts501Frames | src/hw6.js:1601-1605 | t reaches exactly 1 on frame 500, is positive on frames 1 to 500, and wraps to 0 on frame 501. |
| Game.AfterCollisions | src/hw6.js:1559-1577 | A visible card on the route, within 0.01 of t, whose box meets the ball's is hidden. No card becomes visible. A card on another route, whose box misses the ball's, or 0.01 or further from t keeps its visibility. |
| Game.HideOneCard | src/hw6.js:1567-1572 | Hiding a card adds one to the count of its kind if it was visible, and nothing otherwise. |
| Game.HiddenCountGrows | src/hw6.js:1563-1576 | Hiding more cards never lowers a count. |
| Game.CollisionsAreIdempotent | src/hw6.js:1563-1576 | A hidden card stays hidden, and a second check at the same t hides nothing more. |
| Game.NothingHiddenCountsZero | src/hw6.js:1555-1557 | With every card visible, both counts are zero. |
| Game.Round.constructor | src/hw6.js:1441-1491 | The game starts on the centre route at t = 0. It has the six cards sorted by t, all visible, and both counters at 0. |
| Game.Round.HandleKeydown | src/hw6.js:1495-1517 | The route becomes NextRoute of the old one, and t becomes the closest parameter found on the old route. Valid() is kept. |
| Game.Round.Advance | src/hw6.js:1601-1605 | t becomes Tick(t), keeping Valid(). The lap ends, and the final score is shown, exactly when t + increment exceeds 1. |
| Game.Round.CheckCollisions | src/hw6.js:1559-1577 | The visibility becomes AfterCollisions of the old one: a visible card on the current route within 0.01 of t whose box meets the ball's is hidden, and nothing else changes. The counters still equal the hidden counts per kind, so each card is counted at most once. |
| Game.Round.Animate | src/hw6.js:1588-1608 | One frame advances t, then checks collisions at the new t, keeping Valid(). |

## Left out

- Spherical/Cartesian conversion, the quaternion to and from `camera.up`, and `lookAt`. The model keeps (radius, phi, theta) as the camera state. Of the read-back by `setFromVector3` it models the azimuth, which lands in (-PI, PI]. The radius and phi are taken as written. After makeSafe, phi is in (0, PI), which reads back unchanged. A radius of 0 or below, which the source reads back as a length, is not distinguished.
- `spherical.makeSafe()` is modelled as `MakeSafe` with three.js's EPS of 0.000001. That helper is library code that `src/hw6.js` only calls, so this behaviour is three.js's rather than the file's.
- Orbit.UpdateOrbit: the azimuth is allowed by the limits only as written, not after its read-back. A step crossing PI in a wrap-around range leaves the camera in the excluded arc for one frame, as the source does (`WrapAroundStepCanLandInGap`).
- The change test on camera movement (`EPS`, the quaternion dot product). It enters as the boolean `cameraMoved`, so `lastPosition`/`lastQuaternion` are not modelled.
- `getZoomScale` and the pinch distance (`Math.pow`, `Math.sqrt`). The dolly factor is an input, so `dollyStart` of a touch dolly (a distance) is not recorded. The factor is assumed strictly positive (`Positive`), so a pinch whose finger distance or recorded `dollyStart.y` is 0 (a factor of 0, or a division by zero) is not modelled.
- The pan world-unit conversion (camera matrix columns, `tan(fov / 2)`, `screenSpacePanning`, the frustum size). Each event supplies it as two per-pixel world vectors, a linear map of the pixel delta as the source computes it.
- Controls.OrbitControls.Pan, DollyIn, DollyOut (and DollyInStep, DollyOutStep): the unknown-camera `console.warn` is not modelled; only the switch-off of enablePan or enableZoom is.
- DOM plumbing: listener registration, pointer capture, `preventDefault`, `contextmenu`, `listenToKeyEvents`, `dispose`, `getPolarAngle`/`getAzimuthalAngle`/`getDistance`.
- Floating point: all quantities are unbounded reals. Game.LapLasts501Frames is exact arithmetic; summing 1/500 in binary floating point can end the lap one frame earlier or later.
- Game geometry: the Bezier routes, `getPoint`, `findClosestT`'s sampling and the `Box3` intersection enter as inputs (`closestT`, `hits`).
- `updateScore`'s `100 * 2 ** (-(yellow + 10 * red) / 10)` and `showFinalScore`'s `alert`. The model keeps the two counters the score is computed from, and `Advance` reports when the score is shown.
- The `o` key's `toggleOrbit`, `controls.enabled = isOrbitEnabled`, the camera follow, and the target reset inside `animate()`: these are glue between the game and the controls.
- The rendering, textures, lights and scene construction.
