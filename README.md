# ESP32 hotspot controller: the input and state layer, in Dafny

The web client of the ESP32 hotspot controller is a React app. The ESP32 runs a Wi-Fi hotspot and streams controller
telemetry over a WebSocket: two joysticks (`j1x`, `j1y`, `j2x`, `j2y`, raw ADC samples) and a time-of-flight sensor
(`tof1`). It also streams presence frames (`x`, `y`, `dirX`, `dirY`, `state`). Five pages consume these frames:

- **The Pikachu and cube-character mini-games.** Each normalises the joystick samples into a shared `gameData` record.
  The keyboard writes the same record, and every animation frame reads it to choose the animation, glow, speed, lean
  and bounce.
- **The root page.** It keeps the player record and the device's `menu` state, and offers buttons that depend on that
  state.
- **The world-map page.** It keeps the same state, and draws a tile grid and the player on a canvas.
- **The telemetry debug view.** Its copy of the normaliser refers to constants the file never declares.

This project models that layer and proves what it promises. It covers the normaliser, both writers of `gameData`, the
per-frame decisions, the message handlers with their error paths and status transitions, and the per-tile draw
decisions.

Modules, one per concern, following the source files:

- `Values`: JavaScript values as they arrive: `undefined`, `null` or a number. Also `Number()`, truthiness, clamp and
  lerp.
- `Joystick`: `normalizeJoystick`, parameterised by each view's constants.
- `Telemetry`: a parsed frame, and the three ways `JSON.parse` plus the first property read can end.
- `GameInput`: the `gameData` record as a value and as the class `GameData`, with its socket and keyboard writers.
- `Connection`: the status line.
- `PikachuSim`, `CubeCharacterSim`: the per-frame decisions of the two mini-games.
- `WSConnection`: the debug view, modelled as written.
- `Presence`, `MapPage`, `App`: the presence handler, the map page and the root page.

How JavaScript semantics are captured:

- **Numbers** are mathematical reals. `null` counts as 0 in arithmetic and comparisons. A field that may be absent is a
  `Sample`; a stored field, which a `!== undefined` check guards, is a `Reading`.
- **React state.** A `setState` call takes effect from the next frame or event, so within one frame every read sees the
  value the frame started with. Refs take effect at once. This matters for the Pikachu view. There, the frame that
  starts a jump still moves at the speed of the animation it was rendered with.
- **Timers.** The `setTimeout` that ends a jump is the explicit event `JumpEnded`.
- **Clock and trigonometry.** `Math.sin` of the clock is a parameter of the cube's frame.

The cube view's deadzone test is a strict `<`, so a centre-2048 sample of 2248 lies just outside the deadzone and
gives 200 / 2047.5 · 1.25 ≈ 0.122, not 0. That is enough to make the cube count as moving. The model follows the code: `Joystick.CubeReferencePoints` and `CubeCharacterSim.EdgeOfDeadzoneMoves`.

The debug view's normaliser uses `JOY_CENTER`, `JOY_MAX` and `DEADZONE`, which `src/tools/WSConnection.jsx` never
declares. Any numeric joystick value therefore throws a ReferenceError. The handler's `try` catches it, and the rest of
that frame is dropped. The model reproduces this rather than substituting constants. As a consequence, the view's
joystick values can never be anything but 0 (`WSConnection.AxesStayZero`).

## Model

| member | source | states |
|---|---|---|
| Values.Clamp | src/mini_games/Pikachu_Sim.jsx:42 | `Math.max(lo, Math.min(hi, x))` lies in [lo, hi]; it is `x` inside, `hi` above and `lo` below |
| Values.LerpBetween | src/mini_games/Pikachu_Sim.jsx:360 | three.js lerp with a factor in [0, 1] stays between the start and the target |
| Joystick.Normalize | src/mini_games/Pikachu_Sim.jsx:37-43 | the result is in [-1, 1]; it is exactly 0 for `undefined`/`null` and strictly inside the deadzone; outside the deadzone it has the sign of `raw - center` |
| Joystick.NormalizeMonotone | src/mini_games/Pikachu_Sim.jsx:39-42 | a larger raw sample never gives a smaller axis value, across the deadzone edge and the clamp |
| Joystick.NormalizeLinear | src/mini_games/Pikachu_Sim.jsx:41-42 | between the deadzone and saturation, the output is `(raw - center) · 1.25 · 2 / max` |
| Joystick.PikachuDeadzoneEdge | src/mini_games/Pikachu_Sim.jsx:37-43 | centre 0: ±199 give 0; ±200 are outside the exclusive edge and give ±200/1024·1.25 |
| Joystick.PikachuSaturation | src/mini_games/Pikachu_Sim.jsx:41-42 | centre 0, range 2048: every raw value from 819.2 on saturates at exactly 1 |
| Joystick.CubeReferencePoints | src/mini_games/Cube_Character_Sim.jsx:14-23 | centre 2048: 2048, 1849 and 2247 give 0; 2248 gives 200/2047.5·1.25 > 0.1; the unclamped value of 4095 exceeds 1, so 4095 maps to exactly 1; 0 maps to -1 |
| Joystick.CubeDeadzone | src/mini_games/Cube_Character_Sim.jsx:18-21 | centre 2048: the output is 0 exactly for raw in the open interval (1848, 2248) |
| GameInput.WithAxis | src/mini_games/Pikachu_Sim.jsx:55-58 | writing one axis sets that axis and leaves the other axes, `tof1` and `e` as they were |
| GameInput.InitialBounded | src/mini_games/Pikachu_Sim.jsx:45 | the initial record `{0, 0, 0, 0, tof1: 0, e: false}` has every axis in [-1, 1] |
| GameInput.Merge | src/mini_games/Pikachu_Sim.jsx:53-60 | a frame that fails to parse leaves the record unchanged; only present axes change, and each to its normalised value; a present `tof1` is stored raw; `e` is never written; axis bounds are preserved |
| GameInput.MergeIdempotent | src/mini_games/Pikachu_Sim.jsx:55-59 | handling the same frame twice gives the same record as handling it once |
| GameInput.SensorOnlyFrame | src/mini_games/Pikachu_Sim.jsx:59 | a frame carrying only `tof1` sets it raw and changes nothing else |
| GameInput.ApplyWrite | src/mini_games/Pikachu_Sim.jsx:71-90 | a key write sets its own axis to its value or `e` to its flag; every axis it does not name, `tof1`, and `e` unless it is the button write, keep their values |
| GameInput.DownWrite | src/mini_games/Pikachu_Sim.jsx:71-81 | the key-down table of either view (the cube's is Cube_Character_Sim.jsx lines 53-61) only ever drives an axis to ±1 or presses the button; in the cube view it never touches `j2y` |
| GameInput.UpWrite | src/mini_games/Pikachu_Sim.jsx:82-90 | the key-up table of either view (the cube's is Cube_Character_Sim.jsx lines 62-67) only ever returns an axis to 0 or releases the button; in the cube view it never touches `j2y` |
| GameInput.UpMirrorsDown | src/mini_games/Pikachu_Sim.jsx:71-90 | key-up reacts to exactly the keys key-down reacts to; key-down drives a field to ±1/true, and key-up returns that same field to 0/false |
| GameInput.PikachuMappedKeys | src/mini_games/Pikachu_Sim.jsx:71-81 | the Pikachu view maps exactly w/W, s/S, a/A, d/D, e/E and the four arrows; other keys change nothing |
| GameInput.CubeMappedKeys | src/mini_games/Cube_Character_Sim.jsx:53-61 | the cube view maps exactly lower-case w/s/a/d, e/E, ArrowLeft and ArrowRight |
| GameInput.ReleaseZeroesWholeAxis | src/mini_games/Pikachu_Sim.jsx:83-86 | releasing either key of an axis zeroes the axis: W held, S pressed and released, gives j1y = 0 |
| GameInput.CubeIgnoresVerticalArrows | src/mini_games/Cube_Character_Sim.jsx:53-66 | in the cube view ArrowUp/ArrowDown change nothing on either edge |
| GameInput.KeyWritesKeepBounds | src/mini_games/Pikachu_Sim.jsx:71-90 | no key event pushes an axis out of [-1, 1] |
| GameInput.ReplayKeepsAxesBounded | src/mini_games/Pikachu_Sim.jsx:53-90 | however frames and key events interleave, every axis stays in [-1, 1] |
| GameInput.NetworkNeverWritesButton | src/mini_games/Cube_Character_Sim.jsx:34-41 | no run of socket frames changes `e` |
| GameInput.LastWriteWins | src/mini_games/Pikachu_Sim.jsx:55-84 | the last writer decides: a frame's joystick field sets its axis, and releasing W zeroes j1y, whatever came before |
| GameInput.GameData.constructor | src/mini_games/Pikachu_Sim.jsx:45 | the record starts at the initial values, axes bounded |
| GameInput.GameData.MergeFrame | src/mini_games/Cube_Character_Sim.jsx:34-41 | `onmessage` updates the fields in place exactly as `Merge` says, keeps axes bounded, and reports whether the frame parsed |
| GameInput.GameData.KeyDown | src/mini_games/Pikachu_Sim.jsx:71-81 | the `keydown` listener of either view updates the record as `DownWrite` says, nothing else changes |
| GameInput.GameData.KeyUp | src/mini_games/Cube_Character_Sim.jsx:62-67 | the `keyup` listener of either view updates the record as `UpWrite` says, nothing else changes |
| Connection.StatusTexts | src/App.jsx:126-148 | `onopen`, `onclose` and the fetch's `.catch` show "Connected (Live)", "Disconnected" and "Data load failed."; no two statuses share a text |
| Connection.LastCallbackDecides | src/App.jsx:131-150 | the status shown is set by the most recent callback alone |
| Connection.NoReconnect | src/tools/WSConnection.jsx:34-58 | after the socket has closed, with no fetch failure, the status is "Disconnected" for good |
| Connection.LiveWhileOpen | src/tools/Map.jsx:62-89 | with the socket open and not closed, and no fetch failure, the status is "Connected (Live)" |
| PikachuSim.Select | src/mini_games/Pikachu_Sim.jsx:203-216 | a jump starts iff j2y < -0.5 and no jump is running; while jumping the pose is unchanged; otherwise Walking iff moving, else Idle; ref and animation stay consistent |
| PikachuSim.AnimSetIffChanged | src/mini_games/Pikachu_Sim.jsx:205-216 | `setCurrentAnim` is called exactly when the selection changes the animation |
| PikachuSim.RunConsistent | src/mini_games/Pikachu_Sim.jsx:203-216 | from a consistent start, `isJumping` is true exactly while the animation is Jump, after any frames and timer events |
| PikachuSim.JumpHolds | src/mini_games/Pikachu_Sim.jsx:213 | while a jump runs, no frame changes the pose; only the timer ends it |
| PikachuSim.JumpEndedResets | src/mini_games/Pikachu_Sim.jsx:207-209 | the end-of-jump timer leaves the player Idle and able to jump again |
| PikachuSim.JumpNeedsStick | src/mini_games/Pikachu_Sim.jsx:203-205 | a jump is only entered on a frame with j2y < -0.5 |
| PikachuSim.WalkingIffMoving | src/mini_games/Pikachu_Sim.jsx:213-216 | outside a jump, after a frame that does not start one, the animation is Walking iff moving and Idle iff not |
| PikachuSim.TargetIntensity | src/mini_games/Pikachu_Sim.jsx:230-231 | `null` reads as 0 in `tof1 > 40` and `tof1 / 200`; the target is 0 exactly when neither `e` nor tof1 > 40; when pressed it is tof1/200 for any non-zero reading (so > 0.2 above 40, and also small or negative readings with `e` held) and falls back to 1 only for a reading of 0 or `null` |
| PikachuSim.WeakSensorDimsButtonGlow | src/mini_games/Pikachu_Sim.jsx:229-235 | with `e` held and 0 < tof1 ≤ 10 the view counts as pressed, yet the target is tof1/200 ≤ 0.05, so one frame later the lightning (shown above 0.1, line 276) is hidden |
| PikachuSim.EmissiveTarget | src/mini_games/Pikachu_Sim.jsx:230-240 | the materials' target emissive intensity is twice the glow target: 0 exactly when not pressed, tof1/100 when pressed with a non-zero reading (so above 40 in particular), and 2 when pressed with a reading of 0 or `null` |
| PikachuSim.GlowColour | src/mini_games/Pikachu_Sim.jsx:239 | the emissive colour eased towards is yellow exactly when pressed, that is exactly when the emissive target is non-zero, and black exactly when that target is 0 |
| PikachuSim.StaticNext | src/mini_games/Pikachu_Sim.jsx:233-235 | after a frame the static intensity is within 0.05 of the target; it is either unchanged or the target, and it is unchanged when already within 0.05 |
| PikachuSim.LightningOffWhenReleased | src/mini_games/Pikachu_Sim.jsx:229-235 | one frame after release the static intensity is at most 0.05, so the lightning effect (shown above 0.1, line 276) is hidden |
| PikachuSim.LightningOnWhenSensorPressed | src/mini_games/Pikachu_Sim.jsx:229-235 | one frame of tof1 > 40 brings the static intensity above 0.1, which shows the lightning effect (line 276) |
| PikachuSim.WalkingFaster | src/mini_games/Pikachu_Sim.jsx:247 | walking is faster than standing, and a non-negative glow target never slows it |
| PikachuSim.JumpFrameKeepsWalkingSpeed | src/mini_games/Pikachu_Sim.jsx:203-247 | the frame that starts a jump from Walking still moves at the walking speed, since it reads the rendered animation |
| PikachuSim.PikachuPlayer.constructor | src/mini_games/Pikachu_Sim.jsx:169-171 | Idle, not jumping, static intensity 0 |
| PikachuSim.PikachuPlayer.Tick | src/mini_games/Pikachu_Sim.jsx:199-247 | nothing happens unless mounted; otherwise the pose follows `Select`, `animSet` is `AnimSet`, the static intensity follows `StaticNext`, the yaw decreases by `j2x·5·delta`, and the speed is `MoveSpeed` of the rendered animation |
| PikachuSim.PikachuPlayer.JumpEnded | src/mini_games/Pikachu_Sim.jsx:207-209 | the timer callback clears the ref and sets Idle, keeping the pose consistent |
| PikachuSim.TargetScale | src/mini_games/Pikachu_Sim.jsx:356-358 | a blade within squared distance 15 of the player targets 0.01, otherwise its base scale; for a blade as generated the target lies in [0.01, base scale] |
| PikachuSim.SafeDelta | src/mini_games/Pikachu_Sim.jsx:353 | the frame time used is capped at 0.1: equal to delta up to 0.1 and exactly 0.1 beyond |
| PikachuSim.BladeStep | src/mini_games/Pikachu_Sim.jsx:355-360 | only the current scale changes, and it lands between its old value and the target |
| PikachuSim.BladeStepKeepsOk | src/mini_games/Pikachu_Sim.jsx:341-360 | a blade's scale stays between 0 and its base scale in [1, 1.5] |
| PikachuSim.LongFrameSnaps | src/mini_games/Pikachu_Sim.jsx:353-360 | a frame of 0.1 s or more puts the blade exactly at its target |
| PikachuSim.SteppedBladeShrinks | src/mini_games/Pikachu_Sim.jsx:343-360 | under the player a blade never rises above the higher of its height and 0.01: one still growing in from its spawn height 0 rises only towards 0.01, one at 0.01 or more never grows; away from the player it never shrinks |
| PikachuSim.GrassTick | src/mini_games/Pikachu_Sim.jsx:349-372 | unmounted, no blade changes; mounted, every blade becomes `BladeStep` of itself in place; well-formed blades stay well-formed |
| CubeCharacterSim.SensorValue | src/mini_games/Cube_Character_Sim.jsx:105 | positive always: tof1/400 when tof1 > 0, else 0.5 |
| CubeCharacterSim.EmissiveTarget | src/mini_games/Cube_Character_Sim.jsx:104-106 | the glow target is non-negative and 0 exactly when neither `e` nor `tof1` is truthy; when pressed it is tof1/40 for a positive reading and 5 otherwise |
| CubeCharacterSim.SpeedBonus | src/mini_games/Cube_Character_Sim.jsx:118-120 | the press bonus is non-negative and 0 exactly when not pressed; when pressed it is tof1/320 for a positive reading and 0.625 otherwise |
| CubeCharacterSim.MoveSpeed | src/mini_games/Cube_Character_Sim.jsx:118-121 | a frame moves at least `24·delta`, exactly that when neither `e` nor `tof1` is truthy, `24·delta + tof1/320` when pressed with a positive reading, and `24·delta + 0.625` when pressed otherwise |
| CubeCharacterSim.BonusPerFrame | src/mini_games/Cube_Character_Sim.jsx:121 | only `24·delta` scales with frame time; the press bonus is added whole on every frame |
| CubeCharacterSim.BonusTracksGlow | src/mini_games/Cube_Character_Sim.jsx:106-120 | the speed bonus is one eighth of the glow target |
| CubeCharacterSim.ButtonWithoutSensor | src/mini_games/Cube_Character_Sim.jsx:104-120 | `e` with no positive reading glows at 5 and adds 0.625 per frame |
| CubeCharacterSim.LeanTargetX | src/mini_games/Cube_Character_Sim.jsx:131 | pushing forward (`j1y < 0`) leans the mesh to negative x, exactly then, and a centred `j1y` leans it not at all |
| CubeCharacterSim.LeanTargetZ | src/mini_games/Cube_Character_Sim.jsx:132 | pushing right (`j1x > 0`) leans the mesh to negative z, exactly then, and a centred `j1x` leans it not at all |
| CubeCharacterSim.LeanTargetsBounded | src/mini_games/Cube_Character_Sim.jsx:128-132 | with axes in [-1, 1], both lean targets are within [-0.2, 0.2] |
| CubeCharacterSim.LeanStaysBounded | src/mini_games/Cube_Character_Sim.jsx:134-135 | easing by 0.1 towards a target within the maximum lean keeps the lean within it |
| CubeCharacterSim.BounceHeight | src/mini_games/Cube_Character_Sim.jsx:139-140 | the cube never sinks below 0.6, and touches 0.6 exactly when the sine of the phase in use (fast when moving, slow at rest) is 0 |
| CubeCharacterSim.BounceBounded | src/mini_games/Cube_Character_Sim.jsx:139-140 | the cube's height stays in [0.6, 0.9], and at rest in [0.6, 0.65] |
| CubeCharacterSim.EdgeOfDeadzoneMoves | src/mini_games/Cube_Character_Sim.jsx:139 | a frame with j1x = 2248 makes the cube count as moving |
| CubeCharacterSim.CubePlayer.constructor | src/mini_games/Cube_Character_Sim.jsx:155-161 | unrotated, no lean, emissive intensity 1 (the material default) |
| CubeCharacterSim.CubePlayer.Tick | src/mini_games/Cube_Character_Sim.jsx:99-140 | nothing happens unless mounted. Otherwise the glow eases towards the target when the material is mounted, and the yaw decreases by `j2x·3·delta`. The speed is `24·delta + bonus`. Both leans ease towards their targets and stay within 0.2, and the height is the bounce, in [0.6, 0.9] |
| WSConnection.NormalizeUnbound | src/tools/WSConnection.jsx:22-28 | every number throws (the constants are undeclared); `undefined`/`null` give 0, which agrees with the game views' normaliser under any constants |
| WSConnection.WriteAxes | src/tools/WSConnection.jsx:43-46 | the lines run until the first numeric field, which throws; only `null` fields before it are written, as 0; `tof1` and `e` are untouched |
| WSConnection.MergeUnbound | src/tools/WSConnection.jsx:38-54 | every axis stays as it was or becomes 0; `e` is never written; bounds are preserved |
| WSConnection.NumericAxisAbortsFrame | src/tools/WSConnection.jsx:24-47 | a numeric joystick value ends in a ReferenceError, `tof1` is not written, and a numeric j1x leaves the record unchanged |
| WSConnection.NullAxisWritesZero | src/tools/WSConnection.jsx:23-47 | a `null` joystick value writes 0 and the frame goes on to store `tof1` |
| WSConnection.SensorOnlyFrameUnbound | src/tools/WSConnection.jsx:47 | a frame carrying only `tof1` stores it raw and changes nothing else |
| WSConnection.AxesStayZero | src/tools/WSConnection.jsx:30-46 | from the initial record, no sequence of frames makes a joystick value anything but 0 |
| WSConnection.WSConnectionView.constructor | src/tools/WSConnection.jsx:20-30 | status "Initializing..." and the initial record |
| WSConnection.WSConnectionView.OnOpen | src/tools/WSConnection.jsx:36 | status becomes "Connected (Live)" |
| WSConnection.WSConnectionView.OnClose | src/tools/WSConnection.jsx:56 | status becomes "Disconnected" |
| WSConnection.WSConnectionView.WriteLine | src/tools/WSConnection.jsx:43-46 | one joystick line: it throws, writing nothing, exactly when the field holds a number; otherwise it writes as `Line` says |
| WSConnection.WSConnectionView.OnMessage | src/tools/WSConnection.jsx:38-54 | the fields are written in place in source order until a line throws, matching `MergeUnbound`; axes stay bounded |
| Presence.NextMenu | src/tools/Map.jsx:75-77 | without `state` the menu is unchanged; with one it becomes that state, whether or not it differed |
| Presence.Receive | src/App.jsx:135-146 | a frame that fails to parse, or the `null` literal, changes nothing; a parsed frame replaces the whole player record with the frame's fields, absent ones included, and adopts its `state` if present |
| Presence.PlayerFromLastFrame | src/tools/Map.jsx:72 | the player record shown is the one from the last frame that parsed, or the initial record |
| Presence.MenuFromLastState | src/App.jsx:141-143 | the menu is the state of the last frame that carried one, or the initial menu |
| Presence.UnparsedFramesChangeNothing | src/tools/Map.jsx:82-84 | a run of frames that all fail to parse changes neither the player nor the menu |
| MapPage.Palette | src/tools/Map.jsx:116 | a positive tile gets one of the four colours, and `#fff` exactly when it is not 1, 2, 3 or 4 |
| MapPage.RowsLength | src/tools/Map.jsx:110-111 | `height` rows of `width` squares are width·height squares |
| MapPage.RowMajorAt | src/tools/Map.jsx:110-113 | for 0 ≤ x < width and 0 ≤ y < height, square `y·width + x` exists and is tile (x, y) |
| MapPage.DrawGrid | src/tools/Map.jsx:109-125 | the nested loops produce exactly the row-major grid, and nothing without map data |
| MapPage.CanvasSize | src/tools/Map.jsx:186-187 | `max(300, n·20)`: at least 300 and at least n·20, and equal to one of them |
| MapPage.CellsOnCanvas | src/tools/Map.jsx:110-187 | every square drawn lies on the canvas as React sizes it for the same map (see `MapPage.MapView.OnMapLoaded` under Left out for the draw before that resize) |
| MapPage.MissingTileOutlined | src/tools/Map.jsx:113-122 | a tile past the end of the data is only outlined, in grey |
| MapPage.MarkerPlacement | src/tools/Map.jsx:132-144 | a player at (x, y) facing (dx, dy) is drawn at (20x, 20y), radius 8, with a line to (20x + 15dx, 20y + 15dy) |
| MapPage.MissingCoordinateHidesMarker | src/tools/Map.jsx:72-132 | a frame without `x` leaves the marker undrawable |
| MapPage.Render | src/tools/Map.jsx:108-129 | "NO MAP DATA" exactly when width ≤ 0 or the data is empty, and then no squares |
| MapPage.HomeButtonFollowsLastState | src/tools/Map.jsx:24-159 | starting from menu 1, the home button shows exactly when the last `state` received is 0 |
| MapPage.MapView.constructor | src/tools/Map.jsx:22-29 | status "Initializing...", menu 1, player {2, 2, 1, 0}, empty map |
| MapPage.MapView.Draw | src/tools/Map.jsx:94-146 | nothing without a mounted canvas, otherwise the picture of the stored map and player |
| MapPage.MapView.OnMapLoaded | src/tools/Map.jsx:45-51 | stores the map and draws it at once; status, player and menu unchanged |
| MapPage.MapView.OnLoadFailed | src/tools/Map.jsx:53-56 | status becomes "Data load failed."; nothing else changes |
| MapPage.MapView.OnOpen | src/tools/Map.jsx:64 | status becomes "Connected (Live)" |
| MapPage.MapView.OnClose | src/tools/Map.jsx:87 | status becomes "Disconnected" |
| MapPage.MapView.OnMessage | src/tools/Map.jsx:66-85 | player and menu follow `Receive`; a parsed frame redraws if the canvas is mounted; a failed one draws nothing |
| App.Buttons | src/App.jsx:164-207 | the travel button is shown exactly at menu 1, the two game buttons exactly at menu 2, and nothing else |
| App.ButtonsByMenu | src/App.jsx:163-207 | menu 0 and `null` show no button, 1 only travel to world-map, 2 exactly pikachu and cube-character-sim |
| App.TravelExcludesGames | src/App.jsx:164-182 | the travel button and the game buttons are never shown together |
| App.ButtonsFollowLastState | src/App.jsx:107-182 | the buttons depend only on the last `state` received, or show none before any |
| App.RenderNodeApp.constructor | src/App.jsx:104-109 | status "Initializing...", menu 0, player {2, 2, 1, 0} |
| App.RenderNodeApp.OnLoadFailed | src/App.jsx:123-127 | status becomes "Data load failed."; player and menu unchanged |
| App.RenderNodeApp.OnOpen | src/App.jsx:133 | status becomes "Connected (Live)" |
| App.RenderNodeApp.OnClose | src/App.jsx:148 | status becomes "Disconnected" |
| App.RenderNodeApp.OnMessage | src/App.jsx:135-146 | player and menu follow `Receive`; status unchanged |

## Left out

- Scene construction and rendering: GLTF loading, `Sparkles`, lights, post-processing, `OriginMarker`, and the random
  jagged lines of `LightningStatic`. Only the condition under which the lightning is shown is modelled.
- Quaternion rotation of the move vector, the container position, the camera follow and the light placement are
  three.js vector maths. The frame methods return the scalar move speed and the yaw change instead.
- The colour lerp of the Pikachu materials and the intensity lerp of the traversed meshes. Their targets
  (`GlowColour`, `EmissiveTarget`) are modelled.
- The Pikachu jump height: the animation clip's progress, the `sin` arc and the delayed `position.y` write. The
  `setTimeout` that ends the jump is the `JumpEnded` event, with no duration.
- WebSocket construction, the 2000 ms reconnect loop of the mini-games, and teardown. These are I/O and timers. The
  mini-games' teardown calls `close()`, which fires `onclose`, which schedules yet another reconnect.
- The `fetch` calls themselves are network I/O. They appear only as their outcomes: `OnMapLoaded` and `OnLoadFailed`.
  The root page fetches `/` and only logs the result.
- The canvas 2D calls are replaced by per-tile decisions. The clear colour and the fixed marker colours are not
  recorded.
- The render-time `window.location.href` assignments of the buttons are navigation side effects. Only which buttons
  are shown, and where they lead, is modelled.
- The debug view renders `gameData.current`, but the ref never triggers a re-render. That display is not modelled.
- src/components/Cube.jsx, src/components/Experience.jsx and src/main.jsx are not part of this model. They are
  visuals, a static scene and the router table.
- Frame fields that are strings, booleans, objects, NaN or infinities. Numbers are reals, so `"0" == 0` for `menu`,
  NaN from a non-numeric joystick sample, and floating-point rounding are not captured. The same holds for the map
  payload. A payload with a positive width but no `data` array makes `data.length` throw inside the `.then`, after the
  map ref was already replaced. The page then shows "Data load failed.", and every later socket frame's redraw throws
  inside the handler's `try`, so the marker is never drawn again. `MapPage.TileMap` always has a sequence of tiles.
- Joystick.Normalize: computed over reals, so float rounding of the scaled value is not captured.
- MapPage.TileMap: `width` and `height` are integers. A fractional width from the server is not modelled.
- PikachuSim.GrassTick: requires `delta >= 0`, which the render loop's clock provides. The initial random blade
  positions and scales are not generated; `BladeOk` states their range.
- CubeCharacterSim.CubePlayer.Tick: `Math.sin(time · 10)` and `Math.sin(time · 2)` are parameters. The height bound
  holds when they lie in [-1, 1].
- PikachuSim.PikachuPlayer.Tick: the mesh and container objects are a single `mounted` flag. The position is not
  tracked; only the distance moved is returned.
- MapPage.MapView.OnMapLoaded: the model says the grid is drawn as `Render` of the new map, but in the source that
  `draw()` runs inside the `.then`, before React re-renders with the new map. The canvas then still has its previous
  size (300 × 300 at first), so squares past 300 px are lost. The re-render then resizes the canvas, which clears it,
  and nothing shows until a socket frame redraws. Canvas sizing and clearing are not modelled.
- React batching: updates are modelled as applied before the next frame or event. Several socket messages handled
  before one render are not distinguished from separate renders, because no handler reads the state it sets.
