# Alien ship simulator: flight step and terrain regeneration

A model of the per-frame logic of a small browser flight simulator. A ship is flown with
the arrow keys and w/s over a terrain patch whose heights are regenerated every frame from
a noise field, so the patch follows the ship. The model covers these parts of each frame:

- **Key table** (`Keys`). A map from key identifier to "held". The key-down and key-up
  handlers write it. A missing entry reads as not held.
- **Flight step** (`Flight`). Each frame does the following, in order:
  - the eight recognised keys add ±0.2 to `velocity.z` or `velocity.y`, or ±0.02 to the yaw;
  - the whole velocity is multiplied by 0.95;
  - the position gains the damped velocity;
  - pitch is set to `0.2 · velocity.z` and roll to `0.5 · velocity.x`.

  `Run` applies a sequence of frames, one key table per frame.
- **Terrain regeneration** (`Terrain`). The buffer holds 129 × 129 vertices, three numbers
  each. Vertex `j` sits in column `j % 129` and row `⌊j / 129⌋`. Its height slot `3j+2` is set
  to `noise(0.05·x, 0.05·z, 0) · 10`. The point `(x, z)` is the vertex's grid point on the
  100 × 100 square, shifted by the ship's horizontal position. Nothing else in the buffer
  changes.
- **Frame order** (`Frame`). The flight step runs first. The terrain is then sampled around
  the ship's new position. Last, the mesh is moved to that same position.

Modelling choices:

- JavaScript numbers are Dafny `real`s, so the arithmetic is exact. IEEE-754 rounding is not
  modelled, and neither is the single-precision rounding of the vertex buffer.
- The noise generator is a function-typed parameter `(real, real, real) -> real`.
- The in-place writes to the vertex array are modelled as updates to a sequence that
  `Regenerate` returns.
- A write to slot `i+2` when `i+2` is past the end of the buffer is dropped, as a typed
  array drops it.
- The moving mesh sits inside a group placed at height 10. Its own position therefore
  starts at the origin (`Flight.Start`).

The increment is added before damping, so the forward fixed point is `v = 0.95 · (v − 0.2)`,
which is `v = −CruiseSpeed = −3.8` (`Flight.CruiseSpeed`). The value `−0.2 / 0.05 = −4` would hold only if
damping came first. The proofs state both facts:

- `RunForwardConverges` proves the exact geometric approach to −3.8. `RunReverseConverges`,
  `RunClimbConverges` and `RunDescendConverges` prove the same for the other three thrust
  directions, which settle at ±3.8.
- `RunForwardStaysBounded` proves that `[−4, 0]` is preserved.
- `RunSpeedBounded` proves that `[−3.8, 3.8]` is preserved under any input.

## Model

| member | source | states |
|---|---|---|
| `Keys.KeyDown` | src/app/page.tsx:118-120 | After a key-down the key reads as held. Every other key reads as before. |
| `Keys.KeyUp` | src/app/page.tsx:121-123 | After a key-up the key reads as released. Every other key reads as before. The entry stays in the table. |
| `Keys.PressReleaseRestores` | src/app/page.tsx:118-123 | Pressing then releasing a key that was not held leaves every key reading as it did before. |
| `Keys.AbsentReadsAsReleased` | src/app/page.tsx:13 | A missing entry and an entry set to false read the same for every key. |
| `Flight.Decode` | src/app/page.tsx:132-143 | Each axis command is in −1..1. It is zero exactly when both or neither of its opposing keys are held. It is +1 exactly when only ArrowUp (forward), only w/W (climb) or only ArrowLeft (turn) of the pair is held. w/W and s/S each count as one control. |
| `Flight.Thrust` | src/app/page.tsx:132-143 | The sequential key tests change `velocity.z` by −0.2·forward and `velocity.y` by +0.2·climb. They never change `velocity.x`. |
| `Flight.Steer` | src/app/page.tsx:134-137 | The turn tests change the yaw by exactly 0.02 per net turn command. |
| `Flight.Step` | src/app/page.tsx:114-151 | The new velocity is 0.95 × (old velocity + input), per component. The new position is the old position plus the new velocity. Pitch and roll are derived from the new velocity. Yaw moves by 0.02·turn. |
| `Flight.StepSeesOnlyCommand` | src/app/page.tsx:132-151 | Two key tables that decode to the same command give identical frames. |
| `Flight.UnrecognisedKeyIgnored` | src/app/page.tsx:132-143 | Setting a key outside the eight recognised ones, to any value, does not change the frame. |
| `Flight.OnlyRecognisedKeysMatter` | src/app/page.tsx:132-143 | Tables that agree on the eight recognised keys give identical frames. |
| `Flight.ForwardBackCancel` | src/app/page.tsx:132-133 | Holding ArrowUp and ArrowDown together gives the same frame as holding neither. Input leaves `velocity.z` unchanged. |
| `Flight.ClimbDescendCancel` | src/app/page.tsx:140-143 | Holding a w/W key and an s/S key together gives the same frame as holding none of them. Input leaves `velocity.y` unchanged. |
| `Flight.BothClimbKeysCountOnce` | src/app/page.tsx:140-141 | With w held, also holding W changes nothing. |
| `Flight.TurnKeysOnlySteer` | src/app/page.tsx:134-137 | A frame with the arrow turn keys equals the frame without them except for the yaw, which differs by +0.02 (left) or −0.02 (right). |
| `Flight.AttitudeIsCosmetic` | src/app/page.tsx:149-151 | The next frame does not depend on the current pitch and roll. |
| `Flight.Run` | src/app/page.tsx:128-151 | Running no frames leaves the ship unchanged. After one frame or more, pitch and roll match the velocity, whatever they started at. |
| `Flight.RunLastFrame` | src/app/page.tsx:128-151 | The last frame of a run is one more step from the state the earlier frames reached. |
| `Flight.RunCommandsOnly` | src/app/page.tsx:128-151 | Two frame sequences that decode to the same commands frame by frame end in the same state. |
| `Flight.RunLateralDecays` | src/app/page.tsx:146 | After n frames `velocity.x` is 0.95^n of its start value, whatever keys are held. |
| `Flight.RunNeverRolls` | src/app/page.tsx:116-150 | Starting from zero lateral velocity and zero roll, `velocity.x` and roll stay 0 for any key sequence. |
| `Flight.RunIdleDecays` | src/app/page.tsx:146-147 | With no net input for n frames, velocity is 0.95^n times the start velocity and the yaw is unchanged. |
| `Flight.IdleFrame` | src/app/page.tsx:132-146 | A frame with no net input multiplies the velocity by 0.95 and keeps the yaw. |
| `Flight.EmptyTableIsIdle` | src/app/page.tsx:13 | The initial, empty key table decodes to no input. |
| `Flight.DampingDecays` | src/app/page.tsx:146 | 0 < 0.95^n ≤ 1 and 0.95^n · (1 + n/20) ≤ 1, so the velocity left after n idle frames is at most 20/(n+20) of its start value. |
| `Flight.RunSpeedBounded` | src/app/page.tsx:132-146 | Under any inputs, `velocity.z` and `velocity.y` never leave [−3.8, 3.8] once they are inside it. |
| `Flight.RunForwardStaysBounded` | src/app/page.tsx:132-147 | With net forward thrust every frame and `velocity.z` starting in [−4, 0], it stays in [−4, 0] and position z never increases. |
| `Flight.RunForwardConverges` | src/app/page.tsx:132-146 | With net forward thrust every frame, `velocity.z + 3.8` shrinks by exactly 0.95 per frame. |
| `Flight.RunReverseConverges` | src/app/page.tsx:132-146 | With net reverse thrust (ArrowDown) every frame, `velocity.z − 3.8` shrinks by exactly 0.95 per frame. |
| `Flight.RunClimbConverges` | src/app/page.tsx:140-146 | With net climb (w/W) every frame, `velocity.y − 3.8` shrinks by exactly 0.95 per frame. |
| `Flight.RunDescendConverges` | src/app/page.tsx:140-146 | With net descent (s/S) every frame, `velocity.y + 3.8` shrinks by exactly 0.95 per frame. |
| `Flight.RunHeading` | src/app/page.tsx:134-137 | After a run, yaw equals the start yaw plus 0.02 times the sum of the per-frame turn commands. |
| `Flight.StartStaysLevelAndBounded` | src/app/page.tsx:116-151 | From the initial state (zero velocity, zero rotation), for any key sequence, `velocity.x` and roll stay 0 and `velocity.z`, `velocity.y` stay in [−3.8, 3.8]. |
| `Terrain.IndexSplits` | src/app/page.tsx:160-162 | Every flat index below 129·129 has row and column in 0..128 and equals row·129 + column. |
| `Terrain.IndexJoins` | src/app/page.tsx:160-162 | Every (row, column) in 0..128 gives an index below 129·129, and splitting that index returns the same row and column. With `IndexSplits` this is a bijection. |
| `Terrain.SampleX` | src/app/page.tsx:161 | The x sample point minus the ship offset is column·(100/128) − 50, so it lies within ±50 of the ship. |
| `Terrain.SampleZ` | src/app/page.tsx:162 | The z sample point minus the ship offset is row·(100/128) − 50. For every vertex of the grid it lies within ±50 of the ship. |
| `Terrain.RowSpacingConstant` | src/app/page.tsx:160-162 | Neighbours along a row, the last row included, are 100/128 apart in x and level in z, for every offset. |
| `Terrain.ColumnSpacingConstant` | src/app/page.tsx:160-162 | Neighbours along a column, the last column included, are 100/128 apart in z and level in x, for every offset. |
| `Terrain.Height` | src/app/page.tsx:163 | A noise value in [−1, 1] at the scaled point gives a height in [−10, 10]. |
| `Terrain.TerrainScrollsAlongRow` | src/app/page.tsx:160-163 | Moving the patch one spacing (100/128) in +x gives every vertex except the last of its row the height its next neighbour in the row had before the move. |
| `Terrain.TerrainScrollsAlongColumn` | src/app/page.tsx:160-163 | Moving the patch one spacing in +z gives every vertex the height the vertex one row further on had before the move. |
| `Terrain.Regenerate` | src/app/page.tsx:160-164 | Every height slot k (k % 3 = 2) gets `noise(0.05x, 0.05z, 0)·10` at vertex k/3's sample point. Every other slot and the length are unchanged. |
| `Terrain.CentreVertexSamplesOrigin` | src/app/page.tsx:161-163 | With the ship over the origin, the centre vertex (row 64, column 64) has height noise(0, 0, 0)·10. |
| `Frame.Animate` | src/app/page.tsx:146-168 | The frame steps the ship first, then regenerates heights at the new position. The mesh translation becomes (x, 0, z) of that same new position. Non-height slots are unchanged. |
| `Frame.SamplesFollowShip` | src/app/page.tsx:147-162 | From a centred patch, each vertex's sample point moves by exactly the ship's horizontal velocity this frame. |

## Left out

- Scene, camera, renderer, lighting, materials, and ship and ring mesh construction (src/app/page.tsx:19-98). These are declarative library configuration.
- Random placement of the decorative structures (src/app/page.tsx:100-111). It depends on `Math.random` and has no effect on the modelled state.
- The noise generator's internals. They belong to a library outside this model, so noise is a parameter.
- Vertex-normal recomputation, the `needsUpdate` flag and `renderer.render`. These are rendering-library calls.
- `Frame.Animate`: assumes exactly one loop per displayed frame. The cleanup (src/app/page.tsx:190-195) never cancels the animation frame, and line 129 reschedules it every frame. If the effect runs twice, through a remount or a development-mode double run, the old loop keeps stepping the same ship mesh with its own velocity. That case is not modelled.
- Camera follow (src/app/page.tsx:171-175). Its target is built from the ship's world matrix by library matrix code that is not part of this model. Only the interpolation factor, 0.1, is noted here.
- Frame scheduling, listener registration and removal, the resize handler and the page markup (src/app/page.tsx:124-129, 181-207). These are I/O and lifecycle plumbing.
- `types/three-extensions.d.ts`: type declarations only.
- IEEE-754 doubles and single-precision vertex storage: all arithmetic is over `real`.
- `Flight.ForwardBackCancel`: proved over reals. In doubles, `(z − 0.2) + 0.2` can differ from `z` in the last bit, so the cancellation is exact only up to rounding.
- `Flight.ClimbDescendCancel`: proved over reals. In doubles, `(y + 0.2) − 0.2` can differ from `y` in the last bit, so the cancellation is exact only up to rounding.
