# Flight simulator core, modelled in Dafny

This project models the sequential logic of a small Bevy flight simulator.
It leaves out the engine wiring around it. The logic falls into five parts:

- **Per-tick flight forces** (`plane.dfy`, module `Plane`). The aircraft
  entity's components are the fields of class `Plane.Aircraft`. Its airfoil
  children are an array of `AirfoilEntity` records. Each chained system is a
  method that overwrites those fields:
  - the tail and aileron rotations;
  - the airspeed;
  - the thrust force;
  - the per-airfoil lift and drag, added into one force/torque pair
    (`Vectors.Wrench`, the engine's `ExternalForce`).

  Each method is proved equal to a function of the old state. The lemmas
  about those functions state the flight-model properties: drag adds no
  torque, zero dynamic pressure gives zero aerodynamic force, and others.
- **Pilot input** (`input.dfy`, module `Input`):
  - the keyboard's step-and-clamp deflections and held-key thrust;
  - the gamepad's dead-zone rescale and throttle;
  - the reset of all deflections when an axis is released.
- **Infinite-world block bookkeeping** (`world.dfy`, module `World`):
  - the truncating block index of a position;
  - the window of 40 x 40 blocks around the followed entity;
  - class `World.BuildingGenerator`, which keeps the set of handled blocks
    and the block-to-entity map in step with nested scan loops (hits and
    misses), the pruning loop and the final extend.
- **Aircraft design data** (`plane_spec.dfy`, module `PlaneSpecs`):
  - the default `PlaneSpec`;
  - the piecewise-linear lift-coefficient curve, which checks its control
    points, is evaluated between them and is sampled into 180 values.
- **Editable text form of a design** (`spec_models.dfy`, module `SpecModels`):
  - comma join and split of number lists, with fields that fail to parse
    reading as 0.0;
  - the round trips through `WingModel` and `PlaneSpecModel`;
  - the quirk that name and thrust come back as the defaults.

`vectors.dfy` (module `Vectors`) holds the vector arithmetic, the force/torque
pair with `at_point` as `(F, (P - C) x F)`, and a `ForeignMath` record. That
record passes `angle_between` and `normalize` in as uninterpreted functions.
Numbers are `real` (for `f32`). Integer widths are written out where they
matter: `usize` saturation in the lift-table index, and `i32` saturation and
truncating division in the block index.

Facts about the code that the model keeps:

- The lift-table index truncates `deg(aoa) + 90` toward zero and saturates
  negatives to 0. An index past the table's end reads 0.0; nothing is
  rounded or clamped to the last sample.
- There is no lift-coefficient modifier from control deflection and no drag
  table. Drag uses the constant coefficient 0.032.
- Drag adds to the force only; it adds no torque.
- The angle of attack is `angle(up, v) - angle(up, forward)`.
- The keyboard and gamepad handlers read `max_control_angle` from each wing.
  The data in `src/plane/spec.rs` has no such field, so the handlers take a
  `ControlLimits` record.
- The force systems read `PlaneLimits` (`src/plane.rs:43-49`).

## Model

| member | source | states |
|---|---|---|
| Vectors.NormalizeOrZero | src/plane.rs:368 | the zero vector normalises to zero instead of NaN; any other vector to its foreign normalisation |
| Vectors.AtPoint | src/plane.rs:313-317 | a point force decomposes into the same force plus `(P - C) x F`; no torque at the centre or for a zero force |
| Vectors.AtPointLinear | src/plane.rs:360-364 | decomposition is linear: two forces at one point add to the decomposition of their sum, and `F` twice equals `2F` once |
| Plane.LiftAxes | src/plane.rs:104-116 | the vertical tail lifts along X / the body's right vector, every other airfoil along Y / the up vector; at the identity pose the world axis is the local one |
| Plane.AngleOfAttack | src/plane.rs:223-228 | angle of attack plus the up-to-forward angle is the up-to-velocity angle, so it is 0 when the normalised velocity is the forward direction |
| Plane.AirspeedOf | src/plane.rs:289-293 | airspeed is `-linvel.z`, whatever the translation |
| Plane.CastToUsize | src/plane.rs:350 | `as usize` truncates; negatives give 0 and values past `usize::MAX` saturate |
| Plane.LiftCoefficient | src/plane.rs:352-355 | an in-range index reads the table; an index at or past its end reads 0.0 |
| Plane.DragForce | src/plane.rs:368 | zero velocity or zero drag gives a zero drag force |
| Plane.Aircraft.constructor | src/plane.rs:166-187 | the aircraft is spawned with neutral controls, zero thrust, airspeed, flight readout and external force |
| Plane.Aircraft.ClearControl | src/plane.rs:58-61 | ailerons, elevators and rudder all become 0 |
| Plane.Aircraft.UpdateAirfoilRotations | src/plane.rs:230-249 | each child becomes `ControlSurfaceRotated` of itself: horizontal tails rotate about X by the elevators, the vertical tail about Y by the rudder, others unchanged |
| Plane.Aircraft.UpdateAilerons | src/plane.rs:251-272 | each child becomes `AileronRotated` of itself: the left aileron rotates by `-ailerons`, the right by `+ailerons` |
| Plane.Aircraft.UpdateAirspeed | src/plane.rs:289-294 | the airspeed component becomes `AirspeedOf` of the pose and velocity, that is `-linvel.z` |
| Plane.Aircraft.UpdateThrustForces | src/plane.rs:296-319 | the external force is reset and then holds exactly the thrust pair: force `forward * thrust` applied half a fuselage ahead of the origin |
| Plane.Aircraft.UpdateAirfoilForces | src/plane.rs:321-379 | the external force becomes the old one plus every airfoil's wrench in order; each airfoil's angle of attack and lift are written; `flight.drag` is the last airfoil's drag |
| Plane.Aircraft.AirfoilForces | src/plane.rs:341-370 | one loop pass writes the airfoil's angle of attack and lift and adds exactly its wrench and drag |
| Plane.Aircraft.Tick | src/plane.rs:24-35 | the chained systems leave airspeed `-linvel.z`, a force equal to the thrust pair plus the wrenches of the rotated airfoils, each airfoil the measurement of its rotated self, and the last rotated airfoil's drag in the flight record |
| Plane.AirfoilStep | src/plane.rs:360-368 | lift at the airfoil followed by drag on the force alone equals adding that airfoil's wrench |
| Plane.RotationsFollowControl | src/plane.rs:237-267 | rotations are set from the control alone (elevators, rudder, `-ailerons` left, `+ailerons` right), wings are untouched and a second application changes nothing |
| Plane.AirfoilWrenchSplit | src/plane.rs:357-368 | an airfoil contributes its lift pair plus a torque-free drag force |
| Plane.AccumulatedTorque | src/plane.rs:360-368 | drag never adds torque: the summed torque equals that of the lift pairs alone |
| Plane.AccumulatedForce | src/plane.rs:360-370 | the summed force is the lift forces plus one drag force against the velocity, sized by the total drag |
| Plane.TotalDragByArea | src/plane.rs:366-368 | the total drag is `0.032 * q * (sum of areas)` |
| Plane.NoPressureAirfoil | src/plane.rs:338-367 | at zero dynamic pressure an airfoil has zero lift and zero drag, whatever its angle of attack |
| Plane.NoPressureWrench | src/plane.rs:357-368 | at zero dynamic pressure an airfoil adds no force and no torque |
| Plane.NoPressureNoAerodynamics | src/plane.rs:338-370 | at zero dynamic pressure the airfoil loop leaves the force/torque unchanged |
| Plane.ThrustOnAxis | src/plane.rs:311-317 | the thrust force is `forward * thrust`; it has no torque when the centre of gravity is on the thrust line, and zero thrust gives nothing |
| Plane.LiftTableLookup | src/plane.rs:350-355 | index is `deg + 90` truncated, 0 for negative angles, 0.0 past the table end, and a table entry for `0 <= deg + 90 < 180` |
| Plane.LiftScenario | src/plane.rs:338-357 | flying along the nose at 60 m/s with coefficient 0.35 and area 8.25 lifts exactly 6366.9375 |
| Plane.AtRestOnlyThrust | src/plane.rs:289-370 | at zero velocity only the thrust pair remains |
| Input.Clamp | src/input.rs:136 | `f32::clamp`: the result lies in `[lo, hi]`, is `x` inside and the passed bound outside |
| Input.IncClamped | src/input.rs:104-106 | the result lies in `[-max, max]`, is `current + max/5` unless clamped, and is `max` when the step passes it |
| Input.DecClamped | src/input.rs:107-109 | the result lies in `[-max, max]`, is `current - max/5` unless clamped, and is `-max` when the step passes it |
| Input.DecMirrorsInc | src/input.rs:104-109 | a decrement is the mirrored increment |
| Input.DecUndoesInc | src/input.rs:104-109 | inside the travel a press one way is undone by a press the other way |
| Input.IncRepeated | src/input.rs:104-106 | after at least one press the deflection lies within the travel |
| Input.IncFromNeutral | src/input.rs:104-106 | k presses from 0 (k at most 5) give exactly `k * max/5` |
| Input.FullDeflectionAfterFive | src/input.rs:104-106 | five presses from 0 reach `max` and further presses stay there |
| Input.HandleKeyboardInput | src/input.rs:92-137 | without an action state nothing changes; otherwise deflections and thrust become `KeyboardControl` and `KeyboardThrust` of the old values |
| Input.KeyboardKeepsLimits | src/input.rs:104-136 | the keyboard keeps every deflection within its travel and thrust within `[0, spec.thrust]` |
| Input.KeyboardThrustBounded | src/input.rs:129-136 | after keyboard handling thrust lies in `[0, spec.thrust]`, whatever it was |
| Input.KeyDirections | src/input.rs:111-128 | RollLeft/YawLeft decrement ailerons/rudder, RollRight/YawRight increment them, PitchUp increments and PitchDown decrements elevators, nothing else moves |
| Input.HeldKeysDoNotRepeat | src/input.rs:111-128 | keys not just pressed leave the deflections alone |
| Input.OpposingPressesCancel | src/input.rs:111-116 | pressing RollLeft and RollRight together leaves unclamped ailerons unchanged |
| Input.OpposingThrustKeysCancel | src/input.rs:129-136 | with both thrust keys held (or neither) the net change before clamping is 0 |
| Input.ThrustUpRate | src/input.rs:129-130 | holding ThrustUp adds `50 * dt` when no clamp applies |
| Input.Signum | src/input.rs:161 | `f32::signum`: 1 for zero and positive values, -1 for negative |
| Input.ScaledValueOdd | src/input.rs:160-161 | `scaled_value(-v) == -scaled_value(v)` for every non-zero `v` |
| Input.ScaledValueEnds | src/input.rs:160-161 | ±0.2 map to 0 and ±1 map to ±1 |
| Input.ScaledValueRange | src/input.rs:160-161 | outside the dead zone and within full travel the value has the stick's sign and magnitude at most 1 |
| Input.ScaledValueMonotone | src/input.rs:160-161 | on each side of the dead zone the rescale is increasing |
| Input.StickDeflectionBounded | src/input.rs:163-177 | a gamepad deflection `scaled_value(v) * max` lies within `[-max, max]` |
| Input.HandleGamepadInput | src/input.rs:139-178 | without an action state nothing changes; otherwise deflections and thrust become `GamepadControl` and `GamepadThrust` of the old values |
| Input.GamepadKeepsLimits | src/input.rs:152-178 | with calibrated axes the gamepad keeps deflections within their travel and thrust within `[0, spec.thrust]` |
| Input.ThrottleOnlyWhileHeld | src/input.rs:171-174 | thrust changes only while Throttle is held, and then ends in `[0, spec.thrust]` |
| Input.ReleaseResetsFirst | src/input.rs:152-178 | a released axis zeroes every surface whose axis is not held, and a held axis still sets its own surface |
| Input.IdleGamepadKeepsControl | src/input.rs:152-178 | with no axis released or held the deflections are unchanged |
| Input.FullStickFullDeflection | src/input.rs:160-177 | full stick gives ±max deflection and the dead-zone edge gives 0 |
| World.Trunc | src/world.rs:121 | truncation toward zero brackets the value from below (positive) or above (negative) |
| World.CastToI32 | src/world.rs:121 | `as i32` truncates and saturates at both ends of `i32` |
| World.DivTrunc | src/world.rs:121 | `i32` division rounds toward zero |
| World.BlockIndex | src/world.rs:121-122 | the block index lies between the indices of `i32::MIN` and `i32::MAX` |
| World.BlockIndexBrackets | src/world.rs:119-122 | within `i32` range a coordinate lies in its block's 200 m span (mirrored for negatives) |
| World.BlockIndexOdd | src/world.rs:121-122 | the block index is symmetric about the origin |
| World.CentreBlockDoubleWidth | src/world.rs:121-122 | block 0 is exactly the open interval (-200, 200) |
| World.BlockIndexMonotone | src/world.rs:121-122 | a larger coordinate never has a smaller block index |
| World.Relocated | src/world.rs:119-127 | the record keeps its position, takes the recomputed block, and is unchanged if the block was already right |
| World.UpdateBlockPositions | src/world.rs:115-128 | every entity's block follows its position, and a new `BlockPos` is written exactly where it differed |
| World.RelocatedIdempotent | src/world.rs:119-127 | a second update writes nothing |
| World.ScannedMember | src/world.rs:151-161 | a block is found by the scan so far exactly when it is in the window, already visited and has positive noise |
| World.ActiveBlocksExactly | src/world.rs:151-161 | a block is active iff it is in `[px-20, px+20) x [pz-20, pz+20)` and its noise is positive |
| World.WrapI32 | src/world.rs:172 | two's-complement wrap lands in `i32` range and keeps in-range values |
| World.FarEdgeOffsetWraps | src/world.rs:171-172 | a reachable window column's `x * SPACING` wraps to a negative offset |
| World.BlockOffset | src/world.rs:171-172 | the intended offset has the sign of its block |
| World.BlockOffsetFaithful | src/world.rs:171-172 | intended offsets keep block order, and a building's offset lies in its own block |
| World.NewBuilding | src/world.rs:168-172 | a spawned building sits centred on its block with half its height above ground, positive when the noise is |
| World.NextPositions | src/world.rs:190-219 | `(old set minus stale) plus fresh` is the active set |
| World.NextKeys | src/world.rs:174-216 | map keys after scan and prune: fresh blocks added, every stale block removed, and equal to the active set if they began equal to the handled set |
| World.EntitiesOf | src/world.rs:210-214 | every stale block's entity is among the despawned ones |
| World.Without | src/world.rs:210-214 | removing blocks from the map removes exactly those keys and keeps the other entries |
| World.BuildingGenerator.constructor | src/world.rs:133-134 | the local set and map start empty and in step |
| World.BuildingGenerator.Spawn | src/world.rs:168-185 | the block's building is `NewBuilding` for the next entity; the entity counter advances by one and the block maps to that entity |
| World.BuildingGenerator.Visit | src/world.rs:153-186 | one cell: inactive when noise is at most 0, otherwise a hit if handled or a miss that spawns and inserts |
| World.BuildingGenerator.ScanRow | src/world.rs:152-187 | the inner loop adds the row's active blocks and keeps the hit/miss bookkeeping |
| World.BuildingGenerator.ScanWindow | src/world.rs:146-188 | the nested loops find exactly the active blocks, with hits = active and handled, misses = active and new |
| World.BuildingGenerator.Prune | src/world.rs:209-216 | every stale block leaves the set and the map, and its entity is despawned |
| World.BuildingGenerator.Generate | src/world.rs:130-220 | nothing changes unless exactly one followed block changed; otherwise hits+misses = active count, the set becomes the active set, fresh blocks get new entities, stale ones are removed, and map keys stay equal to the set |
| World.PruneOutcome | src/world.rs:174-216 | after scan and prune the map's keys are `NextKeys`, old entries are kept, fresh ones are new, and the despawned entities are the stale blocks' original ones |
| World.HitCount | src/world.rs:163-164 | a known active block adds one hit |
| World.MissCount | src/world.rs:165-166 | a new active block adds one miss |
| World.HitsAndMisses | src/world.rs:146-167 | hits plus misses equal the number of active blocks |
| World.BuildingGenerator.GenerateTwice | src/world.rs:130-220 | two frames following the same block with the same noise: the second finds `hits` equal to the active count, no misses, spawns and despawns nothing, and the tracked set stays the active set |
| PlaneSpecs.New | src/plane/spec.rs:14-19 | `PlaneSpec::new(name)` is the default spec with only the name replaced |
| PlaneSpecs.BuildLinear | src/plane/spec.rs:62-66 | the builder succeeds iff elements and knots have equal length, at least two entries and sorted knots |
| PlaneSpecs.Take | src/plane/spec.rs:70 | sampling yields exactly `n` values |
| PlaneSpecs.LiftCoefficientCurve | src/plane/spec.rs:59-67 | the curve is built, holding the wing's knots and elements, exactly when they are well formed |
| PlaneSpecs.LiftCoefficientSamples | src/plane/spec.rs:69-71 | a well-formed wing yields exactly 180 samples; a malformed one yields the builder's error |
| PlaneSpecs.EvalOnSegment | src/plane/spec.rs:59-67 | on each segment the curve is the interpolation of its two elements |
| PlaneSpecs.EvalAtKnot | src/plane/spec.rs:59-67 | the curve equals `elements[i]` at `knots[i]` |
| PlaneSpecs.EvalBetweenAdjacent | src/plane/spec.rs:59-67 | between adjacent knots the curve lies between the two adjacent elements |
| PlaneSpecs.EvalBounded | src/plane/spec.rs:59-67 | inside the domain the curve stays within the elements' minimum and maximum |
| PlaneSpecs.SamplesBounded | src/plane/spec.rs:69-71 | every sample lies within the elements' range |
| PlaneSpecs.SamplesEndpoints | src/plane/spec.rs:69-71 | the first and last samples are the first and last elements |
| PlaneSpecs.EvalOdd | src/plane/spec.rs:59-67 | symmetric knots with antisymmetric elements give an odd curve |
| PlaneSpecs.DefaultCurvesWellFormed | src/plane/spec.rs:22-50 | default lists have 6/6, 7/7 and 5/5 entries, knots rise strictly from -90 to 90, so building never fails |
| PlaneSpecs.DefaultVerticalTailOdd | src/plane/spec.rs:37-41 | the default vertical-tail curve is odd on [-90, 90] |
| SpecModels.ParseOrDefault | src/ui/spec.rs:27 | a field that fails to parse reads as 0.0, otherwise as the parsed value |
| SpecModels.Split | src/ui/spec.rs:26 | `split(",")` always yields at least one piece |
| SpecModels.StringToVec | src/ui/spec.rs:24-29 | one value per comma-separated field, 0.0 where the field fails to parse |
| SpecModels.WingModelToSpec | src/ui/spec.rs:47-57 | each list has one more value than its string has commas |
| SpecModels.PlaneSpecModelToSpec | src/ui/spec.rs:73-94 | the name and thrust are always the defaults |
| SpecModels.SplitLength | src/ui/spec.rs:24-29 | splitting yields one more piece than there are commas |
| SpecModels.StringToVecLength | src/ui/spec.rs:24-29 | `string_to_vec` returns one more value than its input has commas |
| SpecModels.JoinCommas | src/ui/spec.rs:16-22 | joining n comma-free pieces puts exactly n-1 commas in the result |
| SpecModels.JoinEnds | src/ui/spec.rs:16-22 | the join of non-empty pieces starts with the first piece's first character and ends with the last piece's last character |
| SpecModels.VecToStringCommas | src/ui/spec.rs:16-22 | a non-empty list of n numbers, each printed as a non-empty comma-free field, is written with n-1 commas, none leading or trailing |
| SpecModels.SplitJoin | src/ui/spec.rs:16-29 | splitting the join of non-empty comma-free pieces gives the pieces back |
| SpecModels.VecRoundTrip | src/ui/spec.rs:16-29 | `string_to_vec(vec_to_string(v)) == v` for a non-empty list whose every value prints without a comma and parses back to itself |
| SpecModels.EmptyVecDoesNotRoundTrip | src/ui/spec.rs:16-29 | the empty list is written as "" and reads back as `[0.0]` |
| SpecModels.Vec3RoundTrip | src/ui.rs:189-197 | a vector whose three coordinates parse back from their printed form survives `Vec3Model::new` and parsing back |
| SpecModels.WingRoundTrip | src/ui/spec.rs:39-57 | `WingModel::to_spec(WingModel::new(w)) == w` for non-empty lists, when every number of the wing reads back |
| SpecModels.PlaneSpecRoundTrip | src/ui/spec.rs:61-94 | a spec whose numbers all read back comes back with its geometry and curves intact and the default name and thrust |

## Left out

- Bevy plumbing is not modelled: queries, `Commands`, walking `Children`/`Parent`, plugin registration and change detection. Each system is a method over explicit records. The `Changed<BlockPos>` query is the `followed` argument of `Generate`. The deferred `insert` of `update_block_positions` is modelled as an immediate write.
- Only the order of systems within the `.chain()` at `src/plane.rs:24-35` is modelled, in `Plane.Aircraft.Tick`. The input and world systems are modelled on their own.
- `update_propellor` is not modelled: its propeller spin is cosmetic. Gizmo drawing and `info!` logging are left out too.
- Foreign math is uninterpreted. `angle_between` and `normalize` are fields of `ForeignMath`. A `GlobalTransform` is given as its translation and its forward, up and right vectors. A rotation quaternion is the value `AboutX(angle)` / `AboutY(angle)`.
- `f32` rounding and NaN are not modelled. In particular, `normalize()` of a zero velocity gives NaN in the source; here it gives an arbitrary foreign result.
- Perlin noise is a parameter (`noise: BlockPos -> real`). Entity handles are a counter. Meshes, materials, colliders and `despawn_recursive` are reduced to the returned `Building` records and `despawned` set.
- The order of `HashSet` iteration in the pruning loop is not modelled: `Prune` picks stale blocks in any order.
- PlaneSpecs.Take: enterpolation's exact sampling positions are foreign. They are modelled as `n` equidistant points covering the knot domain with both ends included. The builder's error checks are modelled in the order lengths equal, then at least two elements, then knots sorted.
- `f32::to_string` and `str::parse::<f32>` are parameters (`NumberFormat`). `f32` itself is not modelled, so no format is assumed to print every real faithfully. Instead the round-trip lemmas require it of the numbers they carry (`ReadsBack`, `PrintsAsField`): each prints without "," and parses back to itself, as every finite `f32` does with Rust's shortest round-trip printing.
- The UI, HUD, camera, mesh building in `src/plane/build.rs`, and `src/main.rs` are not part of this model.
- Plane.DynamicPressure: has no contract of its own. Zero airspeed is covered by `Plane.NoPressureAirfoil` and `Plane.AtRestOnlyThrust` at pressure 0.
- Input.ScaledValueOdd: holds only for non-zero `v`. `f32::signum(0.0)` is 1, so `scaled_value(0.0)` is -0.25, while `scaled_value(-0.0)` is 0.25.
- Input.HandleKeyboardInput: requires every limit to be non-negative on every call, which is stronger than the code. `f32::clamp` panics when its lower bound exceeds its upper bound. The angle clamps (`src/input.rs:104-109`) run only when their key is just pressed; only the thrust clamp (`src/input.rs:136`) runs every frame.
- World.NewBuilding: places the building at the intended offset `x * 200` (`BlockOffset`), not the `i32`-wrapping product the code computes; the discrepancy is the row under "## Findings".
- World.BuildingGenerator.Spawn: builds its building with `NewBuilding`, so it too uses the intended offset rather than the `i32`-wrapping one (see "## Findings").
- Input.HandleGamepadInput: requires `maxThrust >= 0` on every call, although the code clamps thrust only while Throttle is held; the keyboard handler, which runs every frame, clamps thrust to `[0, maxThrust]` unconditionally and already needs the same bound.

## Findings

| source | as written | input that shows it | evidently intended | confidence | as-written member | corrected member |
|---|---|---|---|---|---|---|
| src/world.rs:171-172 | a building's offset is `(x * SPACING) as f32`, multiplied in `i32`, which wraps in a release build (and panics in a debug build) | followed block 10737418 (any x coordinate at or past the `i32` limit); window column 10737437 gives `10737437 * 200 > i32::MAX` | the exact product, so a building stays inside its own block | not executed; reachable only far from the origin | World.FarEdgeOffsetWraps | World.BlockOffsetFaithful |
