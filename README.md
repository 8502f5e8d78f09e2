# Space game entity behaviour, modelled in Dafny

This project models the per-archetype entity behaviour of the space game's
`src/entity.c`. It covers two archetypes, the player and the enemy, and the
four routines that act on one entity:

- `entity_create` builds a record and fills in the archetype defaults: size,
  speed, view distance and colour.
- `entity_start` places the entity when it spawns. The player goes to the
  window centre and an enemy to a random position.
- `entity_update` is one fixed-step tick. The player turns the W/A/S/D keys
  into a direction in {-1, 0, 1}². An enemy heads along its target bearing or
  stops. Any other type keeps its previous direction. A non-zero direction is
  normalised. Then the velocity is speed · direction · dt, and the position
  moves by exactly that velocity.
- `entity_set_target` gates targeting by range, inclusive at `view_dist`. In
  range, it stores the target and the bearing `atan2(dx, dy)`, with the
  horizontal offset first. Out of range, it clears `has_target` and zeroes the
  target position, and it leaves the bearing as it was.

How the model is laid out:

- `vecmath.dfy` (module `VecMath`) holds the 2D vector and a `MathLib` record.
  `MathLib` carries the library routines the entity code calls but whose
  bodies are not part of this model: `sinf`, `cosf`, `atan2`,
  `normalize_v2f` and `distance_v2f`. They are passed as arbitrary total
  functions, so every property stated for all inputs holds whatever they
  compute. The one existential statement, `EntityLemmas.UninitialisedEnemyMayMove`,
  holds for every library with sin 0 = 0, cos 0 = 1 and
  normalize((0, 1)) = (0, 1), and every non-zero tick length.
- `entity.dfy` (module `Entities`) holds the record as a value
  (`EntityState`) and the routines as pure functions (`Create`, `Placed`,
  `Step`, `Retarget`). It also holds the class `Entity`. Its methods update
  the fields one statement at a time, following the C code, and each is
  proved equal to its function.
- `entity_lemmas.dfy` (module `EntityLemmas`) holds the properties that span
  several calls. `Run` applies one `entity_update` per tick. That is an
  assumption about the fixed-step loop, whose per-tick `game_update` is not
  part of this model.

The key state is a parameter (`Keys`), not the global `input`. Floating-point
values are `real`.

## Model

| member | source | states |
|---|---|---|
| `Entities.Create` | src/entity.c:10-41 | The type is the argument, and position, velocity and direction are zero for every type. A player gets 20×20, speed 300 and white. An enemy gets 20×20, speed 100, view distance 250 and red. Any other type keeps the prior (uninitialised) contents. The targeting fields are never written. |
| `Entities.CreateCleared` | src/entity.c:12-36 | Corrected creation from a zeroed record. Type as given and zero pos/vel/dir. A player gets 20×20, speed 300, white and view distance 0. An enemy gets 20×20, speed 100, view distance 250 and red. Any other type is the all-zero record. The targeting state starts cleared (`has_target` false, zero target, zero bearing). |
| `Entities.Placed` | src/entity.c:43-59 | Only the position changes. A player goes to (width/2, height/2), an enemy to the spawn position, and every other type is left untouched. |
| `Entities.AxisDirection` | src/entity.c:67-83 | The key truth table for one axis: -1 exactly when the negative key is held and the positive is not, +1 exactly in the mirror case, 0 exactly when both or neither are held. |
| `Entities.Steering` | src/entity.c:63-102 | The direction before normalisation: the key table on each axis for the player; (sin θ, cos θ) of the stored bearing for an enemy with a target, zero without one; the previous direction for every other type. |
| `Entities.Step` | src/entity.c:61-111 | Only position, velocity and direction change. A zero steering direction is not normalised: it stays zero, so velocity is zero and position is unchanged. A non-zero one is replaced by its normalisation. Velocity = speed·dir·dt on each axis, and the position moves by exactly the velocity. |
| `Entities.Retarget` | src/entity.c:113-130 | Only the targeting fields change. `has_target` holds exactly when distance ≤ view distance. In range, the target is stored and the bearing is `atan2(dx, dy)` with dx first. Out of range, the target position is zero and the bearing is kept. |
| `Entities.Entity.constructor` | src/entity.c:40 | Storing a record returned by value gives an entity whose fields are exactly that record. |
| `Entities.Entity.Start` | src/entity.c:43-59 | The in-place start leaves the entity equal to `Placed` of its old value. |
| `Entities.Entity.Update` | src/entity.c:61-111 | The field-by-field update (`dir.x`/`dir.y` overwritten by the key checks in turn, then the normalisation, then `vel.x`, `vel.y` and `pos`) leaves the entity equal to `Step` of its old value. The new position is the old one plus the new velocity. |
| `Entities.Entity.SetTarget` | src/entity.c:113-130 | The in-place targeting leaves the entity equal to `Retarget` of its old value. `has_target` holds exactly when the target is in range. |
| `EntityLemmas.PlayerMotionIsMemoryless` | src/entity.c:65-86 | Two players with the same speed and the same keys get the same direction and velocity, whatever their previous direction. |
| `EntityLemmas.BalancedKeysHoldPlayer` | src/entity.c:79-110 | With each key pair both held or both released, the player's direction and velocity are zero and it does not move. |
| `EntityLemmas.PlayerSteersByKeys` | src/entity.c:67-105 | With an unbalanced key set (some pair not cancelling), the player's direction is `normalize_v2f` of the key-table vector. |
| `EntityLemmas.ZeroNeverNormalised` | src/entity.c:104-105 | When the steering direction is zero, the update does not depend on `normalize_v2f` at all. |
| `EntityLemmas.RunKeepsProfile` | src/entity.c:61-111 | No number of updates changes the type, size, speed, view distance, colour or targeting fields. |
| `EntityLemmas.UntargetedEnemyStaysPut` | src/entity.c:89-110 | An enemy without a target never moves over any number of ticks. After one tick its velocity and direction are zero. |
| `EntityLemmas.BalancedRunHoldsPlayer` | src/entity.c:79-110 | A player whose keys cancel out on every tick never moves. |
| `EntityLemmas.StillOtherTypeStaysPut` | src/entity.c:101-110 | An entity of another type with zero direction keeps a zero direction and never moves. |
| `EntityLemmas.RetargetIdempotent` | src/entity.c:113-130 | Setting the same target twice equals setting it once. |
| `EntityLemmas.LostTargetHalts` | src/entity.c:89-129 | After an out-of-range target, an enemy's next update leaves it in place with zero velocity. |
| `EntityLemmas.AcquiredTargetSteers` | src/entity.c:89-123 | After an in-range target (boundary included), the enemy's next steering is (sin θ, cos θ) for θ = atan2(dx, dy). |
| `EntityLemmas.SpawnedPlayerAtCentre` | src/entity.c:10-50 | A player created by `entity_create` as written, from any prior record contents, and then started, stands at the window centre with zero velocity and direction and speed 300. |
| `EntityLemmas.SpawnedEnemyWaitsForTarget` | src/entity.c:28-110 | A created (zeroed) and started enemy stays at its spawn position over any number of ticks until it is given a target. |
| `EntityLemmas.UninitialisedEnemyMayMove` | src/entity.c:12-36 | As written, for any library with sin 0 = 0, cos 0 = 1 and normalize((0, 1)) = (0, 1) and any non-zero dt, some prior stack content makes a new enemy that was never given a target leave its spawn point on the first update (it moves by (0, 100·dt)). |

## Findings

| source | as written | input that shows it | evidently intended | confidence | as-written member | corrected member |
|---|---|---|---|---|---|---|
| src/entity.c:12-36 | `Entity e;` is never fully initialised. For an enemy, `has_target`, `target_pos` and `target_angle` keep stack garbage. `entity_update` reads `has_target` at line 89. | Stale stack contents with `has_target` true and bearing 0, with sin 0 = 0 and cos 0 = 1. One update with any non-zero dt and no target ever set moves the enemy by (0, 100·dt). | Start from a zeroed record (`Entity e = {0};`), so that a new enemy waits for a target. | medium, not executed | `EntityLemmas.UninitialisedEnemyMayMove` | `Entities.CreateCleared` (used by `EntityLemmas.SpawnedEnemyWaitsForTarget`) |

## Left out

- Entity pool, free list, `EntityRef` validation, timers and the event queue
  (`src/entity.h`, `src/game.h`) are declared without bodies, so no behaviour
  is claimed for them. The `Entity` struct in `src/entity.h` also names fields
  differently from those `src/entity.c` uses. The model follows the record
  that `src/entity.c` reads and writes.
- `PLAYER_ACC` and `PLAYER_FRIC` are declared at `src/entity.h:9-10`, but
  `entity_update` (`src/entity.c:61-111`) uses neither: there is no
  acceleration or friction, and velocity is simply speed · direction · dt.
  The model follows `entity_update`. Likewise, the enemy update does not re-check range
  while a target is set. Only `entity_set_target` gates on range.
- `random_position` has no body here, so the spawn position is an arbitrary
  parameter. No claim is made that it lies inside the window.
- `WINDOW_WIDTH`, `WINDOW_HEIGHT`, `COLOR_WHITE` and `COLOR_RED` are defined
  in a header that is not part of this model. The window size is a
  parameter, and the colours are named constructors.
- `sinf`, `cosf`, `atan2`, `normalize_v2f` and `distance_v2f` are arbitrary
  functions. Their precision, and the claim that a normalised vector has
  unit length, are not modelled.
- IEEE single and double precision: rounding, NaN and signed zero are not
  modelled. The mix of `f32` fields with the `f64` `dt` is not modelled
  either. All arithmetic is exact over `real`.
- `Entities.Entity.Update` takes the elapsed time `t` and ignores it, as the
  source does.
- SDL window, event pump and the wall-clock accumulator loop
  (`src/main.c`), and OpenGL rendering (`src/gfx/gl_render.c`), are I/O.
  `EntityLemmas.Run` stands for the loop only as "one update per tick".
