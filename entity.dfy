/** Per-archetype entity behaviour of the game: construction defaults, spawn
    placement, the fixed-step movement update and range-gated targeting.

    The record is the one the entity routines read and write. Floating-point
    values are reals; the library routines they call arrive in a `MathLib`. */
module Entities {
  import opened VecMath

  /** `EntityType`: the two archetypes with behaviour of their own, and every
      other tag, which falls through to the `default` branches. */
  datatype EntityType = Player | Enemy | OtherType(tag: nat)

  /** Draw colour. `COLOR_WHITE` and `COLOR_RED` are named, not spelled out. */
  datatype Color = White | Red | Rgba(r: real, g: real, b: real, a: real)

  /** The four movement keys, sampled for one tick. */
  datatype Keys = Keys(w: bool, a: bool, s: bool, d: bool)

  /** The playfield extent (`WINDOW_WIDTH`, `WINDOW_HEIGHT`). */
  datatype Window = Window(width: real, height: real)

  /** One entity record, as far as the entity routines touch it. */
  datatype EntityState = EntityState(
    kind: EntityType,
    pos: Vec2,
    vel: Vec2,
    dir: Vec2,
    width: real,
    height: real,
    speed: real,
    viewDist: real,
    color: Color,
    hasTarget: bool,
    targetPos: Vec2,
    targetAngle: real)

  const PlayerSize: real := 20.0
  const PlayerSpeed: real := 300.0
  const EnemySize: real := 20.0
  const EnemySpeed: real := 100.0
  const EnemyViewDist: real := 250.0

  /** The entity with every field zero: what `= {0}` gives a C record. */
  function Blank(kind: EntityType): (e: EntityState)
  {
    EntityState(kind, Zero, Zero, Zero, 0.0, 0.0, 0.0, 0.0, Rgba(0.0, 0.0, 0.0, 0.0), false, Zero, 0.0)
  }

  /** Everything but position, velocity and direction: the part of the
      record that movement never changes. */
  predicate SameProfile(e: EntityState, f: EntityState)
  {
    e == f.(pos := e.pos, vel := e.vel, dir := e.dir)
  }

  // ---------------------------------------------------------------------------
  // entity_create

  /** `entity_create`. The C record is an uninitialised local, so every field
      the routine does not write keeps whatever `prior` holds. */
  function Create(kind: EntityType, prior: EntityState): (e: EntityState)
    ensures e.kind == kind && e.pos == Zero && e.vel == Zero && e.dir == Zero
    ensures kind == Player ==>
      e.width == PlayerSize && e.height == PlayerSize && e.speed == PlayerSpeed
      && e.color == White && e.viewDist == prior.viewDist
    ensures kind == Enemy ==>
      e.width == EnemySize && e.height == EnemySize && e.speed == EnemySpeed
      && e.viewDist == EnemyViewDist && e.color == Red
    ensures kind.OtherType? ==> e == prior.(kind := kind, pos := Zero, vel := Zero, dir := Zero)
    ensures e.hasTarget == prior.hasTarget && e.targetPos == prior.targetPos
      && e.targetAngle == prior.targetAngle
  {
    var base := prior.(kind := kind, pos := Zero, vel := Zero, dir := Zero);
    match kind
    case Player =>
      base.(width := PlayerSize, height := PlayerSize, speed := PlayerSpeed, color := White)
    case Enemy =>
      base.(width := EnemySize, height := EnemySize, speed := EnemySpeed,
            viewDist := EnemyViewDist, color := Red)
    case OtherType(_) => base
  }

  /** `entity_create` on a zero-initialised record: the targeting state of a
      new entity starts cleared rather than indeterminate. */
  function CreateCleared(kind: EntityType): (e: EntityState)
    ensures e.kind == kind && e.pos == Zero && e.vel == Zero && e.dir == Zero
    ensures !e.hasTarget && e.targetPos == Zero && e.targetAngle == 0.0
    ensures kind == Player ==>
      e.width == PlayerSize && e.height == PlayerSize && e.speed == PlayerSpeed
      && e.color == White && e.viewDist == 0.0
    ensures kind == Enemy ==>
      e.width == EnemySize && e.height == EnemySize && e.speed == EnemySpeed
      && e.viewDist == EnemyViewDist && e.color == Red
    ensures kind.OtherType? ==> e == Blank(kind)
  {
    Create(kind, Blank(kind))
  }

  // ---------------------------------------------------------------------------
  // entity_start

  /** `entity_start`. `spawn` stands for the result of `random_position`. */
  function Placed(e: EntityState, window: Window, spawn: Vec2): (r: EntityState)
    ensures SameProfile(r, e) && r.vel == e.vel && r.dir == e.dir
    ensures e.kind == Player ==> r.pos == Vec2(window.width / 2.0, window.height / 2.0)
    ensures e.kind == Enemy ==> r.pos == spawn
    ensures e.kind.OtherType? ==> r == e
  {
    match e.kind
    case Player => e.(pos := Vec2(window.width / 2.0, window.height / 2.0))
    case Enemy => e.(pos := spawn)
    case OtherType(_) => e
  }

  // ---------------------------------------------------------------------------
  // entity_update

  /** One axis of the player's key direction: `negative` pulls to -1,
      `positive` to +1, both or neither leave 0. */
  function AxisDirection(negative: bool, positive: bool): (d: real)
    ensures d == -1.0 <==> negative && !positive
    ensures d == 1.0 <==> positive && !negative
    ensures d == 0.0 <==> negative == positive
  {
    if negative == positive then 0.0 else if negative then -1.0 else 1.0
  }

  /** The direction the archetype switch of `entity_update` leaves, before
      normalisation: keys for the player, the target bearing (or nothing) for
      an enemy, and the previous direction for every other type. */
  function Steering(e: EntityState, keys: Keys, m: MathLib): (h: Vec2)
    ensures e.kind == Player ==>
      h == Vec2(AxisDirection(keys.a, keys.d), AxisDirection(keys.w, keys.s))
    ensures e.kind == Enemy ==>
      h == (if e.hasTarget then Vec2(m.sin(e.targetAngle), m.cos(e.targetAngle)) else Zero)
    ensures e.kind.OtherType? ==> h == e.dir
  {
    match e.kind
    case Player => Vec2(AxisDirection(keys.a, keys.d), AxisDirection(keys.w, keys.s))
    case Enemy =>
      if e.hasTarget then Vec2(m.sin(e.targetAngle), m.cos(e.targetAngle)) else Zero
    case OtherType(_) => e.dir
  }

  /** `entity_update`: one fixed step of length `dt`. */
  function Step(e: EntityState, keys: Keys, dt: real, m: MathLib): (r: EntityState)
    ensures SameProfile(r, e)
    ensures Steering(e, keys, m) == Zero ==> r.dir == Zero && r.vel == Zero && r.pos == e.pos
    ensures Steering(e, keys, m) != Zero ==> r.dir == m.normalize(Steering(e, keys, m))
    ensures r.vel.x == e.speed * r.dir.x * dt && r.vel.y == e.speed * r.dir.y * dt
    ensures r.pos.x - e.pos.x == r.vel.x && r.pos.y - e.pos.y == r.vel.y
  {
    var heading := Steering(e, keys, m);
    var dir := if heading != Zero then m.normalize(heading) else heading;
    var vel := Vec2(e.speed * dir.x * dt, e.speed * dir.y * dt);
    e.(dir := dir, vel := vel, pos := Add(e.pos, vel))
  }

  // ---------------------------------------------------------------------------
  // entity_set_target

  /** `entity_set_target`: range-gated, inclusive at `viewDist`. The bearing
      is `atan2(dx, dy)`, horizontal offset first. */
  function Retarget(e: EntityState, target: Vec2, m: MathLib): (r: EntityState)
    ensures r == e.(hasTarget := r.hasTarget, targetPos := r.targetPos, targetAngle := r.targetAngle)
    ensures r.hasTarget <==> m.distance(e.pos, target) <= e.viewDist
    ensures r.hasTarget ==>
      r.targetPos == target && r.targetAngle == m.atan2(target.x - e.pos.x, target.y - e.pos.y)
    ensures !r.hasTarget ==> r.targetPos == Zero && r.targetAngle == e.targetAngle
  {
    if m.distance(e.pos, target) <= e.viewDist then
      e.(hasTarget := true, targetPos := target,
         targetAngle := m.atan2(target.x - e.pos.x, target.y - e.pos.y))
    else
      e.(hasTarget := false, targetPos := Zero)
  }

  // ---------------------------------------------------------------------------
  // The entity in memory

  /** An entity record that the routines update in place, field by field. */
  class Entity {
    var kind: EntityType
    var pos: Vec2
    var vel: Vec2
    var dir: Vec2
    var width: real
    var height: real
    var speed: real
    var viewDist: real
    var color: Color
    var hasTarget: bool
    var targetPos: Vec2
    var targetAngle: real

    function Value(): (v: EntityState)
      reads this
    {
      EntityState(kind, pos, vel, dir, width, height, speed, viewDist, color,
                  hasTarget, targetPos, targetAngle)
    }

    /** Stores a record built by value (as `entity_create` returns it). */
    constructor (v: EntityState)
      ensures Value() == v
    {
      kind, pos, vel, dir := v.kind, v.pos, v.vel, v.dir;
      width, height, speed, viewDist, color := v.width, v.height, v.speed, v.viewDist, v.color;
      hasTarget, targetPos, targetAngle := v.hasTarget, v.targetPos, v.targetAngle;
    }

    /** `entity_start`. */
    method Start(window: Window, spawn: Vec2)
      modifies this
      ensures Value() == Placed(old(Value()), window, spawn)
      ensures kind == Player ==> pos == Vec2(window.width / 2.0, window.height / 2.0)
    {
      match kind {
        case Player =>
          pos := Vec2(window.width / 2.0, window.height / 2.0);
        case Enemy =>
          pos := spawn;
        case OtherType(_) =>
      }
    }

    /** `entity_update`. The elapsed time `t` is unused, as in the source. */
    method Update(keys: Keys, t: real, dt: real, m: MathLib)
      modifies this
      ensures Value() == Step(old(Value()), keys, dt, m)
      ensures pos == Add(old(pos), vel)
    {
      match kind {
        case Player =>
          if keys.a { dir := dir.(x := -1.0); }
          if keys.d { dir := dir.(x := 1.0); }
          if keys.w { dir := dir.(y := -1.0); }
          if keys.s { dir := dir.(y := 1.0); }
          if (!keys.a && !keys.d) || (keys.a && keys.d) { dir := dir.(x := 0.0); }
          if (!keys.w && !keys.s) || (keys.w && keys.s) { dir := dir.(y := 0.0); }
        case Enemy =>
          if hasTarget {
            dir := dir.(x := m.sin(targetAngle));
            dir := dir.(y := m.cos(targetAngle));
          } else {
            dir := Zero;
          }
        case OtherType(_) =>
      }

      if dir.x != 0.0 || dir.y != 0.0 {
        dir := m.normalize(dir);
      }

      vel := vel.(x := speed * dir.x * dt);
      vel := vel.(y := speed * dir.y * dt);

      pos := Add(pos, vel);
    }

    /** `entity_set_target`. */
    method SetTarget(target: Vec2, m: MathLib)
      modifies this
      ensures Value() == Retarget(old(Value()), target, m)
      ensures hasTarget <==> m.distance(pos, target) <= viewDist
    {
      if m.distance(pos, target) <= viewDist {
        hasTarget := true;
        targetPos := target;
        var dx := targetPos.x - pos.x;
        var dy := targetPos.y - pos.y;
        targetAngle := m.atan2(dx, dy);
      } else {
        hasTarget := false;
        targetPos := Zero;
      }
    }
  }
}
