/** Properties of the entity routines across several calls: what a run of
    fixed-step updates keeps, when an entity holds still, and how targeting
    feeds the next update. */
module EntityLemmas {
  import opened VecMath
  import opened Entities

  /** The fixed-step loop: one `entity_update` per tick, with that tick's keys. */
  function Run(e: EntityState, ticks: seq<Keys>, dt: real, m: MathLib): (r: EntityState)
    decreases |ticks|
  {
    if ticks == [] then e else Run(Step(e, ticks[0], dt, m), ticks[1..], dt, m)
  }

  /** Keys that cancel out on both axes (each pair both held or both released). */
  predicate Balanced(k: Keys)
  {
    k.a == k.d && k.w == k.s
  }

  // ---------------------------------------------------------------------------
  // One update

  /** A player's new direction, velocity and displacement depend only on the
      keys of this tick, never on the direction it had before. */
  lemma PlayerMotionIsMemoryless(e: EntityState, f: EntityState, keys: Keys, dt: real, m: MathLib)
    requires e.kind == Player && f.kind == Player && e.speed == f.speed
    ensures Step(e, keys, dt, m).dir == Step(f, keys, dt, m).dir
    ensures Step(e, keys, dt, m).vel == Step(f, keys, dt, m).vel
  {
  }

  /** Keys that cancel out leave the player where it is, at rest. */
  lemma BalancedKeysHoldPlayer(e: EntityState, keys: Keys, dt: real, m: MathLib)
    requires e.kind == Player && Balanced(keys)
    ensures Step(e, keys, dt, m).pos == e.pos
    ensures Step(e, keys, dt, m).vel == Zero && Step(e, keys, dt, m).dir == Zero
  {
  }

  /** With an unbalanced key set, the player's direction is `normalize_v2f`
      of the key-table vector. */
  lemma PlayerSteersByKeys(e: EntityState, keys: Keys, dt: real, m: MathLib)
    requires e.kind == Player && !Balanced(keys)
    ensures Step(e, keys, dt, m).dir
      == m.normalize(Vec2(AxisDirection(keys.a, keys.d), AxisDirection(keys.w, keys.s)))
  {
  }

  /** The zero direction is never handed to `normalize_v2f`: whatever that
      routine does, an update whose steering is zero comes out the same. */
  lemma ZeroNeverNormalised(e: EntityState, keys: Keys, dt: real, m: MathLib, other: Vec2 -> Vec2)
    requires Steering(e, keys, m) == Zero
    ensures Step(e, keys, dt, m) == Step(e, keys, dt, m.(normalize := other))
  {
  }

  // ---------------------------------------------------------------------------
  // Runs of updates

  /** No number of updates changes anything but position, velocity and
      direction: archetype, size, speed, colour and targeting survive. */
  lemma {:induction false} RunKeepsProfile(e: EntityState, ticks: seq<Keys>, dt: real, m: MathLib)
    ensures SameProfile(Run(e, ticks, dt, m), e)
    decreases |ticks|
  {
    if ticks != [] {
      RunKeepsProfile(Step(e, ticks[0], dt, m), ticks[1..], dt, m);
    }
  }

  /** An enemy without a target never moves, however many ticks pass, and
      after at least one tick it is at rest with zero direction. */
  lemma {:induction false} UntargetedEnemyStaysPut(e: EntityState, ticks: seq<Keys>, dt: real, m: MathLib)
    requires e.kind == Enemy && !e.hasTarget
    ensures Run(e, ticks, dt, m).pos == e.pos
    ensures ticks != [] ==> Run(e, ticks, dt, m).vel == Zero && Run(e, ticks, dt, m).dir == Zero
    decreases |ticks|
  {
    if ticks != [] {
      var e' := Step(e, ticks[0], dt, m);
      UntargetedEnemyStaysPut(e', ticks[1..], dt, m);
    }
  }

  /** A player whose keys cancel out on every tick never moves. */
  lemma {:induction false} BalancedRunHoldsPlayer(e: EntityState, ticks: seq<Keys>, dt: real, m: MathLib)
    requires e.kind == Player
    requires forall i :: 0 <= i < |ticks| ==> Balanced(ticks[i])
    ensures Run(e, ticks, dt, m).pos == e.pos
    decreases |ticks|
  {
    if ticks != [] {
      BalancedKeysHoldPlayer(e, ticks[0], dt, m);
      BalancedRunHoldsPlayer(Step(e, ticks[0], dt, m), ticks[1..], dt, m);
    }
  }

  /** An entity of any other archetype keeps re-normalising its own direction;
      if that direction is zero it never moves. */
  lemma {:induction false} StillOtherTypeStaysPut(e: EntityState, ticks: seq<Keys>, dt: real, m: MathLib)
    requires e.kind.OtherType? && e.dir == Zero
    ensures Run(e, ticks, dt, m).pos == e.pos && Run(e, ticks, dt, m).dir == Zero
    decreases |ticks|
  {
    if ticks != [] {
      StillOtherTypeStaysPut(Step(e, ticks[0], dt, m), ticks[1..], dt, m);
    }
  }

  // ---------------------------------------------------------------------------
  // Targeting

  /** Setting the same target twice is the same as setting it once. */
  lemma RetargetIdempotent(e: EntityState, target: Vec2, m: MathLib)
    ensures Retarget(Retarget(e, target, m), target, m) == Retarget(e, target, m)
  {
  }

  /** A target out of range clears `has_target`, so the enemy stops dead on
      the next update. */
  lemma LostTargetHalts(e: EntityState, target: Vec2, keys: Keys, dt: real, m: MathLib)
    requires e.kind == Enemy && m.distance(e.pos, target) > e.viewDist
    ensures Step(Retarget(e, target, m), keys, dt, m).pos == e.pos
    ensures Step(Retarget(e, target, m), keys, dt, m).vel == Zero
  {
  }

  /** A target in range (the boundary included) turns the enemy, on the next
      update, along (sin θ, cos θ) for θ = atan2(dx, dy). */
  lemma AcquiredTargetSteers(e: EntityState, target: Vec2, keys: Keys, dt: real, m: MathLib)
    requires e.kind == Enemy && m.distance(e.pos, target) <= e.viewDist
    ensures var theta := m.atan2(target.x - e.pos.x, target.y - e.pos.y);
      Steering(Retarget(e, target, m), keys, m) == Vec2(m.sin(theta), m.cos(theta))
  {
  }

  // ---------------------------------------------------------------------------
  // Spawning

  /** A freshly created and started player stands still at the window centre
      with the player defaults, whatever the record held before creation. */
  lemma SpawnedPlayerAtCentre(prior: EntityState, window: Window, spawn: Vec2)
    ensures var p := Placed(Create(Player, prior), window, spawn);
      p.pos == Vec2(window.width / 2.0, window.height / 2.0)
      && p.vel == Zero && p.dir == Zero && p.speed == PlayerSpeed
  {
  }

  /** With the record zero-initialised, a freshly spawned enemy waits where it
      was placed until `entity_set_target` gives it a target. */
  lemma SpawnedEnemyWaitsForTarget(window: Window, spawn: Vec2, ticks: seq<Keys>, dt: real, m: MathLib)
    ensures Run(Placed(CreateCleared(Enemy), window, spawn), ticks, dt, m).pos == spawn
  {
    UntargetedEnemyStaysPut(Placed(CreateCleared(Enemy), window, spawn), ticks, dt, m);
  }

  /** As written, `entity_create` leaves `has_target` indeterminate: for any
      library with sin 0 = 0, cos 0 = 1 and normalize((0, 1)) = (0, 1), and any
      non-zero tick, there is a prior record content for which a new enemy,
      never given a target, walks off its spawn point on the first update. */
  lemma UninitialisedEnemyMayMove(window: Window, spawn: Vec2, dt: real, m: MathLib)
    requires m.sin(0.0) == 0.0 && m.cos(0.0) == 1.0 && m.normalize(Vec2(0.0, 1.0)) == Vec2(0.0, 1.0)
    requires dt != 0.0
    ensures exists prior: EntityState ::
      Step(Placed(Create(Enemy, prior), window, spawn), Keys(false, false, false, false), dt, m).pos
        != spawn
  {
    var prior := Blank(Enemy).(hasTarget := true);
    var e := Placed(Create(Enemy, prior), window, spawn);
    assert Steering(e, Keys(false, false, false, false), m) == Vec2(0.0, 1.0);
    assert Step(e, Keys(false, false, false, false), dt, m).pos.y == spawn.y + EnemySpeed * dt;
  }
}
