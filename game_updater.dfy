/**
 * The game engine: one physics tick moves every object, fires the ship's weapon, applies the
 * collision rules of the game mode, removes what was destroyed (spawning successors and scoring),
 * and now and then adds a random asteroid. Each phase is a function on `GameState`; the updater's
 * methods compute it step by step on the game's collections.
 */
module GameUpdaters {
  import opened Wrappers
  import opened Modes
  import opened GameObjects
  import opened Bullets
  import opened AsteroidSizes
  import opened Asteroids
  import opened Spaceships
  import opened Sequences
  import opened Games

  /** The asteroid limit a game starts with. */
  const AsteroidsLimitDefault: int := 7
  /** A random asteroid may spawn once every this many ticks. */
  const SpawnInterval: int := 200
  /** New asteroids spawn at least 50 away from the ship, so at squared distance at least 2500. */
  const MinimumSquaredSpawnDistance: real := 2500.0
  /** Health a ship loses to one bullet in a deathmatch. */
  const BulletDamage: int := 10
  /** Health the player's ship loses to one colliding remote ship in a deathmatch. */
  const RammingDamage: int := 50
  /** One asteroid-limit increase per this many points. */
  const PointsPerLimitIncrease: int := 5

  // Phase 1: movement.

  /** Every asteroid and bullet and the player's ship make one step; remote ships do not move. */
  function Moved(w: GameState, thrust: int -> Vec): GameState
  {
    GameState(
      Spaceships.Step(w.ship, thrust),
      seq(|w.bullets|, k requires 0 <= k < |w.bullets| => Bullets.Step(w.bullets[k])),
      seq(|w.asteroids|, k requires 0 <= k < |w.asteroids| => Asteroids.Step(w.asteroids[k])),
      w.spaceships)
  }

  /**
   * Movement keeps every collection's length, each object's identity and each asteroid's size and
   * destroyed flag, and leaves remote ships alone; a bullet is destroyed after the move exactly
   * when it already was or it had at most one step left to live.
   */
  lemma MovementKeepsCollections(w: GameState, thrust: int -> Vec)
    ensures var r := Moved(w, thrust);
      && |r.bullets| == |w.bullets| && |r.asteroids| == |w.asteroids| && r.spaceships == w.spaceships
      && (forall k :: 0 <= k < |w.asteroids| ==>
            && r.asteroids[k].size == w.asteroids[k].size
            && r.asteroids[k].obj.multiplayerId == w.asteroids[k].obj.multiplayerId
            && r.asteroids[k].obj.destroyed == w.asteroids[k].obj.destroyed)
      && (forall k :: 0 <= k < |w.bullets| ==>
            && r.bullets[k].obj.multiplayerId == w.bullets[k].obj.multiplayerId
            && (r.bullets[k].obj.destroyed <==> w.bullets[k].obj.destroyed || w.bullets[k].stepsLeft <= 1))
      && r.ship.obj.multiplayerId == w.ship.obj.multiplayerId && r.ship.score == w.ship.score
  {
  }

  // Phase 2: firing.

  /**
   * When the ship may fire, one bullet appears at the ship's location with the ship's velocity
   * plus the muzzle velocity (`muzzle(direction)` stands for sin and cos of the heading times
   * 15, added on x and subtracted on y), and the weapon is marked fired; otherwise nothing happens.
   */
  function Fired(w: GameState, muzzle: int -> Vec, bulletId: int): GameState
    requires 0 <= bulletId < IdBound
  {
    if CanFireWeapon(w.ship) then
      var m := muzzle(w.ship.direction);
      var v := w.ship.obj.velocity;
      var b := NewBullet(w.ship.obj.location, Vec(v.x + m.x, v.y - m.y), bulletId);
      w.(bullets := w.bullets + [b], ship := SetFired(w.ship))
    else
      w
  }

  /**
   * Firing, when the ship may fire, appends exactly one new bullet at the ship with the ship's
   * velocity plus the muzzle velocity and marks the weapon fired (cooldown and energy cost); when
   * it may not, the state is unchanged. Either way the ship keeps its resource bounds.
   */
  lemma FiringAddsOneBullet(w: GameState, muzzle: int -> Vec, bulletId: int)
    requires 0 <= bulletId < IdBound
    ensures var r := Fired(w, muzzle, bulletId);
      && |r.bullets| == |w.bullets| + (if CanFireWeapon(w.ship) then 1 else 0)
      && r.bullets[..|w.bullets|] == w.bullets
      && (CanFireWeapon(w.ship) ==>
            (&& r.bullets[|w.bullets|].obj.location == w.ship.obj.location
             && r.bullets[|w.bullets|].stepsLeft == DefaultBulletStepLifetime
             && r.ship.weaponCooldownRemaining == WeaponCooldownTicks
             && r.ship == SetFired(w.ship)
             && r.bullets[|w.bullets|] == NewBullet(w.ship.obj.location,
                  Vec(w.ship.obj.velocity.x + muzzle(w.ship.direction).x, w.ship.obj.velocity.y - muzzle(w.ship.direction).y),
                  bulletId)))
      && (!CanFireWeapon(w.ship) ==> r == w)
      && (Spaceships.Valid(w.ship) ==> Spaceships.Valid(r.ship))
      && r.asteroids == w.asteroids && r.spaceships == w.spaceships
  {
  }

  // Phase 3: collisions.

  /** Whether any of the first `n` bullets collides with `o` (asking `o` first). */
  predicate HitByBullet(o: GameObject, bs: seq<Bullet>, n: int)
    requires 0 <= n <= |bs|
  {
    exists k :: 0 <= k < n && Collides(o, bs[k].obj)
  }

  /** Whether any of the first `n` asteroids collides with `o` (asking the asteroid). */
  predicate HitByAsteroid(o: GameObject, rocks: seq<Asteroid>, n: int)
    requires 0 <= n <= |rocks|
  {
    exists k :: 0 <= k < n && Collides(rocks[k].obj, o)
  }

  /** How many of the first `n` bullets collide with `o`. */
  function BulletHits(o: GameObject, bs: seq<Bullet>, n: int): (c: nat)
    requires 0 <= n <= |bs|
    ensures c <= n
    ensures c == 0 <==> !HitByBullet(o, bs, n)
    decreases n
  {
    if n == 0 then 0 else BulletHits(o, bs, n - 1) + (if Collides(o, bs[n - 1].obj) then 1 else 0)
  }

  /** How many of the first `n` remote ships collide with `o` (asking the remote ship). */
  function ShipHits(o: GameObject, ss: seq<Ship>, n: int): (c: nat)
    requires 0 <= n <= |ss|
    ensures c <= n
    ensures c == 0 <==> forall k :: 0 <= k < n ==> !Collides(ss[k].obj, o)
    decreases n
  {
    if n == 0 then 0 else ShipHits(o, ss, n - 1) + (if Collides(ss[n - 1].obj, o) then 1 else 0)
  }

  /** Marks an asteroid destroyed when `hit`; a destroyed asteroid stays destroyed. */
  function MarkAsteroid(a: Asteroid, hit: bool): Asteroid
  {
    a.(obj := a.obj.(destroyed := a.obj.destroyed || hit))
  }

  /** Marks a bullet destroyed when `hit`; a destroyed bullet stays destroyed. */
  function MarkBullet(b: Bullet, hit: bool): Bullet
  {
    b.(obj := b.obj.(destroyed := b.obj.destroyed || hit))
  }

  /**
   * Bullet `k` after the checks: outside a deathmatch an asteroid that it hits destroys it, and
   * outside COOP so does the player's ship.
   */
  function BulletAfterCollisions(w: GameState, mode: GameMode, k: int): Bullet
    requires 0 <= k < |w.bullets|
  {
    var b := w.bullets[k];
    MarkBullet(b, (mode != Deathmatch && HitByAsteroid(b.obj, w.asteroids, |w.asteroids|)) ||
                  (mode != COOP && Collides(w.ship.obj, b.obj)))
  }

  /**
   * Asteroid `j` after the checks: outside a deathmatch a bullet that hits it destroys it, and in
   * every mode so does the player's ship.
   */
  function AsteroidAfterCollisions(w: GameState, mode: GameMode, j: int): Asteroid
    requires 0 <= j < |w.asteroids|
  {
    var a := w.asteroids[j];
    MarkAsteroid(a, (mode != Deathmatch && HitByBullet(a.obj, w.bullets, |w.bullets|)) ||
                    Collides(a.obj, w.ship.obj))
  }

  /**
   * The player's ship after the first `n` bullets have been checked against it: outside COOP,
   * in a deathmatch each hit costs 10 health and destroys the ship once no health is left, and in
   * other modes a hit destroys it.
   */
  function ShipAfterBullets(w: GameState, mode: GameMode, n: int): Ship
    requires 0 <= n <= |w.bullets|
  {
    var s := w.ship;
    var hits := BulletHits(s.obj, w.bullets, n);
    if mode == COOP then s
    else if mode == Deathmatch then
      s.(health := s.health - BulletDamage * hits,
         obj := s.obj.(destroyed := s.obj.destroyed || (hits > 0 && s.health - BulletDamage * hits <= 0)))
    else
      s.(obj := s.obj.(destroyed := s.obj.destroyed || hits > 0))
  }

  /**
   * The player's ship after the collision checks. Bullets count against it outside COOP. In a
   * deathmatch each bullet costs 10 health and each colliding remote ship 50, and the ship is
   * destroyed when it already was, when an asteroid hits it, or when it was damaged and has no
   * health left. In other modes any bullet or asteroid hit destroys it and health is untouched.
   */
  function ShipAfterCollisions(w: GameState, mode: GameMode): Ship
  {
    var s := w.ship;
    var bullets := if mode != COOP then BulletHits(s.obj, w.bullets, |w.bullets|) else 0;
    var asteroidHit := HitByAsteroid(s.obj, w.asteroids, |w.asteroids|);
    if mode == Deathmatch then
      var rams := ShipHits(s.obj, w.spaceships, |w.spaceships|);
      var h := s.health - BulletDamage * bullets - RammingDamage * rams;
      s.(health := h, obj := s.obj.(destroyed := s.obj.destroyed || asteroidHit || (bullets + rams > 0 && h <= 0)))
    else
      s.(obj := s.obj.(destroyed := s.obj.destroyed || bullets > 0 || asteroidHit))
  }

  /**
   * All collision rules of one tick. Collisions ignore destroyed flags, so the order in which
   * the source checks them only matters for the ship's health, which the hit counts capture.
   * Remote ships are never marked.
   */
  function Collided(w: GameState, mode: GameMode): GameState
  {
    GameState(
      ShipAfterCollisions(w, mode),
      seq(|w.bullets|, k requires 0 <= k < |w.bullets| => BulletAfterCollisions(w, mode, k)),
      seq(|w.asteroids|, j requires 0 <= j < |w.asteroids| => AsteroidAfterCollisions(w, mode, j)),
      w.spaceships)
  }

  /** An asteroid that touches the player's ship destroys it and is destroyed, whatever the mode. */
  lemma AsteroidShipCollisionInEveryMode(w: GameState, mode: GameMode, j: int)
    requires 0 <= j < |w.asteroids| && Collides(w.asteroids[j].obj, w.ship.obj)
    ensures Collided(w, mode).asteroids[j].obj.destroyed
    ensures Collided(w, mode).ship.obj.destroyed
  {
  }

  /**
   * Mode rules for bullets: in a deathmatch no bullet destroys an asteroid, and in COOP no bullet
   * destroys or damages the player's ship.
   */
  lemma BulletRulesByMode(w: GameState, mode: GameMode)
    ensures mode == Deathmatch ==> forall j :: 0 <= j < |w.asteroids| ==>
      (Collided(w, mode).asteroids[j].obj.destroyed <==>
         w.asteroids[j].obj.destroyed || Collides(w.asteroids[j].obj, w.ship.obj))
    ensures mode == COOP ==>
      (Collided(w, mode).ship.obj.destroyed <==>
         w.ship.obj.destroyed || HitByAsteroid(w.ship.obj, w.asteroids, |w.asteroids|))
    ensures mode == COOP ==> Collided(w, mode).ship.health == w.ship.health
  {
  }

  /** Remote ships are never damaged, collisions only mark, and every list keeps its length. */
  lemma CollisionsOnlyMark(w: GameState, mode: GameMode)
    ensures var r := Collided(w, mode);
      && r.spaceships == w.spaceships
      && |r.bullets| == |w.bullets| && |r.asteroids| == |w.asteroids|
      && (forall k :: 0 <= k < |w.bullets| && w.bullets[k].obj.destroyed ==> r.bullets[k].obj.destroyed)
      && (w.ship.obj.destroyed ==> r.ship.obj.destroyed)
      && r.ship.score == w.ship.score && r.ship.energy == w.ship.energy
  {
  }

  /** In a deathmatch the ship loses exactly 10 health per bullet and 50 per colliding remote ship. */
  lemma DeathmatchDamage(w: GameState)
    ensures Collided(w, Deathmatch).ship.health ==
      w.ship.health - 10 * BulletHits(w.ship.obj, w.bullets, |w.bullets|)
                    - 50 * ShipHits(w.ship.obj, w.spaceships, |w.spaceships|)
  {
  }

  /**
   * Checks bullet `i` of `w` against every asteroid: each asteroid it hits and the bullet itself
   * are marked destroyed. `rocks` are the asteroids of `w` as the bullets before it left them.
   */
  method CollideWithAsteroids(w: GameState, i: int, rocks: seq<Asteroid>) returns (rocks': seq<Asteroid>, b: Bullet)
    requires 0 <= i < |w.bullets| && |rocks| == |w.asteroids|
    requires forall j :: 0 <= j < |rocks| ==> rocks[j] == MarkAsteroid(w.asteroids[j], HitByBullet(w.asteroids[j].obj, w.bullets, i))
    ensures |rocks'| == |rocks|
    ensures forall j :: 0 <= j < |rocks| ==> rocks'[j] == MarkAsteroid(w.asteroids[j], HitByBullet(w.asteroids[j].obj, w.bullets, i + 1))
    ensures b == MarkBullet(w.bullets[i], HitByAsteroid(w.bullets[i].obj, w.asteroids, |w.asteroids|))
  {
    rocks' := rocks;
    b := w.bullets[i];
    var j := 0;
    while j < |rocks|
      invariant 0 <= j <= |rocks| == |rocks'|
      invariant forall k :: 0 <= k < j ==> rocks'[k] == MarkAsteroid(w.asteroids[k], HitByBullet(w.asteroids[k].obj, w.bullets, i + 1))
      invariant forall k :: j <= k < |rocks| ==> rocks'[k] == rocks[k]
      invariant b == MarkBullet(w.bullets[i], HitByAsteroid(w.bullets[i].obj, w.asteroids, j))
    {
      CollidesIgnoresDestroyed(w.asteroids[j].obj, w.bullets[i].obj, rocks'[j].obj.destroyed, b.obj.destroyed);
      if Collides(rocks'[j].obj, b.obj) {
        rocks' := rocks'[j := MarkAsteroid(rocks'[j], true)];
        b := MarkBullet(b, true);
      }
      j := j + 1;
    }
  }

  /**
   * Checks bullet `i` of `w`, as the asteroid checks left it, against the player's ship: outside
   * COOP a hit destroys the bullet and, in a deathmatch, costs the ship 10 health (destroying it
   * once none is left) or, in other modes, destroys the ship.
   */
  method CollideWithShip(w: GameState, mode: GameMode, i: int, b: Bullet, ship: Ship) returns (b': Bullet, ship': Ship)
    requires 0 <= i < |w.bullets|
    requires b == MarkBullet(w.bullets[i], mode != Deathmatch && HitByAsteroid(w.bullets[i].obj, w.asteroids, |w.asteroids|))
    requires ship == ShipAfterBullets(w, mode, i)
    ensures b' == BulletAfterCollisions(w, mode, i)
    ensures ship' == ShipAfterBullets(w, mode, i + 1)
  {
    b', ship' := b, ship;
    CollidesIgnoresDestroyed(w.ship.obj, w.bullets[i].obj, ship.obj.destroyed, b.obj.destroyed);
    if mode != COOP && Collides(ship.obj, b.obj) {
      b' := MarkBullet(b, true);
      if mode == Deathmatch {
        ship' := DecreaseHealth(ship, BulletDamage);
      } else {
        ship' := ship.(obj := Destroy(ship.obj));
      }
    }
  }

  /** The bullet pass of the collision checks: each bullet against the asteroids, then against the player's ship. */
  method CollideBullets(w: GameState, mode: GameMode) returns (rocks: seq<Asteroid>, bs: seq<Bullet>, ship: Ship)
    ensures |rocks| == |w.asteroids|
    ensures forall j :: 0 <= j < |rocks| ==>
      rocks[j] == MarkAsteroid(w.asteroids[j], mode != Deathmatch && HitByBullet(w.asteroids[j].obj, w.bullets, |w.bullets|))
    ensures |bs| == |w.bullets| && forall k :: 0 <= k < |bs| ==> bs[k] == BulletAfterCollisions(w, mode, k)
    ensures ship == ShipAfterBullets(w, mode, |w.bullets|)
  {
    rocks, bs, ship := w.asteroids, w.bullets, w.ship;
    var i := 0;
    while i < |bs|
      invariant 0 <= i <= |bs| == |w.bullets| && |rocks| == |w.asteroids|
      invariant forall j :: 0 <= j < |rocks| ==>
        rocks[j] == MarkAsteroid(w.asteroids[j], mode != Deathmatch && HitByBullet(w.asteroids[j].obj, w.bullets, i))
      invariant forall k :: 0 <= k < i ==> bs[k] == BulletAfterCollisions(w, mode, k)
      invariant forall k :: i <= k < |bs| ==> bs[k] == w.bullets[k]
      invariant ship == ShipAfterBullets(w, mode, i)
    {
      var b := bs[i];
      if mode != Deathmatch {
        rocks, b := CollideWithAsteroids(w, i, rocks);
      }
      b, ship := CollideWithShip(w, mode, i, b, ship);
      bs := bs[i := b];
      i := i + 1;
    }
  }

  /** The asteroid pass: each asteroid that touches the player's ship destroys it and is destroyed. */
  method CollideAsteroidsWithShip(w: GameState, mode: GameMode, rocks: seq<Asteroid>, ship: Ship)
    returns (rocks': seq<Asteroid>, ship': Ship)
    requires |rocks| == |w.asteroids|
    requires forall j :: 0 <= j < |rocks| ==>
      rocks[j] == MarkAsteroid(w.asteroids[j], mode != Deathmatch && HitByBullet(w.asteroids[j].obj, w.bullets, |w.bullets|))
    requires ship.obj == w.ship.obj.(destroyed := ship.obj.destroyed)
    ensures |rocks'| == |rocks| && forall j :: 0 <= j < |rocks| ==> rocks'[j] == AsteroidAfterCollisions(w, mode, j)
    ensures ship' == ship.(obj := ship.obj.(destroyed := ship.obj.destroyed || HitByAsteroid(w.ship.obj, w.asteroids, |w.asteroids|)))
  {
    rocks', ship' := rocks, ship;
    var j := 0;
    while j < |rocks|
      invariant 0 <= j <= |rocks| == |rocks'|
      invariant forall k :: 0 <= k < j ==> rocks'[k] == AsteroidAfterCollisions(w, mode, k)
      invariant forall k :: j <= k < |rocks| ==> rocks'[k] == rocks[k]
      invariant ship' == ship.(obj := ship.obj.(destroyed := ship.obj.destroyed || HitByAsteroid(w.ship.obj, w.asteroids, j)))
    {
      CollidesIgnoresDestroyed(w.asteroids[j].obj, w.ship.obj, rocks'[j].obj.destroyed, ship'.obj.destroyed);
      if Collides(rocks'[j].obj, ship'.obj) {
        rocks' := rocks'[j := MarkAsteroid(rocks'[j], true)];
        ship' := ship'.(obj := Destroy(ship'.obj));
      }
      j := j + 1;
    }
  }

  /**
   * The deathmatch pass: each remote ship that touches the player's ship costs it 50 health, and
   * the ship is destroyed once a hit leaves it without health.
   */
  method RamShips(w: GameState, ship: Ship) returns (ship': Ship)
    ensures var rams := ShipHits(w.ship.obj, w.spaceships, |w.spaceships|);
      ship' == ship.(health := ship.health - RammingDamage * rams,
                     obj := ship.obj.(destroyed := ship.obj.destroyed || (rams > 0 && ship.health - RammingDamage * rams <= 0)))
  {
    var health, destroyed := ship.health, ship.obj.destroyed;
    var k := 0;
    while k < |w.spaceships|
      invariant 0 <= k <= |w.spaceships|
      invariant health == ship.health - RammingDamage * ShipHits(w.ship.obj, w.spaceships, k)
      invariant destroyed == (ship.obj.destroyed || (ShipHits(w.ship.obj, w.spaceships, k) > 0 && health <= 0))
    {
      if Collides(w.spaceships[k].obj, w.ship.obj) {
        var hit := DecreaseHealth(ship.(health := health, obj := ship.obj.(destroyed := destroyed)), RammingDamage);
        health, destroyed := hit.health, hit.obj.destroyed;
      }
      k := k + 1;
    }
    ship' := ship.(health := health, obj := ship.obj.(destroyed := destroyed));
  }

  // Phase 4: removal, successors and score.

  predicate AsteroidAlive(a: Asteroid) { !a.obj.destroyed }
  predicate BulletAlive(b: Bullet) { !b.obj.destroyed }
  predicate ShipAlive(s: Ship) { !s.obj.destroyed }

  predicate ValidJitters(js: seq<Jitter>)
  {
    forall k :: 0 <= k < |js| ==> ValidJitter(js[k])
  }

  /** How many of the first `n` asteroids are destroyed. */
  function DestroyedCount(rocks: seq<Asteroid>, n: int): (c: nat)
    requires 0 <= n <= |rocks|
    ensures c <= n
    decreases n
  {
    if n == 0 then 0 else DestroyedCount(rocks, n - 1) + (if rocks[n - 1].obj.destroyed then 1 else 0)
  }

  /** How many of the first `n` asteroids are destroyed and larger than SMALL. */
  function BreakingCount(rocks: seq<Asteroid>, n: int): (c: nat)
    requires 0 <= n <= |rocks|
    ensures c <= DestroyedCount(rocks, n)
    decreases n
  {
    if n == 0 then 0 else BreakingCount(rocks, n - 1) + (if rocks[n - 1].obj.destroyed && rocks[n - 1].size != Small then 1 else 0)
  }

  /**
   * The successors of the destroyed ones among the first `n` asteroids, in order; asteroid `k`
   * uses the draws `js[2k]` and `js[2k + 1]`.
   */
  function Spawned(rocks: seq<Asteroid>, js: seq<Jitter>, n: int): seq<Asteroid>
    requires 0 <= n <= |rocks| && 2 * |rocks| <= |js| && ValidJitters(js)
    decreases n
  {
    if n == 0 then []
    else
      var k := n - 1;
      Spawned(rocks, js, k) + (if rocks[k].obj.destroyed then Successors(rocks[k], js[2 * k], js[2 * k + 1]) else [])
  }

  /**
   * The spawned asteroids are two per destroyed LARGE or MEDIUM asteroid, each a fresh successor
   * of a destroyed asteroid among the first `n`.
   */
  lemma {:induction false} SpawnedAreSuccessors(rocks: seq<Asteroid>, js: seq<Jitter>, n: int)
    requires 0 <= n <= |rocks| && 2 * |rocks| <= |js| && ValidJitters(js)
    ensures |Spawned(rocks, js, n)| == 2 * BreakingCount(rocks, n)
    ensures forall s <- Spawned(rocks, js, n) :: !s.obj.destroyed
    ensures forall s <- Spawned(rocks, js, n) :: exists k :: 0 <= k < n && rocks[k].obj.destroyed && IsSuccessorOf(s, rocks[k])
    decreases n
  {
    if n > 0 {
      var k := n - 1;
      SpawnedAreSuccessors(rocks, js, k);
      var tail := if rocks[k].obj.destroyed then Successors(rocks[k], js[2 * k], js[2 * k + 1]) else [];
      assert Spawned(rocks, js, n) == Spawned(rocks, js, k) + tail;
      forall s <- Spawned(rocks, js, n)
        ensures exists i :: 0 <= i < n && rocks[i].obj.destroyed && IsSuccessorOf(s, rocks[i])
      {
        if s in tail {
          assert rocks[k].obj.destroyed && IsSuccessorOf(s, rocks[k]);
        } else {
          assert s in Spawned(rocks, js, k);
        }
      }
    }
  }

  /** The successors of a whole removal pass are all fresh. */
  lemma SpawnedFresh(rocks: seq<Asteroid>, js: seq<Jitter>)
    requires 2 * |rocks| <= |js| && ValidJitters(js)
    ensures forall k :: 0 <= k < |Spawned(rocks, js, |rocks|)| ==> AsteroidAlive(Spawned(rocks, js, |rocks|)[k])
    ensures |Spawned(rocks, js, |rocks|)| == 2 * BreakingCount(rocks, |rocks|)
  {
    SpawnedAreSuccessors(rocks, js, |rocks|);
    var s := Spawned(rocks, js, |rocks|);
    forall k | 0 <= k < |s|
      ensures AsteroidAlive(s[k])
    {
      assert s[k] in s;
    }
  }

  /**
   * Adding the successors before dropping the destroyed asteroids, as the source does, leaves
   * the surviving asteroids followed by all the successors.
   */
  lemma SurvivorsThenSuccessors(rocks: seq<Asteroid>, js: seq<Jitter>)
    requires 2 * |rocks| <= |js| && ValidJitters(js)
    ensures Filter(rocks + Spawned(rocks, js, |rocks|), AsteroidAlive) ==
      Filter(rocks, AsteroidAlive) + Spawned(rocks, js, |rocks|)
  {
    var spawned := Spawned(rocks, js, |rocks|);
    SpawnedFresh(rocks, js);
    assert Filter(spawned, AsteroidAlive) == spawned;
    FilterAppend(rocks, spawned, AsteroidAlive);
  }

  /** The points a removal pass scores: one per destroyed asteroid in single-player and COOP, none otherwise. */
  function ScoreGain(rocks: seq<Asteroid>, mode: GameMode): nat
  {
    if mode == Singleplayer || mode == COOP then DestroyedCount(rocks, |rocks|) else 0
  }

  /** The asteroid-limit increases while the score climbs from `score` by `gain`: one per multiple of 5 passed. */
  function LimitGain(score: int, gain: nat): int
  {
    (score + gain) / PointsPerLimitIncrease - score / PointsPerLimitIncrease
  }

  /** One more point raises the limit exactly when the new score is a multiple of 5. */
  lemma LimitStep(score: int, gain: nat)
    ensures LimitGain(score, gain + 1) == LimitGain(score, gain) + (if (score + gain + 1) % 5 == 0 then 1 else 0)
  {
    var x := score + gain;
    var q, r := x / 5, x % 5;
    assert x == 5 * q + r && 0 <= r < 5;
    if r == 4 {
      assert x + 1 == 5 * (q + 1);
    } else {
      assert x + 1 == 5 * q + (r + 1);
    }
  }

  /** The limit never decreases, and it rises by at most one per five points. */
  lemma {:induction false} LimitGainBounds(score: int, gain: nat)
    ensures 0 <= LimitGain(score, gain) <= gain / 5 + 1
    decreases gain
  {
    if gain > 0 {
      LimitGainBounds(score, gain - 1);
      LimitStep(score, gain - 1);
      var q, r := score / 5, score % 5;
      assert score == 5 * q + r && 0 <= r < 5;
      var g, s := gain / 5, gain % 5;
      assert gain == 5 * g + s && 0 <= s < 5;
      assert score + gain == 5 * (q + g) + (r + s);
      assert (score + gain) / 5 <= q + g + 1;
    }
  }

  /**
   * After the removal pass: every destroyed asteroid, bullet and remote ship is gone, the
   * destroyed asteroids' successors are appended after the survivors, and the score rises by the
   * points of the pass.
   */
  function Purged(w: GameState, mode: GameMode, js: seq<Jitter>): GameState
    requires 2 * |w.asteroids| <= |js| && ValidJitters(js)
  {
    GameState(
      w.ship.(score := w.ship.score + ScoreGain(w.asteroids, mode)),
      Filter(w.bullets, BulletAlive),
      Filter(w.asteroids, AsteroidAlive) + Spawned(w.asteroids, js, |w.asteroids|),
      Filter(w.spaceships, ShipAlive))
  }

  /**
   * Nothing destroyed survives the removal pass, every object that was not destroyed survives it,
   * and the asteroids are the survivors plus two successors per breaking asteroid.
   */
  lemma PurgedLeavesNothingDestroyed(w: GameState, mode: GameMode, js: seq<Jitter>)
    requires 2 * |w.asteroids| <= |js| && ValidJitters(js)
    ensures var r := Purged(w, mode, js);
      && (forall k :: 0 <= k < |r.asteroids| ==> !r.asteroids[k].obj.destroyed)
      && (forall k :: 0 <= k < |r.bullets| ==> !r.bullets[k].obj.destroyed)
      && (forall k :: 0 <= k < |r.spaceships| ==> !r.spaceships[k].obj.destroyed)
      && |r.asteroids| == |Filter(w.asteroids, AsteroidAlive)| + 2 * BreakingCount(w.asteroids, |w.asteroids|)
      && (forall k :: 0 <= k < |w.asteroids| && !w.asteroids[k].obj.destroyed ==> w.asteroids[k] in r.asteroids)
      && (forall k :: 0 <= k < |w.bullets| && !w.bullets[k].obj.destroyed ==> w.bullets[k] in r.bullets)
      && (forall k :: 0 <= k < |w.spaceships| && !w.spaceships[k].obj.destroyed ==> w.spaceships[k] in r.spaceships)
  {
    SpawnedFresh(w.asteroids, js);
    var r := Purged(w, mode, js);
    var live := Filter(w.asteroids, AsteroidAlive);
    var spawned := Spawned(w.asteroids, js, |w.asteroids|);
    forall k | 0 <= k < |r.asteroids|
      ensures !r.asteroids[k].obj.destroyed
    {
      if k < |live| {
        assert AsteroidAlive(live[k]);
      } else {
        assert r.asteroids[k] == spawned[k - |live|];
      }
    }
    forall k | 0 <= k < |r.bullets|
      ensures !r.bullets[k].obj.destroyed
    {
      assert BulletAlive(r.bullets[k]);
    }
    forall k | 0 <= k < |r.spaceships|
      ensures !r.spaceships[k].obj.destroyed
    {
      assert ShipAlive(r.spaceships[k]);
    }
  }

  /** The score only changes in single-player and COOP, by one per destroyed asteroid. */
  lemma ScoreByMode(w: GameState, mode: GameMode, js: seq<Jitter>)
    requires 2 * |w.asteroids| <= |js| && ValidJitters(js)
    ensures mode == Singleplayer || mode == COOP ==>
      Purged(w, mode, js).ship.score == w.ship.score + DestroyedCount(w.asteroids, |w.asteroids|)
    ensures mode != Singleplayer && mode != COOP ==> Purged(w, mode, js).ship.score == w.ship.score
  {
  }

  // Phase 5: the random asteroid.

  /**
   * The random draws behind one spawned asteroid: the candidate points in the order they are
   * drawn, two velocity draws and the size draw from [0, 1), and the identity.
   */
  datatype SpawnDraws = SpawnDraws(candidates: seq<Vec>, u: real, v: real, chance: real, id: int)

  predicate InArena(p: Vec)
  {
    0.0 <= p.x < ArenaWidth && 0.0 <= p.y < ArenaHeight
  }

  predicate ValidSpawnDraws(d: SpawnDraws)
  {
    && (forall k :: 0 <= k < |d.candidates| ==> InArena(d.candidates[k]))
    && 0.0 <= d.u < 1.0 && 0.0 <= d.v < 1.0 && 0.0 <= d.chance < 1.0
    && 0 <= d.id < IdBound
  }

  /** A point far enough from the ship to spawn an asteroid at. */
  predicate FarFromShip(p: Vec, shipLocation: Vec)
  {
    SquaredDistance(p, shipLocation) >= MinimumSquaredSpawnDistance
  }

  /** The index of the first candidate far enough from the ship, or -1 when there is none. */
  function FirstFar(cs: seq<Vec>, shipLocation: Vec): (k: int)
    ensures -1 <= k < |cs|
    ensures 0 <= k ==> FarFromShip(cs[k], shipLocation) && forall j :: 0 <= j < k ==> !FarFromShip(cs[j], shipLocation)
    ensures k < 0 ==> forall j :: 0 <= j < |cs| ==> !FarFromShip(cs[j], shipLocation)
    decreases |cs|
  {
    if |cs| == 0 then -1
    else if FarFromShip(cs[0], shipLocation) then 0
    else
      var k := FirstFar(cs[1..], shipLocation);
      if k < 0 then -1 else k + 1
  }

  /** LARGE when the draw is below 0.333, MEDIUM below 0.666, SMALL otherwise. */
  function SizeFor(chance: real): (s: AsteroidSize)
    ensures s == Large <==> chance < 0.333
    ensures s == Medium <==> 0.333 <= chance < 0.666
    ensures s == Small <==> 0.666 <= chance
  {
    if chance < 0.333 then Large else if chance < 0.666 then Medium else Small
  }

  /**
   * The asteroid the spawner builds from the draws: at the first candidate point far enough from
   * the ship, with velocity components `u * 6 - 3` and `v * 6 - 3`, sized by the size draw.
   * `None` when no candidate qualifies.
   */
  function RandomAsteroid(shipLocation: Vec, d: SpawnDraws): (r: Option<Asteroid>)
    requires ValidSpawnDraws(d)
    ensures r.Some? <==> exists k :: 0 <= k < |d.candidates| && FarFromShip(d.candidates[k], shipLocation)
    ensures r.Some? ==> var a := r.value;
      && FarFromShip(a.obj.location, shipLocation) && InArena(a.obj.location)
      && -3.0 <= a.obj.velocity.x < 3.0 && -3.0 <= a.obj.velocity.y < 3.0
      && a.size == SizeFor(d.chance) && a.obj.radius == Radius(a.size) as real
      && !a.obj.destroyed && a.obj.stepsUntilCollisionPossible == AsteroidCollisionGrace
  {
    var k := FirstFar(d.candidates, shipLocation);
    if k < 0 then None
    else Some(NewAsteroid(d.candidates[k], Vec(d.u * 6.0 - 3.0, d.v * 6.0 - 3.0), SizeFor(d.chance), d.id))
  }

  /** Whether this tick may spawn an asteroid: every 200th tick, below the limit, and only for a single-player game or a host outside a deathmatch. */
  predicate SpawnGate(counter: int, count: int, limit: int, hosting: bool, mode: GameMode)
  {
    counter % SpawnInterval == 0 && count < limit && ((hosting && mode != Deathmatch) || mode == Singleplayer)
  }

  /** Everything a tick draws from outside the model: trigonometry, and the random draws. */
  datatype TickInputs = TickInputs(
    thrust: int -> Vec,
    muzzle: int -> Vec,
    bulletId: int,
    jitter: seq<Jitter>,
    spawn: SpawnDraws)

  predicate ValidTickInputs(t: TickInputs, asteroidCount: int)
  {
    0 <= t.bulletId < IdBound && 2 * asteroidCount <= |t.jitter| && ValidJitters(t.jitter) && ValidSpawnDraws(t.spawn)
  }

  class GameUpdater {
    const game: Game
    /** The number of ticks so far. */
    var updateCounter: int
    /** The number of asteroids above which no new asteroid spawns. */
    var asteroidsLimit: int

    predicate Valid()
      reads this
    {
      updateCounter >= 0 && asteroidsLimit >= AsteroidsLimitDefault
    }

    constructor (g: Game)
      ensures game == g && updateCounter == 0 && asteroidsLimit == AsteroidsLimitDefault
      ensures Valid()
    {
      game := g;
      updateCounter := 0;
      asteroidsLimit := AsteroidsLimitDefault;
    }

    /** Steps every asteroid, every bullet and the player's ship. */
    method StepAll(thrust: int -> Vec)
      modifies game`asteroids, game`bullets, game`ship
      ensures game.State() == Moved(old(game.State()), thrust)
    {
      var rocks, bs := game.asteroids, game.bullets;
      var i := 0;
      while i < |rocks|
        invariant 0 <= i <= |rocks| == |game.asteroids|
        invariant forall k :: 0 <= k < i ==> rocks[k] == Asteroids.Step(game.asteroids[k])
        invariant forall k :: i <= k < |rocks| ==> rocks[k] == game.asteroids[k]
      {
        rocks := rocks[i := Asteroids.Step(rocks[i])];
        i := i + 1;
      }
      i := 0;
      while i < |bs|
        invariant 0 <= i <= |bs| == |game.bullets|
        invariant forall k :: 0 <= k < i ==> bs[k] == Bullets.Step(game.bullets[k])
        invariant forall k :: i <= k < |bs| ==> bs[k] == game.bullets[k]
      {
        bs := bs[i := Bullets.Step(bs[i])];
        i := i + 1;
      }
      game.asteroids := rocks;
      game.bullets := bs;
      game.ship := Spaceships.Step(game.ship, thrust);
    }

    /** Fires a bullet when the ship may fire. */
    method Fire(muzzle: int -> Vec, bulletId: int)
      requires 0 <= bulletId < IdBound
      modifies game`bullets, game`ship
      ensures game.State() == Fired(old(game.State()), muzzle, bulletId)
    {
      if CanFireWeapon(game.ship) {
        var m := muzzle(game.ship.direction);
        var v := game.ship.obj.velocity;
        var b := NewBullet(game.ship.obj.location, Vec(v.x + m.x, v.y - m.y), bulletId);
        game.bullets := game.bullets + [b];
        game.ship := SetFired(game.ship);
      }
    }

    /** Applies the collision rules of the current game mode, in the source's order. */
    method CheckCollisions()
      modifies game`asteroids, game`bullets, game`ship
      ensures game.State() == Collided(old(game.State()), game.currentGameMode)
    {
      var mode := game.currentGameMode;
      var w := game.State();
      var rocks, bs, ship := CollideBullets(w, mode);
      rocks, ship := CollideAsteroidsWithShip(w, mode, rocks, ship);
      if mode == Deathmatch {
        ship := RamShips(w, ship);
      }
      game.asteroids := rocks;
      game.bullets := bs;
      game.ship := ship;
    }

    /**
     * Removes what was destroyed: every destroyed asteroid scores and contributes its successors,
     * which are added before the destroyed asteroids, bullets and remote ships are dropped.
     */
    method RemoveDestroyedObjects(jitter: seq<Jitter>)
      requires 2 * |game.asteroids| <= |jitter| && ValidJitters(jitter)
      modifies game`asteroids, game`bullets, game`spaceships, game`ship, this`asteroidsLimit
      ensures game.State() == Purged(old(game.State()), game.currentGameMode, jitter)
      ensures asteroidsLimit == old(asteroidsLimit) +
        LimitGain(old(game.ship.score), ScoreGain(old(game.asteroids), game.currentGameMode))
    {
      ghost var w := game.State();
      var rocks, bs, ss := game.asteroids, game.bullets, game.spaceships;
      var newAsteroids := ScoreDestroyedAsteroids(jitter);
      SurvivorsThenSuccessors(rocks, jitter);
      var kept := Filter(rocks + newAsteroids, AsteroidAlive);
      assert kept == Purged(w, game.currentGameMode, jitter).asteroids;
      game.asteroids := kept;
      game.bullets := Filter(bs, BulletAlive);
      game.spaceships := Filter(ss, ShipAlive);
    }

    /**
     * The scoring pass over the asteroids: in single-player and COOP each destroyed asteroid
     * scores a point (raising the limit at each multiple of 5), and every destroyed asteroid's
     * successors are collected.
     */
    method ScoreDestroyedAsteroids(jitter: seq<Jitter>) returns (newAsteroids: seq<Asteroid>)
      requires 2 * |game.asteroids| <= |jitter| && ValidJitters(jitter)
      modifies game`ship, this`asteroidsLimit
      ensures newAsteroids == Spawned(game.asteroids, jitter, |game.asteroids|)
      ensures game.ship == old(game.ship).(score := old(game.ship.score) + ScoreGain(game.asteroids, game.currentGameMode))
      ensures asteroidsLimit == old(asteroidsLimit) +
        LimitGain(old(game.ship.score), ScoreGain(game.asteroids, game.currentGameMode))
    {
      var scoring := game.currentGameMode == Singleplayer || game.currentGameMode == COOP;
      var rocks := game.asteroids;
      newAsteroids := [];
      var i := 0;
      while i < |rocks|
        invariant 0 <= i <= |rocks|
        invariant newAsteroids == Spawned(rocks, jitter, i)
        invariant game.ship == old(game.ship).(score := game.ship.score)
        invariant game.ship.score == old(game.ship.score) + (if scoring then DestroyedCount(rocks, i) else 0)
        invariant asteroidsLimit == old(asteroidsLimit) + LimitGain(old(game.ship.score), game.ship.score - old(game.ship.score))
      {
        if rocks[i].obj.destroyed {
          if scoring {
            LimitStep(old(game.ship.score), game.ship.score - old(game.ship.score));
            IncreaseScore();
          }
          newAsteroids := newAsteroids + Successors(rocks[i], jitter[2 * i], jitter[2 * i + 1]);
        }
        i := i + 1;
      }
    }

    /** One more point for the player, and one more allowed asteroid whenever the score reaches a multiple of 5. */
    method IncreaseScore()
      modifies game`ship, this`asteroidsLimit
      ensures game.ship == old(game.ship).(score := old(game.ship.score) + 1)
      ensures asteroidsLimit == old(asteroidsLimit) + (if game.ship.score % PointsPerLimitIncrease == 0 then 1 else 0)
    {
      game.ship := Spaceships.IncreaseScore(game.ship);
      if game.ship.score % PointsPerLimitIncrease == 0 {
        asteroidsLimit := asteroidsLimit + 1;
      }
    }

    /**
     * The rejection loop of the spawner: the first supplied candidate far enough from the ship
     * becomes the new asteroid's location. The loop runs out, giving `None`, only when no
     * supplied candidate qualifies.
     */
    method AddRandomAsteroid(d: SpawnDraws) returns (r: Option<Asteroid>)
      requires ValidSpawnDraws(d)
      ensures r == RandomAsteroid(game.ship.obj.location, d)
    {
      var shipLocation := game.ship.obj.location;
      var k := 0;
      while k < |d.candidates| && !FarFromShip(d.candidates[k], shipLocation)
        invariant 0 <= k <= |d.candidates|
        invariant forall j :: 0 <= j < k ==> !FarFromShip(d.candidates[j], shipLocation)
      {
        k := k + 1;
      }
      if k == |d.candidates| {
        r := None;
      } else {
        var size := SizeFor(d.chance);
        r := Some(NewAsteroid(d.candidates[k], Vec(d.u * 6.0 - 3.0, d.v * 6.0 - 3.0), size, d.id));
      }
    }

    /**
     * The spawning phase: every 200th tick, below the asteroid limit, and only for a
     * single-player game or a host outside a deathmatch, a random asteroid away from the ship
     * is added when the draws hold one.
     */
    method SpawnAsteroid(d: SpawnDraws)
      requires ValidSpawnDraws(d)
      modifies game`asteroids
      ensures var spawn := if SpawnGate(updateCounter, |old(game.asteroids)|, asteroidsLimit, game.hosting, game.currentGameMode)
                           then RandomAsteroid(game.ship.obj.location, d) else None;
        game.asteroids == old(game.asteroids) + (if spawn.Some? then [spawn.value] else [])
    {
      if updateCounter % SpawnInterval == 0 && |game.asteroids| < asteroidsLimit &&
         ((game.hosting && game.currentGameMode != Deathmatch) || game.currentGameMode == Singleplayer) {
        var a := AddRandomAsteroid(d);
        if a.Some? {
          game.asteroids := game.asteroids + [a.value];
        }
      }
    }

    /** The first four phases of a tick: movement, firing, collisions and removal. */
    method AdvanceObjects(t: TickInputs)
      requires Valid() && ValidTickInputs(t, |game.asteroids|)
      modifies game`asteroids, game`bullets, game`spaceships, game`ship, this`asteroidsLimit
      ensures var mode := game.currentGameMode;
        var collided := Collided(Fired(Moved(old(game.State()), t.thrust), t.muzzle, t.bulletId), mode);
        && asteroidsLimit == old(asteroidsLimit) + LimitGain(collided.ship.score, ScoreGain(collided.asteroids, mode))
        && game.State() == Purged(collided, mode, t.jitter)
    {
      StepAll(t.thrust);
      Fire(t.muzzle, t.bulletId);
      CheckCollisions();
      RemoveDestroyedObjects(t.jitter);
    }

    /**
     * One physics tick: move, fire, collide, remove, maybe spawn, count. The new state is the
     * composition of the phase functions.
     */
    method UpdatePhysics(t: TickInputs)
      requires Valid() && ValidTickInputs(t, |game.asteroids|)
      modifies this, game`asteroids, game`bullets, game`spaceships, game`ship
      ensures Valid()
      ensures updateCounter == old(updateCounter) + 1
      ensures var mode := game.currentGameMode;
        var collided := Collided(Fired(Moved(old(game.State()), t.thrust), t.muzzle, t.bulletId), mode);
        var purged := Purged(collided, mode, t.jitter);
        var limit := old(asteroidsLimit) + LimitGain(collided.ship.score, ScoreGain(collided.asteroids, mode));
        var spawn := if SpawnGate(old(updateCounter), |purged.asteroids|, limit, game.hosting, mode)
                     then RandomAsteroid(purged.ship.obj.location, t.spawn) else None;
        && asteroidsLimit == limit
        && game.State() == purged.(asteroids := purged.asteroids + (if spawn.Some? then [spawn.value] else []))
    {
      AdvanceObjects(t);
      ghost var w := Fired(Moved(old(game.State()), t.thrust), t.muzzle, t.bulletId);
      ghost var collided := Collided(w, game.currentGameMode);
      LimitGainBounds(collided.ship.score, ScoreGain(collided.asteroids, game.currentGameMode));
      SpawnAsteroid(t.spawn);
      updateCounter := updateCounter + 1;
    }

    /** The part of the game loop modelled here: a tick runs the physics unless the player is spectating. */
    method Tick(t: TickInputs)
      requires Valid() && ValidTickInputs(t, |game.asteroids|)
      modifies this, game`asteroids, game`bullets, game`spaceships, game`ship
      ensures Valid()
      ensures game.currentGameMode == Spectate ==>
        game.State() == old(game.State()) && updateCounter == old(updateCounter) && asteroidsLimit == old(asteroidsLimit)
      ensures game.currentGameMode != Spectate ==> updateCounter == old(updateCounter) + 1
      ensures var mode := game.currentGameMode;
        var collided := Collided(Fired(Moved(old(game.State()), t.thrust), t.muzzle, t.bulletId), mode);
        var purged := Purged(collided, mode, t.jitter);
        var limit := old(asteroidsLimit) + LimitGain(collided.ship.score, ScoreGain(collided.asteroids, mode));
        var spawn := if SpawnGate(old(updateCounter), |purged.asteroids|, limit, game.hosting, mode)
                     then RandomAsteroid(purged.ship.obj.location, t.spawn) else None;
        mode != Spectate ==>
          && asteroidsLimit == limit
          && game.State() == purged.(asteroids := purged.asteroids + (if spawn.Some? then [spawn.value] else []))
    {
      if game.currentGameMode != Spectate {
        UpdatePhysics(t);
      }
    }
  }
}
