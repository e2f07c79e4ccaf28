/**
 * The state every object in the arena shares: location, velocity, radius, the destroyed flag,
 * the collision-immunity countdown and the multiplayer identity, with the base movement step
 * and the collision test.
 */
module GameObjects {
  /** The arena is the 800 x 800 window; both axes wrap around, and both have the same extent. */
  const ArenaWidth: real := 800.0
  const ArenaHeight: real := 800.0

  /** Identities are drawn uniformly from [0, IdBound). */
  const IdBound: int := 500

  datatype Vec = Vec(x: real, y: real)

  datatype GameObject = GameObject(
    location: Vec,
    velocity: Vec,
    radius: real,
    destroyed: bool,
    stepsUntilCollisionPossible: int,
    multiplayerId: int)

  /**
   * A new object: not destroyed, immune for its kind's default number of steps, and with the
   * identity `id` that the random draw in [0, 500) produced.
   */
  function Create(location: Vec, velocity: Vec, radius: real, defaultSteps: int, id: int): (o: GameObject)
    requires 0 <= id < IdBound
    ensures !o.destroyed && o.stepsUntilCollisionPossible == defaultSteps
    ensures o.location == location && o.velocity == velocity && o.radius == radius
    ensures 0 <= o.multiplayerId < IdBound
  {
    GameObject(location, velocity, radius, false, defaultSteps, id)
  }

  /** Rounds toward zero, as Java does when it forms the quotient behind `%` on doubles. */
  function Truncate(r: real): (t: int)
    ensures 0.0 <= r ==> 0 <= t && t as real <= r < t as real + 1.0
    ensures r < 0.0 ==> t <= 0 && t as real - 1.0 < r <= t as real
  {
    if 0.0 <= r then r.Floor else -((-r).Floor)
  }

  /**
   * Java's `a % 800.0` on doubles, the remainder of the quotient truncated toward zero, for the
   * arena extent 800 that both axes have: it takes the sign of the dividend, so it lies in
   * [0, 800) only when the dividend is non-negative, and it differs from the dividend by a whole
   * number of extents.
   */
  function ArenaRem(a: real): (r: real)
    ensures 0.0 <= a ==> 0.0 <= r < ArenaWidth
    ensures a < 0.0 ==> -ArenaWidth < r <= 0.0
    ensures 0.0 <= a < ArenaWidth ==> r == a
    ensures (a - r) / ArenaWidth == ((a - r) / ArenaWidth).Floor as real
  {
    a - ArenaWidth * Truncate(a / ArenaWidth) as real
  }

  /**
   * One tick of movement: each coordinate becomes (extent + coordinate + velocity) % extent, and
   * the immunity countdown drops by one while it is positive. Nothing else changes.
   */
  function Step(o: GameObject): (r: GameObject)
    ensures r.location.x == ArenaRem(ArenaWidth + o.location.x + o.velocity.x)
    ensures r.location.y == ArenaRem(ArenaHeight + o.location.y + o.velocity.y)
    ensures 0.0 <= ArenaWidth + o.location.x + o.velocity.x ==> 0.0 <= r.location.x < ArenaWidth
    ensures 0.0 <= ArenaHeight + o.location.y + o.velocity.y ==> 0.0 <= r.location.y < ArenaHeight
    ensures o.stepsUntilCollisionPossible > 0 ==> r.stepsUntilCollisionPossible == o.stepsUntilCollisionPossible - 1
    ensures o.stepsUntilCollisionPossible <= 0 ==> r.stepsUntilCollisionPossible == o.stepsUntilCollisionPossible
    ensures o.stepsUntilCollisionPossible >= 0 ==> r.stepsUntilCollisionPossible >= 0
    ensures r.velocity == o.velocity && r.radius == o.radius
    ensures r.destroyed == o.destroyed && r.multiplayerId == o.multiplayerId
  {
    var x := ArenaRem(ArenaWidth + o.location.x + o.velocity.x);
    var y := ArenaRem(ArenaHeight + o.location.y + o.velocity.y);
    var steps := if o.stepsUntilCollisionPossible > 0 then o.stepsUntilCollisionPossible - 1
                 else o.stepsUntilCollisionPossible;
    o.(location := Vec(x, y), stepsUntilCollisionPossible := steps)
  }

  /**
   * An object inside the arena stays inside it after a step as long as neither velocity component
   * is below minus the extent, and on each axis the new coordinate differs from the old one plus
   * the velocity by a whole number of extents.
   */
  lemma StepStaysInArena(o: GameObject)
    requires 0.0 <= o.location.x < ArenaWidth && 0.0 <= o.location.y < ArenaHeight
    requires -ArenaWidth <= o.velocity.x && -ArenaHeight <= o.velocity.y
    ensures var r := Step(o);
      && 0.0 <= r.location.x < ArenaWidth && 0.0 <= r.location.y < ArenaHeight
      && var dx := (o.location.x + o.velocity.x - r.location.x) / ArenaWidth;
         var dy := (o.location.y + o.velocity.y - r.location.y) / ArenaHeight;
         dx == dx.Floor as real && dy == dy.Floor as real
  {
    var r := Step(o);
    WholeExtentsShift(ArenaWidth + o.location.x + o.velocity.x, r.location.x);
    WholeExtentsShift(ArenaHeight + o.location.y + o.velocity.y, r.location.y);
  }

  /** If `a - r` is a whole number of extents, so is `a - 800 - r`. */
  lemma WholeExtentsShift(a: real, r: real)
    requires (a - r) / ArenaWidth == ((a - r) / ArenaWidth).Floor as real
    ensures (a - ArenaWidth - r) / ArenaWidth == ((a - ArenaWidth - r) / ArenaWidth).Floor as real
  {
    var q := (a - r) / ArenaWidth;
    assert (a - ArenaWidth - r) / ArenaWidth == q - 1.0;
    assert (q - 1.0).Floor == q.Floor - 1;
  }

  /** Flags the object as destroyed; nothing else changes. */
  function Destroy(o: GameObject): (r: GameObject)
    ensures r.destroyed
    ensures r.(destroyed := o.destroyed) == o
  {
    o.(destroyed := true)
  }

  /** Destroying twice is destroying once, and a destroyed object stays destroyed under `Step`. */
  lemma DestroyIdempotent(o: GameObject)
    ensures Destroy(Destroy(o)) == Destroy(o)
    ensures o.destroyed ==> Destroy(o) == o
    ensures Step(Destroy(o)).destroyed
  {
  }

  /** Overwrites the location only. */
  function SetLocation(o: GameObject, location: Vec): (r: GameObject)
    ensures r.location == location
    ensures r.(location := o.location) == o
  {
    o.(location := location)
  }

  /** Overwrites the velocity only. */
  function SetVelocity(o: GameObject, velocity: Vec): (r: GameObject)
    ensures r.velocity == velocity
    ensures r.(velocity := o.velocity) == o
  {
    o.(velocity := velocity)
  }

  function SquaredDistance(a: Vec, b: Vec): real
  {
    (a.x - b.x) * (a.x - b.x) + (a.y - b.y) * (a.y - b.y)
  }

  /** An object may collide once its immunity countdown has run out. */
  predicate CanCollide(o: GameObject)
  {
    o.stepsUntilCollisionPossible <= 0
  }

  /**
   * Whether `a` and `b` collide: the centre distance is below the sum of the radii and both may
   * collide. The source compares the square root of the squared distance with the radius sum;
   * for a positive sum that is the comparison of the squares below, and for a sum that is not
   * positive the source's comparison is false. The destroyed flags play no part.
   */
  predicate Collides(a: GameObject, b: GameObject)
  {
    var reach := a.radius + b.radius;
    && 0.0 < reach
    && SquaredDistance(a.location, b.location) < reach * reach
    && CanCollide(a)
    && CanCollide(b)
  }

  /** `collides` is symmetric. */
  lemma CollidesSymmetric(a: GameObject, b: GameObject)
    ensures Collides(a, b) <==> Collides(b, a)
  {
    assert SquaredDistance(a.location, b.location) == SquaredDistance(b.location, a.location);
  }

  /** The destroyed flags play no part in a collision. */
  lemma CollidesIgnoresDestroyed(a: GameObject, b: GameObject, da: bool, db: bool)
    ensures Collides(a.(destroyed := da), b.(destroyed := db)) == Collides(a, b)
  {
  }

  /** An object that is still immune collides with nothing, at any distance. */
  lemma ImmuneNeverCollides(a: GameObject, b: GameObject)
    requires a.stepsUntilCollisionPossible > 0 || b.stepsUntilCollisionPossible > 0
    ensures !Collides(a, b) && !Collides(b, a)
  {
  }

  /**
   * Once neither object is immune, they collide exactly when the squared centre distance is below
   * the squared (non-negative) radius sum; destroying either changes nothing.
   */
  lemma CollidesByDistance(a: GameObject, b: GameObject)
    requires a.stepsUntilCollisionPossible <= 0 && b.stepsUntilCollisionPossible <= 0
    requires 0.0 <= a.radius && 0.0 <= b.radius
    ensures Collides(a, b) <==>
      SquaredDistance(a.location, b.location) < (a.radius + b.radius) * (a.radius + b.radius)
    ensures Collides(Destroy(a), b) == Collides(a, b) == Collides(a, Destroy(b))
  {
  }
}
