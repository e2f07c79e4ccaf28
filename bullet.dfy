/** Bullets: point colliders that live for a fixed number of steps. */
module Bullets {
  import opened GameObjects

  /** The number of steps a bullet lives for before it destroys itself. */
  const DefaultBulletStepLifetime: int := 45

  /** A bullet is immune from collisions for its first three steps. */
  const BulletCollisionGrace: int := 3

  datatype Bullet = Bullet(obj: GameObject, stepsLeft: int)

  /** A new bullet: radius 0, the full lifetime and the bullet grace period. */
  function NewBullet(location: Vec, velocity: Vec, id: int): (b: Bullet)
    requires 0 <= id < IdBound
    ensures b.obj.radius == 0.0 && b.stepsLeft == DefaultBulletStepLifetime
    ensures b.obj.stepsUntilCollisionPossible == BulletCollisionGrace && !b.obj.destroyed
    ensures b.obj.location == location && b.obj.velocity == velocity && b.obj.multiplayerId == id
  {
    Bullet(Create(location, velocity, 0.0, BulletCollisionGrace, id), DefaultBulletStepLifetime)
  }

  /**
   * One step of a bullet: the base movement, then one step less to live; a bullet with no steps
   * left is destroyed, and a destroyed bullet stays destroyed.
   */
  function Step(b: Bullet): (r: Bullet)
    ensures r.obj == GameObjects.Step(b.obj).(destroyed := r.obj.destroyed)
    ensures r.stepsLeft == b.stepsLeft - 1
    ensures r.obj.destroyed <==> b.obj.destroyed || r.stepsLeft <= 0
  {
    var moved := GameObjects.Step(b.obj);
    var left := b.stepsLeft - 1;
    Bullet(if left <= 0 then Destroy(moved) else moved, left)
  }

  /** `n` successive steps of `b`. */
  function Steps(b: Bullet, n: nat): Bullet
    decreases n
  {
    if n == 0 then b else Step(Steps(b, n - 1))
  }

  /**
   * After `n` steps the bullet has `n` fewer steps to live, it is destroyed exactly when it was
   * already destroyed or its counter has reached 0 on one of those steps, and a non-negative grace
   * counter has counted down to `max(grace - n, 0)`.
   */
  lemma {:induction false} StepsCounters(b: Bullet, n: nat)
    ensures Steps(b, n).stepsLeft == b.stepsLeft - n
    ensures Steps(b, n).obj.destroyed <==> b.obj.destroyed || (n > 0 && b.stepsLeft - n <= 0)
    ensures b.obj.stepsUntilCollisionPossible >= 0 ==>
      Steps(b, n).obj.stepsUntilCollisionPossible ==
        if b.obj.stepsUntilCollisionPossible >= n then b.obj.stepsUntilCollisionPossible - n else 0
    ensures Steps(b, n).obj.radius == b.obj.radius && Steps(b, n).obj.multiplayerId == b.obj.multiplayerId
    decreases n
  {
    if n > 0 {
      StepsCounters(b, n - 1);
    }
  }

  /**
   * Left alone, a new bullet is still alive after each of its first 44 steps, is destroyed by
   * the 45th, and stays destroyed on every step after that.
   */
  lemma BulletLifetime(location: Vec, velocity: Vec, id: int, n: nat)
    requires 0 <= id < IdBound
    ensures !Steps(NewBullet(location, velocity, id), n).obj.destroyed <==> n < DefaultBulletStepLifetime
  {
    StepsCounters(NewBullet(location, velocity, id), n);
  }

  /** A new bullet can first collide after three steps. */
  lemma BulletFirstCollision(location: Vec, velocity: Vec, id: int, n: nat)
    requires 0 <= id < IdBound
    ensures CanCollide(Steps(NewBullet(location, velocity, id), n).obj) <==> n >= BulletCollisionGrace
  {
    StepsCounters(NewBullet(location, velocity, id), n);
  }
}
