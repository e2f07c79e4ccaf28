/** Asteroids: objects with a size, which break into two smaller successors when destroyed. */
module Asteroids {
  import opened Wrappers
  import opened GameObjects
  import opened AsteroidSizes

  /** How far, either way, each velocity component of a successor may stray from its parent's. */
  const SuccessorVelocityDifference: real := 5.0

  /** An asteroid is immune from collisions for its first thirty steps. */
  const AsteroidCollisionGrace: int := 30

  datatype Asteroid = Asteroid(obj: GameObject, size: AsteroidSize)

  /** A new asteroid, whose radius is its size's radius. */
  function NewAsteroid(location: Vec, velocity: Vec, size: AsteroidSize, id: int): (a: Asteroid)
    requires 0 <= id < IdBound
    ensures a.obj.radius == Radius(size) as real && a.size == size
    ensures !a.obj.destroyed && a.obj.stepsUntilCollisionPossible == AsteroidCollisionGrace
    ensures a.obj.location == location && a.obj.velocity == velocity && a.obj.multiplayerId == id
  {
    Asteroid(Create(location, velocity, Radius(size) as real, AsteroidCollisionGrace, id), size)
  }

  /** One step of an asteroid is the base movement. */
  function Step(a: Asteroid): (r: Asteroid)
    ensures r.obj == GameObjects.Step(a.obj) && r.size == a.size
  {
    a.(obj := GameObjects.Step(a.obj))
  }

  /**
   * The random draws behind one successor: the two velocity offsets, each drawn from [-5, 5), and
   * the successor's identity, drawn from [0, 500).
   */
  datatype Jitter = Jitter(dvx: real, dvy: real, id: int)

  predicate ValidJitter(j: Jitter)
  {
    && -SuccessorVelocityDifference <= j.dvx < SuccessorVelocityDifference
    && -SuccessorVelocityDifference <= j.dvy < SuccessorVelocityDifference
    && 0 <= j.id < IdBound
  }

  /** Whether each component of `v` is within `d` of the same component of `w`. */
  predicate Near(v: Vec, w: Vec, d: real)
  {
    -d <= v.x - w.x <= d && -d <= v.y - w.y <= d
  }

  /**
   * One successor of `a`, built from the draws `j`: at the parent's location, one size smaller,
   * with the parent's velocity shifted by the offsets; `None` when the parent has no smaller size.
   */
  function GenerateSuccessor(a: Asteroid, j: Jitter): (r: Option<Asteroid>)
    requires ValidJitter(j)
    ensures r.Some? <==> SuccessorSize(a.size).Some?
    ensures r.Some? ==> r.value.size == SuccessorSize(a.size).value
    ensures r.Some? ==> r.value.obj.location == a.obj.location
    ensures r.Some? ==> Near(r.value.obj.velocity, a.obj.velocity, SuccessorVelocityDifference)
  {
    match SuccessorSize(a.size)
    case None => None
    case Some(s) =>
      Some(NewAsteroid(a.obj.location, Vec(a.obj.velocity.x + j.dvx, a.obj.velocity.y + j.dvy), s, j.id))
  }

  /** A successor of `p`: one size smaller, at `p`'s location, near its velocity, and fresh. */
  predicate IsSuccessorOf(s: Asteroid, p: Asteroid)
  {
    && SuccessorSize(p.size) == Some(s.size)
    && s.obj.location == p.obj.location
    && Near(s.obj.velocity, p.obj.velocity, SuccessorVelocityDifference)
    && s.obj.radius == Radius(s.size) as real
    && !s.obj.destroyed
    && s.obj.stepsUntilCollisionPossible == AsteroidCollisionGrace
    && 0 <= s.obj.multiplayerId < IdBound
  }

  /**
   * The asteroids that spawn when `a` is destroyed: two successors when its size has a smaller
   * size, none for a SMALL asteroid. `a` itself is a value and is left as it was.
   */
  function Successors(a: Asteroid, j1: Jitter, j2: Jitter): (r: seq<Asteroid>)
    requires ValidJitter(j1) && ValidJitter(j2)
    ensures |r| == if a.size == Small then 0 else 2
    ensures forall s <- r :: IsSuccessorOf(s, a)
  {
    match SuccessorSize(a.size)
    case None => []
    case Some(_) => [GenerateSuccessor(a, j1).value, GenerateSuccessor(a, j2).value]
  }

  /** A LARGE asteroid breaks into exactly two MEDIUM ones and a SMALL one into none. */
  lemma LargeBreaksIntoTwoMedium(a: Asteroid, j1: Jitter, j2: Jitter)
    requires ValidJitter(j1) && ValidJitter(j2)
    ensures a.size == Large ==> |Successors(a, j1, j2)| == 2 && forall s <- Successors(a, j1, j2) :: s.size == Medium
    ensures a.size == Small ==> Successors(a, j1, j2) == []
  {
  }
}
