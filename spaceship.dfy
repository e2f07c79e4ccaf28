/**
 * The player's ship: movement plus the integer resource accounting for energy, weapon cooldown,
 * health, score and turning.
 */
module Spaceships {
  import opened GameObjects
  import opened Modes

  /** The ship does not accelerate at or above speed 20, so below squared speed 400. */
  const MaximumSquaredSpeed: real := 400.0
  const VelocityDampeningCoefficient: real := 0.99
  const WeaponCooldownTicks: int := 5
  const WeaponEnergyCost: int := 10
  const AccelerationEnergyCost: int := 5
  const TurningEnergyCost: int := 3
  const EnergyCapacity: int := 256
  const EnergyGeneration: int := 3
  const InitialHealth: int := 100
  const ShipRadius: real := 15.0
  const ShipCollisionGrace: int := 10

  /** The ship colours; `NoColour` stands for the colour a ship has before one is chosen (`null`). */
  datatype Colour = NoColour | Red | Green | Magenta | Cyan

  /** The four control flags that the key listener sets. */
  datatype Controls = Controls(isFiring: bool, accelerateKeyPressed: bool, turnRightKeyPressed: bool, turnLeftKeyPressed: bool)

  /** No key pressed. */
  const Released: Controls := Controls(false, false, false, false)

  /** Who flies the ship in a multiplayer game: the coop score, the name, the colour, whether it only spectates, and the mode it plays. */
  datatype Player = Player(coopScore: int, username: string, colour: Colour, spectator: bool, mode: GameMode)

  /**
   * A ship. Its `direction` counts rotation quanta of 0.04 * pi radians, the amount one tick of
   * turning rotates it.
   */
  datatype Ship = Ship(
    obj: GameObject,
    direction: int,
    weaponCooldownRemaining: int,
    energy: int,
    health: int,
    score: int,
    controls: Controls,
    player: Player)

  /** The resource bounds the ship keeps: energy within [0, 256] and cooldown within [0, 5]. */
  predicate Valid(s: Ship)
  {
    && 0 <= s.energy <= EnergyCapacity
    && 0 <= s.weaponCooldownRemaining <= WeaponCooldownTicks
  }

  /**
   * Restores a ship for a new game: centre of the arena, at rest, facing up, no control flags,
   * not destroyed, cooled down, score 0, full energy and health, not a spectator. The identity,
   * the grace counter, the radius, the coop score, the name, the colour and the mode are kept.
   */
  function Reset(s: Ship): (r: Ship)
    ensures r.obj.location == Vec(ArenaWidth / 2.0, ArenaHeight / 2.0) && r.obj.velocity == Vec(0.0, 0.0)
    ensures r.direction == 0 && !r.obj.destroyed
    ensures r.controls == Released
    ensures r.weaponCooldownRemaining == 0 && r.score == 0 && !r.player.spectator
    ensures r.energy == EnergyCapacity && r.health == InitialHealth
    ensures r.obj.multiplayerId == s.obj.multiplayerId && r.obj.radius == s.obj.radius
    ensures r.obj.stepsUntilCollisionPossible == s.obj.stepsUntilCollisionPossible
    ensures r.player == s.player.(spectator := false)
    ensures Valid(r)
  {
    Ship(s.obj.(location := Vec(400.0, 400.0), velocity := Vec(0.0, 0.0), destroyed := false),
         0, 0, EnergyCapacity, InitialHealth, 0, Released, s.player.(spectator := false))
  }

  /** Resetting twice is resetting once. */
  lemma ResetIdempotent(s: Ship)
    ensures Reset(Reset(s)) == Reset(s)
  {
  }

  /**
   * A new ship (the constructor): created at the centre at rest with radius 15 and the ship
   * grace period, with no coop score, no name, no colour and no mode yet, then reset.
   */
  function NewShip(id: int): (r: Ship)
    requires 0 <= id < IdBound
    ensures r == Reset(r)
    ensures r.obj.radius == ShipRadius && r.obj.stepsUntilCollisionPossible == ShipCollisionGrace
    ensures r.obj.multiplayerId == id && r.player == Player(0, "", NoColour, false, NoMode)
  {
    var o := Create(Vec(ArenaWidth / 2.0, ArenaHeight / 2.0), Vec(0.0, 0.0), ShipRadius, ShipCollisionGrace, id);
    Reset(Ship(o, 0, 0, 0, 0, 0, Released, Player(0, "", NoColour, false, NoMode)))
  }

  /**
   * Turning: with at least 3 energy, a lone left flag turns one quantum anticlockwise, a lone
   * right flag one quantum clockwise, and both together cancel; any turn flag costs 3 energy once.
   * Without the energy nothing happens.
   */
  function AttemptToTurn(s: Ship): (r: Ship)
    ensures s.energy >= TurningEnergyCost && s.controls.turnLeftKeyPressed && !s.controls.turnRightKeyPressed ==> r.direction == s.direction - 1
    ensures s.energy >= TurningEnergyCost && s.controls.turnRightKeyPressed && !s.controls.turnLeftKeyPressed ==> r.direction == s.direction + 1
    ensures s.controls.turnLeftKeyPressed == s.controls.turnRightKeyPressed || s.energy < TurningEnergyCost ==> r.direction == s.direction
    ensures r.energy == if s.energy >= TurningEnergyCost && (s.controls.turnLeftKeyPressed || s.controls.turnRightKeyPressed)
                        then s.energy - TurningEnergyCost else s.energy
    ensures r == s.(direction := r.direction, energy := r.energy)
  {
    if s.energy >= TurningEnergyCost then
      var left := if s.controls.turnLeftKeyPressed then s.direction - 1 else s.direction;
      var both := if s.controls.turnRightKeyPressed then left + 1 else left;
      var didTurn := s.controls.turnLeftKeyPressed || s.controls.turnRightKeyPressed;
      s.(direction := both, energy := if didTurn then s.energy - TurningEnergyCost else s.energy)
    else
      s
  }

  function SquaredSpeed(v: Vec): real
  {
    v.x * v.x + v.y * v.y
  }

  /**
   * Accelerating: with the flag set, at least 5 energy and a speed below the maximum, the ship
   * gains thrust for 5 energy: `thrust(direction)` stands for the pair (sin, cos) of the heading
   * times 0.4, added on the x axis and subtracted on the y axis, whose screen direction is flipped.
   */
  function AttemptToAccelerate(s: Ship, thrust: int -> Vec): (r: Ship)
    ensures var go := s.controls.accelerateKeyPressed && s.energy >= AccelerationEnergyCost && SquaredSpeed(s.obj.velocity) < MaximumSquaredSpeed;
      && (go ==> r.energy == s.energy - AccelerationEnergyCost)
      && (go ==> r.obj.velocity == Vec(s.obj.velocity.x + thrust(s.direction).x, s.obj.velocity.y - thrust(s.direction).y))
      && (!go ==> r == s)
    ensures r == s.(obj := s.obj.(velocity := r.obj.velocity), energy := r.energy)
  {
    if s.controls.accelerateKeyPressed && s.energy >= AccelerationEnergyCost && SquaredSpeed(s.obj.velocity) < MaximumSquaredSpeed then
      var t := thrust(s.direction);
      s.(obj := SetVelocity(s.obj, Vec(s.obj.velocity.x + t.x, s.obj.velocity.y - t.y)), energy := s.energy - AccelerationEnergyCost)
    else
      s
  }

  /** The inertial dampener slows the ship by one percent on each axis. */
  function DampenVelocity(s: Ship): (r: Ship)
    ensures r == s.(obj := s.obj.(velocity := r.obj.velocity))
    ensures r.obj.velocity == Vec(s.obj.velocity.x * VelocityDampeningCoefficient, s.obj.velocity.y * VelocityDampeningCoefficient)
    ensures SquaredSpeed(r.obj.velocity) <= SquaredSpeed(s.obj.velocity)
  {
    var v := s.obj.velocity;
    var d := Vec(v.x * VelocityDampeningCoefficient, v.y * VelocityDampeningCoefficient);
    assert SquaredSpeed(d) == 0.9801 * SquaredSpeed(v);
    s.(obj := SetVelocity(s.obj, d))
  }

  /** Cools the weapon down by one tick while it is not yet cool. */
  function RestWeapon(s: Ship): (r: Ship)
    ensures Valid(s) ==> Valid(r)
    ensures s.weaponCooldownRemaining != 0 ==> r.weaponCooldownRemaining == s.weaponCooldownRemaining - 1
    ensures s.weaponCooldownRemaining == 0 ==> r == s
    ensures r == s.(weaponCooldownRemaining := r.weaponCooldownRemaining)
  {
    if s.weaponCooldownRemaining != 0 then s.(weaponCooldownRemaining := s.weaponCooldownRemaining - 1) else s
  }

  /** Regains 3 energy, never beyond the capacity of 256. */
  function RechargeEnergy(s: Ship): (r: Ship)
    ensures r.energy <= EnergyCapacity
    ensures s.energy <= EnergyCapacity ==> s.energy <= r.energy
    ensures r.energy == if s.energy + EnergyGeneration < EnergyCapacity then s.energy + EnergyGeneration else EnergyCapacity
    ensures r == s.(energy := r.energy)
  {
    var e := s.energy + EnergyGeneration;
    s.(energy := if e < EnergyCapacity then e else EnergyCapacity)
  }

  /**
   * One step of a ship. A spectator's ship does not change at all; any other ship makes the base
   * movement, then turns, accelerates, dampens, cools its weapon and recharges, in that order.
   * The step keeps the resource bounds.
   */
  function Step(s: Ship, thrust: int -> Vec): (r: Ship)
    ensures s.player.spectator ==> r == s
    ensures !s.player.spectator ==>
      r == RechargeEnergy(RestWeapon(DampenVelocity(AttemptToAccelerate(AttemptToTurn(s.(obj := GameObjects.Step(s.obj))), thrust))))
    ensures Valid(s) ==> Valid(r)
    ensures r.score == s.score && r.health == s.health && r.obj.destroyed == s.obj.destroyed
    ensures r.obj.multiplayerId == s.obj.multiplayerId && r.obj.radius == s.obj.radius
    ensures r.controls == s.controls && r.player == s.player
  {
    if s.player.spectator then s
    else
      var moved := s.(obj := GameObjects.Step(s.obj));
      RechargeEnergy(RestWeapon(DampenVelocity(AttemptToAccelerate(AttemptToTurn(moved), thrust))))
  }

  /** The ship may fire when the fire flag is set, the weapon is cool and 10 energy is available. */
  predicate CanFireWeapon(s: Ship)
  {
    s.controls.isFiring && s.weaponCooldownRemaining == 0 && s.energy >= WeaponEnergyCost
  }

  /** Firing starts a new cooldown of 5 ticks and costs 10 energy. */
  function SetFired(s: Ship): (r: Ship)
    ensures r.weaponCooldownRemaining == WeaponCooldownTicks && r.energy == s.energy - WeaponEnergyCost
    ensures r == s.(weaponCooldownRemaining := r.weaponCooldownRemaining, energy := r.energy)
    ensures Valid(s) && CanFireWeapon(s) ==> Valid(r)
  {
    s.(weaponCooldownRemaining := WeaponCooldownTicks, energy := s.energy - WeaponEnergyCost)
  }

  /** Loses `h` health; the ship is destroyed when the remaining health is at most 0, and stays destroyed. */
  function DecreaseHealth(s: Ship, h: int): (r: Ship)
    ensures r.health == s.health - h
    ensures r.obj.destroyed <==> s.obj.destroyed || r.health <= 0
    ensures r == s.(obj := s.obj.(destroyed := r.obj.destroyed), health := r.health)
  {
    var left := s.health - h;
    s.(obj := if left <= 0 then Destroy(s.obj) else s.obj, health := left)
  }

  /** One more point. */
  function IncreaseScore(s: Ship): (r: Ship)
    ensures r.score == s.score + 1 && r == s.(score := r.score)
  {
    s.(score := s.score + 1)
  }

  /** A cooldown that is set counts down to 0 in as many non-spectator steps, one per step. */
  lemma CooldownCountsDown(s: Ship, thrust: int -> Vec)
    requires Valid(s) && !s.player.spectator
    ensures Step(s, thrust).weaponCooldownRemaining ==
      if s.weaponCooldownRemaining == 0 then 0 else s.weaponCooldownRemaining - 1
  {
  }

  /** Turning with both flags held keeps the heading but still costs the turning energy once. */
  lemma BothTurnFlagsCancel(s: Ship)
    requires s.controls.turnLeftKeyPressed && s.controls.turnRightKeyPressed && s.energy >= TurningEnergyCost
    ensures AttemptToTurn(s).direction == s.direction
    ensures AttemptToTurn(s).energy == s.energy - TurningEnergyCost
  {
  }
}
