# Asteroids: a Dafny model of the game engine and its multiplayer merge

This project models the core of a Java Asteroids game. The player flies a ship in an 800 x 800
arena that wraps around at its edges. The ship fires bullets at asteroids, and an asteroid that is
hit breaks into two smaller successors. Multiplayer games are cooperative (COOP) or deathmatch;
a client can also join as a spectator. In multiplayer, one host runs the authoritative game and
exchanges snapshots with its clients.

The model covers:

- **The entities.** In `game_object.dfy`, `bullet.dfy`, `asteroid.dfy`, `asteroid_size.dfy` and
  `spaceship.dfy`, each entity is a datatype. Each Java method that mutates an entity in place
  becomes a function that returns the updated record. Its contract states the new value of every
  field.
- **The game model** (`game.dfy`). `Games.Game` is a class whose collections are `seq` fields.
  Its methods reassign those fields. The pure operations behind them are functions: merging a
  received bullet, admitting a peer and choosing a colour.
- **The physics tick** (`game_updater.dfy`). A tick has five phases: movement, firing, collisions
  by game mode, removal with successors and scoring, and the periodic random asteroid. Each phase
  is a function on `Games.GameState`. The methods of `GameUpdaters.GameUpdater` compute each phase
  step by step with loops, and each method is proved equal to its phase function. The lemmas
  prove what the phases promise.
- **The multiplayer merge** (`multiplayer.dfy`). This covers the snapshot a client applies, the
  host's admission of clients, and the host folding a client packet into its roster of remote
  ships. The roster scan includes the death handling and the case where that handling fails.

Trigonometry and random draws come in as parameters:

- `thrust` and `muzzle` are functions from the ship's heading to a vector.
- `Asteroids.Jitter` holds the draws behind one successor.
- `GameUpdaters.SpawnDraws` holds the draws behind one spawned asteroid.

Positions and velocities are `real`. Java's `%` on doubles truncates toward zero; it is written
out as `GameObjects.ArenaRem`. Energy, health, score, cooldown and the heading are integers. The
heading counts turning quanta of 0.04 * pi.

Java's `null` appears in two places. A mode that has not been set yet is `Modes.GameMode.NoMode`,
and a colour that has not been chosen yet is `Spaceships.Colour.NoColour`.

Some behaviours of the code are easy to miss; the model states them as the code has them:

- **COOP score.** In COOP the host's shared score becomes the host's score plus the score stored
  in the client's roster entry. A packet copies only location, velocity and heading into that
  entry, so its stored score is never refreshed (`MultiplayerGameUpdaters.MatchCopiesOnlyMotion`).
- **Client roster.** On a client, the remote ships are the host's roster without the local
  ship, followed by the host's own ship. The host's ship is appended even when its identity equals
  the local ship's.
- **Host roster.** On the host, a client ship whose identity is not in the roster is appended
  whatever that identity is. The roster is a list, not a map keyed by identity.
- **Health.** Health can go below 0, because each hit subtracts 10 or 50 without clamping.
- **Failed death handling.** The death handling is a fall-through `switch` on the ship's mode.
  For a ship with no mode it fails, which ends the packet handling early: entries scanned before
  it keep their death handling, nothing is appended, and the packet's bullets are not merged.

## Model

| member | source | states |
|---|---|---|
| AsteroidSizes.Radius | main/java/aoop/asteroids/model/AsteroidSize.java:7-28 | the radii are 10, 20 and 40 for SMALL, MEDIUM and LARGE, all positive |
| AsteroidSizes.SuccessorSize | main/java/aoop/asteroids/model/AsteroidSize.java:34-42 | no successor exactly for SMALL; every successor is half as wide as its parent |
| AsteroidSizes.SuccessorTable | main/java/aoop/asteroids/model/AsteroidSize.java:34-42 | LARGE breaks into MEDIUM, MEDIUM into SMALL, SMALL into nothing |
| AsteroidSizes.Generations | main/java/aoop/asteroids/model/AsteroidSize.java:34-42 | a size has at most two successor generations: none exactly for SMALL, two exactly for LARGE |
| AsteroidSizes.ChainTerminates | main/java/aoop/asteroids/model/AsteroidSize.java:34-42 | repeated breaking reaches SMALL after the size's generations and nothing one step later, within three steps |
| GameObjects.Create | main/java/aoop/asteroids/model/GameObject.java:51-58 | a new object is not destroyed, is immune for its kind's default number of steps, and has an identity in [0, 500) |
| GameObjects.ArenaRem | main/java/aoop/asteroids/model/GameObject.java:76-82 | the double remainder by 800 has the dividend's sign, lies in [0, 800) for a non-negative dividend, is the identity inside the arena, and differs from the dividend by a whole number of extents |
| GameObjects.Step | main/java/aoop/asteroids/model/GameObject.java:76-82 | each coordinate moves by the velocity and wraps; the immunity countdown drops by one while positive and never goes negative; nothing else changes |
| GameObjects.StepStaysInArena | main/java/aoop/asteroids/model/GameObject.java:76-82 | an object in the arena whose velocity components are at least -800 stays in the arena, displaced by its velocity up to whole extents |
| GameObjects.Destroy | main/java/aoop/asteroids/model/GameObject.java:87-89 | sets the destroyed flag and changes nothing else |
| GameObjects.DestroyIdempotent | main/java/aoop/asteroids/model/GameObject.java:87-89 | destroying twice is destroying once, and a destroyed object stays destroyed through a step |
| GameObjects.SetLocation | main/java/aoop/asteroids/model/GameObject.java:105-108 | overwrites the location and nothing else |
| GameObjects.SetVelocity | main/java/aoop/asteroids/model/GameObject.java:117-120 | overwrites the velocity and nothing else |
| GameObjects.CanCollide | main/java/aoop/asteroids/model/GameObject.java:151-153 | an object may collide once its immunity countdown is at most 0 |
| GameObjects.Collides | main/java/aoop/asteroids/model/GameObject.java:144-146 | two objects collide when both may collide and their centre distance is below the radius sum |
| GameObjects.CollidesSymmetric | main/java/aoop/asteroids/model/GameObject.java:144-146 | a collides with b exactly when b collides with a |
| GameObjects.CollidesIgnoresDestroyed | main/java/aoop/asteroids/model/GameObject.java:144-146 | the destroyed flags play no part in a collision |
| GameObjects.ImmuneNeverCollides | main/java/aoop/asteroids/model/GameObject.java:151-153 | an object still immune collides with nothing, either way round |
| GameObjects.CollidesByDistance | main/java/aoop/asteroids/model/GameObject.java:144-153 | once neither is immune, objects collide exactly when the squared centre distance is below the squared radius sum |
| Bullets.NewBullet | main/java/aoop/asteroids/model/Bullet.java:30-32 | a new bullet has radius 0, 45 steps to live and a grace of 3 steps |
| Bullets.Step | main/java/aoop/asteroids/model/Bullet.java:53-61 | a bullet moves, loses one step to live, and is destroyed once none is left; destroyed stays destroyed |
| Bullets.StepsCounters | main/java/aoop/asteroids/model/Bullet.java:53-61 | after n steps a bullet has n fewer steps, is destroyed exactly when it was already destroyed or its counter reached 0, and its grace is max(grace - n, 0) |
| Bullets.BulletLifetime | main/java/aoop/asteroids/model/Bullet.java:13 | left alone, a new bullet survives exactly its first 44 steps and is destroyed from the 45th on |
| Bullets.BulletFirstCollision | main/java/aoop/asteroids/model/Bullet.java:67-69 | a new bullet can collide exactly from its third step on |
| Asteroids.NewAsteroid | main/java/aoop/asteroids/model/Asteroid.java:33-38 | a new asteroid's radius is its size's radius, and it is immune for 30 steps |
| Asteroids.Step | main/java/aoop/asteroids/model/GameObject.java:76-82 | an asteroid's step is the base movement, and its size is kept |
| Asteroids.GenerateSuccessor | main/java/aoop/asteroids/model/Asteroid.java:65-71 | a successor exists exactly when the size has one: at the parent's location, one size smaller, each velocity component within 5 of the parent's |
| Asteroids.Successors | main/java/aoop/asteroids/model/Asteroid.java:46-55 | a destroyed asteroid yields two fresh successors, or none when it is SMALL |
| Asteroids.LargeBreaksIntoTwoMedium | main/java/aoop/asteroids/model/Asteroid.java:46-55 | a LARGE asteroid yields exactly two MEDIUM ones and a SMALL one nothing |
| Spaceships.Reset | main/java/aoop/asteroids/model/Spaceship.java:144-161 | a reset ship is at the centre and at rest, facing up, with no keys pressed, full energy, 100 health, score 0, and not destroyed or spectating; identity, grace, coop score, name, colour and mode are kept |
| Spaceships.ResetIdempotent | main/java/aoop/asteroids/model/Spaceship.java:144-161 | resetting twice is resetting once |
| Spaceships.NewShip | main/java/aoop/asteroids/model/Spaceship.java:136-139 | a new ship is a reset ship with radius 15, a grace of 10 steps, and no name, colour or mode |
| Spaceships.AttemptToTurn | main/java/aoop/asteroids/model/Spaceship.java:281-296 | with 3 energy, left alone turns one quantum anticlockwise and right alone one clockwise; both flags cancel; any flag costs 3 energy once; only heading and energy change |
| Spaceships.AttemptToAccelerate | main/java/aoop/asteroids/model/Spaceship.java:268-274 | with the key held, 5 energy and speed below 20, the heading's thrust is added to the velocity (subtracted on the flipped y axis) for 5 energy; otherwise the ship is unchanged; only velocity and energy change |
| Spaceships.DampenVelocity | main/java/aoop/asteroids/model/Spaceship.java:258-261 | dampening multiplies each velocity component by 0.99, so the ship never speeds up, and changes nothing but the velocity |
| Spaceships.RestWeapon | main/java/aoop/asteroids/model/Spaceship.java:249-253 | a cooldown that is set drops by one, and a cool weapon is left as it is; the cooldown bounds are kept |
| Spaceships.RechargeEnergy | main/java/aoop/asteroids/model/Spaceship.java:240-243 | energy becomes the smaller of energy + 3 and 256; nothing else changes |
| Spaceships.Step | main/java/aoop/asteroids/model/Spaceship.java:224-235 | a spectator does not change; any other ship moves, turns, accelerates, dampens, cools and recharges, in that order; the energy and cooldown bounds are kept and score, health, flags and player data are untouched |
| Spaceships.CanFireWeapon | main/java/aoop/asteroids/model/Spaceship.java:335-337 | the ship may fire when the fire key is held, the weapon is cool and 10 energy is available |
| Spaceships.SetFired | main/java/aoop/asteroids/model/Spaceship.java:342-345 | firing starts a 5-tick cooldown and costs 10 energy; from a state able to fire, the bounds are kept |
| Spaceships.DecreaseHealth | main/java/aoop/asteroids/model/Spaceship.java:92-97 | health drops by the damage, and the ship is destroyed exactly when it was already destroyed or its health is at most 0 |
| Spaceships.IncreaseScore | main/java/aoop/asteroids/model/Spaceship.java:350-352 | one more point and nothing else |
| Spaceships.CooldownCountsDown | main/java/aoop/asteroids/model/Spaceship.java:249-253 | each non-spectator step lowers a set cooldown by one |
| Spaceships.BothTurnFlagsCancel | main/java/aoop/asteroids/model/Spaceship.java:281-296 | both turn keys held keep the heading but still cost the turning energy once |
| Games.Retarget | main/java/aoop/asteroids/model/Game.java:264-266 | a retargeted bullet takes the received bullet's location and velocity and keeps its own lifetime, flags and identity |
| Games.MergeBullet | main/java/aoop/asteroids/model/Game.java:258-273 | a received bullet retargets every bullet with its identity and nothing else, or is appended when none has it |
| Games.MergeBulletReflects | main/java/aoop/asteroids/model/Game.java:258-273 | after a merge, the list holds the received bullet's identity at its location and velocity |
| Games.MergeReflectedIsIdentity | main/java/aoop/asteroids/model/Game.java:258-273 | merging a bullet the list already reflects changes nothing |
| Games.MergeBulletIdempotent | main/java/aoop/asteroids/model/Game.java:258-273 | merging the same bullet twice is merging it once |
| Games.MergeOtherPreservesReflects | main/java/aoop/asteroids/model/Game.java:258-273 | merging a bullet with another identity does not undo an earlier merge |
| Games.MergeBullets | main/java/aoop/asteroids/control/MultiplayerGameUpdater.java:90-95 | every received bullet is merged into the list in turn, front to back |
| Games.MergeBulletsReflectsAll | main/java/aoop/asteroids/model/Game.java:258-273 | after merging bullets with distinct identities, the list reflects every one of them |
| Games.MergeReflectedAllIsIdentity | main/java/aoop/asteroids/model/Game.java:258-273 | merging bullets the list already reflects changes nothing |
| Games.RetargetForgetsMotion | main/java/aoop/asteroids/model/Game.java:264-266 | retargeting two bullets that differ only in motion gives the same bullet |
| Games.AfterMerges | main/java/aoop/asteroids/model/Game.java:258-273 | what a listed bullet becomes under a sequence of merges: only its motion can change, it is untouched when no incoming bullet has its identity, and the last incoming bullet of its identity decides where it ends |
| Games.MergeBulletsPrefix | main/java/aoop/asteroids/model/Game.java:258-273 | merging a list never drops or reorders the bullets already there, and each becomes its AfterMerges |
| Games.MergeBulletsCoversIds | main/java/aoop/asteroids/model/Game.java:258-273 | after a merge the list holds a bullet of every incoming identity and of every identity it held before |
| Games.MergePresentKeepsLength | main/java/aoop/asteroids/model/Game.java:258-273 | merging bullets whose identities are all present appends nothing |
| Games.MergeBulletsSettled | main/java/aoop/asteroids/model/Game.java:258-273 | every bullet of a merged list already is where merging the same bullets again would put it |
| Games.MergeBulletsIdempotent | main/java/aoop/asteroids/model/Game.java:258-273 | merging the same list of bullets twice is merging it once, also when several share an identity |
| Games.ChosenColour | main/java/aoop/asteroids/model/Game.java:302-317 | menu choices 1 to 4 pick red, green, magenta and cyan; any other choice keeps the colour |
| Games.WithClient | main/java/aoop/asteroids/model/Game.java:289-293 | a known address leaves the peer list as it is; a new one is appended at the end; the list stays duplicate-free |
| Games.WithClientIdempotent | main/java/aoop/asteroids/model/Game.java:289-293 | adding a peer twice is adding it once |
| Games.Game.constructor | main/java/aoop/asteroids/model/Game.java:53-56 | a new game has a fresh ship, empty collections and peer list, no mode, and is not running |
| Games.Game.InitializeGameData | main/java/aoop/asteroids/model/Game.java:62-68 | the collections are emptied and the ship is reset and given the current mode |
| Games.Game.InitializeGameDataFor | main/java/aoop/asteroids/model/Game.java:70-75 | the mode, multiplayer and hosting flags are fixed, then the game data is initialized |
| Games.Game.Quit | main/java/aoop/asteroids/model/Game.java:192-208 | afterwards the game is not running |
| Games.Game.IsGameOver | main/java/aoop/asteroids/model/Game.java:157-163 | the game is over exactly when the ship is destroyed, and in single-player that stops it |
| Games.Game.AddSpaceship | main/java/aoop/asteroids/model/Game.java:222-224 | the ship is appended to the remote ships |
| Games.Game.SetSpaceships | main/java/aoop/asteroids/model/Game.java:230-233 | the remote ships become exactly the given list |
| Games.Game.SetAsteroids | main/java/aoop/asteroids/model/Game.java:280-283 | the asteroids become exactly the given list |
| Games.Game.AddBullet | main/java/aoop/asteroids/model/Game.java:258-273 | the in-place loop computes the bullet merge |
| Games.Game.AddClient | main/java/aoop/asteroids/model/Game.java:289-293 | the peer list becomes the list with the client admitted, and stays duplicate-free |
| Games.Game.SetColour | main/java/aoop/asteroids/model/Game.java:302-317 | only the ship's colour changes, to the menu choice |
| GameUpdaters.Moved | main/java/aoop/asteroids/control/GameUpdater.java:125-127 | the movement phase: every asteroid, every bullet and the player's ship make one step |
| GameUpdaters.MovementKeepsCollections | main/java/aoop/asteroids/control/GameUpdater.java:125-127 | movement keeps every length, identity and asteroid size, and leaves remote ships alone; a bullet is destroyed exactly when it was already or had at most one step left |
| GameUpdaters.Fired | main/java/aoop/asteroids/control/GameUpdater.java:128-134 | the firing phase: when the ship may fire, a bullet at the ship with the ship's plus the muzzle velocity, and the weapon marked fired |
| GameUpdaters.FiringAddsOneBullet | main/java/aoop/asteroids/control/GameUpdater.java:128-134 | when the ship may fire, exactly one new bullet is appended at the ship with the ship's velocity plus the muzzle velocity and the ship becomes its setFired self (cooldown and energy cost); otherwise the state is unchanged; the ship's bounds are kept |
| GameUpdaters.BulletHits | main/java/aoop/asteroids/control/GameUpdater.java:194-203 | the bullet hit count is zero exactly when no bullet hits the object |
| GameUpdaters.ShipHits | main/java/aoop/asteroids/control/GameUpdater.java:220-227 | the remote-ship hit count is zero exactly when no remote ship collides with the object |
| GameUpdaters.BulletAfterCollisions | main/java/aoop/asteroids/control/GameUpdater.java:185-204 | a bullet is destroyed by an asteroid it hits outside a deathmatch and by the player's ship outside COOP |
| GameUpdaters.AsteroidAfterCollisions | main/java/aoop/asteroids/control/GameUpdater.java:185-210 | an asteroid is destroyed by a bullet that hits it outside a deathmatch, and by the player's ship in every mode |
| GameUpdaters.ShipAfterBullets | main/java/aoop/asteroids/control/GameUpdater.java:194-203 | the ship after the first n bullets: untouched in COOP, 10 health per hit in a deathmatch, destroyed by any hit otherwise |
| GameUpdaters.ShipAfterCollisions | main/java/aoop/asteroids/control/GameUpdater.java:183-228 | the ship after all checks: bullets outside COOP, asteroids in every mode, and remote ships for 50 health each in a deathmatch |
| GameUpdaters.Collided | main/java/aoop/asteroids/control/GameUpdater.java:183-228 | the collision phase: every bullet, asteroid and the ship after the rules of the mode; remote ships untouched |
| GameUpdaters.AsteroidShipCollisionInEveryMode | main/java/aoop/asteroids/control/GameUpdater.java:206-210 | an asteroid touching the ship destroys it and is destroyed, whatever the mode |
| GameUpdaters.BulletRulesByMode | main/java/aoop/asteroids/control/GameUpdater.java:185-203 | in a deathmatch bullets destroy no asteroid; in COOP bullets neither destroy nor damage the ship |
| GameUpdaters.CollisionsOnlyMark | main/java/aoop/asteroids/control/GameUpdater.java:183-228 | collisions only set destroyed flags and lower health: lengths, remote ships, score and energy are kept |
| GameUpdaters.DeathmatchDamage | main/java/aoop/asteroids/control/GameUpdater.java:197-198 | in a deathmatch the ship loses 10 health per hitting bullet and 50 per colliding remote ship |
| GameUpdaters.CollideWithAsteroids | main/java/aoop/asteroids/control/GameUpdater.java:186-193 | one bullet against every asteroid: each asteroid it hits, and the bullet, are marked destroyed |
| GameUpdaters.CollideWithShip | main/java/aoop/asteroids/control/GameUpdater.java:194-203 | one bullet against the ship: outside COOP a hit destroys the bullet, and either costs 10 health (deathmatch) or destroys the ship |
| GameUpdaters.CollideBullets | main/java/aoop/asteroids/control/GameUpdater.java:185-204 | the bullet pass produces the marked asteroids, the marked bullets and the damaged ship of the collision rules |
| GameUpdaters.CollideAsteroidsWithShip | main/java/aoop/asteroids/control/GameUpdater.java:206-210 | the asteroid pass marks every asteroid touching the ship, and the ship once any does |
| GameUpdaters.RamShips | main/java/aoop/asteroids/control/GameUpdater.java:220-227 | the deathmatch pass costs 50 health per colliding remote ship, destroying the ship once health runs out |
| GameUpdaters.DestroyedCount | main/java/aoop/asteroids/control/GameUpdater.java:249-261 | at most n of the first n asteroids are destroyed |
| GameUpdaters.BreakingCount | main/java/aoop/asteroids/control/GameUpdater.java:249-261 | the asteroids that break are among the destroyed ones |
| GameUpdaters.Spawned | main/java/aoop/asteroids/control/GameUpdater.java:249-261 | the successors of the destroyed asteroids, in order, each from its own draws |
| GameUpdaters.SpawnedAreSuccessors | main/java/aoop/asteroids/control/GameUpdater.java:249-262 | the removal pass spawns two fresh successors per destroyed LARGE or MEDIUM asteroid, each a successor of a destroyed one |
| GameUpdaters.SpawnedFresh | main/java/aoop/asteroids/control/GameUpdater.java:259-264 | every spawned asteroid survives the removal, and there are two per breaking asteroid |
| GameUpdaters.SurvivorsThenSuccessors | main/java/aoop/asteroids/control/GameUpdater.java:262-264 | adding the successors and then dropping destroyed asteroids leaves the survivors in order followed by every successor |
| GameUpdaters.LimitStep | main/java/aoop/asteroids/control/GameUpdater.java:233-239 | one more point raises the asteroid limit exactly when the new score is a multiple of 5 |
| GameUpdaters.LimitGainBounds | main/java/aoop/asteroids/control/GameUpdater.java:233-239 | the asteroid limit never falls, and rises by at most one per five points |
| GameUpdaters.Purged | main/java/aoop/asteroids/control/GameUpdater.java:247-269 | the removal phase: destroyed objects dropped, successors appended after the surviving asteroids, the score raised by the pass's points |
| GameUpdaters.PurgedLeavesNothingDestroyed | main/java/aoop/asteroids/control/GameUpdater.java:247-269 | after removal nothing destroyed remains, every asteroid, bullet and remote ship that was not destroyed remains, and the asteroids are the survivors plus two per breaking asteroid |
| GameUpdaters.ScoreByMode | main/java/aoop/asteroids/control/GameUpdater.java:251-258 | single-player and COOP score one point per destroyed asteroid; other modes score nothing |
| GameUpdaters.FirstFar | main/java/aoop/asteroids/control/GameUpdater.java:155-159 | the index of the first candidate at least 50 from the ship, or -1 when none is |
| GameUpdaters.SizeFor | main/java/aoop/asteroids/control/GameUpdater.java:163-170 | LARGE below 0.333, MEDIUM below 0.666, SMALL otherwise |
| GameUpdaters.RandomAsteroid | main/java/aoop/asteroids/control/GameUpdater.java:150-173 | a spawned asteroid exists exactly when a candidate qualifies: in the arena, at least 50 from the ship, velocity in [-3, 3) on each axis, sized by the draw, fresh |
| GameUpdaters.SpawnGate | main/java/aoop/asteroids/control/GameUpdater.java:139 | a tick may spawn on every 200th count, below the asteroid limit, in single-player or for a host outside a deathmatch |
| GameUpdaters.GameUpdater.constructor | main/java/aoop/asteroids/control/GameUpdater.java:66-71 | a new updater has counted no ticks and starts at the default limit of 7 asteroids |
| GameUpdaters.GameUpdater.StepAll | main/java/aoop/asteroids/control/GameUpdater.java:125-127 | the stepping loops compute the movement phase |
| GameUpdaters.GameUpdater.Fire | main/java/aoop/asteroids/control/GameUpdater.java:128-134 | computes the firing phase |
| GameUpdaters.GameUpdater.CheckCollisions | main/java/aoop/asteroids/control/GameUpdater.java:183-228 | the three collision passes compute the collision rules of the current mode |
| GameUpdaters.GameUpdater.RemoveDestroyedObjects | main/java/aoop/asteroids/control/GameUpdater.java:247-269 | computes the removal phase, and raises the limit by one per multiple of 5 the score passes |
| GameUpdaters.GameUpdater.ScoreDestroyedAsteroids | main/java/aoop/asteroids/control/GameUpdater.java:248-261 | the scoring loop collects every destroyed asteroid's successors and scores each one by mode |
| GameUpdaters.GameUpdater.IncreaseScore | main/java/aoop/asteroids/control/GameUpdater.java:233-239 | one more point, and one more allowed asteroid when the score reaches a multiple of 5 |
| GameUpdaters.GameUpdater.AddRandomAsteroid | main/java/aoop/asteroids/control/GameUpdater.java:150-173 | the rejection loop builds the spawned asteroid from the first acceptable candidate |
| GameUpdaters.GameUpdater.SpawnAsteroid | main/java/aoop/asteroids/control/GameUpdater.java:139-142 | every 200th tick, below the limit, in single-player or for a host outside a deathmatch, the random asteroid is appended |
| GameUpdaters.GameUpdater.AdvanceObjects | main/java/aoop/asteroids/control/GameUpdater.java:122-137 | movement, firing, collisions and removal compose in that order |
| GameUpdaters.GameUpdater.UpdatePhysics | main/java/aoop/asteroids/control/GameUpdater.java:121-144 | one tick: the new state is the composition of the five phases, the tick counter rises by one, and the limit never falls below its default |
| GameUpdaters.GameUpdater.Tick | main/java/aoop/asteroids/control/GameUpdater.java:95-98 | a spectator's game does not change on a tick; any other game counts one more tick, its new state is the moved, fired, collided and purged state plus the spawned asteroid if any, and its asteroid limit is raised by the scoring |
| MultiplayerGameUpdaters.OthersOf | main/java/aoop/asteroids/control/MultiplayerGameUpdater.java:96-105 | the client's rebuilt roster holds exactly the host entries without the local ship's identity: every such entry is kept, no entry with that identity is, and all are kept when none has it |
| MultiplayerGameUpdaters.ApplySnapshot | main/java/aoop/asteroids/control/MultiplayerGameUpdater.java:85-114 | the client's game after a snapshot: host asteroids outside a deathmatch, host bullets merged, the roster rebuilt and ended by the host's ship, the COOP score taken over |
| MultiplayerGameUpdaters.SnapshotEffects | main/java/aoop/asteroids/control/MultiplayerGameUpdater.java:85-114 | a snapshot replaces asteroids outside a deathmatch; the roster is the host's entries without the local ship, in order, then the host's ship; the local ship changes only in its COOP score; every host bullet is reflected |
| MultiplayerGameUpdaters.SnapshotIdempotent | main/java/aoop/asteroids/control/MultiplayerGameUpdater.java:85-114 | applying the same snapshot twice is applying it once, whatever the host's bullet identities |
| MultiplayerGameUpdaters.HandleClientDeath | main/java/aoop/asteroids/control/MultiplayerGameUpdater.java:215-224 | the death handling fails exactly for a ship with no mode; a COOP ship becomes a spectator; any other is unchanged |
| MultiplayerGameUpdaters.HandleClientDeathIdempotent | main/java/aoop/asteroids/control/MultiplayerGameUpdater.java:215-224 | handling a death twice is handling it once |
| MultiplayerGameUpdaters.Scanned | main/java/aoop/asteroids/control/MultiplayerGameUpdater.java:183-186 | a scanned entry is death-handled when destroyed and unchanged otherwise |
| MultiplayerGameUpdaters.StopIndex | main/java/aoop/asteroids/control/MultiplayerGameUpdater.java:183-199 | the scan stops at the first entry that carries the client's identity or whose death handling fails, or at the end |
| MultiplayerGameUpdaters.Adopt | main/java/aoop/asteroids/control/MultiplayerGameUpdater.java:188-190 | the matched entry takes only the client ship's location, velocity and heading |
| MultiplayerGameUpdaters.RosterAfter | main/java/aoop/asteroids/control/MultiplayerGameUpdater.java:183-202 | the roster after a client ship: entries scanned are death-handled; the ship is appended when nothing matched, the matching entry adopts its motion, and a failing death handling leaves the rest as it was |
| MultiplayerGameUpdaters.AcceptPlayer | main/java/aoop/asteroids/control/MultiplayerGameUpdater.java:182-202 | a spectator changes nothing; otherwise the roster becomes the roster after the ship, the call completes unless the death handling failed, and a COOP match sets the shared score |
| MultiplayerGameUpdaters.AcceptClientPacket | main/java/aoop/asteroids/control/MultiplayerGameUpdater.java:178-212 | a packet without a ship changes nothing; otherwise the ship is folded in and, unless that failed, the bullets are merged |
| MultiplayerGameUpdaters.SpectatorLeavesRoster | main/java/aoop/asteroids/control/MultiplayerGameUpdater.java:182-211 | a spectating client's packet leaves roster and ships alone and only merges its bullets |
| MultiplayerGameUpdaters.UnknownShipIsAppended | main/java/aoop/asteroids/control/MultiplayerGameUpdater.java:200-202 | a ship whose identity no entry carries is itself appended after the death-handled entries, the call completes and nothing else changes |
| MultiplayerGameUpdaters.PacketWithoutShipIgnored | main/java/aoop/asteroids/control/MultiplayerGameUpdater.java:178-212 | a packet without a ship changes nothing, even with bullets, and no packet changes asteroids |
| MultiplayerGameUpdaters.AcceptKeepsOneEntryPerId | main/java/aoop/asteroids/control/MultiplayerGameUpdater.java:183-202 | a completed fold leaves one entry for a new identity and as many as before for a known one; an aborted one keeps the roster's length and counts |
| MultiplayerGameUpdaters.SameIdTwiceLeavesOneEntry | main/java/aoop/asteroids/control/MultiplayerGameUpdater.java:183-202 | two ships with one new identity, folded in turn, leave exactly one entry for it |
| MultiplayerGameUpdaters.MatchCopiesOnlyMotion | main/java/aoop/asteroids/control/MultiplayerGameUpdater.java:187-197 | the matched entry takes only the ship's motion and keeps its stored score, health and flags; in COOP the shared score becomes host score plus stored score; earlier entries are only death-handled and later ones untouched |
| MultiplayerGameUpdaters.DeathOnlyTurnsCoopToSpectate | main/java/aoop/asteroids/control/MultiplayerGameUpdater.java:184-186 | the scan changes an entry's mode only from COOP to spectator, for a destroyed entry |
| MultiplayerGameUpdaters.AbortMergesNothing | main/java/aoop/asteroids/control/MultiplayerGameUpdater.java:183-211 | an aborted fold appends nothing, merges no bullet and leaves the host's ship alone |
| MultiplayerGameUpdaters.ScanRoster | main/java/aoop/asteroids/control/MultiplayerGameUpdater.java:183-202 | the scan loop stops at the stop index and produces the roster after the client ship |
| MultiplayerGameUpdaters.FinalScoreAsWritten | main/java/aoop/asteroids/control/MultiplayerGameUpdater.java:136-143 | the reported final score is the coop score in single-player and COOP, 0 otherwise, and fails without a mode |
| MultiplayerGameUpdaters.FinalScore | main/java/aoop/asteroids/control/MultiplayerGameUpdater.java:136-143 | the intended final score: the own score in single-player, the coop score in COOP |
| MultiplayerGameUpdaters.FinalScoreFallThrough | main/java/aoop/asteroids/control/MultiplayerGameUpdater.java:136-143 | the two differ exactly in single-player games whose score differs from the coop score |
| MultiplayerGameUpdaters.MultiplayerGameUpdater.constructor | main/java/aoop/asteroids/control/MultiplayerGameUpdater.java:30-49 | the updater works on the given game |
| MultiplayerGameUpdaters.MultiplayerGameUpdater.UpdateGameSnapshot | main/java/aoop/asteroids/control/MultiplayerGameUpdater.java:85-114 | the client's game becomes the snapshot applied to it |
| MultiplayerGameUpdaters.MultiplayerGameUpdater.RebuildRoster | main/java/aoop/asteroids/control/MultiplayerGameUpdater.java:96-105 | the remote ships become the host's entries other than the local ship, in order |
| MultiplayerGameUpdaters.MultiplayerGameUpdater.AddClient | main/java/aoop/asteroids/control/MultiplayerGameUpdater.java:163-169 | a spectator or a client in the host's mode is admitted to the peer list; any other leaves it unchanged |
| MultiplayerGameUpdaters.MultiplayerGameUpdater.AcceptClientInfo | main/java/aoop/asteroids/control/MultiplayerGameUpdater.java:176-214 | the host's game becomes the client packet folded in, and the result says whether the call completed |
| MultiplayerGameUpdaters.MultiplayerGameUpdater.MergeBulletList | main/java/aoop/asteroids/control/MultiplayerGameUpdater.java:204-211 | the bullets become every received bullet merged in, in order |
| MultiplayerGameUpdaters.MultiplayerGameUpdater.FoldInShip | main/java/aoop/asteroids/control/MultiplayerGameUpdater.java:182-202 | the roster scan with its COOP score update and its abort computes the fold of the client ship |

## Findings

| source | as written | input that shows it | evidently intended | confidence | as-written member | corrected member |
|---|---|---|---|---|---|---|
| main/java/aoop/asteroids/control/MultiplayerGameUpdater.java:137-143 | the single-player case of the final-score `switch` has no `break` and falls through to the COOP case, which overwrites the score with the coop score | a single-player game whose ship scored 7 points and whose coop score is 0 (never set in single-player) reports 0 | single-player reports the ship's own score | high, by reading; not executed | MultiplayerGameUpdaters.FinalScoreAsWritten | MultiplayerGameUpdaters.FinalScore |

## Left out

- **Threads and timing.** The game loop's thread and its timing (milliseconds per tick, display
  frames, `notifyAll`), `synchronized` blocks, and the updater's and receiver's threads are not
  modelled. `GameUpdater.Tick` models one pass of the loop body: the physics runs, or is skipped
  for a spectator.
- **Networking.** Sockets, serialisation, packet sending and relaying (`onGameUpdate`,
  `sendData`, the packet classes' I/O) are left out. A packet is a value: the client packet's
  optional ship and bullet list, and the host snapshot as a `GameState`.
- **Trigonometry.** The sine and cosine of the heading are the `thrust` and `muzzle` parameters,
  so no property depends on floating-point trigonometry.
- **Floating point.** Positions, velocities and dampening are exact reals, not doubles.
  `getSpeed` is compared through the squared speed, which is equivalent for the non-negative
  bound 20.
- **Polar-coordinate helper.** The view's `PolarCoordinate` helper and the direction
  normalisation in the UI are not part of this model.
- **Randomness.** Random draws are parameters: successor jitter and identities, spawn candidates
  and draws, and fresh identities. Their ranges are preconditions.
- **Not modelled:** the user interface, menus, key listeners, persistence and the death listener.
- **Kessler branch.** The asteroid-against-asteroid branch of the collision checks is behind a
  constant that is false, so it is dead code and left out.
- **Aliasing and in-place updates.** Entities are values. Java's in-place mutation of objects
  shared between collections is not modelled, and neither is the aliasing that the clear in
  `setSpaceships`/`setAsteroids` causes.
- **Integer width.** Int overflow of score, counters and identities is not modelled.
  Energy and health, which are doubles in the source, are `int`s; every cost, bound and damage
  amount is a whole number.
  The heading counts turning quanta rather than radians.
- GameUpdaters.GameUpdater.AddRandomAsteroid: the source draws points until one lies at least 50
  from the ship. The model scans a supplied finite sequence of candidate points and returns
  `None` when none qualifies, in which case `SpawnAsteroid` adds nothing.
- MultiplayerGameUpdaters.ScanRoster: the source's for loop with `break` becomes a `while` loop
  whose guard stops at the matching or failing entry. The failing death handling (a
  `NullPointerException` in the source) becomes the early stop that `AcceptClientInfo` reports
  as not completed. The exception itself and its propagation out of the packet handler are not
  modelled.
- **Multiplayer updater run loop.** Its polling and wait loop is not modelled. Its final-score
  `switch` is modelled only as the value it reports (`FinalScoreAsWritten`); the dialog that
  shows it is not.
- **Colour choice.** `setColour` models only the choice among the four menu colours; the colour
  values themselves are names.
