# Shooter scene state machine in Dafny

This project models the game-state bookkeeping of two versions of a Phaser
arcade shooter scene:

- `src/Scenes/ShooterScene.js` ("src"): enemies that take three hits, and an
  upgrade banner whose callback fires 2000 ms after the promotion to level 3
  and brings in the boss. Losing the boss fight waits for R. Dying in
  levels 1 and 2 calls `initGame` at once.
- `GalleyShooterImplementation/src/Scenes/ShooterScene.js` ("Galley"):
  enemies that take one hit. The boss spawns in the same tick the score
  reaches 200. The boss health is set only in the constructor, and every
  death calls `scene.restart()`.

Both scenes share their rules in `arena.dfy` (module `Arena`):
- the constants
- the spawn clock (one enemy every 91 ticks)
- the two promotion checks
- the boss's 3-pixel bounce between x = 50 and x = 590
- the level-2 volley, in which each enemy launches a meteor on a roll below 1

Each version is two layers:
- `World` is a datatype that holds the scene's state as a value. Functions
  over `World` say what `update`, each overlap handler and each delayed
  callback do. Lemmas state how those steps combine over several calls.
- `GameState` is a class with the same fields, updated in place. Each of its
  methods mirrors a method of the scene or a step of one, and its `ensures`
  gives the new `Snapshot()`: the value of the matching function, or for a
  step inside a scene method, a record update of the old snapshot.
  `Valid()` is the scene invariant `Ok`, and every handler preserves it.

The engine's inputs are parameters of the model:
- the keys held or just pressed
- the random draws (`Draws`)
- the set of enemies below the screen
- which objects overlap, as handler arguments

A scheduled `delayedCall` is modelled as a pending entry. For src these are
`pendingUpgrades` and `pendingDefeats`; for Galley it is `pendingDefeat`. A
`Fire…` method runs the callback.

The model follows the code, including these behaviours:
- In src, player health can go below 0. After the boss fight is lost, a laser
  still in flight can hit the waiting player again
  (`Shooter.LostFightKeepsTakingHits`).
- In src, `initGame` cancels neither the pending upgrade nor the pending
  defeat callback. When either fires later, it acts on the new game
  (`Shooter.UpgradeOutlivesRestart`, `Shooter.DefeatOutlivesRestart`).
  `initGame` also leaves the old boss sprite in the scene, where bullets can
  still hit it (`Shooter.ForgottenBossStillHit`).
- In src, the off-screen sweep destroys enemies inside a `forEach` over the
  array it mutates. When two enemies in a row have fallen, the second is not
  removed in that tick (`Shooter.PruneSkipsNeighbour`).
- In Galley, the boss spawns without its health being reset. After a win,
  the next game's boss falls to its first hit
  (`Galley.NextBossFallsAtFirstHit`).

## Model

| member | source | states |
|---|---|---|
| Arena.EnemyPlacement | src/Scenes/ShooterScene.js:275-279 | a new enemy stands at the drawn x, within [50, 590]; in level 1 it starts at y = 0 and falls at 100, in level 2 it hovers at the drawn y, within [50, 200], and does not move |
| Arena.Promote | src/Scenes/ShooterScene.js:148-157 | the level never drops; level 1 reaches 2 exactly when the score is at least 100; a level below 3 reaches 3 exactly when the score is at least 200; below 100 nothing changes |
| Arena.SpawnTick | src/Scenes/ShooterScene.js:142-146 | an enemy spawns exactly when the level is at most 2 and the pre-incremented timer passes 90, and then the timer is 0; otherwise below level 3 the timer grows by one, and at level 3 it is untouched |
| Arena.SpawnRhythm | src/Scenes/ShooterScene.js:142-146 | from a reset timer, after n ticks below level 3 the timer reads n mod 91 and exactly n div 91 enemies have spawned |
| Arena.BossMoveKeepsOrbit | src/Scenes/ShooterScene.js:175-179 | one boss step keeps the boss on its 3-pixel grid within [50, 590], pointing away from a wall it stands on, and the direction flips exactly when it lands on a wall |
| Arena.BossMove | src/Scenes/ShooterScene.js:175-179 | one boss step: x moves by 3 in the current direction and the direction flips when the new x is at or past a wall; its properties are stated by BossMoveKeepsOrbit and OrbitForever |
| Arena.OrbitForever | src/Scenes/ShooterScene.js:175-179 | however many level-3 ticks pass, the boss stays within [50, 590] |
| Arena.SpawnedBossInOrbit | src/Scenes/ShooterScene.js:350-354 | a boss spawned at x = 320 with either direction starts in that orbit |
| Arena.Volley | src/Scenes/ShooterScene.js:159-172 | the meteors one level-2 volley launches while walking the group; its properties are stated by VolleyShape, VolleySlot and QuietVolley, and WalkVolley is proved to compute it |
| Arena.VolleyShape | src/Scenes/ShooterScene.js:159-172 | the volley holds exactly one active meteor per enemy whose roll is below 1, numbered consecutively, each launched from a firing enemy's x |
| Arena.VolleySlot | src/Scenes/ShooterScene.js:159-172 | the k-th enemy, when its roll is below 1, owns id next + Launches(rolls, k), holding an active meteor launched from that enemy's x |
| Arena.QuietVolley | src/Scenes/ShooterScene.js:159-172 | when no roll is below 1 nothing is launched |
| Shooter.Reset | src/Scenes/ShooterScene.js:206-235 | initGame leaves score 0, health 3, level 1, timer 0, no game over, no boss reference, boss health 500, the avatar at x = 320 and all four groups empty, and keeps the boss direction, the boss sprites and the scheduled callbacks; it preserves the invariant |
| Shooter.Prune | src/Scenes/ShooterScene.js:121-126 | the sweep that destroys while walking never grows the group; what it keeps is stated by PruneKeeps, PruneExactWhenSpaced and PruneSkipsNeighbour |
| Shooter.PruneKeeps | src/Scenes/ShooterScene.js:121-126 | the sweep keeps only members of the group, and keeps every enemy that is still on screen |
| Shooter.PruneExactWhenSpaced | src/Scenes/ShooterScene.js:121-126 | when no two off-screen enemies are neighbours, the sweep removes exactly the off-screen enemies, as a plain filter does |
| Shooter.PruneSkipsNeighbour | src/Scenes/ShooterScene.js:121-126 | with three off-screen enemies in a row, the sweep leaves the middle one in the group while a plain filter leaves none |
| Shooter.Steer | src/Scenes/ShooterScene.js:128-130 | A alone moves the avatar 8 pixels left, D alone 8 right, both or neither leave it where it is |
| Shooter.Shoot | src/Scenes/ShooterScene.js:132-140 | SPACE adds one bullet, under a fresh id, at the avatar's x, and only the bullets and the id counter change |
| Shooter.WithEnemy | src/Scenes/ShooterScene.js:269-283 | spawnEnemy appends one enemy with 3 hit points at its level's placement, keeps the existing enemies in order, and changes nothing but the group and the id counter |
| Shooter.SpawnStep | src/Scenes/ShooterScene.js:142-146 | the spawn clock ticks as SpawnTick says; the group gains a new enemy, under the next id and at its level's placement, exactly when the clock fires; only the timer, the group and the id counter change, and the invariant holds |
| Shooter.Advance | src/Scenes/ShooterScene.js:148-157 | the level becomes Promote(level, score), and one upgrade callback is scheduled exactly when the level reaches 3 from below; nothing else changes |
| Shooter.ScheduleUpgrade | src/Scenes/ShooterScene.js:286-299 | showUpgradeAndSpawnBoss changes nothing but the number of scheduled upgrade callbacks, which grows by one |
| Shooter.EnemyFire | src/Scenes/ShooterScene.js:159-172 | only level 2 launches meteors: the meteor group gains exactly the volley of the enemy group (one active meteor per enemy whose roll fires, from its x, under consecutive fresh ids) and nothing but the meteors and the id counter changes |
| Shooter.BossTurn | src/Scenes/ShooterScene.js:174-183 | at level 3 with a boss, the boss takes one bounce step and keeps its orbit, and a laser is launched from its new x exactly when the roll is below 2 (otherwise lasers and the id counter stay); only the boss sprites, the direction, the lasers and the id counter change; otherwise nothing changes |
| Shooter.Armed | src/Scenes/ShooterScene.js:121-140 | the group becomes what the sweep leaves, the avatar moves as Steer says, and SPACE adds one bullet under the next id at the avatar's new x (without SPACE, bullets and ids are untouched); nothing else changes and the invariant holds |
| Shooter.Tick | src/Scenes/ShooterScene.js:110-194 | update keeps the invariant; while the game is over it only restarts, on R, and otherwise does nothing; while it runs it is Play |
| Shooter.Play | src/Scenes/ShooterScene.js:121-183 | a live tick keeps score, health, boss health, the scheduled defeats and the running game, raises the level to Promote(level, score), and schedules the upgrade exactly when it starts below level 3 with 200 points |
| Shooter.PlaySpawns | src/Scenes/ShooterScene.js:121-146 | after a live tick the group is the swept group, followed by one new enemy with 3 hit points at its level's placement exactly when the spawn clock fires |
| Shooter.Upgraded | src/Scenes/ShooterScene.js:299-346 | the upgrade callback clears the enemies and spawns a fresh active boss at x = 320 with 500 health at whatever level the game is at by then; score, health, level, game over and the projectile groups are untouched |
| Shooter.WithBoss | src/Scenes/ShooterScene.js:350-362 | spawnBoss adds an active sprite at x = 320 under a fresh id, points this.boss at it and sets boss health to 500, and changes nothing else |
| Shooter.Defeated | src/Scenes/ShooterScene.js:415-422 | the defeat callback drops the oldest scheduled defeat, destroys the sprite it captured and ends the game; nothing else changes, so this.boss still names that sprite |
| Shooter.HitEnemy | src/Scenes/ShooterScene.js:379-390 | the bullet goes; an enemy with more than one hit point loses one and is otherwise unchanged, in place, with the score unchanged, the hit that takes it to 0 removes it and scores 10; only bullets, enemies and score change |
| Shooter.HitBoss | src/Scenes/ShooterScene.js:393-424 | an inactive bullet or sprite changes nothing; otherwise the bullet goes and boss health drops by one, and reaching 0 deactivates that sprite (and no other) and schedules its defeat; only bullets, boss health, sprites and scheduled defeats change |
| Shooter.Damaged | src/Scenes/ShooterScene.js:440-454 | one hit point less; at 0 a level-3 player waits for R with score and level kept, an earlier one restarts at once |
| Shooter.Rammed | src/Scenes/ShooterScene.js:427-430 | the enemy goes and the player takes one hit, keeping the invariant |
| Shooter.HitByProjectile | src/Scenes/ShooterScene.js:433-437 | a disabled projectile does nothing; an active one is disabled, the other group untouched, and the player loses one hit point; at 0 a level-3 player waits for R with everything else kept, and an earlier one restarts |
| Shooter.ThreeHitsKill | src/Scenes/ShooterScene.js:379-390 | a fresh enemy survives two distinct live bullets without scoring, and the third removes it and scores 10 |
| Shooter.DefeatIsFinal | src/Scenes/ShooterScene.js:393-424 | the last hit schedules the sprite's defeat, and later hits on that sprite change nothing |
| Shooter.UpgradeOutlivesRestart | src/Scenes/ShooterScene.js:299-346 | an upgrade scheduled before initGame still fires after it and brings an active boss with 500 health into level 1 |
| Shooter.DefeatOutlivesRestart | src/Scenes/ShooterScene.js:415-422 | a defeat scheduled before initGame still fires after it and ends the new game at level 1 with score 0 |
| Shooter.ForgottenBossStillHit | src/Scenes/ShooterScene.js:206-213 | initGame forgets this.boss, but a new bullet that reaches the old sprite still costs the new game's boss health a point |
| Shooter.DefeatKeepsDeadReference | src/Scenes/ShooterScene.js:415-422 | after the defeat callback this.boss names a sprite that has been destroyed |
| Shooter.LostFightKeepsTakingHits | src/Scenes/ShooterScene.js:433-454 | after the boss fight is lost, an active laser still takes the waiting player's health below 0 |
| Shooter.HandlersKeepProgress | src/Scenes/ShooterScene.js:379-424 | no bullet handler or delayed callback lowers the level or resumes a finished game; only bulletHitsEnemy changes the score, and only upwards; the defeat callback always ends the game |
| Shooter.DamageKeepsProgress | src/Scenes/ShooterScene.js:427-454 | a hit on the player keeps level and score and never resumes a finished game, unless it restarts a game below level 3 |
| Shooter.UpgradeOncePerEntry | src/Scenes/ShooterScene.js:153-157 | the tick that promotes to level 3 schedules one upgrade, and the next tick schedules none |
| Shooter.SweepGroup | src/Scenes/ShooterScene.js:121-126 | the forEach walk that destroys while walking gives exactly Prune |
| Shooter.WalkVolley | src/Scenes/ShooterScene.js:160-171 | the forEach walk launches exactly the volley Volley describes and advances the id counter by Launches |
| Shooter.GameState.constructor | src/Scenes/ShooterScene.js:4-23 | constructor and create end in the state initGame leaves, with no boss sprites, no scheduled callbacks and direction 1 |
| Shooter.GameState.InitGame | src/Scenes/ShooterScene.js:197-266 | the state becomes Reset of the old state |
| Shooter.GameState.ResetProgress | src/Scenes/ShooterScene.js:207-210 | score, health, level and timer return to their starting values and nothing else changes |
| Shooter.GameState.ClearGroups | src/Scenes/ShooterScene.js:231-235 | the four groups are emptied and nothing else changes |
| Shooter.GameState.Update | src/Scenes/ShooterScene.js:110-194 | the state becomes Tick of the old state and stays valid |
| Shooter.GameState.PlayFrame | src/Scenes/ShooterScene.js:121-183 | the state becomes Play of the old state |
| Shooter.GameState.HandleInput | src/Scenes/ShooterScene.js:121-140 | the state becomes Armed of the old state |
| Shooter.GameState.SpawnAndPromote | src/Scenes/ShooterScene.js:142-157 | the state becomes the spawn step followed by the promotion checks |
| Shooter.GameState.SweepFallen | src/Scenes/ShooterScene.js:121-126 | the enemy group becomes Prune of the old group and nothing else changes |
| Shooter.GameState.MovePlayer | src/Scenes/ShooterScene.js:128-130 | the avatar's x becomes Steer of the old x and nothing else changes |
| Shooter.GameState.FireBullet | src/Scenes/ShooterScene.js:132-140 | the state becomes Shoot of the old state |
| Shooter.GameState.CountToSpawn | src/Scenes/ShooterScene.js:142-146 | the state becomes SpawnStep of the old state |
| Shooter.GameState.CheckLevels | src/Scenes/ShooterScene.js:148-157 | the state becomes Advance of the old state |
| Shooter.GameState.MoveBoss | src/Scenes/ShooterScene.js:174-183 | the state becomes BossTurn of the old state |
| Shooter.GameState.FireBossLaser | src/Scenes/ShooterScene.js:365-376 | one active laser at the boss's x, under a fresh id, and nothing else changes |
| Shooter.GameState.SpawnEnemy | src/Scenes/ShooterScene.js:269-283 | the state becomes WithEnemy of the old state |
| Shooter.GameState.ShowUpgradeAndSpawnBoss | src/Scenes/ShooterScene.js:286-299 | the state becomes ScheduleUpgrade of the old state |
| Shooter.GameState.LaunchMeteors | src/Scenes/ShooterScene.js:159-172 | the state becomes EnemyFire of the old state |
| Shooter.GameState.FireUpgrade | src/Scenes/ShooterScene.js:299-346 | the state becomes Upgraded of the old state and stays valid |
| Shooter.GameState.SpawnBoss | src/Scenes/ShooterScene.js:350-362 | the state becomes WithBoss of the old state |
| Shooter.GameState.FireDefeat | src/Scenes/ShooterScene.js:415-422 | the state becomes Defeated of the old state and stays valid |
| Shooter.GameState.BulletHitsEnemy | src/Scenes/ShooterScene.js:379-390 | the state becomes HitEnemy of the old state and stays valid |
| Shooter.GameState.BulletHitsBoss | src/Scenes/ShooterScene.js:393-424 | the state becomes HitBoss of the old state and stays valid |
| Shooter.GameState.KnockOut | src/Scenes/ShooterScene.js:411-415 | the sprite is deactivated and its defeat appended to the scheduled defeats, and nothing else changes |
| Shooter.GameState.EnemyHitsPlayer | src/Scenes/ShooterScene.js:427-430 | the state becomes Rammed of the old state and stays valid |
| Shooter.GameState.PlayerHitByBullet | src/Scenes/ShooterScene.js:433-437 | the state becomes HitByProjectile of the old state and stays valid |
| Shooter.GameState.TakeDamage | src/Scenes/ShooterScene.js:440-454 | the state becomes Damaged of the old state |
| Galley.Restarted | GalleyShooterImplementation/src/Scenes/ShooterScene.js:50-74 | a restart leaves score 0, health 3, level 1, an empty scene, no scheduled defeat and an inactive remembered boss, and carries boss health, direction and the id counter over; it preserves the invariant |
| Galley.Steer | GalleyShooterImplementation/src/Scenes/ShooterScene.js:116-117 | A moves the avatar 8 pixels left even when D is held too; D alone moves it 8 right |
| Galley.Shoot | GalleyShooterImplementation/src/Scenes/ShooterScene.js:120-123 | SPACE adds one bullet, under a fresh id, at the avatar's x; only the bullets and the id counter change |
| Galley.Armed | GalleyShooterImplementation/src/Scenes/ShooterScene.js:116-123 | the avatar moves as Steer says, and SPACE adds one bullet under the next id at the avatar's new x (without SPACE, bullets and ids are untouched); nothing else changes and the invariant holds |
| Galley.WithEnemy | GalleyShooterImplementation/src/Scenes/ShooterScene.js:171-177 | spawnEnemy appends one enemy at its level's placement and changes nothing else |
| Galley.SpawnStep | GalleyShooterImplementation/src/Scenes/ShooterScene.js:126-129 | the group gains a new enemy exactly when the spawn clock fires, and only the timer and the group change |
| Galley.SpawnKeepsOk | GalleyShooterImplementation/src/Scenes/ShooterScene.js:126-129 | the spawn step keeps the invariant |
| Galley.Advance | GalleyShooterImplementation/src/Scenes/ShooterScene.js:132-144 | the level becomes Promote(level, score); reaching 3 clears the enemies and spawns an active boss at x = 320, without touching boss health |
| Galley.PromotionKeepsOk | GalleyShooterImplementation/src/Scenes/ShooterScene.js:132-144 | a promotion in a running game keeps the invariant |
| Galley.EnemyFire | GalleyShooterImplementation/src/Scenes/ShooterScene.js:147-155 | only level 2 launches meteors: the meteor group gains exactly the volley of the enemy group, and nothing but the meteors and the id counter changes |
| Galley.BossTurn | GalleyShooterImplementation/src/Scenes/ShooterScene.js:158-162 | at level 3 the boss, active or not, takes one bounce step, and a laser is launched from its new x exactly when the roll is below 2 (otherwise lasers and the id counter stay); only the boss, the direction, the lasers and the id counter change |
| Galley.Tick | GalleyShooterImplementation/src/Scenes/ShooterScene.js:107-168 | update keeps the invariant; while the game is over it only restarts, on R; while it runs it is Play |
| Galley.Play | GalleyShooterImplementation/src/Scenes/ShooterScene.js:113-162 | a live tick keeps score, health, boss health and the running game, and raises the level to Promote(level, score) |
| Galley.HitEnemy | GalleyShooterImplementation/src/Scenes/ShooterScene.js:200-206 | the first hit removes the bullet and the enemy and scores 10; nothing else changes |
| Galley.HitBoss | GalleyShooterImplementation/src/Scenes/ShooterScene.js:209-230 | an inactive bullet or boss changes nothing; otherwise the bullet goes and boss health drops by one; health at 0 or below deactivates the boss in place and schedules the defeat, health above 0 leaves boss and schedule as they were; nothing else changes |
| Galley.Defeated | GalleyShooterImplementation/src/Scenes/ShooterScene.js:220-228 | the defeat callback forgets the boss and ends the game |
| Galley.Damaged | GalleyShooterImplementation/src/Scenes/ShooterScene.js:246-250 | one hit point less, and a restart when health reaches 0, at any level |
| Galley.Rammed | GalleyShooterImplementation/src/Scenes/ShooterScene.js:233-236 | the enemy goes and the player loses one hit point with everything else kept, or, at the last hit point, the scene restarts |
| Galley.HitByProjectile | GalleyShooterImplementation/src/Scenes/ShooterScene.js:239-243 | a disabled projectile does nothing; an active one is disabled, the other group untouched, and the player loses one hit point with everything else kept, or the scene restarts |
| Galley.BossArrivesOnPromotion | GalleyShooterImplementation/src/Scenes/ShooterScene.js:132-144 | the tick that reaches 200 points brings an active boss within [50, 590] into an empty field, with boss health as it was |
| Galley.TickKeepsBossHealth | GalleyShooterImplementation/src/Scenes/ShooterScene.js:107-168 | neither a tick nor a restart changes boss health |
| Galley.HandlersKeepBossHealth | GalleyShooterImplementation/src/Scenes/ShooterScene.js:200-250 | no handler raises boss health; only bulletHitsBoss lowers it, by one |
| Galley.NextBossFallsAtFirstHit | GalleyShooterImplementation/src/Scenes/ShooterScene.js:180-188 | after a win, boss health stays at 0 or below across the restart, and the next boss is knocked out by its first hit |
| Galley.DefeatIsFinal | GalleyShooterImplementation/src/Scenes/ShooterScene.js:209-230 | the last hit schedules the defeat, and later hits change nothing |
| Galley.KnockedOutBossStillFires | GalleyShooterImplementation/src/Scenes/ShooterScene.js:158-162 | until the defeat callback fires, the inactive boss keeps launching active lasers |
| Galley.RestartForgetsTheFight | GalleyShooterImplementation/src/Scenes/ShooterScene.js:246-250 | the last hit point lost at any level restarts at level 1 with score 0 and full health, keeping boss health |
| Galley.WalkVolley | GalleyShooterImplementation/src/Scenes/ShooterScene.js:148-154 | the iterate walk launches exactly the volley Volley describes and advances the id counter by Launches |
| Galley.GameState.constructor | GalleyShooterImplementation/src/Scenes/ShooterScene.js:5-23 | constructor and create leave the fresh state, with boss health 500, direction 1 and no boss |
| Galley.GameState.Restart | GalleyShooterImplementation/src/Scenes/ShooterScene.js:249 | the state becomes Restarted of the old state |
| Galley.GameState.Shutdown | GalleyShooterImplementation/src/Scenes/ShooterScene.js:249 | the scheduled defeat is cancelled and the remembered boss deactivated, and nothing else changes |
| Galley.GameState.Create | GalleyShooterImplementation/src/Scenes/ShooterScene.js:50-74 | create resets the game fields, the avatar and the four groups, and nothing else |
| Galley.GameState.ResetProgress | GalleyShooterImplementation/src/Scenes/ShooterScene.js:54-57 | score, health, level and timer return to their starting values and nothing else changes |
| Galley.GameState.NewGroups | GalleyShooterImplementation/src/Scenes/ShooterScene.js:71-74 | the four groups are empty and nothing else changes |
| Galley.GameState.Update | GalleyShooterImplementation/src/Scenes/ShooterScene.js:107-168 | the state becomes Tick of the old state and stays valid |
| Galley.GameState.PlayFrame | GalleyShooterImplementation/src/Scenes/ShooterScene.js:113-162 | the state becomes Play of the old state |
| Galley.GameState.HandleInput | GalleyShooterImplementation/src/Scenes/ShooterScene.js:116-123 | the state becomes Armed of the old state |
| Galley.GameState.SpawnAndPromote | GalleyShooterImplementation/src/Scenes/ShooterScene.js:126-144 | the state becomes the spawn step followed by the promotion checks |
| Galley.GameState.SpawnEnemy | GalleyShooterImplementation/src/Scenes/ShooterScene.js:171-177 | the state becomes WithEnemy of the old state |
| Galley.GameState.CheckLevels | GalleyShooterImplementation/src/Scenes/ShooterScene.js:132-144 | the state becomes Advance of the old state |
| Galley.GameState.SpawnBoss | GalleyShooterImplementation/src/Scenes/ShooterScene.js:180-188 | this.boss becomes an active boss at x = 320, and nothing else changes, boss health included |
| Galley.GameState.LaunchMeteors | GalleyShooterImplementation/src/Scenes/ShooterScene.js:147-155 | the state becomes EnemyFire of the old state |
| Galley.GameState.MoveBoss | GalleyShooterImplementation/src/Scenes/ShooterScene.js:158-162 | the state becomes BossTurn of the old state |
| Galley.GameState.FireBossLaser | GalleyShooterImplementation/src/Scenes/ShooterScene.js:191-197 | one active laser at the boss's x, under a fresh id, and nothing else changes |
| Galley.GameState.BulletHitsEnemy | GalleyShooterImplementation/src/Scenes/ShooterScene.js:200-206 | the state becomes HitEnemy of the old state and stays valid |
| Galley.GameState.BulletHitsBoss | GalleyShooterImplementation/src/Scenes/ShooterScene.js:209-230 | the state becomes HitBoss of the old state and stays valid |
| Galley.GameState.FireDefeat | GalleyShooterImplementation/src/Scenes/ShooterScene.js:220-228 | the state becomes Defeated of the old state and stays valid |
| Galley.GameState.EnemyHitsPlayer | GalleyShooterImplementation/src/Scenes/ShooterScene.js:233-236 | the state becomes Rammed of the old state and stays valid |
| Galley.GameState.PlayerHitByBullet | GalleyShooterImplementation/src/Scenes/ShooterScene.js:239-243 | the state becomes HitByProjectile of the old state and stays valid |
| Galley.GameState.TakeDamage | GalleyShooterImplementation/src/Scenes/ShooterScene.js:246-250 | the state becomes Damaged of the old state |

## Left out

- Rendering, audio, on-screen text, the boss health bar, the puff animation, camera shakes and the tile map: presentation only, with no effect on the game state.
- Positions and velocities of moving objects are not integrated. Physics decides which enemies are below the screen and which objects overlap, and the model takes both as inputs (the `fallen` set and the handler arguments). An enemy's recorded y is its spawn y.
- World-bounds clamping of the avatar and the boss (`setCollideWorldBounds`): it belongs to the physics engine. The boss's bounce keeps its x within [50, 590], so clamping is assumed never to move it; that holds if the boss sprite is at most 100 pixels wide, which the code does not state.
- `Phaser.Math.Between` and `GetRandom`: the draws are parameters (`Draws`). The sprite texture an enemy gets is not modelled.
- Timers: each `delayedCall` is a pending entry, and the model does not say when it fires. Callers fire it with `FireUpgrade` or `FireDefeat`.
- Overlap registration, including the extra bullet-versus-enemy overlap src adds on every `initGame`: the handlers take the objects the engine reports. An enemy argument is an index into the live group, and the bullet given to bulletHitsEnemy is a live bullet, because the engine reports only live members; bulletHitsBoss checks `active` itself, so the model keeps that check.
- In Galley the avatar overlaps are registered once, in `create`, against the first avatar. The level-3 swap destroys that avatar, so from then on the engine no longer calls `enemyHitsPlayer` or `playerHitByBullet`. The model's handlers do not check the level, because the source handlers do not; callers must not call them at level 3 of Galley.
- Galley's `scene.restart()` runs when the engine next steps, not inside the call. The model restarts at once and keeps what the constructor set: boss health, boss direction and the (now destroyed) boss reference.
- The avatar swap at level 3 (whale to ship) keeps the avatar's position, so the model does not change state for it.
- `src/Scenes/TinyTownScene.js` and `GalleyShooterImplementation/src/main.js` are not part of this model: they set up the tile map and the game configuration.
- Shooter.Prune: its own contract states only that the sweep never grows the group. What it keeps is stated by `Shooter.PruneKeeps`, `Shooter.PruneExactWhenSpaced` and `Shooter.PruneSkipsNeighbour`.
