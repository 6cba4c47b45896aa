/** The game-state bookkeeping of src/Scenes/ShooterScene.js: three-hit
    enemies, a level-3 upgrade that arrives 2000 ms after the promotion, a
    boss whose defeat lands 300 ms after its last hit, and a death policy
    that restarts at once in levels 1 and 2 but waits for R in level 3.

    `World` is the scene's state as a value and the functions over it say
    what each handler does; `GameState` holds the same state in fields that
    its methods update in place, each method proved to take the state to
    the value the matching function gives. */
module Shooter {
  import opened Arena

  const EnemyToughness := 3
  const MeteorRollMax := 800

  /** A regular enemy: an id Phaser's physics can report it by, where it was
      spawned, and the hits it can still take. */
  datatype Enemy = Enemy(id: nat, at: Placement, health: int)

  function EnemyX(e: Enemy): int { e.at.x }

  /** A boss sprite: its x and whether it is still active. A sprite leaves
      the map of sprites only when it is destroyed. */
  datatype BossSprite = BossSprite(x: int, active: bool)

  /** The scene's state. `boss` is `this.boss`, a reference into `bosses`
      (or to a sprite already destroyed); `bullets` maps each player bullet
      to its x; `pendingUpgrades` counts scheduled upgrade callbacks and
      `pendingDefeats` lists, in firing order, the boss sprites whose
      defeat callbacks are scheduled; `nextId` numbers new game objects. */
  datatype World = World(
    score: int, health: int, level: int, spawnTimer: int, gameOver: bool,
    bossHealth: int, bossDirection: int,
    boss: Option<nat>, bosses: map<nat, BossSprite>,
    playerX: int,
    enemies: seq<Enemy>, bullets: map<nat, int>,
    meteors: map<nat, Shot>, lasers: map<nat, Shot>,
    pendingUpgrades: nat, pendingDefeats: seq<nat>,
    nextId: nat)

  /** The scene's invariant. */
  ghost predicate Ok(w: World)
  {
    && 1 <= w.level <= 3
    && (w.bossDirection == 1 || w.bossDirection == -1)
    && w.score >= 0 && w.score % KillScore == 0
    && w.health <= StartHealth
    // health reaches 0 only in a lost boss fight waiting for R
    && (w.health <= 0 ==> w.gameOver && w.level == 3)
    && (forall id :: id in w.bullets ==> id < w.nextId)
    && (forall id :: id in w.meteors ==> id < w.nextId)
    && (forall id :: id in w.lasers ==> id < w.nextId)
    && (forall id :: id in w.bosses ==> id < w.nextId && InBand(w.bosses[id].x))
    // while the game runs, this.boss is a live sprite on its orbit
    && (!w.gameOver && w.boss.Some? ==>
          w.boss.value in w.bosses && Orbit(Glide(w.bosses[w.boss.value].x, w.bossDirection)))
  }

  /** The state initGame leaves behind. */
  ghost predicate Fresh(w: World)
  {
    && w.score == 0 && w.health == StartHealth && w.level == 1 && w.spawnTimer == 0
    && !w.gameOver && w.boss == None && w.bossHealth == MaxBossHealth
    && w.playerX == PlayerStartX
    && w.enemies == [] && w.bullets == map[] && w.meteors == map[] && w.lasers == map[]
  }

  /** What initGame does not touch: the boss's direction, boss sprites that
      were never destroyed, callbacks already scheduled. */
  ghost predicate Carried(w: World, r: World)
  {
    && r.bossDirection == w.bossDirection && r.bosses == w.bosses
    && r.pendingUpgrades == w.pendingUpgrades && r.pendingDefeats == w.pendingDefeats
    && r.nextId == w.nextId
  }

  // ---------------------------------------------------------------------
  // The state transitions

  function Reset(w: World): (r: World)
    ensures Fresh(r) && Carried(w, r)
    ensures Ok(w) ==> Ok(r)
  {
    w.(score := 0, health := StartHealth, level := 1, spawnTimer := 0, gameOver := false,
       boss := None, bossHealth := MaxBossHealth, playerX := PlayerStartX,
       enemies := [], bullets := map[], meteors := map[], lasers := map[])
  }

  /** The off-screen sweep of update: the group is walked with forEach while
      enemy.destroy() removes members from the very array being walked, so
      the member that slides into a removed one's slot is not visited in
      this tick. */
  function Prune(s: seq<Enemy>, fallen: set<nat>): (r: seq<Enemy>)
    ensures |r| <= |s|
    decreases |s|
  {
    if |s| == 0 then []
    else if s[0].id !in fallen then [s[0]] + Prune(s[1..], fallen)
    else if |s| == 1 then []
    else [s[1]] + Prune(s[2..], fallen)
  }

  /** The sweep keeps only members of the group, and every member still on
      screen. */
  lemma {:induction false} PruneKeeps(s: seq<Enemy>, fallen: set<nat>)
    ensures forall e :: e in Prune(s, fallen) ==> e in s
    ensures forall e :: e in s && e.id !in fallen ==> e in Prune(s, fallen)
    decreases |s|
  {
    if |s| == 1 {
    } else if |s| > 1 {
      PruneKeeps(s[1..], fallen);
      PruneKeeps(s[2..], fallen);
      assert s == [s[0]] + s[1..] && s[1..] == [s[1]] + s[2..];
    }
  }

  /** A and D: each held key moves the avatar 8 pixels, so holding both
      leaves it where it is. */
  function Steer(x: int, left: bool, right: bool): (r: int)
    ensures left == right ==> r == x
    ensures left && !right ==> r == x - PlayerStep
    ensures right && !left ==> r == x + PlayerStep
  {
    var moved := if left then x - PlayerStep else x;
    if right then moved + PlayerStep else moved
  }

  /** The fields only the promotion checks, the spawn clock and the
      handlers change. */
  ghost predicate Steady(w: World, r: World)
  {
    && r.score == w.score && r.health == w.health && r.gameOver == w.gameOver
    && r.level == w.level && r.pendingUpgrades == w.pendingUpgrades
  }

  function Shoot(w: World): (r: World)
    ensures r.bullets == w.bullets[w.nextId := w.playerX] && r.nextId == w.nextId + 1
    ensures r == w.(bullets := r.bullets, nextId := r.nextId)
    ensures Ok(w) ==> Ok(r) && w.nextId !in w.bullets
  {
    w.(bullets := w.bullets[w.nextId := w.playerX], nextId := w.nextId + 1)
  }

  /** spawnEnemy: one more enemy at the end of the group, with full health. */
  function WithEnemy(w: World, drawX: int, drawY: int): (r: World)
    requires w.level == 1 || w.level == 2
    requires FieldLeft <= drawX <= FieldRight && HoverTop <= drawY <= HoverBottom
    ensures |r.enemies| == |w.enemies| + 1 && r.enemies[..|w.enemies|] == w.enemies
    ensures r.enemies[|w.enemies|].health == EnemyToughness
    ensures r.enemies[|w.enemies|].at == EnemyPlacement(w.level, drawX, drawY)
    ensures r == w.(enemies := r.enemies, nextId := w.nextId + 1)
    ensures Ok(w) ==> Ok(r)
  {
    w.(enemies := w.enemies + [Enemy(w.nextId, EnemyPlacement(w.level, drawX, drawY), EnemyToughness)],
       nextId := w.nextId + 1)
  }

  /** Ok does not look at the enemies, the spawn clock, the avatar or the
      pending callbacks, and a larger id counter only helps. */
  lemma OkOnlyIdsGrow(w: World, r: World)
    requires r.level == w.level && r.bossDirection == w.bossDirection && r.score == w.score
    requires r.health == w.health && r.gameOver == w.gameOver && r.boss == w.boss
    requires r.bullets == w.bullets && r.meteors == w.meteors && r.lasers == w.lasers && r.bosses == w.bosses
    requires r.nextId >= w.nextId
    ensures Ok(w) ==> Ok(r)
  {
  }

  /** The spawn step of update: short-circuited at level 3. */
  function SpawnStep(w: World, drawX: int, drawY: int): (r: World)
    requires 1 <= w.level <= 3
    requires FieldLeft <= drawX <= FieldRight && HoverTop <= drawY <= HoverBottom
    ensures r.spawnTimer == SpawnTick(w.level, w.spawnTimer).timer
    ensures r.enemies == if SpawnTick(w.level, w.spawnTimer).spawned
                         then w.enemies + [Enemy(w.nextId, EnemyPlacement(w.level, drawX, drawY), EnemyToughness)]
                         else w.enemies
    ensures r.nextId == w.nextId + if SpawnTick(w.level, w.spawnTimer).spawned then 1 else 0
    ensures r == w.(spawnTimer := r.spawnTimer, enemies := r.enemies, nextId := r.nextId)
    ensures Ok(w) ==> Ok(r)
  {
    if w.level <= 2 then
      var timer := w.spawnTimer + 1;
      if timer > SpawnDelay then
        var r := WithEnemy(w, drawX, drawY).(spawnTimer := 0);
        OkOnlyIdsGrow(w, r);
        r
      else
        OkOnlyIdsGrow(w, w.(spawnTimer := timer));
        w.(spawnTimer := timer)
    else w
  }

  /** The two promotion checks; reaching level 3 schedules the upgrade. */
  function Advance(w: World): (r: World)
    requires 1 <= w.level <= 3
    ensures r.level == Promote(w.level, w.score)
    ensures r.pendingUpgrades == w.pendingUpgrades + if w.level < 3 && r.level == 3 then 1 else 0
    ensures r == w.(level := r.level, pendingUpgrades := r.pendingUpgrades)
    ensures Ok(w) ==> Ok(r)
  {
    var level := Promote(w.level, w.score);
    if w.level < 3 && level == 3 then ScheduleUpgrade(w.(level := level))
    else w.(level := level)
  }

  /** showUpgradeAndSpawnBoss: shows the banner and schedules the upgrade. */
  function ScheduleUpgrade(w: World): (r: World)
    ensures r.pendingUpgrades == w.pendingUpgrades + 1
    ensures r == w.(pendingUpgrades := r.pendingUpgrades)
  {
    w.(pendingUpgrades := w.pendingUpgrades + 1)
  }

  /** The level-2 volley: every enemy whose roll is below 1 launches a meteor. */
  function EnemyFire(w: World, rolls: seq<int>): (r: World)
    requires |rolls| >= |w.enemies|
    ensures w.level != 2 ==> r == w
    ensures w.level == 2 ==> r.nextId == w.nextId + Launches(rolls, |w.enemies|)
    ensures w.level == 2 ==> r.meteors == w.meteors + Volley(w.enemies, EnemyX, rolls, w.nextId)
    ensures r == w.(meteors := r.meteors, nextId := r.nextId)
    ensures Ok(w) ==> Ok(r)
  {
    if w.level == 2 then
      VolleyShape(w.enemies, EnemyX, rolls, w.nextId);
      w.(meteors := w.meteors + Volley(w.enemies, EnemyX, rolls, w.nextId),
         nextId := w.nextId + Launches(rolls, |w.enemies|))
    else w
  }

  /** The boss step of update: move, bounce, and fire a laser on a roll
      below 2. */
  function BossTurn(w: World, laserRoll: int): (r: World)
    requires Ok(w) && !w.gameOver
    ensures Ok(r)
    ensures Steady(w, r) && r.spawnTimer == w.spawnTimer && r.enemies == w.enemies
    ensures w.level != 3 || w.boss.None? ==> r == w
    ensures w.level == 3 && w.boss.Some? ==>
              && r.boss == w.boss && r.boss.value in r.bosses
              && r.bosses == w.bosses[w.boss.value := w.bosses[w.boss.value].(x := r.bosses[r.boss.value].x)]
              && Glide(r.bosses[r.boss.value].x, r.bossDirection) ==
                   BossMove(Glide(w.bosses[w.boss.value].x, w.bossDirection))
              && (laserRoll < LaserChance <==> r.nextId == w.nextId + 1)
              && (laserRoll < LaserChance ==> r.lasers == w.lasers[w.nextId := Shot(r.bosses[r.boss.value].x, true)])
              && (laserRoll >= LaserChance ==> r.lasers == w.lasers && r.nextId == w.nextId)
    ensures r == w.(bosses := r.bosses, bossDirection := r.bossDirection, lasers := r.lasers, nextId := r.nextId)
  {
    if w.level == 3 && w.boss.Some? then
      var s := w.bosses[w.boss.value];
      var g := BossMove(Glide(s.x, w.bossDirection));
      BossMoveKeepsOrbit(Glide(s.x, w.bossDirection));
      var moved := w.(bosses := w.bosses[w.boss.value := s.(x := g.x)], bossDirection := g.dir);
      if laserRoll < LaserChance then
        moved.(lasers := moved.lasers[moved.nextId := Shot(g.x, true)], nextId := moved.nextId + 1)
      else moved
    else w
  }

  /** The first steps of update: the off-screen sweep, the avatar's move and
      the bullet SPACE fires. */
  function Armed(w: World, keys: Keys, fallen: set<nat>): (r: World)
    requires Ok(w)
    ensures r.enemies == Prune(w.enemies, fallen)
    ensures r.playerX == Steer(w.playerX, keys.left, keys.right)
    ensures keys.shoot ==> r.bullets == w.bullets[w.nextId := r.playerX] && r.nextId == w.nextId + 1
    ensures !keys.shoot ==> r.bullets == w.bullets && r.nextId == w.nextId
    ensures r == w.(enemies := r.enemies, playerX := r.playerX, bullets := r.bullets, nextId := r.nextId)
    ensures Ok(r)
  {
    var swept := w.(enemies := Prune(w.enemies, fallen), playerX := Steer(w.playerX, keys.left, keys.right));
    if keys.shoot then Shoot(swept) else swept
  }

  /** One call of update. While the game is over it only watches R. */
  function Tick(w: World, keys: Keys, d: Draws, fallen: set<nat>): (r: World)
    requires Ok(w) && Drawn(d, MeteorRollMax, |w.enemies|)
    ensures Ok(r)
    ensures w.gameOver ==> r == if keys.restart then Reset(w) else w
    ensures !w.gameOver ==> r == Play(w, keys, d, fallen)
  {
    if w.gameOver then
      if keys.restart then Reset(w) else w
    else Play(w, keys, d, fallen)
  }

  /** The body of update past the game-over check: sweep, move, fire,
      spawn, promote, volley, boss. Score and health stay as they are, the
      level only rises, and the upgrade is scheduled exactly when the tick
      starts below level 3 with a score of 200 or more. */
  function Play(w: World, keys: Keys, d: Draws, fallen: set<nat>): (r: World)
    requires Ok(w) && !w.gameOver && Drawn(d, MeteorRollMax, |w.enemies|)
    ensures Ok(r)
    ensures r.score == w.score && r.health == w.health && !r.gameOver
    ensures r.bossHealth == w.bossHealth && r.pendingDefeats == w.pendingDefeats
    ensures r.level == Promote(w.level, w.score) && r.level >= w.level
    ensures r.pendingUpgrades == w.pendingUpgrades + if w.level < 3 && w.score >= Level3Score then 1 else 0
    ensures r.spawnTimer == SpawnTick(w.level, w.spawnTimer).timer
  {
    var spawned := SpawnStep(Armed(w, keys, fallen), d.enemyX, d.enemyY);
    var promoted := Advance(spawned);
    var fired := EnemyFire(promoted, d.meteorRolls);
    BossTurn(fired, d.laserRoll)
  }

  /** The 2000 ms upgrade callback: clears the enemies and spawns a fresh
      boss, whatever the level is by then. */
  function Upgraded(w: World): (r: World)
    requires w.pendingUpgrades > 0
    ensures r.pendingUpgrades == w.pendingUpgrades - 1 && r.enemies == []
    ensures r.boss == Some(w.nextId) && r.bosses == w.bosses[w.nextId := BossSprite(BossStartX, true)]
    ensures r.bossHealth == MaxBossHealth && r.nextId == w.nextId + 1
    ensures r == w.(pendingUpgrades := r.pendingUpgrades, enemies := [], boss := r.boss, bosses := r.bosses,
                    bossHealth := r.bossHealth, nextId := r.nextId)
    ensures Ok(w) ==> Ok(r)
  {
    WithBoss(w.(pendingUpgrades := w.pendingUpgrades - 1, enemies := []))
  }

  /** spawnBoss: a new boss sprite at x = 320 with full health. */
  function WithBoss(w: World): (r: World)
    ensures r.boss == Some(w.nextId) && r.bossHealth == MaxBossHealth
    ensures r.bosses == w.bosses[w.nextId := BossSprite(BossStartX, true)] && r.nextId == w.nextId + 1
    ensures w.nextId !in w.bosses ==> |r.bosses| == |w.bosses| + 1
    ensures r == w.(boss := r.boss, bosses := r.bosses, bossHealth := r.bossHealth, nextId := r.nextId)
    ensures Ok(w) ==> Ok(r)
  {
    w.(boss := Some(w.nextId), bosses := w.bosses[w.nextId := BossSprite(BossStartX, true)],
       bossHealth := MaxBossHealth, nextId := w.nextId + 1)
  }

  /** The 300 ms defeat callback: destroys the sprite it captured and ends
      the game; this.boss is left pointing at the destroyed sprite. */
  function Defeated(w: World): (r: World)
    requires |w.pendingDefeats| > 0
    ensures r.gameOver && r.boss == w.boss && w.pendingDefeats[0] !in r.bosses
    ensures r == w.(pendingDefeats := w.pendingDefeats[1..], bosses := w.bosses - {w.pendingDefeats[0]}, gameOver := true)
    ensures Ok(w) ==> Ok(r)
  {
    w.(pendingDefeats := w.pendingDefeats[1..], bosses := w.bosses - {w.pendingDefeats[0]}, gameOver := true)
  }

  /** bulletHitsEnemy: the bullet goes, the enemy loses one hit point, and
      only the hit that takes it to 0 destroys it and scores 10. */
  function HitEnemy(w: World, bullet: nat, k: nat): (r: World)
    requires bullet in w.bullets && k < |w.enemies|
    ensures bullet !in r.bullets && r.bullets == w.bullets - {bullet}
    ensures w.enemies[k].health <= 1 ==>
              r.enemies == w.enemies[..k] + w.enemies[k + 1..] && r.score == w.score + KillScore
    ensures w.enemies[k].health > 1 ==>
              r.enemies == w.enemies[k := w.enemies[k].(health := w.enemies[k].health - 1)] &&
              r.score == w.score
    ensures r == w.(bullets := r.bullets, enemies := r.enemies, score := r.score)
    ensures Ok(w) ==> Ok(r)
  {
    var e := w.enemies[k];
    var spent := w.(bullets := w.bullets - {bullet});
    if e.health - 1 <= 0 then
      spent.(enemies := w.enemies[..k] + w.enemies[k + 1..], score := w.score + KillScore)
    else
      spent.(enemies := w.enemies[k := e.(health := e.health - 1)])
  }

  /** bulletHitsBoss: nothing happens unless the bullet and the sprite are
      both active; otherwise the bullet goes and the boss loses one hit
      point, and the hit that takes it to 0 deactivates the sprite and
      schedules its defeat. */
  function HitBoss(w: World, bullet: nat, sprite: nat): (r: World)
    ensures bullet !in w.bullets || sprite !in w.bosses || !w.bosses[sprite].active ==> r == w
    ensures bullet in w.bullets && sprite in w.bosses && w.bosses[sprite].active ==>
              && r.bullets == w.bullets - {bullet}
              && r.bossHealth == w.bossHealth - 1
              && r.score == w.score
              && (r.bossHealth <= 0 ==> r.pendingDefeats == w.pendingDefeats + [sprite] &&
                                        r.bosses == w.bosses[sprite := w.bosses[sprite].(active := false)])
              && (r.bossHealth > 0 ==> r.pendingDefeats == w.pendingDefeats && r.bosses == w.bosses)
    ensures r == w.(bullets := r.bullets, bossHealth := r.bossHealth, bosses := r.bosses, pendingDefeats := r.pendingDefeats)
    ensures Ok(w) ==> Ok(r)
  {
    if bullet !in w.bullets || sprite !in w.bosses || !w.bosses[sprite].active then w
    else
      var hit := w.(bullets := w.bullets - {bullet}, bossHealth := w.bossHealth - 1);
      if hit.bossHealth <= 0 then
        hit.(bosses := w.bosses[sprite := w.bosses[sprite].(active := false)],
             pendingDefeats := w.pendingDefeats + [sprite])
      else hit
  }

  /** takeDamage: one hit point less; at 0 or below a level-3 player waits
      for R with score and level kept, an earlier one restarts at once. */
  function Damaged(w: World): (r: World)
    ensures w.health - 1 > 0 ==> r == w.(health := w.health - 1)
    ensures w.health - 1 <= 0 && w.level == 3 ==>
              r == w.(health := w.health - 1, gameOver := true)
    ensures w.health - 1 <= 0 && w.level != 3 ==> Fresh(r) && Carried(w, r)
    ensures Ok(w) ==> Ok(r)
  {
    var hurt := w.(health := w.health - 1);
    if hurt.health <= 0 then
      if hurt.level == 3 then hurt.(gameOver := true) else Reset(hurt)
    else hurt
  }

  /** enemyHitsPlayer: the enemy goes and the player takes one hit. */
  function Rammed(w: World, k: nat): (r: World)
    requires k < |w.enemies|
    ensures r == Damaged(w.(enemies := w.enemies[..k] + w.enemies[k + 1..]))
    ensures Ok(w) ==> Ok(r)
  {
    Damaged(w.(enemies := w.enemies[..k] + w.enemies[k + 1..]))
  }

  function Group(w: World, kind: Barrage): map<nat, Shot>
  {
    if kind == Meteor then w.meteors else w.lasers
  }

  /** Of the two projectile groups, only shot `id` of `kind` has changed,
      and it is now disabled. */
  ghost predicate Disarmed(w: World, r: World, kind: Barrage, id: nat)
    requires id in Group(w, kind)
  {
    && Group(r, kind) == Group(w, kind)[id := Group(w, kind)[id].(active := false)]
    && Group(r, Other(kind)) == Group(w, Other(kind))
  }

  /** playerHitByBullet: a disabled projectile does nothing; an active one
      is disabled and the player takes one hit, with takeDamage's policy
      for the last hit point. */
  function HitByProjectile(w: World, kind: Barrage, id: nat): (r: World)
    ensures id !in Group(w, kind) || !Group(w, kind)[id].active ==> r == w
    ensures id in Group(w, kind) && Group(w, kind)[id].active && w.health > 1 ==>
              Disarmed(w, r, kind, id) && r == w.(meteors := r.meteors, lasers := r.lasers, health := w.health - 1)
    ensures id in Group(w, kind) && Group(w, kind)[id].active && w.health <= 1 && w.level == 3 ==>
              Disarmed(w, r, kind, id) &&
              r == w.(meteors := r.meteors, lasers := r.lasers, health := w.health - 1, gameOver := true)
    ensures id in Group(w, kind) && Group(w, kind)[id].active && w.health <= 1 && w.level != 3 ==>
              Fresh(r) && Carried(w, r)
    ensures Ok(w) ==> Ok(r)
  {
    var group := Group(w, kind);
    if id !in group || !group[id].active then w
    else
      var spent := group[id := group[id].(active := false)];
      Damaged(if kind == Meteor then w.(meteors := spent) else w.(lasers := spent))
  }

  // ---------------------------------------------------------------------
  // Properties of the transitions

  /** A live tick's enemy group: the swept group, then the new enemy when
      the spawn clock fires, with 3 hit points at the placement of its
      level. */
  lemma PlaySpawns(w: World, keys: Keys, d: Draws, fallen: set<nat>)
    requires Ok(w) && !w.gameOver && Drawn(d, MeteorRollMax, |w.enemies|)
    ensures var r := Play(w, keys, d, fallen);
            var kept := Prune(w.enemies, fallen);
            var clock := SpawnTick(w.level, w.spawnTimer);
            && |r.enemies| == |kept| + (if clock.spawned then 1 else 0)
            && r.enemies[..|kept|] == kept
            && (clock.spawned ==>
                  r.enemies[|kept|].health == EnemyToughness &&
                  r.enemies[|kept|].at == EnemyPlacement(w.level, d.enemyX, d.enemyY))
  {
    var kept := Prune(w.enemies, fallen);
    var spawned := SpawnStep(Armed(w, keys, fallen), d.enemyX, d.enemyY);
    PlayKeepsSpawned(w, keys, d, fallen);
    if SpawnTick(w.level, w.spawnTimer).spawned {
      var e := Enemy(Armed(w, keys, fallen).nextId, EnemyPlacement(w.level, d.enemyX, d.enemyY), EnemyToughness);
      assert spawned.enemies == kept + [e];
      assert (kept + [e])[..|kept|] == kept;
    } else {
      assert spawned.enemies == kept;
    }
  }

  lemma PlayKeepsSpawned(w: World, keys: Keys, d: Draws, fallen: set<nat>)
    requires Ok(w) && !w.gameOver && Drawn(d, MeteorRollMax, |w.enemies|)
    ensures Play(w, keys, d, fallen).enemies == SpawnStep(Armed(w, keys, fallen), d.enemyX, d.enemyY).enemies
  {
  }

  /** The enemies a sweep that never skipped would keep. */
  function Landed(s: seq<Enemy>, fallen: set<nat>): seq<Enemy>
    decreases |s|
  {
    if |s| == 0 then [] else (if s[0].id in fallen then [] else [s[0]]) + Landed(s[1..], fallen)
  }

  /** No two neighbours of the group are off screen together. */
  predicate Spaced(s: seq<Enemy>, fallen: set<nat>)
  {
    forall i :: 0 <= i < |s| - 1 ==> s[i].id !in fallen || s[i + 1].id !in fallen
  }

  /** As long as no two off-screen enemies are neighbours, the sweep removes
      exactly the off-screen enemies. */
  lemma {:induction false} PruneExactWhenSpaced(s: seq<Enemy>, fallen: set<nat>)
    requires Spaced(s, fallen)
    ensures Prune(s, fallen) == Landed(s, fallen)
    decreases |s|
  {
    if |s| > 0 {
      assert Spaced(s[1..], fallen) by {
        forall i | 0 <= i < |s[1..]| - 1 ensures s[1..][i].id !in fallen || s[1..][i + 1].id !in fallen {
          assert s[1..][i] == s[i + 1] && s[1..][i + 1] == s[i + 2];
        }
      }
      PruneExactWhenSpaced(s[1..], fallen);
      if s[0].id in fallen && |s| > 1 {
        assert s[1].id !in fallen;
        assert s[1..][1..] == s[2..];
        assert Landed(s[1..], fallen) == [s[1]] + Landed(s[2..], fallen);
        assert Spaced(s[2..], fallen) by {
          forall i | 0 <= i < |s[2..]| - 1 ensures s[2..][i].id !in fallen || s[2..][i + 1].id !in fallen {
            assert s[2..][i] == s[i + 2] && s[2..][i + 1] == s[i + 3];
          }
        }
        PruneExactWhenSpaced(s[2..], fallen);
      }
    }
  }

  /** ... but two off-screen neighbours are not both removed: the second
      one slides into the first one's slot and is not visited. */
  lemma PruneSkipsNeighbour(a: Enemy, b: Enemy, c: Enemy, fallen: set<nat>)
    requires a.id in fallen && b.id in fallen && c.id in fallen
    ensures Prune([a, b, c], fallen) == [b]
    ensures Landed([a, b, c], fallen) == []
  {
    assert [a, b, c][2..] == [c] && [c][1..] == [];
    assert [a, b, c][1..] == [b, c] && [b, c][1..] == [c];
    assert Landed([c], fallen) == [];
    assert Landed([b, c], fallen) == [];
  }

  /** A fresh enemy survives two bullets without scoring, and the third
      bullet destroys it and scores 10, once; the three bullets are
      distinct live bullets. */
  lemma ThreeHitsKill(w: World, k: nat, b1: nat, b2: nat, b3: nat)
    requires k < |w.enemies| && w.enemies[k].health == EnemyToughness
    requires b1 in w.bullets && b2 in w.bullets && b3 in w.bullets
    requires b1 != b2 && b1 != b3 && b2 != b3
    ensures var w1 := HitEnemy(w, b1, k);
            var w2 := HitEnemy(w1, b2, k);
            var w3 := HitEnemy(w2, b3, k);
            && |w2.enemies| == |w.enemies| && w2.enemies[k].health == 1
            && w1.score == w.score && w2.score == w.score
            && w3.score == w.score + KillScore
            && w3.enemies == w.enemies[..k] + w.enemies[k + 1..]
  {
    var w1 := HitEnemy(w, b1, k);
    var w2 := HitEnemy(w1, b2, k);
    assert w2.enemies[..k] == w.enemies[..k];
    assert w2.enemies[k + 1..] == w.enemies[k + 1..];
  }

  /** Once a hit has scheduled a sprite's defeat, later hits on that sprite
      change nothing, so its defeat is scheduled only once. */
  lemma DefeatIsFinal(w: World, bullet: nat, sprite: nat, later: nat)
    requires bullet in w.bullets && sprite in w.bosses && w.bosses[sprite].active
    requires w.bossHealth <= 1
    ensures HitBoss(w, bullet, sprite).pendingDefeats == w.pendingDefeats + [sprite]
    ensures HitBoss(HitBoss(w, bullet, sprite), later, sprite) == HitBoss(w, bullet, sprite)
  {
  }

  /** initGame does not cancel a scheduled upgrade: when it fires after the
      restart it clears the enemies and brings a fresh boss into level 1. */
  lemma UpgradeOutlivesRestart(w: World)
    requires Ok(w) && w.pendingUpgrades > 0
    ensures var r := Upgraded(Reset(w));
            && r.level == 1 && !r.gameOver && r.score == 0
            && r.boss.Some? && r.boss.value in r.bosses && r.bosses[r.boss.value].active
            && r.bossHealth == MaxBossHealth && r.enemies == []
  {
  }

  /** initGame does not cancel a scheduled defeat either: when it fires
      after the restart it ends the new game at once. */
  lemma DefeatOutlivesRestart(w: World)
    requires Ok(w) && |w.pendingDefeats| > 0
    ensures var r := Defeated(Reset(w));
            r.gameOver && r.level == 1 && r.score == 0 && r.health == StartHealth
  {
  }

  /** initGame forgets this.boss but leaves its sprite in the scene, and a
      new bullet that reaches the forgotten sprite still wears down the
      boss health of the new game. */
  lemma ForgottenBossStillHit(w: World, sprite: nat)
    requires Ok(w) && sprite in w.bosses && w.bosses[sprite].active
    ensures var restarted := Shoot(Reset(w));
            var r := HitBoss(restarted, restarted.nextId - 1, sprite);
            && restarted.boss == None && r.level == 1
            && r.bossHealth == MaxBossHealth - 1
  {
    var restarted := Shoot(Reset(w));
    assert restarted.nextId - 1 in restarted.bullets;
  }

  /** The defeat callback leaves this.boss pointing at the sprite it has
      just destroyed. */
  lemma DefeatKeepsDeadReference(w: World)
    requires |w.pendingDefeats| > 0 && w.boss == Some(w.pendingDefeats[0])
    ensures Defeated(w).boss.Some? && Defeated(w).boss.value !in Defeated(w).bosses
  {
  }

  /** Player health can go below zero: after losing the boss fight, a laser
      still in flight hits the waiting player again. */
  lemma LostFightKeepsTakingHits(w: World, id: nat)
    requires Ok(w) && w.gameOver && w.level == 3 && w.health <= 0
    requires id in w.lasers && w.lasers[id].active
    ensures var r := HitByProjectile(w, Laser, id);
            r.health == w.health - 1 && r.health < 0 && r.gameOver && r.level == 3 && r.score == w.score
  {
  }

  /** No handler or callback lowers the level or resumes a finished game,
      and only bulletHitsEnemy changes the score, and only upwards. */
  lemma HandlersKeepProgress(w: World, bullet: nat, sprite: nat, k: nat)
    ensures var r := HitBoss(w, bullet, sprite);
            r.level == w.level && r.gameOver == w.gameOver && r.score == w.score
    ensures bullet in w.bullets && k < |w.enemies| ==>
              var r := HitEnemy(w, bullet, k);
              r.level == w.level && r.gameOver == w.gameOver && r.score >= w.score
    ensures w.pendingUpgrades > 0 ==> Upgraded(w).level == w.level && Upgraded(w).gameOver == w.gameOver
    ensures |w.pendingDefeats| > 0 ==> Defeated(w).level == w.level && Defeated(w).gameOver
  {
  }

  /** A hit on the player keeps level and score and never resumes a
      finished game, unless it is the last hit point lost below level 3,
      which restarts the game. */
  lemma DamageKeepsProgress(w: World, k: nat, kind: Barrage, id: nat)
    ensures Progressed(w, Damaged(w))
    ensures k < |w.enemies| ==> Progressed(w, Rammed(w, k))
    ensures Progressed(w, HitByProjectile(w, kind, id))
  {
    if k < |w.enemies| {
      var v := w.(enemies := w.enemies[..k] + w.enemies[k + 1..]);
      assert Progressed(v, Damaged(v));
    }
    var group := Group(w, kind);
    if id in group && group[id].active {
      var spent := group[id := group[id].(active := false)];
      var v := if kind == Meteor then w.(meteors := spent) else w.(lasers := spent);
      assert Progressed(v, Damaged(v));
    }
  }

  /** Level and score are kept and a finished game stays finished, or the
      game restarted from below level 3. */
  ghost predicate Progressed(w: World, r: World)
  {
    (r.level == w.level && r.score == w.score && (w.gameOver ==> r.gameOver)) || (w.level != 3 && Fresh(r))
  }

  /** The upgrade is scheduled once per entry into level 3: the tick that
      promotes schedules it, and no later tick at level 3 does. */
  lemma UpgradeOncePerEntry(w: World, keys: Keys, d: Draws, fallen: set<nat>,
                            keys': Keys, d': Draws, fallen': set<nat>)
    requires Ok(w) && !w.gameOver && w.level < 3 && w.score >= Level3Score
    requires Drawn(d, MeteorRollMax, |w.enemies|)
    ensures var r := Play(w, keys, d, fallen);
            && r.level == 3 && r.pendingUpgrades == w.pendingUpgrades + 1
            && (Drawn(d', MeteorRollMax, |r.enemies|) ==>
                  Tick(r, keys', d', fallen').pendingUpgrades == r.pendingUpgrades)
  {
  }

  /** One step of the sweep's walk: a fallen member is removed and the walk
      moves past the member that took its slot; any other is kept. */
  lemma SweepStep(g: seq<Enemy>, i: nat, fallen: set<nat>)
    requires i < |g|
    ensures g[i].id in fallen ==>
              var h := g[..i] + g[i + 1..];
              var j := if i + 1 <= |h| then i + 1 else |h|;
              h[..j] + Prune(h[j..], fallen) == g[..i] + Prune(g[i..], fallen)
    ensures g[i].id !in fallen ==> g[..i + 1] + Prune(g[i + 1..], fallen) == g[..i] + Prune(g[i..], fallen)
  {
    var t := g[i..];
    assert t[0] == g[i] && t[1..] == g[i + 1..];
    if g[i].id !in fallen {
      assert Prune(t, fallen) == [g[i]] + Prune(g[i + 1..], fallen);
      assert g[..i + 1] == g[..i] + [g[i]];
    } else if i + 1 < |g| {
      assert t[2..] == g[i + 2..];
      assert Prune(t, fallen) == [g[i + 1]] + Prune(g[i + 2..], fallen);
      var h := g[..i] + g[i + 1..];
      assert h[..i + 1] == g[..i] + [g[i + 1]];
      assert h[i + 1..] == g[i + 2..];
    } else {
      assert Prune(t, fallen) == [];
      assert g[..i] + g[i + 1..] == g[..i];
    }
  }

  /** The forEach walk of the sweep: a fallen member is destroyed, which
      removes it from the array being walked, so its successor slides into
      the slot just visited and is skipped. */
  method SweepGroup(s: seq<Enemy>, fallen: set<nat>) returns (group: seq<Enemy>)
    ensures group == Prune(s, fallen)
  {
    group := s;
    var i := 0;
    while i < |group|
      invariant 0 <= i <= |group| + 1
      invariant var j := if i <= |group| then i else |group|;
                group[..j] + Prune(group[j..], fallen) == Prune(s, fallen)
    {
      SweepStep(group, i, fallen);
      if group[i].id in fallen {
        // remove the member, so its successor slides into slot i ...
        group := group[..i] + group[i + 1..];
      }
      // ... and move on to slot i + 1 all the same
      i := i + 1;
    }
    assert group[..|group|] == group && group[|group|..] == [];
  }

  /** The forEach walk of the level-2 volley: every member whose roll is
      below 1 launches a meteor from its x, numbered from `first` on. */
  method WalkVolley(group: seq<Enemy>, rolls: seq<int>, first: nat) returns (launched: map<nat, Shot>, next: nat)
    requires |rolls| >= |group|
    ensures launched == Volley(group, EnemyX, rolls, first)
    ensures next == first + Launches(rolls, |group|)
  {
    launched, next := map[], first;
    var i := 0;
    while i < |group|
      invariant 0 <= i <= |group|
      invariant launched == Volley(group[..i], EnemyX, rolls, first)
      invariant next == first + Launches(rolls, i)
    {
      VolleyStep(group, EnemyX, rolls, first, i);
      if rolls[i] < 1 {
        launched := launched[next := Shot(group[i].at.x, true)];
        next := next + 1;
      }
      i := i + 1;
    }
    assert group[..i] == group;
  }

  // ---------------------------------------------------------------------
  // The scene object

  class GameState {
    var score: int
    var health: int
    var level: int
    var spawnTimer: int
    var gameOver: bool
    var bossHealth: int
    var bossDirection: int
    var boss: Option<nat>
    var bosses: map<nat, BossSprite>
    var playerX: int
    var enemies: seq<Enemy>
    var bullets: map<nat, int>
    var meteors: map<nat, Shot>
    var lasers: map<nat, Shot>
    var pendingUpgrades: nat
    var pendingDefeats: seq<nat>
    var nextId: nat

    ghost function Snapshot(): World
      reads this
    {
      World(score, health, level, spawnTimer, gameOver, bossHealth, bossDirection, boss, bosses,
            playerX, enemies, bullets, meteors, lasers, pendingUpgrades, pendingDefeats, nextId)
    }

    ghost predicate Valid()
      reads this
    {
      Ok(Snapshot())
    }

    /** The constructor, then create, which ends in initGame. */
    constructor ()
      ensures Valid() && Fresh(Snapshot())
      ensures bossDirection == 1 && bosses == map[] && pendingUpgrades == 0 && pendingDefeats == []
    {
      boss := None;
      bossDirection := 1;
      bosses := map[];
      pendingUpgrades := 0;
      pendingDefeats := [];
      nextId := 0;
      score, health, level, spawnTimer, gameOver, bossHealth := 0, 0, 1, 0, false, 0;
      playerX, enemies, bullets, meteors, lasers := 0, [], map[], map[], map[];
      new;
      InitGame();
    }

    method InitGame()
      modifies this
      ensures Snapshot() == Reset(old(Snapshot()))
    {
      ResetProgress();
      gameOver := false;
      boss := None;
      bossHealth := MaxBossHealth;
      // the avatar is destroyed and recreated at its base position
      playerX := PlayerStartX;
      ClearGroups();
    }

    /** Score, health, level and spawn clock back to their starting values. */
    method ResetProgress()
      modifies this
      ensures Snapshot() == old(Snapshot()).(score := 0, health := StartHealth, level := 1, spawnTimer := 0)
    {
      score := 0;
      health := StartHealth;
      level := 1;
      spawnTimer := 0;
    }

    /** clear(true, true) on the bullet, enemy, meteor and laser groups. */
    method ClearGroups()
      modifies this
      ensures Snapshot() == old(Snapshot()).(bullets := map[], enemies := [], meteors := map[], lasers := map[])
    {
      bullets := map[];
      enemies := [];
      meteors := map[];
      lasers := map[];
    }

    method Update(keys: Keys, d: Draws, fallen: set<nat>)
      requires Valid() && Drawn(d, MeteorRollMax, |enemies|)
      modifies this
      ensures Valid()
      ensures Snapshot() == Tick(old(Snapshot()), keys, d, fallen)
    {
      if gameOver {
        if keys.restart {
          InitGame();
        }
        return;
      }
      PlayFrame(keys, d, fallen);
    }

    /** The body of update while the game runs. */
    method PlayFrame(keys: Keys, d: Draws, fallen: set<nat>)
      requires Valid() && !gameOver && Drawn(d, MeteorRollMax, |enemies|)
      modifies this
      ensures Snapshot() == Play(old(Snapshot()), keys, d, fallen)
    {
      HandleInput(keys, fallen);
      SpawnAndPromote(d.enemyX, d.enemyY);
      if level == 2 {
        LaunchMeteors(d.meteorRolls);
      }
      MoveBoss(d.laserRoll);
    }

    /** The sweep, the avatar's move and the shot: the steps of update that
        precede the spawn clock. */
    method HandleInput(keys: Keys, fallen: set<nat>)
      requires Valid()
      modifies this
      ensures Snapshot() == Armed(old(Snapshot()), keys, fallen)
    {
      SweepFallen(fallen);
      MovePlayer(keys.left, keys.right);
      if keys.shoot {
        FireBullet();
      }
    }

    /** The spawn clock, then the two level transitions. */
    method SpawnAndPromote(drawX: int, drawY: int)
      requires Valid()
      requires FieldLeft <= drawX <= FieldRight && HoverTop <= drawY <= HoverBottom
      modifies this
      ensures Snapshot() == Advance(SpawnStep(old(Snapshot()), drawX, drawY))
    {
      CountToSpawn(drawX, drawY);
      CheckLevels();
    }

    /** The off-screen sweep of the enemy group. */
    method SweepFallen(fallen: set<nat>)
      modifies this
      ensures Snapshot() == old(Snapshot()).(enemies := Prune(old(enemies), fallen))
    {
      enemies := SweepGroup(enemies, fallen);
    }

    /** A and D move the avatar 8 pixels each. */
    method MovePlayer(left: bool, right: bool)
      modifies this
      ensures Snapshot() == old(Snapshot()).(playerX := Steer(old(playerX), left, right))
    {
      if left {
        playerX := playerX - PlayerStep;
      }
      if right {
        playerX := playerX + PlayerStep;
      }
    }

    /** SPACE: a new bullet at the avatar's x. */
    method FireBullet()
      modifies this
      ensures Snapshot() == Shoot(old(Snapshot()))
    {
      bullets := bullets[nextId := playerX];
      nextId := nextId + 1;
    }

    /** The spawn clock: below level 3 the timer is pre-incremented and an
        enemy spawned once it passes 90. */
    method CountToSpawn(drawX: int, drawY: int)
      requires 1 <= level <= 3
      requires FieldLeft <= drawX <= FieldRight && HoverTop <= drawY <= HoverBottom
      modifies this
      ensures Snapshot() == SpawnStep(old(Snapshot()), drawX, drawY)
    {
      if level <= 2 {
        spawnTimer := spawnTimer + 1;
        if spawnTimer > SpawnDelay {
          SpawnEnemy(drawX, drawY);
          spawnTimer := 0;
        }
      }
    }

    /** The two level transitions, in order. */
    method CheckLevels()
      requires 1 <= level <= 3
      modifies this
      ensures Snapshot() == Advance(old(Snapshot()))
    {
      if level == 1 && score >= Level2Score {
        level := 2;
      }
      if level == 2 && score >= Level3Score {
        level := 3;
        ShowUpgradeAndSpawnBoss();
      }
    }

    /** The level-3 boss step: three pixels along the current direction, a
        turn at either wall, and a laser on a roll below 2. */
    method MoveBoss(laserRoll: int)
      requires Valid() && !gameOver
      modifies this
      ensures Snapshot() == BossTurn(old(Snapshot()), laserRoll)
    {
      if level == 3 && boss.Some? {
        var sprite := bosses[boss.value];
        var x := sprite.x + BossStride * bossDirection;
        bosses := bosses[boss.value := sprite.(x := x)];
        if x <= BossLeft || x >= BossRight {
          bossDirection := -bossDirection;
        }
        if laserRoll < LaserChance {
          FireBossLaser();
        }
      }
    }

    /** fireBossLaser: a laser from the boss's x. */
    method FireBossLaser()
      requires boss.Some? && boss.value in bosses
      modifies this
      ensures Snapshot() == old(Snapshot()).(lasers := old(lasers)[old(nextId) := Shot(old(bosses)[old(boss).value].x, true)],
                                             nextId := old(nextId) + 1)
    {
      lasers := lasers[nextId := Shot(bosses[boss.value].x, true)];
      nextId := nextId + 1;
    }

    /** spawnEnemy, given the two random draws. */
    method SpawnEnemy(drawX: int, drawY: int)
      requires level == 1 || level == 2
      requires FieldLeft <= drawX <= FieldRight && HoverTop <= drawY <= HoverBottom
      modifies this
      ensures Snapshot() == WithEnemy(old(Snapshot()), drawX, drawY)
    {
      var y := if level == 1 then 0 else drawY;
      var vy := if level == 1 then FallSpeed else 0;
      enemies := enemies + [Enemy(nextId, Placement(drawX, y, vy), EnemyToughness)];
      nextId := nextId + 1;
    }

    /** The visible part of showUpgradeAndSpawnBoss is the banner; its state
        effect is the upgrade callback it schedules. */
    method ShowUpgradeAndSpawnBoss()
      modifies this
      ensures Snapshot() == ScheduleUpgrade(old(Snapshot()))
    {
      pendingUpgrades := pendingUpgrades + 1;
    }

    /** The level-2 volley: walk the group and launch a meteor for every
        roll below 1. */
    method LaunchMeteors(rolls: seq<int>)
      requires level == 2 && |rolls| >= |enemies|
      modifies this
      ensures Snapshot() == EnemyFire(old(Snapshot()), rolls)
    {
      var launched, next := WalkVolley(enemies, rolls, nextId);
      meteors, nextId := meteors + launched, next;
    }

    /** The 2000 ms callback of showUpgradeAndSpawnBoss, fired. */
    method FireUpgrade()
      requires pendingUpgrades > 0
      requires Valid()
      modifies this
      ensures Valid()
      ensures Snapshot() == Upgraded(old(Snapshot()))
    {
      pendingUpgrades := pendingUpgrades - 1;
      enemies := [];
      SpawnBoss();
    }

    method SpawnBoss()
      modifies this
      ensures Snapshot() == WithBoss(old(Snapshot()))
    {
      bosses := bosses[nextId := BossSprite(BossStartX, true)];
      boss := Some(nextId);
      nextId := nextId + 1;
      bossHealth := MaxBossHealth;
    }

    /** The 300 ms callback of bulletHitsBoss, fired. */
    method FireDefeat()
      requires |pendingDefeats| > 0
      requires Valid()
      modifies this
      ensures Valid()
      ensures Snapshot() == Defeated(old(Snapshot()))
    {
      var sprite := pendingDefeats[0];
      pendingDefeats := pendingDefeats[1..];
      bosses := bosses - {sprite};
      gameOver := true;
    }

    method BulletHitsEnemy(bullet: nat, k: nat)
      requires bullet in bullets && k < |enemies|
      requires Valid()
      modifies this
      ensures Valid()
      ensures Snapshot() == HitEnemy(old(Snapshot()), bullet, k)
    {
      bullets := bullets - {bullet};
      var e := enemies[k];
      enemies := enemies[k := e.(health := e.health - 1)];
      if e.health - 1 <= 0 {
        enemies := enemies[..k] + enemies[k + 1..];
        score := score + KillScore;
      }
    }

    method BulletHitsBoss(bullet: nat, sprite: nat)
      requires Valid()
      modifies this
      ensures Valid()
      ensures Snapshot() == HitBoss(old(Snapshot()), bullet, sprite)
    {
      if bullet !in bullets || sprite !in bosses || !bosses[sprite].active {
        return;
      }
      bullets := bullets - {bullet};
      bossHealth := bossHealth - 1;
      if bossHealth <= 0 {
        KnockOut(sprite);
      }
    }

    /** The last hit: the sprite is deactivated and its 300 ms defeat
        callback scheduled. */
    method KnockOut(sprite: nat)
      requires sprite in bosses
      modifies this
      ensures Snapshot() == old(Snapshot()).(bosses := old(bosses)[sprite := old(bosses)[sprite].(active := false)],
                                             pendingDefeats := old(pendingDefeats) + [sprite])
    {
      bosses := bosses[sprite := bosses[sprite].(active := false)];
      pendingDefeats := pendingDefeats + [sprite];
    }

    method EnemyHitsPlayer(k: nat)
      requires k < |enemies|
      requires Valid()
      modifies this
      ensures Valid()
      ensures Snapshot() == Rammed(old(Snapshot()), k)
    {
      enemies := enemies[..k] + enemies[k + 1..];
      TakeDamage();
    }

    method PlayerHitByBullet(kind: Barrage, id: nat)
      requires Valid()
      modifies this
      ensures Valid()
      ensures Snapshot() == HitByProjectile(old(Snapshot()), kind, id)
    {
      var group := if kind == Meteor then meteors else lasers;
      if id !in group || !group[id].active {
        return;
      }
      if kind == Meteor {
        meteors := meteors[id := meteors[id].(active := false)];
      } else {
        lasers := lasers[id := lasers[id].(active := false)];
      }
      TakeDamage();
    }

    method TakeDamage()
      modifies this
      ensures Snapshot() == Damaged(old(Snapshot()))
    {
      health := health - 1;
      if health <= 0 {
        if level == 3 {
          gameOver := true;
        } else {
          InitGame();
        }
      }
    }
  }
}
