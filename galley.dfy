/** The game-state bookkeeping of GalleyShooterImplementation's
    ShooterScene.js: one-hit enemies, a boss that arrives in the very tick
    the score reaches 200, a boss health that only the constructor ever
    sets, and a death policy that restarts the scene at every level.

    `World` is the scene's state as a value and the functions over it say
    what each handler does; `GameState` holds the same state in fields that
    its methods update in place, each method proved to take the state to
    the value the matching function gives. */
module Galley {
  import opened Arena

  const MeteorRollMax := 1500

  function PlacementX(p: Placement): int { p.x }

  /** The boss sprite: its x and whether it is still active. */
  datatype BossSprite = BossSprite(x: int, active: bool)

  /** The scene's state. `boss` is `this.boss`; `enemies` lists the enemy
      group in creation order; `bullets` maps each player bullet to its x;
      `pendingDefeat` says whether the 300 ms defeat callback is scheduled;
      `nextId` numbers new projectiles. */
  datatype World = World(
    score: int, health: int, level: int, spawnTimer: int, gameOver: bool,
    bossHealth: int, bossDirection: int, boss: Option<BossSprite>,
    playerX: int,
    enemies: seq<Placement>, bullets: map<nat, int>,
    meteors: map<nat, Shot>, lasers: map<nat, Shot>,
    pendingDefeat: bool,
    nextId: nat)

  /** The scene's invariant. */
  ghost predicate Ok(w: World)
  {
    && 1 <= w.level <= 3
    && (w.bossDirection == 1 || w.bossDirection == -1)
    && w.score >= 0 && w.score % KillScore == 0
    // any hit that takes health to 0 restarts the scene
    && 1 <= w.health <= StartHealth
    && (forall id :: id in w.bullets ==> id < w.nextId)
    && (forall id :: id in w.meteors ==> id < w.nextId)
    && (forall id :: id in w.lasers ==> id < w.nextId)
    && (w.boss.Some? ==> Orbit(Glide(w.boss.value.x, w.bossDirection)))
    // a live boss exists exactly while a level-3 game runs
    && (w.level == 3 && !w.gameOver ==> w.boss.Some?)
    && (w.boss.Some? && w.boss.value.active ==> w.level == 3 && !w.gameOver)
    // the game ends only by the defeat callback
    && (w.gameOver ==> w.level == 3 && w.boss.None?)
    && (w.pendingDefeat ==>
          !w.gameOver && w.level == 3 && w.boss.Some? && !w.boss.value.active && w.bossHealth <= 0)
  }

  /** The state create leaves behind. */
  ghost predicate Fresh(w: World)
  {
    && w.score == 0 && w.health == StartHealth && w.level == 1 && w.spawnTimer == 0
    && !w.gameOver && w.playerX == PlayerStartX
    && w.enemies == [] && w.bullets == map[] && w.meteors == map[] && w.lasers == map[]
    && !w.pendingDefeat
    && (w.boss.Some? ==> !w.boss.value.active)
  }

  /** What a restart does not touch: the fields only the constructor sets. */
  ghost predicate Carried(w: World, r: World)
  {
    && r.bossHealth == w.bossHealth && r.bossDirection == w.bossDirection
    && r.boss.Some? == w.boss.Some? && (r.boss.Some? ==> r.boss.value.x == w.boss.value.x)
    && r.nextId == w.nextId
  }

  // ---------------------------------------------------------------------
  // The state transitions

  /** scene.restart(): the shutdown destroys the scene's objects, so the
      remembered boss sprite becomes inactive, and cancels its timers; then
      create runs again. The constructor does not, so boss health, boss
      direction and the boss reference carry over. */
  function Restarted(w: World): (r: World)
    ensures Fresh(r) && Carried(w, r)
    ensures Ok(w) ==> Ok(r)
  {
    var boss := if w.boss.Some? then Some(w.boss.value.(active := false)) else None;
    w.(score := 0, health := StartHealth, level := 1, spawnTimer := 0, gameOver := false,
       boss := boss, playerX := PlayerStartX,
       enemies := [], bullets := map[], meteors := map[], lasers := map[],
       pendingDefeat := false)
  }

  /** A and D: A wins when both are held. */
  function Steer(x: int, left: bool, right: bool): (r: int)
    ensures left ==> r == x - PlayerStep
    ensures !left && right ==> r == x + PlayerStep
    ensures !left && !right ==> r == x
  {
    if left then x - PlayerStep else if right then x + PlayerStep else x
  }

  /** The fields only the promotion checks, the spawn clock and the
      handlers change. */
  ghost predicate Steady(w: World, r: World)
  {
    && r.score == w.score && r.health == w.health && r.gameOver == w.gameOver
    && r.level == w.level && r.bossHealth == w.bossHealth && r.pendingDefeat == w.pendingDefeat
  }

  function Shoot(w: World): (r: World)
    ensures r.bullets == w.bullets[w.nextId := w.playerX] && r.nextId == w.nextId + 1
    ensures r == w.(bullets := r.bullets, nextId := r.nextId)
    ensures Ok(w) ==> Ok(r) && w.nextId !in w.bullets
  {
    w.(bullets := w.bullets[w.nextId := w.playerX], nextId := w.nextId + 1)
  }

  /** The steps of update before the spawn clock: move, then fire. */
  function Armed(w: World, keys: Keys): (r: World)
    requires Ok(w)
    ensures r.playerX == Steer(w.playerX, keys.left, keys.right)
    ensures keys.shoot ==> r.bullets == w.bullets[w.nextId := r.playerX] && r.nextId == w.nextId + 1
    ensures !keys.shoot ==> r.bullets == w.bullets && r.nextId == w.nextId
    ensures r == w.(playerX := r.playerX, bullets := r.bullets, nextId := r.nextId)
    ensures Ok(r)
  {
    var moved := w.(playerX := Steer(w.playerX, keys.left, keys.right));
    if keys.shoot then Shoot(moved) else moved
  }

  /** spawnEnemy: one more enemy at the end of the group. */
  function WithEnemy(w: World, drawX: int, drawY: int): (r: World)
    requires w.level == 1 || w.level == 2
    requires FieldLeft <= drawX <= FieldRight && HoverTop <= drawY <= HoverBottom
    ensures r.enemies == w.enemies + [EnemyPlacement(w.level, drawX, drawY)]
    ensures r == w.(enemies := r.enemies)
  {
    w.(enemies := w.enemies + [EnemyPlacement(w.level, drawX, drawY)])
  }

  /** The spawn step of update: short-circuited at level 3. */
  function SpawnStep(w: World, drawX: int, drawY: int): (r: World)
    requires 1 <= w.level <= 3
    requires FieldLeft <= drawX <= FieldRight && HoverTop <= drawY <= HoverBottom
    ensures r.spawnTimer == SpawnTick(w.level, w.spawnTimer).timer
    ensures r.enemies == if SpawnTick(w.level, w.spawnTimer).spawned
                         then w.enemies + [EnemyPlacement(w.level, drawX, drawY)]
                         else w.enemies
    ensures r == w.(spawnTimer := r.spawnTimer, enemies := r.enemies)
  {
    if w.level <= 2 then
      var timer := w.spawnTimer + 1;
      if timer > SpawnDelay then WithEnemy(w, drawX, drawY).(spawnTimer := 0)
      else w.(spawnTimer := timer)
    else w
  }

  /** The two promotion checks; reaching level 3 clears the enemies and
      spawns the boss in the same tick, without touching its health. */
  function Advance(w: World): (r: World)
    requires 1 <= w.level <= 3
    ensures r.level == Promote(w.level, w.score)
    ensures w.level < 3 && r.level == 3 ==>
              r == w.(level := 3, enemies := [], boss := Some(BossSprite(BossStartX, true)))
    ensures !(w.level < 3 && r.level == 3) ==> r == w.(level := r.level)
  {
    var level := Promote(w.level, w.score);
    if w.level < 3 && level == 3 then
      w.(level := 3, enemies := [], boss := Some(BossSprite(BossStartX, true)))
    else
      w.(level := level)
  }

  /** The level-2 volley: every enemy whose roll is below 1 launches a meteor. */
  function EnemyFire(w: World, rolls: seq<int>): (r: World)
    requires |rolls| >= |w.enemies|
    ensures w.level != 2 ==> r == w
    ensures w.level == 2 ==> r.nextId == w.nextId + Launches(rolls, |w.enemies|)
    ensures w.level == 2 ==> r.meteors == w.meteors + Volley(w.enemies, PlacementX, rolls, w.nextId)
    ensures r == w.(meteors := r.meteors, nextId := r.nextId)
    ensures Ok(w) ==> Ok(r)
  {
    if w.level == 2 then
      VolleyShape(w.enemies, PlacementX, rolls, w.nextId);
      w.(meteors := w.meteors + Volley(w.enemies, PlacementX, rolls, w.nextId),
         nextId := w.nextId + Launches(rolls, |w.enemies|))
    else w
  }

  /** The boss step of update: move, bounce, and fire a laser on a roll
      below 2, whether or not the boss is still active. */
  function BossTurn(w: World, laserRoll: int): (r: World)
    requires Ok(w)
    ensures Ok(r)
    ensures Steady(w, r) && r.spawnTimer == w.spawnTimer && r.enemies == w.enemies
    ensures w.level != 3 || w.boss.None? ==> r == w
    ensures w.level == 3 && w.boss.Some? ==>
              && r.boss.Some? && r.boss.value.active == w.boss.value.active
              && Glide(r.boss.value.x, r.bossDirection) == BossMove(Glide(w.boss.value.x, w.bossDirection))
              && (laserRoll < LaserChance <==> r.nextId == w.nextId + 1)
              && (laserRoll < LaserChance ==> r.lasers == w.lasers[w.nextId := Shot(r.boss.value.x, true)])
              && (laserRoll >= LaserChance ==> r.lasers == w.lasers && r.nextId == w.nextId)
    ensures r == w.(boss := r.boss, bossDirection := r.bossDirection, lasers := r.lasers, nextId := r.nextId)
  {
    if w.level == 3 && w.boss.Some? then
      var b := w.boss.value;
      var g := BossMove(Glide(b.x, w.bossDirection));
      BossMoveKeepsOrbit(Glide(b.x, w.bossDirection));
      var moved := w.(boss := Some(b.(x := g.x)), bossDirection := g.dir);
      if laserRoll < LaserChance then
        moved.(lasers := moved.lasers[moved.nextId := Shot(g.x, true)], nextId := moved.nextId + 1)
      else moved
    else w
  }

  /** One call of update. While the game is over it only watches R. */
  function Tick(w: World, keys: Keys, d: Draws): (r: World)
    requires Ok(w) && Drawn(d, MeteorRollMax, |w.enemies|)
    ensures Ok(r)
    ensures w.gameOver ==> r == if keys.restart then Restarted(w) else w
    ensures !w.gameOver ==> r == Play(w, keys, d)
  {
    if w.gameOver then
      if keys.restart then Restarted(w) else w
    else Play(w, keys, d)
  }

  /** The body of update past the game-over check: move, fire, spawn,
      promote, volley, boss. Score, health and boss health stay as they
      are and the level only rises. */
  function Play(w: World, keys: Keys, d: Draws): (r: World)
    requires Ok(w) && !w.gameOver && Drawn(d, MeteorRollMax, |w.enemies|)
    ensures Ok(r)
    ensures r.score == w.score && r.health == w.health && !r.gameOver
    ensures r.bossHealth == w.bossHealth && r.pendingDefeat == w.pendingDefeat
    ensures r.level == Promote(w.level, w.score) && r.level >= w.level
    ensures r.spawnTimer == SpawnTick(w.level, w.spawnTimer).timer
  {
    var armed := Armed(w, keys);
    var spawned := SpawnStep(armed, d.enemyX, d.enemyY);
    SpawnKeepsOk(armed, d.enemyX, d.enemyY);
    var promoted := Advance(spawned);
    PromotionKeepsOk(spawned);
    var fired := EnemyFire(promoted, d.meteorRolls);
    BossTurn(fired, d.laserRoll)
  }

  /** The spawn clock keeps the invariant. */
  lemma SpawnKeepsOk(w: World, drawX: int, drawY: int)
    requires Ok(w)
    requires FieldLeft <= drawX <= FieldRight && HoverTop <= drawY <= HoverBottom
    ensures Ok(SpawnStep(w, drawX, drawY))
  {
  }

  /** A promotion during a running game keeps the invariant: the boss that
      arrives with level 3 is in its orbit. */
  lemma PromotionKeepsOk(w: World)
    requires Ok(w) && !w.gameOver
    ensures Ok(Advance(w))
  {
    SpawnedBossInOrbit(w.bossDirection);
  }

  /** bulletHitsEnemy: the bullet and the enemy go and the score rises by
      10, at the first hit. */
  function HitEnemy(w: World, bullet: nat, k: nat): (r: World)
    requires bullet in w.bullets && k < |w.enemies|
    ensures r.bullets == w.bullets - {bullet} && bullet !in r.bullets
    ensures r.enemies == w.enemies[..k] + w.enemies[k + 1..]
    ensures r.score == w.score + KillScore
    ensures r == w.(bullets := r.bullets, enemies := r.enemies, score := r.score)
    ensures Ok(w) ==> Ok(r)
  {
    w.(bullets := w.bullets - {bullet}, enemies := w.enemies[..k] + w.enemies[k + 1..], score := w.score + KillScore)
  }

  /** bulletHitsBoss: nothing happens unless the bullet and the boss are
      both active; otherwise the bullet goes and the boss loses one hit
      point, and a hit that leaves it at 0 or below deactivates the boss
      and schedules its defeat. */
  function HitBoss(w: World, bullet: nat): (r: World)
    ensures bullet !in w.bullets || w.boss.None? || !w.boss.value.active ==> r == w
    ensures bullet in w.bullets && w.boss.Some? && w.boss.value.active ==>
              && r.bullets == w.bullets - {bullet}
              && r.bossHealth == w.bossHealth - 1
              && r.score == w.score && r.health == w.health && r.level == w.level
              && r.boss.Some? && r.boss.value.x == w.boss.value.x
              && (r.bossHealth <= 0 <==> r.pendingDefeat && !r.boss.value.active)
              && (r.bossHealth > 0 ==> r.boss == w.boss && r.pendingDefeat == w.pendingDefeat)
              && (r.bossHealth <= 0 ==> r.boss == Some(w.boss.value.(active := false)))
    ensures r == w.(bullets := r.bullets, bossHealth := r.bossHealth, boss := r.boss, pendingDefeat := r.pendingDefeat)
    ensures Ok(w) ==> Ok(r)
  {
    if bullet !in w.bullets || w.boss.None? || !w.boss.value.active then w
    else
      var hit := w.(bullets := w.bullets - {bullet}, bossHealth := w.bossHealth - 1);
      if hit.bossHealth <= 0 then
        hit.(boss := Some(w.boss.value.(active := false)), pendingDefeat := true)
      else hit
  }

  /** The 300 ms defeat callback: destroys the boss, forgets it and ends
      the game. */
  function Defeated(w: World): (r: World)
    requires w.pendingDefeat
    ensures r.gameOver && r.boss.None? && !r.pendingDefeat
    ensures r == w.(gameOver := true, boss := None, pendingDefeat := false)
    ensures Ok(w) ==> Ok(r)
  {
    w.(gameOver := true, boss := None, pendingDefeat := false)
  }

  /** takeDamage: one hit point less, and a restart at 0, at any level. */
  function Damaged(w: World): (r: World)
    ensures w.health > 1 ==> r == w.(health := w.health - 1)
    ensures w.health <= 1 ==> Fresh(r) && Carried(w, r)
    ensures Ok(w) ==> Ok(r)
  {
    var hurt := w.(health := w.health - 1);
    if hurt.health <= 0 then Restarted(hurt) else hurt
  }

  /** enemyHitsPlayer: the enemy goes and the player takes one hit. */
  function Rammed(w: World, k: nat): (r: World)
    requires k < |w.enemies|
    ensures w.health > 1 ==> r == w.(enemies := w.enemies[..k] + w.enemies[k + 1..], health := w.health - 1)
    ensures w.health <= 1 ==> Fresh(r) && Carried(w, r)
    ensures Ok(w) ==> Ok(r)
  {
    Damaged(w.(enemies := w.enemies[..k] + w.enemies[k + 1..]))
  }

  function Group(w: World, kind: Barrage): map<nat, Shot>
  {
    if kind == Meteor then w.meteors else w.lasers
  }

  /** Of the two projectile groups, only shot `id` of `kind` has changed,
      and it is now disabled. */
  ghost predicate Disarmed(w: World, r: World, kind: Barrage, id: nat)
    requires id in Group(w, kind)
  {
    && Group(r, kind) == Group(w, kind)[id := Group(w, kind)[id].(active := false)]
    && Group(r, Other(kind)) == Group(w, Other(kind))
  }

  /** playerHitByBullet: a disabled projectile does nothing; an active one
      is disabled and the player takes one hit. */
  function HitByProjectile(w: World, kind: Barrage, id: nat): (r: World)
    ensures id !in Group(w, kind) || !Group(w, kind)[id].active ==> r == w
    ensures id in Group(w, kind) && Group(w, kind)[id].active && w.health > 1 ==>
              Disarmed(w, r, kind, id) && r == w.(meteors := r.meteors, lasers := r.lasers, health := w.health - 1)
    ensures id in Group(w, kind) && Group(w, kind)[id].active && w.health <= 1 ==>
              Fresh(r) && Carried(w, r)
    ensures Ok(w) ==> Ok(r)
  {
    var group := Group(w, kind);
    if id !in group || !group[id].active then w
    else
      var spent := group[id := group[id].(active := false)];
      Damaged(if kind == Meteor then w.(meteors := spent) else w.(lasers := spent))
  }

  // ---------------------------------------------------------------------
  // Properties of the transitions

  /** The boss arrives in the tick that promotes to level 3: at x = 320,
      active, with the enemy group cleared and boss health as it was. */
  lemma BossArrivesOnPromotion(w: World, keys: Keys, d: Draws)
    requires Ok(w) && !w.gameOver && w.level < 3 && w.score >= Level3Score
    requires Drawn(d, MeteorRollMax, |w.enemies|)
    ensures var r := Play(w, keys, d);
            && r.level == 3 && r.enemies == [] && r.boss.Some? && r.boss.value.active
            && BossLeft <= r.boss.value.x <= BossRight
            && r.bossHealth == w.bossHealth
  {
    var armed := Armed(w, keys);
    var spawned := SpawnStep(armed, d.enemyX, d.enemyY);
    var promoted := Advance(spawned);
    assert promoted.boss == Some(BossSprite(BossStartX, true)) && promoted.enemies == [];
  }

  /** No tick ever refills the boss's health. */
  lemma TickKeepsBossHealth(w: World, keys: Keys, d: Draws)
    requires Ok(w) && Drawn(d, MeteorRollMax, |w.enemies|)
    ensures Tick(w, keys, d).bossHealth == w.bossHealth
    ensures Restarted(w).bossHealth == w.bossHealth
  {
  }

  /** No handler refills the boss's health either: all but bulletHitsBoss
      keep it, and that one takes exactly one point off or nothing. */
  lemma HandlersKeepBossHealth(w: World, bullet: nat, k: nat, kind: Barrage, id: nat)
    ensures Damaged(w).bossHealth == w.bossHealth
    ensures HitByProjectile(w, kind, id).bossHealth == w.bossHealth
    ensures bullet in w.bullets && k < |w.enemies| ==> HitEnemy(w, bullet, k).bossHealth == w.bossHealth
    ensures k < |w.enemies| ==> Rammed(w, k).bossHealth == w.bossHealth
    ensures w.pendingDefeat ==> Defeated(w).bossHealth == w.bossHealth
    ensures HitBoss(w, bullet).bossHealth == w.bossHealth || HitBoss(w, bullet).bossHealth == w.bossHealth - 1
  {
  }

  /** After a win the boss's health stays spent across the restart, so the
      boss of the next game falls to the first bullet that reaches it. */
  lemma NextBossFallsAtFirstHit(w: World, v: World, bullet: nat)
    requires Ok(w) && w.pendingDefeat
    requires Ok(v) && !v.gameOver && v.level == 2 && v.score >= Level3Score
    requires v.bossHealth == Restarted(Defeated(w)).bossHealth
    requires bullet in v.bullets
    ensures Restarted(Defeated(w)).bossHealth <= 0
    ensures var r := HitBoss(Advance(v), bullet);
            r.pendingDefeat && r.boss.Some? && !r.boss.value.active
  {
  }

  /** Once the defeat is scheduled, later bullets change nothing. */
  lemma DefeatIsFinal(w: World, bullet: nat, later: nat)
    requires bullet in w.bullets && w.boss.Some? && w.boss.value.active && w.bossHealth <= 1
    ensures HitBoss(w, bullet).pendingDefeat
    ensures HitBoss(HitBoss(w, bullet), later) == HitBoss(w, bullet)
  {
  }

  /** Until the defeat callback fires the knocked-out boss keeps moving and
      can still fire lasers. */
  lemma KnockedOutBossStillFires(w: World, laserRoll: int)
    requires Ok(w) && w.pendingDefeat && laserRoll < LaserChance
    ensures var r := BossTurn(w, laserRoll);
            w.nextId in r.lasers && r.lasers[w.nextId].active && r.boss.Some? && !r.boss.value.active
  {
  }

  /** The last hit point lost at any level restarts the scene with score
      and level reset and boss health kept; a restart also drops a scheduled
      defeat. */
  lemma RestartForgetsTheFight(w: World)
    requires Ok(w) && w.health == 1
    ensures !Restarted(w).pendingDefeat
    ensures Damaged(w).level == 1 && Damaged(w).score == 0 && Damaged(w).health == StartHealth
    ensures Damaged(w).bossHealth == w.bossHealth
  {
  }

  // ---------------------------------------------------------------------
  // The level-2 volley, walked

  /** The iterate walk of the level-2 volley: every member whose roll is
      below 1 launches a meteor from its x, numbered from `first` on. */
  method WalkVolley(group: seq<Placement>, rolls: seq<int>, first: nat) returns (launched: map<nat, Shot>, next: nat)
    requires |rolls| >= |group|
    ensures launched == Volley(group, PlacementX, rolls, first)
    ensures next == first + Launches(rolls, |group|)
  {
    launched, next := map[], first;
    var i := 0;
    while i < |group|
      invariant 0 <= i <= |group|
      invariant launched == Volley(group[..i], PlacementX, rolls, first)
      invariant next == first + Launches(rolls, i)
    {
      VolleyStep(group, PlacementX, rolls, first, i);
      if rolls[i] < 1 {
        launched := launched[next := Shot(group[i].x, true)];
        next := next + 1;
      }
      i := i + 1;
    }
    assert group[..i] == group;
  }

  // ---------------------------------------------------------------------
  // The scene object

  class GameState {
    var score: int
    var health: int
    var level: int
    var spawnTimer: int
    var gameOver: bool
    var bossHealth: int
    var bossDirection: int
    var boss: Option<BossSprite>
    var playerX: int
    var enemies: seq<Placement>
    var bullets: map<nat, int>
    var meteors: map<nat, Shot>
    var lasers: map<nat, Shot>
    var pendingDefeat: bool
    var nextId: nat

    ghost function Snapshot(): World
      reads this
    {
      World(score, health, level, spawnTimer, gameOver, bossHealth, bossDirection, boss,
            playerX, enemies, bullets, meteors, lasers, pendingDefeat, nextId)
    }

    ghost predicate Valid()
      reads this
    {
      Ok(Snapshot())
    }

    /** The constructor, then create. */
    constructor ()
      ensures Valid() && Fresh(Snapshot())
      ensures boss == None && bossDirection == 1 && bossHealth == MaxBossHealth
    {
      boss := None;
      bossDirection := 1;
      bossHealth := MaxBossHealth;
      pendingDefeat := false;
      nextId := 0;
      score, health, level, spawnTimer, gameOver := 0, StartHealth, 1, 0, false;
      playerX, enemies, bullets, meteors, lasers := PlayerStartX, [], map[], map[], map[];
    }

    /** scene.restart(): shutdown, then create. */
    method Restart()
      modifies this
      ensures Snapshot() == Restarted(old(Snapshot()))
    {
      Shutdown();
      Create();
    }

    /** The shutdown half of a restart: the scene's timers are cancelled and
        its objects, the boss sprite among them, destroyed. */
    method Shutdown()
      modifies this
      ensures Snapshot() == old(Snapshot()).(pendingDefeat := false,
                                             boss := if old(boss).Some? then Some(old(boss).value.(active := false)) else None)
    {
      pendingDefeat := false;
      if boss.Some? {
        boss := Some(boss.value.(active := false));
      }
    }

    /** create: the game state, the avatar at its base position and four
        empty groups. */
    method Create()
      modifies this
      ensures Snapshot() == old(Snapshot()).(score := 0, health := StartHealth, level := 1, spawnTimer := 0,
                                             gameOver := false, playerX := PlayerStartX,
                                             enemies := [], bullets := map[], meteors := map[], lasers := map[])
    {
      ResetProgress();
      gameOver := false;
      playerX := PlayerStartX;
      NewGroups();
    }

    method ResetProgress()
      modifies this
      ensures Snapshot() == old(Snapshot()).(score := 0, health := StartHealth, level := 1, spawnTimer := 0)
    {
      score := 0;
      health := StartHealth;
      level := 1;
      spawnTimer := 0;
    }

    method NewGroups()
      modifies this
      ensures Snapshot() == old(Snapshot()).(bullets := map[], enemies := [], meteors := map[], lasers := map[])
    {
      bullets := map[];
      enemies := [];
      meteors := map[];
      lasers := map[];
    }

    method Update(keys: Keys, d: Draws)
      requires Valid() && Drawn(d, MeteorRollMax, |enemies|)
      modifies this
      ensures Valid()
      ensures Snapshot() == Tick(old(Snapshot()), keys, d)
    {
      if gameOver {
        if keys.restart {
          Restart();
        }
        return;
      }
      PlayFrame(keys, d);
    }

    /** The body of update while the game runs. */
    method PlayFrame(keys: Keys, d: Draws)
      requires Valid() && !gameOver && Drawn(d, MeteorRollMax, |enemies|)
      modifies this
      ensures Snapshot() == Play(old(Snapshot()), keys, d)
    {
      HandleInput(keys);
      SpawnAndPromote(d.enemyX, d.enemyY);
      if level == 2 {
        LaunchMeteors(d.meteorRolls);
      }
      MoveBoss(d.laserRoll);
    }

    /** The avatar's move and the shot. */
    method HandleInput(keys: Keys)
      requires Valid()
      modifies this
      ensures Snapshot() == Armed(old(Snapshot()), keys)
    {
      if keys.left {
        playerX := playerX - PlayerStep;
      } else if keys.right {
        playerX := playerX + PlayerStep;
      }
      if keys.shoot {
        bullets := bullets[nextId := playerX];
        nextId := nextId + 1;
      }
    }

    /** The spawn clock, then the two level transitions. */
    method SpawnAndPromote(drawX: int, drawY: int)
      requires 1 <= level <= 3
      requires FieldLeft <= drawX <= FieldRight && HoverTop <= drawY <= HoverBottom
      modifies this
      ensures Snapshot() == Advance(SpawnStep(old(Snapshot()), drawX, drawY))
    {
      if level <= 2 {
        spawnTimer := spawnTimer + 1;
        if spawnTimer > SpawnDelay {
          SpawnEnemy(drawX, drawY);
          spawnTimer := 0;
        }
      }
      CheckLevels();
    }

    /** spawnEnemy, given the two random draws. */
    method SpawnEnemy(drawX: int, drawY: int)
      requires level == 1 || level == 2
      requires FieldLeft <= drawX <= FieldRight && HoverTop <= drawY <= HoverBottom
      modifies this
      ensures Snapshot() == WithEnemy(old(Snapshot()), drawX, drawY)
    {
      var y := if level == 1 then 0 else drawY;
      var vy := if level == 1 then FallSpeed else 0;
      enemies := enemies + [Placement(drawX, y, vy)];
    }

    /** The two level transitions; the second swaps the avatar for the
        ship at the same position, clears the enemies and spawns the boss. */
    method CheckLevels()
      requires 1 <= level <= 3
      modifies this
      ensures Snapshot() == Advance(old(Snapshot()))
    {
      if level == 1 && score >= Level2Score {
        level := 2;
      }
      if level == 2 && score >= Level3Score {
        level := 3;
        enemies := [];
        SpawnBoss();
      }
    }

    /** spawnBoss: a new boss at x = 320; its health is left as it is. */
    method SpawnBoss()
      modifies this
      ensures Snapshot() == old(Snapshot()).(boss := Some(BossSprite(BossStartX, true)))
    {
      boss := Some(BossSprite(BossStartX, true));
    }

    /** The level-2 volley: walk the group and launch a meteor for every
        roll below 1. */
    method LaunchMeteors(rolls: seq<int>)
      requires level == 2 && |rolls| >= |enemies|
      modifies this
      ensures Snapshot() == EnemyFire(old(Snapshot()), rolls)
    {
      var launched, next := WalkVolley(enemies, rolls, nextId);
      meteors, nextId := meteors + launched, next;
    }

    /** The level-3 boss step. */
    method MoveBoss(laserRoll: int)
      requires Valid()
      modifies this
      ensures Snapshot() == BossTurn(old(Snapshot()), laserRoll)
    {
      if level == 3 && boss.Some? {
        var x := boss.value.x + BossStride * bossDirection;
        boss := Some(boss.value.(x := x));
        if x <= BossLeft || x >= BossRight {
          bossDirection := -bossDirection;
        }
        if laserRoll < LaserChance {
          FireBossLaser();
        }
      }
    }

    /** fireBossLaser: a laser from the boss's x. */
    method FireBossLaser()
      requires boss.Some?
      modifies this
      ensures Snapshot() == old(Snapshot()).(lasers := old(lasers)[old(nextId) := Shot(old(boss).value.x, true)],
                                             nextId := old(nextId) + 1)
    {
      lasers := lasers[nextId := Shot(boss.value.x, true)];
      nextId := nextId + 1;
    }

    method BulletHitsEnemy(bullet: nat, k: nat)
      requires bullet in bullets && k < |enemies|
      requires Valid()
      modifies this
      ensures Valid()
      ensures Snapshot() == HitEnemy(old(Snapshot()), bullet, k)
    {
      bullets := bullets - {bullet};
      enemies := enemies[..k] + enemies[k + 1..];
      score := score + KillScore;
    }

    method BulletHitsBoss(bullet: nat)
      requires Valid()
      modifies this
      ensures Valid()
      ensures Snapshot() == HitBoss(old(Snapshot()), bullet)
    {
      if bullet !in bullets || boss.None? || !boss.value.active {
        return;
      }
      bullets := bullets - {bullet};
      bossHealth := bossHealth - 1;
      if bossHealth <= 0 && boss.Some? {
        boss := Some(boss.value.(active := false));
        pendingDefeat := true;
      }
    }

    /** The 300 ms callback of bulletHitsBoss, fired. */
    method FireDefeat()
      requires pendingDefeat
      requires Valid()
      modifies this
      ensures Valid()
      ensures Snapshot() == Defeated(old(Snapshot()))
    {
      boss := None;
      gameOver := true;
      pendingDefeat := false;
    }

    method EnemyHitsPlayer(k: nat)
      requires k < |enemies|
      requires Valid()
      modifies this
      ensures Valid()
      ensures Snapshot() == Rammed(old(Snapshot()), k)
    {
      enemies := enemies[..k] + enemies[k + 1..];
      TakeDamage();
    }

    method PlayerHitByBullet(kind: Barrage, id: nat)
      requires Valid()
      modifies this
      ensures Valid()
      ensures Snapshot() == HitByProjectile(old(Snapshot()), kind, id)
    {
      var group := if kind == Meteor then meteors else lasers;
      if id !in group || !group[id].active {
        return;
      }
      if kind == Meteor {
        meteors := meteors[id := meteors[id].(active := false)];
      } else {
        lasers := lasers[id := lasers[id].(active := false)];
      }
      TakeDamage();
    }

    method TakeDamage()
      modifies this
      ensures Snapshot() == Damaged(old(Snapshot()))
    {
      health := health - 1;
      if health <= 0 {
        Restart();
      }
    }
  }
}
