/** Rules the two shooter scenes share: their constants, the boss's bounce
    between the side walls, the enemy spawn clock, level promotion and the
    volley of enemy projectiles fired while walking the enemy group. */
module Arena {

  datatype Option<T> = None | Some(value: T)

  // The player
  const StartHealth := 3
  const PlayerStartX := 320
  const PlayerStep := 8

  // Regular enemies
  const SpawnDelay := 90
  const FieldLeft := 50
  const FieldRight := 590
  const HoverTop := 50
  const HoverBottom := 200
  const FallSpeed := 100
  const KillScore := 10

  // Level thresholds
  const Level2Score := 100
  const Level3Score := 200

  // The boss
  const MaxBossHealth := 500
  const BossStartX := 320
  const BossStride := 3
  const BossLeft := 50
  const BossRight := 590
  const LaserRollMax := 100
  const LaserChance := 2

  /** Keyboard state seen by one tick: A and D are polled (isDown), SPACE
      and R are edge-triggered (JustDown). */
  datatype Keys = Keys(left: bool, right: bool, shoot: bool, restart: bool)

  /** The random draws one tick may consume: the new enemy's x and y, one
      roll per enemy visited by the level-2 volley, and the boss's laser roll. */
  datatype Draws = Draws(enemyX: int, enemyY: int, meteorRolls: seq<int>, laserRoll: int)

  /** Every draw lies in the range the scene asks Phaser.Math.Between for,
      and there is a roll for every enemy the volley can visit. */
  predicate Drawn(d: Draws, meteorRollMax: int, enemyCount: nat)
  {
    && FieldLeft <= d.enemyX <= FieldRight
    && HoverTop <= d.enemyY <= HoverBottom
    && |d.meteorRolls| > enemyCount
    && (forall k :: 0 <= k < |d.meteorRolls| ==> 0 <= d.meteorRolls[k] <= meteorRollMax)
    && 0 <= d.laserRoll <= LaserRollMax
  }

  /** A projectile of the enemy or boss groups: where it was launched and
      whether its body is still enabled (disableBody keeps it in the group). */
  datatype Shot = Shot(x: int, active: bool)

  /** The two projectile groups whose overlap with the player calls the
      same handler. */
  datatype Barrage = Meteor | Laser

  /** The group a hit by `kind` leaves alone. */
  function Other(kind: Barrage): (o: Barrage)
    ensures o != kind
  {
    if kind == Meteor then Laser else Meteor
  }

  /** Where spawnEnemy places a new enemy and how fast it falls. */
  datatype Placement = Placement(x: int, y: int, vy: int)

  function EnemyPlacement(level: int, drawX: int, drawY: int): (p: Placement)
    requires level == 1 || level == 2
    requires FieldLeft <= drawX <= FieldRight && HoverTop <= drawY <= HoverBottom
    ensures p.x == drawX && FieldLeft <= p.x <= FieldRight
    ensures level == 1 ==> p.y == 0 && p.vy == FallSpeed
    ensures level == 2 ==> p.y == drawY && HoverTop <= p.y <= HoverBottom && p.vy == 0
  {
    if level == 1 then Placement(drawX, 0, FallSpeed) else Placement(drawX, drawY, 0)
  }

  // ---------------------------------------------------------------------
  // Level promotion

  /** The level after the two promotion checks of one tick, made in order:
      1 -> 2 at score 100, then 2 -> 3 at score 200. */
  function Promote(level: int, score: int): (r: int)
    requires 1 <= level <= 3
    ensures level <= r <= 3
    ensures level == 1 ==> (r >= 2 <==> score >= Level2Score)
    ensures (level < 3 && r == 3) <==> (level < 3 && score >= Level3Score)
    ensures score < Level2Score ==> r == level
  {
    var afterFirst := if level == 1 && score >= Level2Score then 2 else level;
    if afterFirst == 2 && score >= Level3Score then 3 else afterFirst
  }

  // ---------------------------------------------------------------------
  // The spawn clock

  /** One tick of the spawn clock: below level 3 the timer is incremented
      and, once it exceeds the delay, an enemy is spawned and the timer
      returns to 0; at level 3 the timer is not touched. */
  datatype Clock = Clock(timer: int, spawned: bool)

  function SpawnTick(level: int, timer: int): (c: Clock)
    ensures c.spawned ==> level <= 2 && c.timer == 0
    ensures c.spawned <==> level <= 2 && timer >= SpawnDelay
    ensures level > 2 ==> c.timer == timer
    ensures level <= 2 && !c.spawned ==> c.timer == timer + 1
  {
    if level <= 2 then
      if timer + 1 > SpawnDelay then Clock(0, true) else Clock(timer + 1, false)
    else
      Clock(timer, false)
  }

  /** The timer after n ticks below level 3. */
  function TimerAfter(timer: int, n: nat): int
    decreases n
  {
    if n == 0 then timer else SpawnTick(1, TimerAfter(timer, n - 1)).timer
  }

  /** How many enemies n ticks below level 3 spawn. */
  function SpawnsAfter(timer: int, n: nat): nat
    decreases n
  {
    if n == 0 then 0
    else SpawnsAfter(timer, n - 1) + if SpawnTick(1, TimerAfter(timer, n - 1)).spawned then 1 else 0
  }

  /** From a reset timer, one enemy appears every 91 ticks: after n ticks
      the timer reads n mod 91 and n div 91 enemies have spawned. */
  lemma {:induction false} SpawnRhythm(n: nat)
    ensures TimerAfter(0, n) == n % (SpawnDelay + 1)
    ensures SpawnsAfter(0, n) == n / (SpawnDelay + 1)
  {
    if n > 0 {
      SpawnRhythm(n - 1);
      var m := n - 1;
      if m % 91 == 90 {
        assert m == 91 * (m / 91) + 90;
        assert n == 91 * (m / 91 + 1);
        assert n % 91 == 0 && n / 91 == m / 91 + 1;
      } else {
        assert m == 91 * (m / 91) + m % 91;
        assert n == 91 * (m / 91) + (m % 91 + 1);
        assert n % 91 == m % 91 + 1 && n / 91 == m / 91;
      }
    }
  }

  // ---------------------------------------------------------------------
  // The boss's bounce

  /** The boss's horizontal position and direction. */
  datatype Glide = Glide(x: int, dir: int)

  /** A position the boss can hold: between the walls, on the grid of
      3-pixel steps through its starting column. */
  predicate InBand(x: int)
  {
    BossLeft <= x <= BossRight && x % BossStride == BossStartX % BossStride
  }

  /** InBand, a unit direction, and a direction that points away from a
      wall the boss stands on. */
  predicate Orbit(g: Glide)
  {
    && InBand(g.x)
    && (g.dir == 1 || g.dir == -1)
    && (g.x == BossLeft ==> g.dir == 1)
    && (g.x == BossRight ==> g.dir == -1)
  }

  /** One level-3 tick: step 3 pixels in the current direction, then turn
      around when at or beyond a wall. */
  function BossMove(g: Glide): Glide
  {
    var x := g.x + BossStride * g.dir;
    Glide(x, if x <= BossLeft || x >= BossRight then -g.dir else g.dir)
  }

  /** The bounce keeps the boss in its orbit, and the direction turns
      exactly when the boss lands on a wall, never past it. */
  lemma BossMoveKeepsOrbit(g: Glide)
    requires Orbit(g)
    ensures Orbit(BossMove(g))
    ensures BossMove(g).dir != g.dir <==> BossMove(g).x == BossLeft || BossMove(g).x == BossRight
  {
    var x := g.x + BossStride * g.dir;
    if g.dir == 1 {
      assert x == g.x + 3;
      assert x % 3 == g.x % 3;
    } else {
      assert x == g.x - 3;
      assert x % 3 == g.x % 3;
    }
  }

  function GlideAfter(g: Glide, n: nat): Glide
    decreases n
  {
    if n == 0 then g else BossMove(GlideAfter(g, n - 1))
  }

  /** However many level-3 ticks pass, a boss that starts in its orbit stays
      in it, and so stays within [50, 590]. */
  lemma {:induction false} OrbitForever(g: Glide, n: nat)
    requires Orbit(g)
    ensures Orbit(GlideAfter(g, n))
    ensures BossLeft <= GlideAfter(g, n).x <= BossRight
  {
    if n > 0 {
      OrbitForever(g, n - 1);
      BossMoveKeepsOrbit(GlideAfter(g, n - 1));
    }
  }

  /** A freshly spawned boss, at x = 320 with either direction, is in orbit. */
  lemma SpawnedBossInOrbit(dir: int)
    requires dir == 1 || dir == -1
    ensures Orbit(Glide(BossStartX, dir))
  {
  }

  // ---------------------------------------------------------------------
  // The level-2 volley

  /** How many of the first n rolls fire a projectile (a roll below 1). */
  function Launches(rolls: seq<int>, n: nat): (c: nat)
    requires n <= |rolls|
    ensures c <= n
    decreases n
  {
    if n == 0 then 0 else Launches(rolls, n - 1) + if rolls[n - 1] < 1 then 1 else 0
  }

  /** The projectiles launched while walking the group `es` in order: the
      k-th member fires when rolls[k] is below 1, from its own x, and the
      projectiles take consecutive ids starting at `next`. */
  function Volley<E>(es: seq<E>, originX: E -> int, rolls: seq<int>, next: nat): map<nat, Shot>
    requires |rolls| >= |es|
    decreases |es|
  {
    if |es| == 0 then map[]
    else
      var k := |es| - 1;
      var before := Volley(es[..k], originX, rolls, next);
      if rolls[k] < 1 then before[next + Launches(rolls, k) := Shot(originX(es[k]), true)] else before
  }

  /** A volley holds exactly one active projectile per firing member, under
      the consecutive ids from `next`, each launched from a firing member's x. */
  lemma {:induction false} VolleyShape<E>(es: seq<E>, originX: E -> int, rolls: seq<int>, next: nat)
    requires |rolls| >= |es|
    ensures forall id :: id in Volley(es, originX, rolls, next) <==> next <= id < next + Launches(rolls, |es|)
    ensures forall id :: id in Volley(es, originX, rolls, next) ==> Volley(es, originX, rolls, next)[id].active
    ensures forall id :: id in Volley(es, originX, rolls, next) ==>
              exists k :: 0 <= k < |es| && rolls[k] < 1 && Volley(es, originX, rolls, next)[id].x == originX(es[k])
    decreases |es|
  {
    if |es| > 0 {
      var k := |es| - 1;
      VolleyShape(es[..k], originX, rolls, next);
      assert forall j :: 0 <= j < k ==> es[..k][j] == es[j];
    }
  }

  /** Each firing member owns its slot: the k-th member, when its roll fires,
      holds id next + Launches(rolls, k) with an active shot from its own x. */
  lemma {:induction false} VolleySlot<E>(es: seq<E>, originX: E -> int, rolls: seq<int>, next: nat, k: nat)
    requires |rolls| >= |es| && k < |es| && rolls[k] < 1
    ensures next + Launches(rolls, k) in Volley(es, originX, rolls, next)
    ensures Volley(es, originX, rolls, next)[next + Launches(rolls, k)] == Shot(originX(es[k]), true)
    decreases |es|
  {
    var n := |es| - 1;
    if k < n {
      VolleySlot(es[..n], originX, rolls, next, k);
      assert es[..n][k] == es[k];
      VolleyShape(es[..n], originX, rolls, next);
      assert next + Launches(rolls, k) < next + Launches(rolls, n);
    }
  }

  /** Walking one more member extends the volley by that member's shot,
      if its roll fires. */
  lemma VolleyStep<E>(es: seq<E>, originX: E -> int, rolls: seq<int>, next: nat, i: nat)
    requires i < |es| && |rolls| >= |es|
    ensures Volley(es[..i + 1], originX, rolls, next) ==
              if rolls[i] < 1
              then Volley(es[..i], originX, rolls, next)[next + Launches(rolls, i) := Shot(originX(es[i]), true)]
              else Volley(es[..i], originX, rolls, next)
  {
    assert es[..i + 1][..i] == es[..i];
  }

  /** With every roll at 1 or above nobody fires. */
  lemma {:induction false} QuietVolley<E>(es: seq<E>, originX: E -> int, rolls: seq<int>, next: nat)
    requires |rolls| >= |es|
    requires forall k :: 0 <= k < |es| ==> rolls[k] >= 1
    ensures Launches(rolls, |es|) == 0
    ensures Volley(es, originX, rolls, next) == map[]
    decreases |es|
  {
    if |es| > 0 {
      QuietVolley(es[..|es| - 1], originX, rolls, next);
    }
  }
}
