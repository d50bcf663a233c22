/** The session controller (game.js): the per-frame `update` that schedules enemies and the
    boss, runs every collision pass and prunes what is left, the lightning skill and its
    cooldown, the boss spawn and the reset of a new game. */
module Games {
  import opened Common
  import opened Bullets
  import opened PowerUps
  import Enemies
  import Bosses
  import Players

  const BossInterval: nat := 1080
  const BaseSpawnRate: int := 100
  const MaxDifficulty: int := 10
  const SkillCooldown: nat := 300
  const FlashFrames: nat := 20
  const ContactDamage: int := 20
  const EnemySpacing: real := 80.0

  // ---------------------------------------------------------------------------------------
  // Scheduling.

  /** `Math.max(30, enemySpawnRate - difficulty * 7)` with the base rate 100. */
  function SpawnRate(d: int): (r: int)
    ensures r >= 30
    ensures d <= 10 ==> r == BaseSpawnRate - 7 * d
    ensures d >= 10 ==> r == 30
  {
    MaxInt(30, BaseSpawnRate - d * 7)
  }

  /** A harder game never spawns less often. */
  lemma SpawnRateNonIncreasing(d1: int, d2: int)
    requires d1 <= d2
    ensures SpawnRate(d2) <= SpawnRate(d1)
  {
  }

  /** `Math.ceil(Math.min(3, Math.floor(d / 3) + 1) * 1.5)`: 2 enemies below difficulty 3, 3
      from 3 to 5, and 5 from 6 on. */
  function SimultaneousSpawns(d: int): (n: int)
    ensures 0 <= d < 3 ==> n == 2
    ensures 3 <= d < 6 ==> n == 3
    ensures d >= 6 ==> n == 5
  {
    Ceil(MinInt(3, d / 3 + 1) as real * 1.5)
  }

  /** One frame of a counter that fires and restarts when it reaches `period`: the
      `timer++; if (timer >= period) { ...; timer = 0; }` idiom of the boss timer and the
      enemy spawn timer. */
  function Count(timer: nat, period: int): (r: (nat, bool))
    ensures r.1 <==> timer + 1 >= period
    ensures r.1 ==> r.0 == 0
    ensures !r.1 ==> r.0 == timer + 1
  {
    if timer + 1 >= period then (0, true) else (timer + 1, false)
  }

  /** The counter after `k` frames, and whether the last of them fired. */
  function CountN(timer: nat, period: int, k: nat): (nat, bool)
  {
    if k == 0 then (timer, false) else Count(CountN(timer, period, k - 1).0, period)
  }

  /** Started at 0, the counter fires for the first time on exactly the `period`-th frame. */
  lemma {:induction false} CountPeriod(period: nat, k: nat)
    requires 1 <= k <= period
    ensures CountN(0, period, k) == if k == period then (0, true) else (k, false)
  {
    if k > 1 {
      CountPeriod(period, k - 1);
    }
  }

  /** The boss appears for the first time 1080 frames into a boss-free stretch. */
  lemma BossAfterInterval(k: nat)
    requires 1 <= k <= BossInterval
    ensures CountN(0, BossInterval, k).1 <==> k == BossInterval
  {
    CountPeriod(BossInterval, k);
  }

  /** The placement the spawner applies to the `i`-th enemy of a wave: 80 pixels further
      right per place in the wave and, when `bottom`, entering at the bottom edge moving up. */
  function Placed(e: Enemies.Enemy, i: nat, bottom: bool, ch: real): (f: Enemies.Enemy)
    ensures f.x == e.x + (i as real) * EnemySpacing
    ensures bottom ==> f.y == ch && f.speed <= 0.0 && (f.speed == e.speed || f.speed == -e.speed) &&
                       f.isBottomSpawned
    ensures !bottom ==> f == e.(x := f.x)
    ensures f.(x := e.x, y := e.y, speed := e.speed, isBottomSpawned := e.isBottomSpawned) == e
  {
    var shifted := e.(x := e.x + (i as real) * EnemySpacing);
    if bottom then
      shifted.(y := ch, speed := -(if e.speed >= 0.0 then e.speed else -e.speed), isBottomSpawned := true)
    else shifted
  }

  /** A freshly spawned enemy is on screen whichever edge it enters from. */
  lemma SpawnedOnScreen(e: Enemies.Enemy, i: nat, bottom: bool, ch: real)
    requires e.y == -e.height && e.height > 0.0 && !e.isBottomSpawned && ch >= 0.0
    ensures !Enemies.IsOffScreen(Placed(e, i, bottom, ch), ch)
  {
  }

  // ---------------------------------------------------------------------------------------
  // Damage.

  /** `for (let i = 0; i < n; i++) if (enemy.hit()) { ...; break; }` destroys the enemy
      exactly when at least one call is made and `n` calls are enough to bring its health to
      0 (an enemy already at 0 is destroyed by the first call again). */
  predicate Destroys(e: Enemies.Enemy, n: nat)
  {
    n >= 1 && e.health <= n
  }

  /** The enemy after the damage loop: health set to 0 on destruction, `n` points lower
      otherwise. */
  function Battered(e: Enemies.Enemy, n: nat): (f: Enemies.Enemy)
    ensures f.(health := e.health) == e
    ensures e.health >= 0 ==> 0 <= f.health <= e.health
  {
    if Destroys(e, n) then e.(health := 0) else e.(health := e.health - n)
  }

  /** The counted damage loop: up to `n` calls of `hit()`, stopping at the first one that
      destroys the enemy, which then has its health set to 0. */
  method DamageLoop(e: Enemies.Enemy, n: nat) returns (f: Enemies.Enemy, destroyed: bool, calls: nat)
    ensures destroyed == Destroys(e, n) && f == Battered(e, n)
    ensures calls == if destroyed then MaxInt(1, e.health) else n
  {
    f := e;
    destroyed := false;
    calls := 0;
    while calls < n && !destroyed
      invariant 0 <= calls <= n
      invariant !destroyed ==> f == e.(health := e.health - calls) && (calls == 0 || e.health > calls)
      invariant destroyed ==> f == e.(health := 0) && calls >= 1 && e.health <= calls &&
                              (calls == 1 || e.health > calls - 1)
      decreases n - calls
    {
      var r := Enemies.Hit(f);
      calls := calls + 1;
      if r.0 {
        f := r.1.(health := 0);
        destroyed := true;
      } else {
        f := r.1;
      }
    }
  }

  /** The boxes of a list of enemies. */
  function Boxes(es: seq<Enemies.Enemy>): (r: seq<Box>)
    ensures |r| == |es| && forall k :: 0 <= k < |es| ==> r[k] == Enemies.EnemyBox(es[k])
  {
    seq(|es|, k requires 0 <= k < |es| => Enemies.EnemyBox(es[k]))
  }

  /** How many of the enemies a projectile overlaps. */
  function Overlapped(b: Projectile, es: seq<Enemies.Enemy>): nat
  {
    if es == [] then 0
    else Overlapped(b, es[..|es| - 1]) + (if Touches(b, es[|es| - 1]) then 1 else 0)
  }

  /** A projectile overlaps none of the enemies exactly when the count is 0. */
  lemma {:induction false} OverlappedNone(b: Projectile, es: seq<Enemies.Enemy>)
    ensures Overlapped(b, es) == 0 <==> forall k :: 0 <= k < |es| ==> !Touches(b, es[k])
  {
    if es != [] {
      var front := es[..|es| - 1];
      OverlappedNone(b, front);
      assert forall k :: 0 <= k < |front| ==> front[k] == es[k];
    }
  }

  /** How many of the enemies the bullet overlaps and destroys with `n` calls each. */
  function Downed(b: Projectile, es: seq<Enemies.Enemy>, n: nat): nat
  {
    if es == [] then 0
    else
      var e := es[|es| - 1];
      Downed(b, es[..|es| - 1], n) + (if CollidesWith(b, Enemies.EnemyBox(e)) && Destroys(e, n) then 1 else 0)
  }

  /** The score those destructions are worth. */
  function Bounty(b: Projectile, es: seq<Enemies.Enemy>, n: nat): int
  {
    if es == [] then 0
    else
      var e := es[|es| - 1];
      Bounty(b, es[..|es| - 1], n) + (if CollidesWith(b, Enemies.EnemyBox(e)) && Destroys(e, n) then e.score else 0)
  }

  /** Destructions are bounded by overlaps, and the score they earn is never negative. */
  lemma {:induction false} DownedBounds(b: Projectile, es: seq<Enemies.Enemy>, n: nat)
    requires forall k :: 0 <= k < |es| ==> es[k].score >= 0
    ensures Downed(b, es, n) <= Overlapped(b, es)
    ensures Bounty(b, es, n) >= 0
  {
    if es != [] {
      DownedBounds(b, es[..|es| - 1], n);
    }
  }

  /** What a bullet does to one enemy: the damage loop when they overlap, nothing otherwise. */
  function Struck(b: Projectile, e: Enemies.Enemy, n: nat): Enemies.Enemy
  {
    if CollidesWith(b, Enemies.EnemyBox(e)) then Battered(e, n) else e
  }

  /** Every enemy of `es` struck by the bullet, in order. */
  function StruckAll(b: Projectile, es: seq<Enemies.Enemy>, n: nat): (r: seq<Enemies.Enemy>)
    ensures |r| == |es| && forall k :: 0 <= k < |es| ==> r[k] == Struck(b, es[k], n)
  {
    if es == [] then [] else StruckAll(b, es[..|es| - 1], n) + [Struck(b, es[|es| - 1], n)]
  }

  /** `after` is `before` with some enemies' health lowered and nothing else changed. */
  predicate Worn(after: seq<Enemies.Enemy>, before: seq<Enemies.Enemy>)
  {
    |after| == |before| &&
    forall k :: 0 <= k < |after| ==>
      after[k].(health := before[k].health) == before[k] && after[k].health <= before[k].health
  }

  lemma WornTransitive(a: seq<Enemies.Enemy>, b: seq<Enemies.Enemy>, c: seq<Enemies.Enemy>)
    requires Worn(a, b) && Worn(b, c)
    ensures Worn(a, c)
  {
    forall k | 0 <= k < |a|
      ensures a[k].(health := c[k].health) == c[k]
    {
      assert a[k].(health := c[k].health) == a[k].(health := b[k].health).(health := c[k].health);
    }
  }

  /** Wear leaves every box where it was. */
  lemma WornKeepsBoxes(a: seq<Enemies.Enemy>, b: seq<Enemies.Enemy>)
    requires Worn(a, b)
    ensures Boxes(a) == Boxes(b)
  {
    assert forall k :: 0 <= k < |a| ==> a[k].x == b[k].x && a[k].y == b[k].y &&
                                        a[k].width == b[k].width && a[k].height == b[k].height;
  }

  /** A bullet's sweep only wears enemies of sound health. */
  lemma StruckWears(b: Projectile, es: seq<Enemies.Enemy>, fs: seq<Enemies.Enemy>)
    requires EnemiesSound(es) && |fs| == |es|
    requires forall k :: 0 <= k < |es| ==> fs[k] == Struck(b, es[k], Shots(b))
    ensures Worn(fs, es) && EnemiesSound(fs)
  {
  }

  /** Appending fresh explosions keeps every explosion's lifetime positive. */
  lemma ExplosionsLiveAppend(xs: seq<Explosion>, ys: seq<Explosion>)
    requires Players.ExplosionsLive(xs) && Players.ExplosionsLive(ys)
    ensures Players.ExplosionsLive(xs + ys)
  {
    assert forall i :: |xs| <= i < |xs + ys| ==> (xs + ys)[i] == ys[i - |xs|];
  }

  /** The bullet overlaps the enemy. */
  predicate Touches(b: Projectile, e: Enemies.Enemy)
  {
    CollidesWith(b, Enemies.EnemyBox(e))
  }

  /** The bullet overlaps the enemy and destroys it. */
  predicate Downs(b: Projectile, e: Enemies.Enemy)
  {
    Touches(b, e) && Destroys(e, Shots(b))
  }

  /** The number of `hit()` calls a bullet is worth: `bullet.damage || 1`, rounded up. */
  function Shots(b: Projectile): nat
  {
    LoopCount(OrDefault(b.payload.damage, 1.0))
  }

  /** The explosion a bomb bullet leaves on the enemy it hit: at the enemy's centre, with the
      bullet's radius and damage or the defaults 80 and 1. */
  function Blast(b: Projectile, e: Enemies.Enemy): (x: Explosion)
    ensures x.lifetime == Lifetime && x.active
  {
    NewExplosion(e.x + e.width / 2.0, e.y + e.height / 2.0,
                 OrDefault(b.payload.bombRadius, 80.0), OrDefault(b.payload.bombDamage, 1.0))
  }

  /** Enemy records the combat passes rely on: health and score never negative. */
  predicate EnemiesSound(es: seq<Enemies.Enemy>)
  {
    forall k :: 0 <= k < |es| ==> es[k].health >= 0 && es[k].score >= 0
  }

  /** Dropping destroyed and off-screen enemies, in order. */
  function Survivors(es: seq<Enemies.Enemy>, ch: real): (r: seq<Enemies.Enemy>)
    ensures r == Filter(es, e => Survives(e, ch))
    ensures forall e :: e in r <==> e in es && e.health > 0 && !Enemies.IsOffScreen(e, ch)
    ensures EnemiesSound(es) ==> EnemiesSound(r)
  {
    if es == [] then []
    else
      var rest := Survivors(es[1..], ch);
      assert forall e :: e in es <==> e == es[0] || e in es[1..];
      if Survives(es[0], ch) then [es[0]] + rest else rest
  }

  /** An enemy stays on the list while it has health left and is on screen. */
  predicate Survives(e: Enemies.Enemy, ch: real)
  {
    e.health > 0 && !Enemies.IsOffScreen(e, ch)
  }

  // ---------------------------------------------------------------------------------------
  // Fire at the player.

  /** The charge shield the player's charge orb projects (recorded by the drawing code). */
  datatype Shield = Shield(x: real, y: real, radius: real)

  /** The shield stops a bullet inside its radius; under the boss rules a bullet flagged
      `isPenetrating` passes through it. */
  predicate Shields(s: Option<Shield>, b: Projectile, bossRules: bool)
  {
    s.Some? && !(bossRules && b.payload.isPenetrating) &&
    WithinRadius(b.x - s.value.x, b.y - s.value.y, s.value.radius)
  }

  /** A bullet touches the player: a box overlap, or, for a sized boss bullet, a distance to
      the player's centre below its size plus half the smaller side of the player. */
  predicate Strikes(b: Projectile, p: Box, bossRules: bool)
  {
    if bossRules && b.payload.size != 0.0 then
      WithinRadius(b.x - (p.x + p.width / 2.0), b.y - (p.y + p.height / 2.0),
                   b.payload.size + MinReal(p.width, p.height) / 2.0)
    else CollidesWith(b, p)
  }

  /** An active bullet that the shield lets through and that touches the player. */
  predicate Lands(b: Projectile, s: Option<Shield>, p: Box, bossRules: bool)
  {
    b.active && !Shields(s, b, bossRules) && Strikes(b, p, bossRules)
  }

  /** A shielded bullet never lands. */
  lemma ShieldedNeverLands(b: Projectile, s: Option<Shield>, p: Box, bossRules: bool)
    requires Shields(s, b, bossRules)
    ensures !Lands(b, s, p, bossRules)
  {
  }

  /** Without a shield any active bullet touching the player lands. */
  lemma UnshieldedLands(b: Projectile, p: Box, bossRules: bool)
    requires b.active && Strikes(b, p, bossRules)
    ensures Lands(b, None, p, bossRules)
  {
  }

  // ---------------------------------------------------------------------------------------
  // The lightning skill.

  datatype Skill = Skill(available: bool, cooldown: nat, flash: nat)

  const ReadySkill: Skill := Skill(true, 0, 0)

  /** The skill is available exactly when its cooldown is 0. */
  predicate SkillValid(s: Skill)
  {
    (s.available <==> s.cooldown == 0) && s.cooldown <= SkillCooldown && s.flash <= FlashFrames
  }

  /** The counters of `drawLightning`: the flash fades by one frame, the cooldown runs down
      and the skill becomes available again when it reaches 0. */
  function SkillTick(s: Skill): (r: Skill)
    ensures SkillValid(s) ==> SkillValid(r)
  {
    var flash := if s.flash > 0 then s.flash - 1 else 0;
    if s.cooldown > 0 then Skill(s.cooldown - 1 == 0 || s.available, s.cooldown - 1, flash)
    else s.(flash := flash)
  }

  function SkillTickN(s: Skill, k: nat): Skill
  {
    if k == 0 then s else SkillTick(SkillTickN(s, k - 1))
  }

  /** After use the skill comes back after exactly 300 frames, and the flash lasts 20. */
  lemma {:induction false} SkillRecharges(k: nat)
    ensures SkillTickN(Skill(false, SkillCooldown, FlashFrames), k) ==
            Skill(k >= SkillCooldown, MaxInt(SkillCooldown - k, 0), MaxInt(FlashFrames - k, 0))
  {
    if k > 0 {
      SkillRecharges(k - 1);
    }
  }

  /** The score of a list of enemies. */
  function ScoreSum(es: seq<Enemies.Enemy>): int
  {
    if es == [] then 0 else ScoreSum(es[..|es| - 1]) + es[|es| - 1].score
  }

  // ---------------------------------------------------------------------------------------
  // Pick-ups.

  /** The pick-up filter on the player box: every pick-up falls; one touching the player is
      collected (and dropped from the list); a fallen one that left the screen is dropped. */
  function Remaining(ps: seq<PowerUp>, player: Box): (r: seq<PowerUp>)
    ensures |r| <= |ps|
    ensures forall i :: 0 <= i < |r| ==> r[i].active && !CheckCollision(r[i], player)
  {
    if ps == [] then []
    else
      var q := Fall(ps[|ps| - 1]);
      Remaining(ps[..|ps| - 1], player) + (if Uncollected(q, player) then [q] else [])
  }

  /** The pick-up filter keeps exactly the fallen pick-ups that are uncollected and still on
      screen, in order. */
  lemma {:induction false} RemainingIsFilter(ps: seq<PowerUp>, player: Box)
    ensures Remaining(ps, player) == Filter(Map(ps, Fall), q => Uncollected(q, player))
    decreases |ps|
  {
    if ps != [] {
      FilterMapLast(ps, Fall, q => Uncollected(q, player));
      RemainingIsFilter(ps[..|ps| - 1], player);
    }
  }

  /** A fallen pick-up stays on the list while it is still on screen and the player has not
      touched it. */
  predicate Uncollected(q: PowerUp, player: Box)
  {
    !CheckCollision(q, player) && q.active
  }

  /** The kinds of the pick-ups the player collects, in order. */
  function Collected(ps: seq<PowerUp>, player: Box): seq<Kind>
  {
    if ps == [] then []
    else
      var q := Fall(ps[|ps| - 1]);
      Collected(ps[..|ps| - 1], player) + (if CheckCollision(q, player) then [q.kind] else [])
  }

  /** One more pick-up of a run is either collected, kept or dropped. */
  lemma RunStep(ps: seq<PowerUp>, i: nat, player: Box)
    requires i < |ps|
    ensures var q := Fall(ps[i]);
            Collected(ps[..i + 1], player) ==
              Collected(ps[..i], player) + (if CheckCollision(q, player) then [q.kind] else []) &&
            Remaining(ps[..i + 1], player) == Remaining(ps[..i], player) + (if Uncollected(q, player) then [q] else [])
  {
    assert ps[..i + 1][..i] == ps[..i];
  }

  /** The loop of the pick-up pass over the list `ps`: every pick-up falls; one touching the
      player is handed to `activatePowerUp` and dropped; the rest stay while on screen. */
  method Pick(player: Players.Player, ps: seq<PowerUp>, d: int, now: real) returns (kept: seq<PowerUp>)
    requires player.Valid()
    modifies player`loadout, player`progress
    ensures player.Valid()
    ensures kept == Remaining(ps, player.BoxOf())
    ensures (player.loadout, player.progress) ==
            Players.ActivateAll(old(player.loadout), old(player.progress), Collected(ps, player.BoxOf()), d, now)
  {
    ghost var box, l0, g0 := player.BoxOf(), player.loadout, player.progress;
    kept := [];
    var i := 0;
    while i < |ps|
      invariant 0 <= i <= |ps| && player.Valid() && player.BoxOf() == box
      invariant kept == Remaining(ps[..i], box)
      invariant (player.loadout, player.progress) == Players.ActivateAll(l0, g0, Collected(ps[..i], box), d, now)
    {
      var q := Fall(ps[i]);
      RunStep(ps, i, box);
      ghost var c := Collected(ps[..i], box);
      if CheckCollision(q, player.BoxOf()) {
        Players.ActivateAllSnoc(l0, g0, c, q.kind, d, now);
        player.ActivatePowerUp(q.kind, d, now);
        assert Collected(ps[..i + 1], box) == c + [q.kind];
      } else {
        assert Collected(ps[..i + 1], box) == c;
        if q.active {
          kept := kept + [q];
        }
      }
      i := i + 1;
    }
    assert ps[..i] == ps;
  }

  /** Every pick-up of a run is collected, kept or dropped, never two of these. */
  lemma {:induction false} CollectedOrRemaining(ps: seq<PowerUp>, player: Box)
    ensures |Collected(ps, player)| + |Remaining(ps, player)| <= |ps|
  {
    if ps != [] {
      CollectedOrRemaining(ps[..|ps| - 1], player);
    }
  }

  // ---------------------------------------------------------------------------------------
  // The loops of the frame, over values; the `Random` stream is the only state they change.

  /** One wave of the spawner: `SimultaneousSpawns(d)` new enemies, each drawing its type
      and position, the `i`-th placed `80 * i` pixels right and, above difficulty 7,
      entering from the bottom on a third draw below 0.3. */
  method Wave(cw: real, ch: real, d: int, rng: Random) returns (es: seq<Enemies.Enemy>)
    requires rng.Valid() && d >= 1 && ch >= 0.0
    modifies rng
    ensures rng.Valid()
    ensures |es| == SimultaneousSpawns(d) && EnemiesSound(es)
    ensures forall k :: 0 <= k < |es| ==>
              es[k].time == 0 && es[k].bullets == [] && es[k].health >= 1 && es[k].difficulty == d &&
              (d <= 7 ==> !es[k].isBottomSpawned) && !Enemies.IsOffScreen(es[k], ch)
  {
    var n := SimultaneousSpawns(d);
    es := [];
    var i := 0;
    while i < n
      invariant 0 <= i <= n && |es| == i && rng.Valid() && EnemiesSound(es)
      invariant forall k :: 0 <= k < |es| ==>
                  es[k].time == 0 && es[k].bullets == [] && es[k].health >= 1 && es[k].difficulty == d &&
                  (d <= 7 ==> !es[k].isBottomSpawned) && !Enemies.IsOffScreen(es[k], ch)
    {
      var kindRoll := rng.Draw();
      var xRoll := rng.Draw();
      var e := Enemies.NewEnemy(cw, ch, d, kindRoll, xRoll);
      var bottom := false;
      if d > 7 {
        var r := rng.Draw();
        bottom := r < 0.3;
      }
      Enemies.ScorePositive(e.kind, d);
      SpawnedOnScreen(e, i, bottom, ch);
      es := es + [Placed(e, i, bottom, ch)];
      i := i + 1;
    }
  }

  /** The enemies' frame, one draw each in order; the bullets each enemy holds are released
      into one list. */
  method AdvanceWave(es: seq<Enemies.Enemy>, cw: real, ch: real, rng: Random, m: MathLib)
    returns (fs: seq<Enemies.Enemy>, released: seq<Projectile>)
    requires rng.Valid() && EnemiesSound(es)
    modifies rng
    ensures rng.Valid() && rng.next == old(rng.next) + |es|
    ensures |fs| == |es| && EnemiesSound(fs)
    ensures forall k :: 0 <= k < |es| ==>
              fs[k] == Enemies.Advance(es[k], cw, ch, rng.source(old(rng.next) + k), m).(bullets := [])
  {
    ghost var start := rng.next;
    fs := [];
    released := [];
    var j := 0;
    while j < |es|
      invariant 0 <= j <= |es| && |fs| == j && rng.Valid() && rng.next == start + j
      invariant forall k :: 0 <= k < j ==>
                  fs[k] == Enemies.Advance(es[k], cw, ch, rng.source(start + k), m).(bullets := [])
      invariant EnemiesSound(fs)
    {
      var roll := rng.Draw();
      var f := Enemies.Advance(es[j], cw, ch, roll, m);
      released := released + f.bullets;
      fs := fs + [f.(bullets := [])];
      j := j + 1;
    }
  }

  /** The test of an enemy against an explosion, as an event of its life. */
  function QueryOf(e: Enemies.Enemy): Event
  {
    Query(Enemies.EnemyBox(e), Enemies.Name(e))
  }

  /** The key an explosion remembers an enemy by. */
  function HitKeyOf(e: Enemies.Enemy): HitKey
  {
    EnemyKey(Enemies.EnemyBox(e), Enemies.Name(e))
  }

  /** Wear changes no enemy's box or type, so an explosion asks the same queries of the worn
      enemies. */
  lemma WornKeepsQueries(a: seq<Enemies.Enemy>, b: seq<Enemies.Enemy>)
    requires Worn(a, b)
    ensures Map(a, QueryOf) == Map(b, QueryOf)
  {
    assert forall k :: 0 <= k < |a| ==> a[k].x == b[k].x && a[k].y == b[k].y && a[k].kind == b[k].kind &&
                                        a[k].width == b[k].width && a[k].height == b[k].height;
  }

  /** One explosion against every enemy: each enemy inside the ring whose key is new takes
      the explosion's damage loop, and a destroyed one pays out its score and a kill. The
      explosion ends as the replay of one query per enemy leaves it, and every enemy it
      hurts is one it had not hurt before and now remembers. */
  method Detonate(x: Explosion, es: seq<Enemies.Enemy>)
    returns (y: Explosion, fs: seq<Enemies.Enemy>, gained: int, downed: nat)
    requires EnemiesSound(es)
    ensures EnemiesSound(fs) && Worn(fs, es) && gained >= 0
    ensures y == x.(hitEnemies := y.hitEnemies) && x.hitEnemies <= y.hitEnemies
    ensures x.lifetime > 0 ==> y == Replay(x, Map(es, QueryOf)).0
    ensures forall k :: 0 <= k < |es| && fs[k] != es[k] ==>
              HitKeyOf(es[k]) in y.hitEnemies && HitKeyOf(es[k]) !in x.hitEnemies
  {
    y := x;
    fs := es;
    gained := 0;
    downed := 0;
    var j := 0;
    while j < |fs|
      invariant 0 <= j <= |fs| && EnemiesSound(fs) && Worn(fs, es) && gained >= 0
      invariant y == x.(hitEnemies := y.hitEnemies) && x.hitEnemies <= y.hitEnemies
      invariant forall k :: j <= k < |fs| ==> fs[k] == es[k]
      invariant x.lifetime > 0 ==> y == Replay(x, Map(es[..j], QueryOf)).0
      invariant forall k :: 0 <= k < j && fs[k] != es[k] ==>
                  HitKeyOf(es[k]) in y.hitEnemies && HitKeyOf(es[k]) !in x.hitEnemies
    {
      var e := fs[j];
      if x.lifetime > 0 {
        assert Map(es[..j + 1], QueryOf) == Map(es[..j], QueryOf) + [QueryOf(es[j])];
        ReplaySnoc(x, Map(es[..j], QueryOf), QueryOf(es[j]));
      }
      var r := CheckEnemyInRange(y, Enemies.EnemyBox(e), Enemies.Name(e));
      y := r.1;
      if r.0 {
        var f, destroyed, calls := DamageLoop(e, LoopCount(OrDefault(y.damage, 1.0)));
        if destroyed {
          gained := gained + e.score;
          downed := downed + 1;
        }
        fs := fs[j := f];
      }
      j := j + 1;
    }
    assert es[..j] == es;
  }

  /** Every explosion against every enemy, in order. */
  method Detonations(xs: seq<Explosion>, es: seq<Enemies.Enemy>)
    returns (ys: seq<Explosion>, fs: seq<Enemies.Enemy>, gained: int, downed: nat)
    requires EnemiesSound(es)
    ensures |ys| == |xs|
    ensures forall k :: 0 <= k < |xs| ==>
              ys[k] == xs[k].(hitEnemies := ys[k].hitEnemies) && xs[k].hitEnemies <= ys[k].hitEnemies
    ensures forall k :: 0 <= k < |xs| && xs[k].lifetime > 0 ==> ys[k] == Replay(xs[k], Map(es, QueryOf)).0
    ensures EnemiesSound(fs) && Worn(fs, es) && gained >= 0
  {
    ys := xs;
    fs := es;
    gained := 0;
    downed := 0;
    var i := 0;
    while i < |xs|
      invariant 0 <= i <= |xs| == |ys|
      invariant forall k :: 0 <= k < |xs| ==>
                  ys[k] == xs[k].(hitEnemies := ys[k].hitEnemies) && xs[k].hitEnemies <= ys[k].hitEnemies
      invariant forall k :: i <= k < |xs| ==> ys[k] == xs[k]
      invariant forall k :: 0 <= k < i && xs[k].lifetime > 0 ==> ys[k] == Replay(xs[k], Map(es, QueryOf)).0
      invariant EnemiesSound(fs) && Worn(fs, es) && gained >= 0
    {
      var y, gs, g, d := Detonate(ys[i], fs);
      WornKeepsQueries(fs, es);
      WornTransitive(gs, fs, es);
      ys := ys[i := y];
      fs := gs;
      gained := gained + g;
      downed := downed + d;
      i := i + 1;
    }
  }

  /** A kill's pick-up drop: one draw below 0.3 leaves a pick-up, whose kind takes a second
      draw, centred on the destroyed enemy. */
  method Drop(e: Enemies.Enemy, rng: Random) returns (drop: seq<PowerUp>)
    requires rng.Valid()
    modifies rng
    ensures rng.Valid()
    ensures |drop| <= 1 && (|drop| == 1 <==> rng.source(old(rng.next)) < 0.3)
    ensures |drop| == 1 ==> drop[0].x == e.x + e.width / 2.0 - 15.0 &&
                            drop[0].y == e.y + e.height / 2.0 - 15.0 && drop[0].active
  {
    drop := [];
    var r := rng.Draw();
    if r < 0.3 {
      var v := rng.Draw();
      var kind := PickKind(v * 100.0);
      drop := [NewPowerUp(e.x + e.width / 2.0 - 15.0, e.y + e.height / 2.0 - 15.0, kind)];
    }
  }

  /** One overlap of a player bullet with an enemy: the damage loop runs `Shots(b)` times,
      and a destruction may leave a pick-up. */
  method Strike(b: Projectile, e: Enemies.Enemy, rng: Random)
    returns (f: Enemies.Enemy, down: bool, drop: seq<PowerUp>)
    requires rng.Valid()
    modifies rng
    ensures rng.Valid()
    ensures f == Struck(b, e, Shots(b)) && down == Downs(b, e)
    ensures |drop| <= 1 && (!down ==> drop == [] && rng.next == old(rng.next))
  {
    f := e;
    down := false;
    drop := [];
    if Touches(b, e) {
      var calls;
      f, down, calls := DamageLoop(e, Shots(b));
      if down {
        drop := Drop(f, rng);
      }
    }
  }

  /** What a sweep has gathered after some of the enemies: the struck enemies, whether the
      bullet is still active, the score, the kills and the number of explosions. */
  datatype Tally = Tally(struck: seq<Enemies.Enemy>, active: bool, gained: int, downed: nat, blasts: nat)

  /** The enemy loop of the bullet pass as one fold over the enemies, the last one last. */
  function SweepTally(b: Projectile, es: seq<Enemies.Enemy>): Tally
  {
    if es == [] then Tally([], b.active, 0, 0, 0)
    else
      var t := SweepTally(b, es[..|es| - 1]);
      var e := es[|es| - 1];
      Tally(t.struck + [Struck(b, e, Shots(b))],
            t.active && !(Touches(b, e) && !b.payload.penetrating),
            t.gained + (if Downs(b, e) then e.score else 0),
            t.downed + (if Downs(b, e) then 1 else 0),
            t.blasts + (if Touches(b, e) && b.payload.isBomb then 1 else 0))
  }

  /** The fold agrees with the counts defined one by one: every enemy is struck, the bullet
      stays active exactly when it penetrates or overlaps nothing, the score and kills are
      those of the destroyed enemies, and a bomb leaves one explosion per overlap. */
  lemma {:induction false} SweepTallyCounts(b: Projectile, es: seq<Enemies.Enemy>)
    ensures SweepTally(b, es) ==
            Tally(StruckAll(b, es, Shots(b)), b.active && (b.payload.penetrating || Overlapped(b, es) == 0),
                  Bounty(b, es, Shots(b)), Downed(b, es, Shots(b)),
                  if b.payload.isBomb then Overlapped(b, es) else 0)
  {
    if es != [] {
      SweepTallyCounts(b, es[..|es| - 1]);
    }
  }

  /** One more enemy extends the fold by that enemy. */
  lemma SweepStep(b: Projectile, es: seq<Enemies.Enemy>, j: nat)
    requires j < |es|
    ensures var t := SweepTally(b, es[..j]);
            var e := es[j];
            SweepTally(b, es[..j + 1]) ==
            Tally(t.struck + [Struck(b, e, Shots(b))],
                  t.active && !(Touches(b, e) && !b.payload.penetrating),
                  t.gained + (if Downs(b, e) then e.score else 0),
                  t.downed + (if Downs(b, e) then 1 else 0),
                  t.blasts + (if Touches(b, e) && b.payload.isBomb then 1 else 0))
  {
    assert es[..j + 1][..j] == es[..j];
  }

  /** The body of the enemy loop for one enemy: strike it, and on a destruction add its
      score, count it and collect its drop; on an overlap a non-penetrating bullet goes
      inactive and a bomb leaves an explosion. */
  method SweepOne(b: Projectile, e: Enemies.Enemy, rng: Random, active: bool, gained: int, downed: nat,
                  drops: seq<PowerUp>, blasts: seq<Explosion>)
    returns (f: Enemies.Enemy, active': bool, gained': int, downed': nat,
             drops': seq<PowerUp>, blasts': seq<Explosion>)
    requires rng.Valid()
    modifies rng
    ensures rng.Valid()
    ensures f == Struck(b, e, Shots(b))
    ensures active' == (active && !(Touches(b, e) && !b.payload.penetrating))
    ensures gained' == gained + (if Downs(b, e) then e.score else 0)
    ensures downed' == downed + (if Downs(b, e) then 1 else 0)
    ensures |drops'| <= |drops| + (if Downs(b, e) then 1 else 0)
    ensures blasts' == blasts + (if Touches(b, e) && b.payload.isBomb then [Blast(b, f)] else [])
  {
    active', gained', downed', drops', blasts' := active, gained, downed, drops, blasts;
    var down, drop;
    f, down, drop := Strike(b, e, rng);
    if down {
      gained' := gained + e.score;
      downed' := downed + 1;
      drops' := drops + drop;
    }
    if Touches(b, e) {
      if !b.payload.penetrating {
        active' := false;
      }
      if b.payload.isBomb {
        blasts' := blasts + [Blast(b, f)];
      }
    }
  }

  /** One player bullet against every enemy, in order. The bullet's activity is checked
      once, before the loop: a non-penetrating bullet that goes inactive on its first
      overlap still strikes every other enemy it overlaps in this pass. Each overlap of a
      bomb leaves an explosion at that enemy's centre. */
  method Sweep(b: Projectile, es: seq<Enemies.Enemy>, rng: Random)
    returns (fs: seq<Enemies.Enemy>, active: bool, gained: int, downed: nat,
             drops: seq<PowerUp>, blasts: seq<Explosion>)
    requires rng.Valid()
    modifies rng
    ensures rng.Valid()
    ensures |fs| == |es| && forall k :: 0 <= k < |es| ==> fs[k] == Struck(b, es[k], Shots(b))
    ensures active == (b.active && (b.payload.penetrating || Overlapped(b, es) == 0))
    ensures gained == Bounty(b, es, Shots(b)) && downed == Downed(b, es, Shots(b))
    ensures |blasts| == (if b.payload.isBomb then Overlapped(b, es) else 0)
    ensures Players.ExplosionsLive(blasts) && |drops| <= downed
  {
    fs := [];
    active := b.active;
    gained := 0;
    downed := 0;
    drops := [];
    blasts := [];
    var j := 0;
    while j < |es|
      invariant 0 <= j <= |es| && rng.Valid()
      invariant Tally(fs, active, gained, downed, |blasts|) == SweepTally(b, es[..j])
      invariant Players.ExplosionsLive(blasts) && |drops| <= downed
    {
      SweepStep(b, es, j);
      var f;
      f, active, gained, downed, drops, blasts := SweepOne(b, es[j], rng, active, gained, downed, drops, blasts);
      fs := fs + [f];
      j := j + 1;
    }
    assert es[..j] == es;
    SweepTallyCounts(b, es);
  }

  /** The rule the bullet pass applies to each player bullet: a bullet active at its turn
      stays active only if it penetrates or overlaps none of the enemies. */
  function AfterPass(b: Projectile, es: seq<Enemies.Enemy>): Projectile
  {
    b.(active := b.active && (b.payload.penetrating ||
                              forall k :: 0 <= k < |es| ==> !CollidesWith(b, Enemies.EnemyBox(es[k]))))
  }

  /** The player bullet pass: every bullet still active at its turn sweeps the enemies.
      Enemies only lose health, so later bullets meet the same boxes. */
  method Barrage(pbs: seq<Projectile>, es: seq<Enemies.Enemy>, rng: Random)
    returns (qs: seq<Projectile>, fs: seq<Enemies.Enemy>, gained: int, downed: nat,
             drops: seq<PowerUp>, blasts: seq<Explosion>)
    requires rng.Valid() && EnemiesSound(es)
    modifies rng
    ensures rng.Valid()
    ensures |qs| == |pbs| && forall i :: 0 <= i < |pbs| ==> qs[i] == AfterPass(pbs[i], es)
    ensures EnemiesSound(fs) && Worn(fs, es) && gained >= 0 && Players.ExplosionsLive(blasts)
  {
    qs := pbs;
    fs := es;
    gained := 0;
    downed := 0;
    drops := [];
    blasts := [];
    var i := 0;
    while i < |pbs|
      invariant 0 <= i <= |pbs| == |qs| && rng.Valid()
      invariant forall k :: 0 <= k < i ==> qs[k] == AfterPass(pbs[k], es)
      invariant forall k :: i <= k < |pbs| ==> qs[k] == pbs[k]
      invariant EnemiesSound(fs) && Worn(fs, es) && gained >= 0 && Players.ExplosionsLive(blasts)
    {
      var b := pbs[i];
      if b.active {
        var gs, active, g, d, ds, bs := Sweep(b, fs, rng);
        OverlappedNone(b, fs);
        DownedBounds(b, fs, Shots(b));
        WornKeepsBoxes(fs, es);
        StruckWears(b, fs, gs);
        WornTransitive(gs, fs, es);
        qs := qs[i := b.(active := active)];
        fs := gs;
        gained := gained + g;
        downed := downed + d;
        drops := drops + ds;
        blasts := blasts + bs;
      }
      i := i + 1;
    }
  }

  /** The boss reward: five pick-ups in a row 25 pixels apart, centred below the boss. */
  method Rewards(cx: real, cy: real, rng: Random) returns (ps: seq<PowerUp>)
    requires rng.Valid()
    modifies rng
    ensures rng.Valid()
    ensures |ps| == 5
    ensures forall k :: 0 <= k < |ps| ==>
              ps[k].x == cx - 50.0 + (k as real) * 25.0 && ps[k].y == cy && ps[k].active
  {
    ps := [];
    var k := 0;
    while k < 5
      invariant 0 <= k <= 5 && |ps| == k && rng.Valid()
      invariant forall q :: 0 <= q < |ps| ==>
                  ps[q].x == cx - 50.0 + (q as real) * 25.0 && ps[q].y == cy && ps[q].active
    {
      var v := rng.Draw();
      var kind := PickKind(v * 100.0);
      ps := ps + [NewPowerUp(cx - 50.0 + (k as real) * 25.0, cy, kind)];
      k := k + 1;
    }
  }

  // ---------------------------------------------------------------------------------------
  // The game.

  class Game {
    const canvasWidth: real
    const canvasHeight: real
    const m: MathLib
    const player: Players.Player
    const rng: Random

    var score: int
    var kills: nat
    var enemies: seq<Enemies.Enemy>
    var enemyBullets: seq<Projectile>
    var particles: seq<Particle>
    var powerUps: seq<PowerUp>
    var boss: Bosses.Boss?
    var bossActive: bool
    var bossTimer: nat
    var enemySpawnTimer: nat
    var difficulty: int
    var skill: Skill

    ghost predicate Valid()
      reads this, player, boss
    {
      player.Valid() && rng.Valid() && canvasHeight >= 0.0 &&
      1 <= difficulty <= MaxDifficulty && bossTimer < BossInterval &&
      (bossActive <==> boss != null) && (boss != null ==> boss.Valid()) &&
      SkillValid(skill) && EnemiesSound(enemies)
    }

    /** The state `new Game()` and `startGame()` set up, given the player and the source of
        random draws. */
    constructor (cw: real, ch: real, math: MathLib, source: nat -> real)
      requires ch >= 0.0 && forall i: nat :: 0.0 <= source(i) < 1.0
      ensures Valid()
      ensures canvasWidth == cw && canvasHeight == ch && m == math && fresh(player) && fresh(rng)
      ensures score == 0 && kills == 0 && enemies == [] && enemyBullets == [] && particles == []
      ensures powerUps == [] && boss == null && !bossActive && bossTimer == 0
      ensures enemySpawnTimer == 0 && difficulty == 1 && skill == ReadySkill
    {
      canvasWidth := cw;
      canvasHeight := ch;
      m := math;
      player := new Players.Player(cw, ch);
      rng := new Random(source);
      score := 0;
      kills := 0;
      enemies := [];
      enemyBullets := [];
      particles := [];
      powerUps := [];
      boss := null;
      bossActive := false;
      bossTimer := 0;
      enemySpawnTimer := 0;
      difficulty := 1;
      skill := ReadySkill;
    }

    /** The state part of `startGame()`: everything back to a new game, except that the
        pick-ups still on screen are kept. */
    method StartGame()
      requires Valid()
      modifies this`score, this`kills, this`enemies, this`enemyBullets, this`particles,
               this`difficulty, this`enemySpawnTimer, this`boss, this`bossActive, this`bossTimer,
               this`skill
      modifies player`x, player`y, player`canvasHeight, player`bullets, player`explosions,
               player`loadout, player`progress, player`exp, player`guard
      ensures Valid()
      ensures score == 0 && kills == 0 && enemies == [] && enemyBullets == [] && particles == []
      ensures difficulty == 1 && enemySpawnTimer == 0 && boss == null && !bossActive && bossTimer == 0
      ensures skill == ReadySkill && powerUps == old(powerUps)
      ensures player.loadout == Players.FreshLoadout && player.progress == Players.FreshProgress
      ensures player.bullets == [] && player.explosions == [] && player.exp == 0
    {
      ClearBoard();
      player.Reset(canvasWidth, canvasHeight);
    }

    /** The game's own part of `startGame()`. */
    method ClearBoard()
      requires Valid()
      modifies this`score, this`kills, this`enemies, this`enemyBullets, this`particles,
               this`difficulty, this`enemySpawnTimer, this`boss, this`bossActive, this`bossTimer,
               this`skill
      ensures Valid()
      ensures score == 0 && kills == 0 && enemies == [] && enemyBullets == [] && particles == []
      ensures difficulty == 1 && enemySpawnTimer == 0 && boss == null && !bossActive && bossTimer == 0
      ensures skill == ReadySkill
    {
      ClearField();
      ClearSchedule();
    }

    /** The score, the kills and everything on the field go back to nothing. */
    method ClearField()
      requires Valid()
      modifies this`score, this`kills, this`enemies, this`enemyBullets, this`particles
      ensures Valid()
      ensures score == 0 && kills == 0 && enemies == [] && enemyBullets == [] && particles == []
    {
      score := 0;
      kills := 0;
      enemies := [];
      enemyBullets := [];
      particles := [];
    }

    /** Difficulty 1, both timers at 0, no boss, and the skill ready. */
    method ClearSchedule()
      requires Valid()
      modifies this`difficulty, this`enemySpawnTimer, this`boss, this`bossActive, this`bossTimer, this`skill
      ensures Valid()
      ensures difficulty == 1 && enemySpawnTimer == 0 && boss == null && !bossActive && bossTimer == 0
      ensures skill == ReadySkill
    {
      difficulty := 1;
      enemySpawnTimer := 0;
      boss := null;
      bossActive := false;
      bossTimer := 0;
      skill := ReadySkill;
    }

    /** `spawnBoss()`: the screen is cleared of enemies and their bullets and a new boss of
        the current difficulty enters. */
    method SpawnBoss()
      requires Valid()
      modifies this`enemies, this`enemyBullets, this`boss, this`bossActive
      ensures Valid()
      ensures enemies == [] && enemyBullets == [] && bossActive && boss != null && fresh(boss)
      ensures boss.difficulty == MaxInt(3, difficulty) && boss.health == boss.maxHealth
    {
      enemies := [];
      enemyBullets := [];
      boss := new Bosses.Boss(canvasWidth, canvasHeight, difficulty);
      bossActive := true;
    }

    /** The boss timer: it counts only while no boss is active, and at 1080 it spawns the
        boss and restarts. */
    method ClockBoss()
      requires Valid()
      modifies this`bossTimer, this`enemies, this`enemyBullets, this`boss, this`bossActive
      ensures Valid()
      ensures old(bossActive) ==> bossTimer == old(bossTimer) && boss == old(boss) && bossActive &&
                                  enemies == old(enemies) && enemyBullets == old(enemyBullets)
      ensures !old(bossActive) ==> (bossTimer, bossActive) == Count(old(bossTimer), BossInterval)
      ensures !old(bossActive) && bossActive ==> enemies == [] && enemyBullets == [] && fresh(boss)
      ensures !bossActive ==> enemies == old(enemies) && enemyBullets == old(enemyBullets) && boss == old(boss)
    {
      if !bossActive {
        var t := Count(bossTimer, BossInterval);
        bossTimer := t.0;
        if t.1 {
          SpawnBoss();
        }
      }
    }

    /** The enemy spawner: while no boss is active, the spawn timer counts to the current
        spawn rate and then a wave enters. */
    method SpawnEnemies()
      requires Valid()
      modifies this`enemySpawnTimer, this`enemies, rng
      ensures Valid()
      ensures bossActive ==> enemySpawnTimer == old(enemySpawnTimer) && enemies == old(enemies) &&
                             rng.next == old(rng.next)
      ensures !bossActive ==> enemySpawnTimer == Count(old(enemySpawnTimer), SpawnRate(difficulty)).0
      ensures |enemies| == |old(enemies)| +
                (if !bossActive && Count(old(enemySpawnTimer), SpawnRate(difficulty)).1
                 then SimultaneousSpawns(difficulty) else 0)
      ensures enemies[..|old(enemies)|] == old(enemies)
      ensures forall k :: |old(enemies)| <= k < |enemies| ==>
                enemies[k].time == 0 && enemies[k].bullets == [] && enemies[k].health >= 1 &&
                enemies[k].difficulty == difficulty &&
                (difficulty <= 7 ==> !enemies[k].isBottomSpawned) &&
                !Enemies.IsOffScreen(enemies[k], canvasHeight)
    {
      if bossActive {
        return;
      }
      var t := Count(enemySpawnTimer, SpawnRate(difficulty));
      var wave := [];
      if t.1 {
        wave := Wave(canvasWidth, canvasHeight, difficulty, rng);
      }
      enemySpawnTimer := t.0;
      enemies := enemies + wave;
    }

    /** The enemy update loop: every enemy takes its frame with one draw, and the bullets it
        holds move over to the shared enemy bullet list. */
    method AdvanceEnemies()
      requires Valid()
      modifies this`enemies, this`enemyBullets, rng
      ensures Valid()
      ensures |enemies| == |old(enemies)| && rng.next == old(rng.next) + |enemies|
      ensures forall k :: 0 <= k < |enemies| ==>
                enemies[k] == Enemies.Advance(old(enemies)[k], canvasWidth, canvasHeight,
                                              rng.source(old(rng.next) + k), m).(bullets := [])
      ensures |enemyBullets| >= |old(enemyBullets)| && enemyBullets[..|old(enemyBullets)|] == old(enemyBullets)
    {
      var fs, released := AdvanceWave(enemies, canvasWidth, canvasHeight, rng, m);
      enemies := fs;
      enemyBullets := enemyBullets + released;
    }

    /** The pick-up pass: every pick-up falls; one touching the player is handed to
        `activatePowerUp` at the current difficulty and dropped; the rest stay while on
        screen. */
    method CollectPowerUps(now: real)
      requires Valid()
      modifies this`powerUps, player`loadout, player`progress
      ensures Valid()
      ensures powerUps == Remaining(old(powerUps), player.BoxOf())
      ensures (player.loadout, player.progress) ==
              Players.ActivateAll(old(player.loadout), old(player.progress), Collected(old(powerUps), player.BoxOf()),
                                  difficulty, now)
      ensures player.progress.maxHealth == old(player.progress.maxHealth)
    {
      powerUps := Pick(player, powerUps, difficulty, now);
    }

    /** The explosion pass: every live explosion against every enemy. */
    method ExplosionPass()
      requires Valid()
      modifies player`explosions, this`enemies, this`score, this`kills
      ensures Valid()
      ensures |player.explosions| == |old(player.explosions)|
      ensures forall k :: 0 <= k < |player.explosions| ==>
                player.explosions[k] == old(player.explosions)[k].(hitEnemies := player.explosions[k].hitEnemies) &&
                old(player.explosions)[k].hitEnemies <= player.explosions[k].hitEnemies
      ensures Worn(enemies, old(enemies))
      ensures score >= old(score) && kills >= old(kills)
    {
      var ys, fs, gained, downed := Detonations(player.explosions, enemies);
      player.explosions := ys;
      enemies := fs;
      score := score + gained;
      kills := kills + downed;
    }

    /** The player bullet pass: a non-penetrating bullet ends the pass inactive exactly when
        it overlapped some enemy; penetrating bullets keep flying; enemies only lose health;
        the score and the kills only rise. */
    method BulletPass()
      requires Valid()
      modifies player`bullets, player`explosions, this`enemies, this`score, this`kills, this`powerUps, rng
      ensures Valid()
      ensures |player.bullets| == |old(player.bullets)|
      ensures forall i :: 0 <= i < |player.bullets| ==>
                player.bullets[i] == AfterPass(old(player.bullets)[i], old(enemies))
      ensures Worn(enemies, old(enemies))
      ensures score >= old(score) && kills >= old(kills)
      ensures |player.explosions| >= |old(player.explosions)| &&
              player.explosions[..|old(player.explosions)|] == old(player.explosions)
      ensures |powerUps| >= |old(powerUps)| && powerUps[..|old(powerUps)|] == old(powerUps)
    {
      var qs, fs, gained, downed, drops, blasts := Barrage(player.bullets, enemies, rng);
      ExplosionsLiveAppend(player.explosions, blasts);
      player.bullets := qs;
      player.explosions := player.explosions + blasts;
      enemies := fs;
      score := score + gained;
      kills := kills + downed;
      powerUps := powerUps + drops;
    }

    /** A pass of bullets at the player: a bullet inside the shield is stopped; otherwise one
        touching the player is stopped and calls `hit()`. Only the first landing bullet can
        hurt, since the hit opens the invulnerability window. */
    method Incoming(bs: seq<Projectile>, shield: Option<Shield>, bossRules: bool) returns (r: seq<Projectile>)
      requires player.Valid()
      modifies player`progress, player`guard
      ensures player.Valid()
      ensures |r| == |bs|
      ensures forall i :: 0 <= i < |bs| ==>
                r[i] == bs[i].(active := bs[i].active && !Shields(shield, bs[i], bossRules) &&
                                         !Strikes(bs[i], player.BoxOf(), bossRules))
      ensures var struck := (exists i :: 0 <= i < |bs| && Lands(bs[i], shield, player.BoxOf(), bossRules));
              if struck && !old(player.guard).invulnerable
              then player.progress == old(player.progress).(health := old(player.progress).health - ContactDamage) &&
                   player.guard == Players.Guard(true, Players.InvulnerableFrames)
              else player.progress == old(player.progress) && player.guard == old(player.guard)
    {
      r := [];
      var i := 0;
      while i < |bs|
        invariant 0 <= i <= |bs| && |r| == i && player.Valid()
        invariant forall k :: 0 <= k < i ==>
                    r[k] == bs[k].(active := bs[k].active && !Shields(shield, bs[k], bossRules) &&
                                             !Strikes(bs[k], player.BoxOf(), bossRules))
        invariant var struck := (exists k :: 0 <= k < i && Lands(bs[k], shield, player.BoxOf(), bossRules));
                  if struck && !old(player.guard).invulnerable
                  then player.progress == old(player.progress).(health := old(player.progress).health - ContactDamage) &&
                       player.guard == Players.Guard(true, Players.InvulnerableFrames)
                  else player.progress == old(player.progress) && player.guard == old(player.guard)
      {
        var b := bs[i];
        if b.active && Shields(shield, b, bossRules) {
          b := b.(active := false);
        } else if b.active && Strikes(b, player.BoxOf(), bossRules) {
          b := b.(active := false);
          var _ := player.Hit(ContactDamage);
        }
        r := r + [b];
        i := i + 1;
      }
    }

    /** The player-enemy contact pass: every enemy overlapping the player calls `hit()` on
        the player and is itself marked destroyed (it is pruned on the next frame). */
    method ContactPass()
      requires Valid()
      modifies this`enemies, player`progress, player`guard
      ensures Valid()
      ensures |enemies| == |old(enemies)|
      ensures forall k :: 0 <= k < |enemies| ==>
                enemies[k] == if Overlaps(player.BoxOf(), Enemies.EnemyBox(old(enemies)[k]))
                              then old(enemies)[k].(health := 0) else old(enemies)[k]
      ensures var rammed := (exists k :: 0 <= k < |old(enemies)| &&
                                         Overlaps(player.BoxOf(), Enemies.EnemyBox(old(enemies)[k])));
              if rammed && !old(player.guard).invulnerable
              then player.progress == old(player.progress).(health := old(player.progress).health - ContactDamage) &&
                   player.guard == Players.Guard(true, Players.InvulnerableFrames)
              else player.progress == old(player.progress) && player.guard == old(player.guard)
    {
      var es := enemies;
      var j := 0;
      while j < |es|
        modifies player`progress, player`guard
        invariant 0 <= j <= |es| == |enemies| && player.Valid() && EnemiesSound(es)
        invariant forall k :: 0 <= k < j ==>
                    es[k] == if Overlaps(player.BoxOf(), Enemies.EnemyBox(enemies[k]))
                             then enemies[k].(health := 0) else enemies[k]
        invariant forall k :: j <= k < |es| ==> es[k] == enemies[k]
        invariant var rammed := (exists k :: 0 <= k < j &&
                                             Overlaps(player.BoxOf(), Enemies.EnemyBox(enemies[k])));
                  if rammed && !old(player.guard).invulnerable
                  then player.progress == old(player.progress).(health := old(player.progress).health - ContactDamage) &&
                       player.guard == Players.Guard(true, Players.InvulnerableFrames)
                  else player.progress == old(player.progress) && player.guard == old(player.guard)
      {
        if Overlaps(player.BoxOf(), Enemies.EnemyBox(es[j])) {
          var _ := player.Hit(ContactDamage);
          es := es[j := es[j].(health := 0)];
        }
        j := j + 1;
      }
      enemies := es;
    }

    /** The boss defeat: its score is paid, five pick-ups drop, the boss is gone and its
        timer restarts, and the difficulty rises by one up to 10. */
    method DefeatBoss()
      requires Valid() && boss != null
      modifies this`score, this`powerUps, this`boss, this`bossActive, this`bossTimer, this`difficulty, rng
      ensures Valid()
      ensures score == old(score) + old(boss).score
      ensures |powerUps| == |old(powerUps)| + 5 && powerUps[..|old(powerUps)|] == old(powerUps)
      ensures boss == null && !bossActive && bossTimer == 0
      ensures difficulty == MinInt(old(difficulty) + 1, MaxDifficulty)
    {
      var rewards := Rewards(boss.x + boss.width / 2.0, boss.y + boss.height / 2.0, rng);
      score := score + boss.score;
      powerUps := powerUps + rewards;
      boss := null;
      bossActive := false;
      bossTimer := 0;
      if difficulty < MaxDifficulty {
        difficulty := difficulty + 1;
      }
    }

    /** The player bullets against the boss, in order, until it is defeated: each active
        bullet overlapping the boss deals its damage (or 1) and, unless penetrating, goes
        inactive. */
    method StrikeBoss() returns (defeated: bool)
      requires Valid() && boss != null
      modifies player`bullets, this`score, this`powerUps, this`boss, this`bossActive, this`bossTimer,
               this`difficulty, rng, boss`health, boss`hitFlash
      ensures Valid()
      ensures defeated <==> boss == null
      ensures defeated ==> score == old(score) + old(boss).score && |powerUps| == |old(powerUps)| + 5 &&
                           !bossActive && bossTimer == 0 &&
                           difficulty == MinInt(old(difficulty) + 1, MaxDifficulty)
      ensures !defeated ==> boss == old(boss) && score == old(score) && powerUps == old(powerUps) &&
                            bossTimer == old(bossTimer) && difficulty == old(difficulty) && bossActive
      ensures |player.bullets| == |old(player.bullets)|
      ensures forall i :: 0 <= i < |player.bullets| ==>
                player.bullets[i] == old(player.bullets)[i].(active := player.bullets[i].active) &&
                (player.bullets[i].active ==> old(player.bullets)[i].active) &&
                (old(player.bullets)[i].payload.penetrating ==> player.bullets[i].active == old(player.bullets)[i].active)
    {
      var target: Bosses.Boss := boss;
      var area := Box(target.x, target.y, target.width, target.height);
      var pbs := player.bullets;
      defeated := false;
      var i := 0;
      while i < |pbs| && !defeated
        modifies target`health, target`hitFlash
        invariant 0 <= i <= |pbs| == |player.bullets| && target.Valid()
        invariant forall k :: 0 <= k < |pbs| ==>
                    pbs[k] == player.bullets[k].(active := pbs[k].active) &&
                    (pbs[k].active ==> player.bullets[k].active) &&
                    (player.bullets[k].payload.penetrating ==> pbs[k].active == player.bullets[k].active)
      {
        var b := pbs[i];
        if b.active && CollidesWith(b, area) {
          if !b.payload.penetrating {
            pbs := pbs[i := b.(active := false)];
          }
          defeated := target.Hit(OrDefault(b.payload.damage, 1.0));
        }
        i := i + 1;
      }
      player.bullets := pbs;
      if defeated {
        DefeatBoss();
      }
    }

    /** The boss fight part of `update`: the boss takes its frame, its bullets are checked
        against the shield and the player, the player's bullets against the boss, and a boss
        still standing that touches the player calls `hit()`. */
    method BossPass(shield: Option<Shield>)
      requires Valid() && bossActive
      modifies boss, rng, player`bullets, player`progress, player`guard
      modifies this`score, this`powerUps, this`boss, this`bossActive, this`bossTimer, this`difficulty
      ensures Valid()
      ensures bossActive ==> boss == old(boss) && difficulty == old(difficulty) && score == old(score)
      ensures !bossActive ==> boss == null && bossTimer == 0 && score == old(score) + old(boss).score &&
                              difficulty == MinInt(old(difficulty) + 1, MaxDifficulty)
    {
      var b := boss;
      var view := Bosses.PlayerView(player.x, player.y, Players.PlayerWidth, Players.PlayerHeight,
                                    player.progress.maxHealth);
      b.Update(view, rng, m);
      var landed := Incoming(b.bullets, shield, true);
      assert forall i :: 0 <= i < |landed| ==> !landed[i].isPlayerBullet;
      b.bullets := landed;
      assert b.Valid() && player.Valid() && rng.Valid();
      var defeated := StrikeBoss();
      if !defeated && Overlaps(player.BoxOf(), Box(b.x, b.y, b.width, b.height)) {
        var _ := player.Hit(ContactDamage);
      }
    }

    /** `activateLightningSkill()`: unless it is cooling down, every enemy on screen is
        destroyed for twice its score and a kill, the enemy bullets vanish, and the skill
        cools down for 300 frames with a 20-frame flash. */
    method ActivateLightningSkill()
      requires Valid()
      modifies this`score, this`kills, this`enemies, this`enemyBullets, this`skill
      ensures Valid()
      ensures !old(skill).available || old(skill).cooldown > 0 ==>
                score == old(score) && kills == old(kills) && enemies == old(enemies) &&
                enemyBullets == old(enemyBullets) && skill == old(skill)
      ensures old(skill).available && old(skill).cooldown == 0 ==>
                score == old(score) + 2 * ScoreSum(old(enemies)) && kills == old(kills) + |old(enemies)| &&
                enemies == [] && enemyBullets == [] && skill == Skill(false, SkillCooldown, FlashFrames)
    {
      if !skill.available || skill.cooldown > 0 {
        return;
      }
      skill := skill.(flash := FlashFrames);
      var j := 0;
      while j < |enemies|
        invariant 0 <= j <= |enemies| && enemies == old(enemies)
        invariant score == old(score) + 2 * ScoreSum(enemies[..j]) && kills == old(kills) + j
      {
        assert enemies[..j + 1][..j] == enemies[..j];
        score := score + enemies[j].score * 2;
        kills := kills + 1;
        j := j + 1;
      }
      assert enemies[..j] == enemies;
      enemies := [];
      enemyBullets := [];
      skill := Skill(false, SkillCooldown, FlashFrames);
    }

    /** The counter part of `drawLightning()`, run once per drawn frame. */
    method TickLightning()
      requires Valid()
      modifies this`skill
      ensures Valid()
      ensures skill == SkillTick(old(skill))
    {
      skill := SkillTick(skill);
    }

    /** The scheduling part of `update()`: the boss timer, the spawner, the enemies' frame
        and the move of the enemy bullets. */
    method Schedule()
      requires Valid()
      modifies this`bossTimer, this`enemies, this`enemyBullets, this`boss, this`bossActive,
               this`enemySpawnTimer, rng
      ensures Valid()
      ensures old(bossActive) ==> enemySpawnTimer == old(enemySpawnTimer) && boss == old(boss)
      ensures boss != old(boss) ==> fresh(boss)
    {
      ClockBoss();
      SpawnEnemies();
      AdvanceEnemies();
      enemyBullets := AdvanceAll(enemyBullets);
    }

    /** The player part of `update()`: the player's frame, the pick-ups and the timed
        effects. */
    method Equip(keys: Players.Keys, touchActive: bool, now: real)
      requires Valid()
      modifies this`powerUps
      modifies player`x, player`y, player`bullets, player`trigger, player`guard, player`loadout,
               player`progress, player`explosions
      ensures Valid()
    {
      player.Update(keys, touchActive, canvasWidth, canvasHeight, Boxes(enemies), m);
      CollectPowerUps(now);
      player.UpdatePowerUps(now);
    }

    /** The offensive part of `update()`: the explosion and bullet passes and the pruning of
        destroyed and departed enemies. */
    method Attack()
      requires Valid()
      modifies this`enemies, this`score, this`kills, this`powerUps, rng
      modifies player`bullets, player`explosions
      ensures Valid()
      ensures kills >= old(kills) && score >= old(score)
    {
      ExplosionPass();
      BulletPass();
      enemies := Survivors(enemies, canvasHeight);
    }

    /** The defensive part of `update()`: the fire at the player, the ramming, the boss
        fight and the particles. */
    method Defend(shield: Option<Shield>)
      requires Valid()
      modifies this`enemies, this`enemyBullets, this`particles, this`score, this`powerUps,
               this`boss, this`bossActive, this`bossTimer, this`difficulty, rng, boss
      modifies player`bullets, player`progress, player`guard
      ensures Valid()
      ensures difficulty != old(difficulty) ==>
                difficulty == old(difficulty) + 1 && !bossActive && bossTimer == 0 && old(bossActive)
    {
      enemyBullets := Incoming(enemyBullets, shield, false);
      ContactPass();
      if bossActive && boss != null {
        BossPass(shield);
      }
      particles := AdvanceParticles(particles);
    }

    /** `update()`: one frame of the game. The difficulty only ever changes on a boss defeat,
        by one, and the spawn timer stands still while a boss was active. */
    method Update(keys: Players.Keys, touchActive: bool, shield: Option<Shield>, now: real)
      requires Valid()
      modifies this, player, rng, boss
      ensures Valid()
      ensures difficulty != old(difficulty) ==> difficulty == old(difficulty) + 1 && !bossActive && bossTimer == 0
      ensures old(bossActive) ==> enemySpawnTimer == old(enemySpawnTimer)
      ensures kills >= old(kills)
    {
      // `update()` collects the pick-ups and runs `updatePowerUps` after the boss clock, the
      // spawns and the enemy moves; `Equip` comes first here. The two write disjoint fields,
      // neither reads what the other writes, and only `Schedule` draws, so the frame is the same.
      Equip(keys, touchActive, now);
      Schedule();
      Attack();
      Defend(shield);
    }
  }
}
