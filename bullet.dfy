/** Projectiles and particles (bullet.js). A projectile is one record for every kind the game
    fires: player shots, lasers, bombs, homing rockets, enemy and boss bullets. Its behaviour per
    frame is `Update`: optional re-targeting of homing shots, the straight-line move rule and
    the off-field check. */
module Bullets {
  import opened Common

  /** The weak "target" link of a bullet: an index into the enemy list it was chosen from, or
      the player for boss missiles. It is recorded but never followed by the bullet itself. */
  datatype Target = NoTarget | EnemyAt(index: nat) | ThePlayer

  /** The four boss weapon archetypes (spread, laser, bomb, homing missile). */
  datatype BossWeapon = SpreadShot | LaserShot | BombShot | MissileShot

  /** The homing part of a bullet: whether it steers, how strongly, and what it last chose. */
  datatype Homing = Homing(isHoming: bool, homingStrength: real, target: Target)

  /** What a bullet does on impact and how it is drawn: damage, size, penetration, the charged
      flag, the laser / bomb / missile flavours and the boss weapon tags. */
  datatype Payload = Payload(
    isCharged: bool, damage: real, size: real, penetrating: bool, angle: real,
    isLaser: bool, isBomb: bool, bombRadius: real, bombDamage: real,
    isMissile: bool, isBossWeapon: bool, bossWeaponType: Option<BossWeapon>,
    isPenetrating: bool)

  datatype Projectile = Projectile(
    x: real, y: real, width: real, height: real, speed: real,
    speedX: real, speedY: real,
    isPlayerBullet: bool, active: bool, canvasHeight: real,
    homing: Homing, payload: Payload)

  /** The payload every new bullet starts with: unit damage, no size, nothing special. */
  const PlainPayload := Payload(false, 1.0, 0.0, false, 0.0, false, false, 80.0, 1.0,
                                false, false, None, false)

  /** `new Bullet(x, y, speed, isPlayerBullet, canvasHeight)`: a 4 x 12 active bullet with unit
      damage, no explicit velocity and every special flag off. */
  function NewBullet(x: real, y: real, speed: real, isPlayerBullet: bool, canvasHeight: real): Projectile
  {
    Projectile(x, y, 4.0, 12.0, speed, 0.0, 0.0, isPlayerBullet, true, canvasHeight,
               Homing(false, 0.15, NoTarget), PlainPayload)
  }

  function BoxOf(b: Projectile): Box
  {
    Box(b.x, b.y, b.width, b.height)
  }

  /** The generously padded field: a bullet is out once its top passes above `-height`, it
      passes below the canvas, or it drifts more than 50 pixels beyond the sides of the 800-wide
      field. */
  predicate OffField(b: Projectile)
  {
    b.y < -b.height || b.y > b.canvasHeight || b.x < -50.0 || b.x > 850.0
  }

  /** The move rule and the bounds check of `Bullet.update`, applied once the velocity is
      settled. A player bullet with an explicit velocity moves by it, otherwise straight up by
      `speed`; an enemy (or boss) bullet only ever moves down by `speed`. */
  function Move(b: Projectile): (r: Projectile)
    ensures b.isPlayerBullet && (b.speedX != 0.0 || b.speedY != 0.0) ==>
              r.x == b.x + b.speedX && r.y == b.y + b.speedY
    ensures b.isPlayerBullet && b.speedX == 0.0 && b.speedY == 0.0 ==>
              r.x == b.x && r.y == b.y - b.speed
    ensures !b.isPlayerBullet ==> r.x == b.x && r.y == b.y + b.speed
    ensures r.active <==> b.active && !OffField(r)
    ensures !b.active ==> !r.active
    ensures r == b.(x := r.x, y := r.y, active := r.active)
  {
    var (nx, ny) :=
      if b.isPlayerBullet then
        (if b.speedX != 0.0 || b.speedY != 0.0 then (b.x + b.speedX, b.y + b.speedY)
         else (b.x, b.y - b.speed))
      else (b.x, b.y + b.speed);
    var moved := b.(x := nx, y := ny);
    if OffField(moved) then moved.(active := false) else moved
  }

  /** An enemy or boss bullet keeps its column: its sideways velocity fields are never read. */
  lemma {:induction false} EnemyBulletsFallStraight(b: Projectile, n: nat)
    requires !b.isPlayerBullet
    ensures !MoveN(b, n).isPlayerBullet && MoveN(b, n).speed == b.speed
    ensures MoveN(b, n).x == b.x
    ensures MoveN(b, n).y == b.y + (n as real) * b.speed
  {
    if n > 0 {
      EnemyBulletsFallStraight(b, n - 1);
    }
  }

  /** `n` successive frames of `Move`. */
  function MoveN(b: Projectile, n: nat): Projectile
  {
    if n == 0 then b else Move(MoveN(b, n - 1))
  }

  /** A bullet that left the field stays inactive for good. */
  lemma {:induction false} InactiveStaysInactive(b: Projectile, n: nat)
    requires !b.active
    ensures !MoveN(b, n).active
  {
    if n > 0 {
      InactiveStaysInactive(b, n - 1);
    }
  }

  /** The centre of an enemy box relative to a bullet at (px, py). */
  function DeltaX(px: real, e: Box): real { e.x + e.width / 2.0 - px }
  function DeltaY(py: real, e: Box): real { e.y + e.height / 2.0 - py }

  /** The squared distance from a bullet to an enemy centre (the root is monotone, so
      comparing squares compares distances). */
  function DistSq(px: real, py: real, e: Box): real
  {
    DeltaX(px, e) * DeltaX(px, e) + DeltaY(py, e) * DeltaY(py, e)
  }

  /** The forward filter of homing: only enemies whose centre is less than 100 pixels below
      the bullet (or anywhere above it) are candidates. */
  predicate Ahead(py: real, e: Box)
  {
    DeltaY(py, e) < 100.0
  }

  /** `k` is the first candidate of minimum distance. */
  ghost predicate IsFirstNearest(px: real, py: real, enemies: seq<Box>, k: nat)
  {
    k < |enemies| && Ahead(py, enemies[k]) &&
    (forall j :: 0 <= j < |enemies| && Ahead(py, enemies[j]) ==>
       DistSq(px, py, enemies[k]) <= DistSq(px, py, enemies[j])) &&
    (forall j :: 0 <= j < k && Ahead(py, enemies[j]) ==>
       DistSq(px, py, enemies[j]) > DistSq(px, py, enemies[k]))
  }

  /** The reference definition of target selection: scanning the list left to right, a
      candidate replaces the best so far only when it is strictly closer. */
  function Nearest(px: real, py: real, enemies: seq<Box>): (r: Option<nat>)
    ensures r.None? <==> forall j :: 0 <= j < |enemies| ==> !Ahead(py, enemies[j])
    ensures r.Some? ==> IsFirstNearest(px, py, enemies, r.value)
    decreases |enemies|
  {
    if enemies == [] then None
    else
      var n := |enemies| - 1;
      var best := Nearest(px, py, enemies[..n]);
      assert forall j :: 0 <= j < n ==> enemies[..n][j] == enemies[j];
      if Ahead(py, enemies[n]) &&
         (best.None? || DistSq(px, py, enemies[n]) < DistSq(px, py, enemies[best.value]))
      then Some(n)
      else best
  }

  /** The selection loop of `Bullet.update` (`closestDist` starts at infinity and only a
      strictly smaller distance replaces the current choice). */
  method SelectTarget(px: real, py: real, enemies: seq<Box>) returns (k: Option<nat>)
    ensures k == Nearest(px, py, enemies)
  {
    k := None;
    var closest := 0.0;
    var i := 0;
    while i < |enemies|
      invariant 0 <= i <= |enemies|
      invariant k == Nearest(px, py, enemies[..i])
      invariant k.Some? ==> k.value < i && closest == DistSq(px, py, enemies[k.value])
    {
      var e := enemies[i];
      var dist := DistSq(px, py, e);
      assert enemies[..i + 1][..i] == enemies[..i];
      if Ahead(py, e) && (k.None? || dist < closest) {
        k := Some(i);
        closest := dist;
      }
      i := i + 1;
    }
    assert enemies[..i] == enemies;
  }

  /** Homing applies only to charged homing player bullets, and only when there are enemies. */
  predicate Homes(b: Projectile, enemies: seq<Box>)
  {
    b.isPlayerBullet && b.homing.isHoming && b.payload.isCharged && |enemies| > 0
  }

  /** Lines 58-81 of bullet.js: record the target and, when it is not at the bullet's own
      position, blend the current direction toward it by `homingStrength` and rescale the
      blend to the current speed. The square roots go through the given math library; a
      division by a zero length (NaN in JavaScript) is taken as zero. */
  function Steer(b: Projectile, e: Box, k: nat, m: MathLib): (r: Projectile)
    ensures r.homing == b.homing.(target := EnemyAt(k))
    ensures r.(speedX := b.speedX, speedY := b.speedY, homing := b.homing) == b
    ensures DistSq(b.x, b.y, e) == 0.0 ==> r.speedX == b.speedX && r.speedY == b.speedY
  {
    var h := b.homing.(target := EnemyAt(k));
    if DistSq(b.x, b.y, e) > 0.0 then
      var (vx, vy) := Blend(b.speedX, b.speedY, DeltaX(b.x, e), DeltaY(b.y, e), b.homing.homingStrength, m);
      b.(homing := h, speedX := vx, speedY := vy)
    else
      b.(homing := h)
  }

  /** The linear interpolation `c * (1 - s) + t * s` of homing. */
  function Mix(c: real, t: real, s: real): real
  {
    c * (1.0 - s) + t * s
  }

  /** The blended direction of homing on a velocity (`vx`, `vy`) toward the offset (`dx`, `dy`),
      before renormalisation: both directions normalised and mixed by `strength`. */
  function BlendDirection(vx: real, vy: real, dx: real, dy: real, strength: real, m: MathLib): (real, real)
  {
    var dist := Norm(m, dx, dy);
    var currentSpeed := Norm(m, vx, vy);
    (Mix(SafeDiv(vx, currentSpeed), SafeDiv(dx, dist), strength),
     Mix(SafeDiv(vy, currentSpeed), SafeDiv(dy, dist), strength))
  }

  /** The new velocity: the blended direction renormalised and scaled back to the speed. */
  function Blend(vx: real, vy: real, dx: real, dy: real, strength: real, m: MathLib): (real, real)
  {
    var d := BlendDirection(vx, vy, dx, dy, strength, m);
    var newDirLength := Norm(m, d.0, d.1);
    var currentSpeed := Norm(m, vx, vy);
    (SafeDiv(d.0, newDirLength) * currentSpeed, SafeDiv(d.1, newDirLength) * currentSpeed)
  }

  lemma ScaleSquares(a: real, b: real, l: real, c: real)
    requires l > 0.0 && l * l == a * a + b * b
    ensures (a / l * c) * (a / l * c) + (b / l * c) * (b / l * c) == c * c
  {
    var p := a / l;
    var q := b / l;
    assert a == p * l && b == q * l;
    calc {
      (p * p + q * q) * (l * l);
      (p * l) * (p * l) + (q * l) * (q * l);
      a * a + b * b;
      l * l;
    }
    assert p * p + q * q == 1.0;
    calc {
      (p * c) * (p * c) + (q * c) * (q * c);
      (p * p + q * q) * (c * c);
      c * c;
    }
  }

  /** Homing turns a bullet without changing its speed whenever the blended direction is not
      degenerate: the squared speed after the blend equals the squared speed before. */
  lemma BlendKeepsSpeed(vx: real, vy: real, dx: real, dy: real, strength: real, m: MathLib)
    requires SoundSqrt(m)
    requires var d := BlendDirection(vx, vy, dx, dy, strength, m); Norm(m, d.0, d.1) > 0.0
    ensures var w := Blend(vx, vy, dx, dy, strength, m); w.0 * w.0 + w.1 * w.1 == vx * vx + vy * vy
  {
    var d := BlendDirection(vx, vy, dx, dy, strength, m);
    RescaledSpeed(d.0, d.1, vx, vy, m);
  }

  /** Rescaling a non-degenerate direction to the length of `(vx, vy)` gives a vector of the
      same squared length. */
  lemma RescaledSpeed(a: real, b: real, vx: real, vy: real, m: MathLib)
    requires SoundSqrt(m) && Norm(m, a, b) > 0.0
    ensures var l, c := Norm(m, a, b), Norm(m, vx, vy);
            (SafeDiv(a, l) * c) * (SafeDiv(a, l) * c) + (SafeDiv(b, l) * c) * (SafeDiv(b, l) * c) == vx * vx + vy * vy
  {
    var l, c := Norm(m, a, b), Norm(m, vx, vy);
    NormSquared(m, a, b);
    NormSquared(m, vx, vy);
    ScaleSquares(a, b, l, c);
  }

  /** The bullet `Bullet.update(enemies)` leaves: a charged homing player shot steers toward
      the first nearest enemy ahead of it, if there is one; every bullet then moves. */
  function Updated(b: Projectile, enemies: seq<Box>, m: MathLib): Projectile
  {
    if Homes(b, enemies) then
      match Nearest(b.x, b.y, enemies)
      case None => Move(b)
      case Some(k) => Move(Steer(b, enemies[k], k, m))
    else Move(b)
  }

  /** `Bullet.update(enemies)`: a homing shot re-targets the first nearest candidate ahead
      of it and steers toward it; every bullet then moves and is bounds-checked. Without
      homing, or with no candidate ahead, the velocity is left as it was. */
  method Update(b: Projectile, enemies: seq<Box>, m: MathLib) returns (r: Projectile)
    ensures r == Updated(b, enemies, m)
    ensures !Homes(b, enemies) ==> r == Move(b)
  {
    var s := b;
    if Homes(b, enemies) {
      var k := SelectTarget(b.x, b.y, enemies);
      if k.Some? {
        s := Steer(b, enemies[k.value], k.value, m);
      }
    }
    r := Move(s);
  }

  /** The test every bullet filter of the game applies after the update. */
  predicate IsActive(b: Projectile)
  {
    b.active
  }

  /** The `filter(bullet => { bullet.update(); return bullet.active; })` idiom for bullets
      that have no homing candidates: move every bullet, keep the active ones, in order. */
  function AdvanceAll(bs: seq<Projectile>): (r: seq<Projectile>)
    ensures |r| <= |bs|
    ensures forall i :: 0 <= i < |r| ==> r[i].active
    decreases |bs|
  {
    if bs == [] then []
    else
      var head := Move(bs[0]);
      if head.active then [head] + AdvanceAll(bs[1..]) else AdvanceAll(bs[1..])
  }

  /** The filter keeps exactly the moved bullets that are still active, in their order. */
  lemma {:induction false} AdvanceAllIsFilter(bs: seq<Projectile>)
    ensures AdvanceAll(bs) == Filter(Map(bs, Move), IsActive)
    decreases |bs|
  {
    if bs != [] {
      FilterMapFirst(bs, Move, IsActive);
      AdvanceAllIsFilter(bs[1..]);
    }
  }

  /** Every bullet the filter keeps is the move of one of its inputs. */
  lemma {:induction false} AdvanceAllMoves(bs: seq<Projectile>)
    ensures forall i :: 0 <= i < |AdvanceAll(bs)| ==> exists j :: 0 <= j < |bs| && AdvanceAll(bs)[i] == Move(bs[j])
    decreases |bs|
  {
    if bs != [] {
      AdvanceAllMoves(bs[1..]);
      var rest := AdvanceAll(bs[1..]);
      var r := AdvanceAll(bs);
      var skip := if Move(bs[0]).active then 1 else 0;
      assert r == if skip == 1 then [Move(bs[0])] + rest else rest;
      forall i | 0 <= i < |r|
        ensures exists j :: 0 <= j < |bs| && r[i] == Move(bs[j])
      {
        if i < skip {
          assert r[i] == Move(bs[0]);
        } else {
          assert r[i] == rest[i - skip];
          var j :| 0 <= j < |bs[1..]| && rest[i - skip] == Move(bs[1..][j]);
          assert r[i] == Move(bs[j + 1]);
        }
      }
    } else {
      assert AdvanceAll(bs) == [];
    }
  }

  /** Advancing an already advanced list that stays on the field loses nothing: the filter
      keeps exactly the bullets whose move leaves them active. */
  lemma AdvanceAllKeepsActive(bs: seq<Projectile>)
    requires forall i :: 0 <= i < |bs| ==> Move(bs[i]).active
    ensures |AdvanceAll(bs)| == |bs|
    ensures forall i :: 0 <= i < |bs| ==> AdvanceAll(bs)[i] == Move(bs[i])
  {
    AdvanceAllIsFilter(bs);
    FilterKeepsAll(Map(bs, Move), IsActive);
  }

  /** The player's bullet filter `bullets.filter(b => { b.update(enemies); return b.active; })`. */
  method UpdateAll(bs: seq<Projectile>, enemies: seq<Box>, m: MathLib) returns (r: seq<Projectile>)
    ensures r == Filter(Map(bs, b => Updated(b, enemies, m)), IsActive)
    ensures forall i :: 0 <= i < |r| ==> r[i].active
    ensures enemies == [] ==> r == AdvanceAll(bs)
  {
    r := [];
    var i := |bs|;
    while i > 0
      invariant 0 <= i <= |bs|
      invariant r == Filter(Map(bs[i..], b => Updated(b, enemies, m)), IsActive)
    {
      i := i - 1;
      var u := Update(bs[i], enemies, m);
      UpdateAllStep(bs, i, enemies, m);
      if u.active {
        r := [u] + r;
      }
    }
    assert bs[0..] == bs;
    if enemies == [] {
      UpdateAllIdle(bs, m);
    }
  }

  /** One step of the bullet filter, from the back. */
  lemma UpdateAllStep(bs: seq<Projectile>, i: nat, enemies: seq<Box>, m: MathLib)
    requires i < |bs|
    ensures var u := Updated(bs[i], enemies, m);
            Filter(Map(bs[i..], b => Updated(b, enemies, m)), IsActive) ==
            (if u.active then [u] else []) + Filter(Map(bs[i + 1..], b => Updated(b, enemies, m)), IsActive)
  {
    assert bs[i..][0] == bs[i] && bs[i..][1..] == bs[i + 1..];
    FilterMapFirst(bs[i..], b => Updated(b, enemies, m), IsActive);
  }

  /** With no enemy on the field no bullet homes, so updating is moving. */
  lemma UpdateWithoutEnemies(bs: seq<Projectile>, m: MathLib)
    ensures Map(bs, b => Updated(b, [], m)) == Map(bs, Move)
  {
  }

  /** With no enemy on the field the player's bullet filter is the enemies' one. */
  lemma UpdateAllIdle(bs: seq<Projectile>, m: MathLib)
    ensures Filter(Map(bs, b => Updated(b, [], m)), IsActive) == AdvanceAll(bs)
  {
    UpdateWithoutEnemies(bs, m);
    AdvanceAllIsFilter(bs);
  }

  /** `Bullet.collidesWith`: the strict box overlap with another object's box. */
  predicate CollidesWith(b: Projectile, obj: Box)
  {
    Overlaps(BoxOf(b), obj)
  }

  /** An explosion / hit effect fragment. */
  datatype Particle = Particle(x: real, y: real, vx: real, vy: real, radius: real,
                               color: string, life: real, decay: real)

  /** `new Particle(x, y, color)` with its four `Math.random()` draws given. */
  function NewParticle(x: real, y: real, color: string, r1: real, r2: real, r3: real, r4: real): (p: Particle)
    requires 0.0 <= r4 < 1.0
    ensures p.life == 1.0 && 0.01 <= p.decay < 0.03
  {
    Particle(x, y, (r1 - 0.5) * 6.0, (r2 - 0.5) * 6.0, r3 * 3.0 + 1.0, color, 1.0, r4 * 0.02 + 0.01)
  }

  /** `Particle.update`: drift by the velocity, fall under gravity 0.1, fade by `decay`. */
  function ParticleUpdate(p: Particle): (q: Particle)
    ensures q.life == p.life - p.decay
    ensures p.decay > 0.0 ==> q.life < p.life
    ensures q == p.(x := p.x + p.vx, y := p.y + p.vy, vy := p.vy + 0.1, life := q.life)
  {
    p.(x := p.x + p.vx, y := p.y + p.vy, vy := p.vy + 0.1, life := p.life - p.decay)
  }

  predicate IsDead(p: Particle)
  {
    p.life <= 0.0
  }

  predicate IsAlive(p: Particle)
  {
    !IsDead(p)
  }

  function ParticleUpdateN(p: Particle, n: nat): Particle
  {
    if n == 0 then p else ParticleUpdate(ParticleUpdateN(p, n - 1))
  }

  /** Life falls linearly, so a particle created with life 1 and decay at least 0.01 is dead
      after at most 100 updates. */
  lemma {:induction false} ParticleLifeFalls(p: Particle, n: nat)
    ensures ParticleUpdateN(p, n).life == p.life - (n as real) * p.decay
    ensures ParticleUpdateN(p, n).decay == p.decay
  {
    if n > 0 {
      ParticleLifeFalls(p, n - 1);
    }
  }

  lemma ParticleDiesWithin100(p: Particle)
    requires p.life <= 1.0 && p.decay >= 0.01
    ensures IsDead(ParticleUpdateN(p, 100))
  {
    ParticleLifeFalls(p, 100);
  }

  /** The particle filter `particles.filter(p => { p.update(); return !p.isDead(); })`. */
  function AdvanceParticles(ps: seq<Particle>): (r: seq<Particle>)
    ensures r == Filter(Map(ps, ParticleUpdate), IsAlive)
    ensures forall i :: 0 <= i < |r| ==> !IsDead(r[i])
    decreases |ps|
  {
    if ps == [] then []
    else
      FilterMapFirst(ps, ParticleUpdate, IsAlive);
      var q := ParticleUpdate(ps[0]);
      if IsDead(q) then AdvanceParticles(ps[1..]) else [q] + AdvanceParticles(ps[1..])
  }
}
