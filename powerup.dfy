/** Pick-ups and explosions (powerup.js): the six pick-up kinds and their drop weights, the
    difficulty-dependent weapon duration, the falling pick-up, and the expanding area-damage
    explosion that remembers which enemies it has already hurt. */
module PowerUps {
  import opened Common

  /** The pick-up kinds in declaration order: spread, laser, bomb, homing rocket, health,
      power. The first four are weapons. */
  datatype Kind = S | L | B | C | HP | P

  predicate IsWeapon(k: Kind)
  {
    k.S? || k.L? || k.B? || k.C?
  }

  /** The pick-up kinds in declaration order (`Object.keys(POWERUP_TYPES)`). */
  const Kinds: seq<Kind> := [S, L, B, C, HP, P]

  /** The drop weights, in percent, of S, L, B, C, HP and P. */
  const Weights: seq<int> := [25, 15, 18, 21, 8, 13]

  /** The sum of the first `k` weights. */
  function Cumulative(k: nat): int
    requires k <= |Weights|
  {
    if k == 0 then 0 else Cumulative(k - 1) + Weights[k - 1]
  }

  /** The weights cover exactly the range of `Math.random() * 100`, each kind a band of the
      width of its weight. */
  lemma WeightsPartition()
    ensures Cumulative(|Weights|) == 100
    ensures forall i :: 0 <= i < |Weights| ==> Cumulative(i + 1) - Cumulative(i) == Weights[i] > 0
  {
    CumulativeValues();
  }

  /** The band boundaries 0, 25, 40, 58, 79, 87, 100. */
  lemma CumulativeValues()
    ensures Cumulative(0) == 0 && Cumulative(1) == 25 && Cumulative(2) == 40
    ensures Cumulative(3) == 58 && Cumulative(4) == 79 && Cumulative(5) == 87
    ensures Cumulative(6) == 100
  {
  }

  /** The index of a kind in declaration order. */
  function IndexOf(k: Kind): (i: nat)
    ensures i < |Kinds| && Kinds[i] == k
  {
    match k
    case S => 0
    case L => 1
    case B => 2
    case C => 3
    case HP => 4
    case P => 5
  }

  /** The weighted draw of the `PowerUp` constructor on `v = Math.random() * 100`: walk the
      cumulative weights and take the first kind whose running total exceeds `v`; `S` when
      none does. */
  method PickKind(v: real) returns (k: Kind)
    ensures 0.0 <= v < 100.0 ==>
              (Cumulative(IndexOf(k)) as real) <= v < (Cumulative(IndexOf(k) + 1) as real)
    ensures v < 25.0 || v >= 100.0 ==> k == S
  {
    CumulativeValues();
    k := S;
    var cumulative := 0;
    var i := 0;
    while i < |Kinds|
      invariant 0 <= i <= |Kinds|
      invariant cumulative == Cumulative(i)
      invariant (cumulative as real) <= v || i == 0
      invariant k == S
    {
      assert i > 0 ==> Cumulative(i) >= 25;
      cumulative := cumulative + Weights[i];
      if v < cumulative as real {
        k := Kinds[i];
        assert IndexOf(k) == i;
        return;
      }
      i := i + 1;
    }
  }

  /** `calculateWeaponDuration`: how long, in milliseconds, a weapon pick-up lasts at a
      difficulty; 0 means it never runs out. */
  function WeaponDuration(d: int): (ms: real)
    ensures d <= 1 <==> ms == 0.0
    ensures d >= 10 ==> ms == 30000.0
    ensures 2 <= d <= 9 ==> 60000.0 <= ms <= 180000.0
    ensures d == 2 ==> ms == 180000.0
    ensures d == 9 ==> ms == 60000.0
  {
    if d <= 1 then 0.0
    else if d >= 10 then 30000.0
    else
      var duration := 180000.0 - ((d - 2) as real / 7.0) * 120000.0;
      MaxReal(60000.0, duration)
  }

  /** From difficulty 2 on, a harder game never gives a longer-lasting weapon. */
  lemma WeaponDurationNonIncreasing(d1: int, d2: int)
    requires 2 <= d1 <= d2
    ensures WeaponDuration(d2) <= WeaponDuration(d1)
  {
  }

  /** A falling pick-up. */
  datatype PowerUp = PowerUp(x: real, y: real, width: real, height: real, speed: real,
                             active: bool, kind: Kind)

  /** `new PowerUp(x, y)` once its kind has been drawn. */
  function NewPowerUp(x: real, y: real, kind: Kind): (p: PowerUp)
    ensures p.active && p.kind == kind && p.width == 30.0 && p.height == 30.0 && p.speed == 2.0
  {
    PowerUp(x, y, 30.0, 30.0, 2.0, true, kind)
  }

  function PowerUpBox(p: PowerUp): Box
  {
    Box(p.x, p.y, p.width, p.height)
  }

  /** `PowerUp.update`: fall by `speed` and expire once below y = 650 (the rotation and pulse
      of the drawing are not modelled). */
  function Fall(p: PowerUp): (q: PowerUp)
    ensures q.y == p.y + p.speed
    ensures q.active <==> p.active && q.y <= 650.0
    ensures q.(y := p.y, active := p.active) == p
  {
    var moved := p.(y := p.y + p.speed);
    if moved.y > 650.0 then moved.(active := false) else moved
  }

  function FallN(p: PowerUp, n: nat): PowerUp
  {
    if n == 0 then p else Fall(FallN(p, n - 1))
  }

  /** A pick-up is gone after enough frames: falling at 2 pixels per frame from any height
      `y`, it is inactive once `y + 2n > 650`. */
  lemma {:induction false} FallReaches(p: PowerUp, n: nat)
    ensures FallN(p, n).y == p.y + (n as real) * p.speed
    ensures FallN(p, n).speed == p.speed
    ensures n > 0 && p.y + (n as real) * p.speed > 650.0 ==> !FallN(p, n).active
  {
    if n > 0 {
      FallReaches(p, n - 1);
      var q := FallN(p, n - 1);
      assert (n as real) * p.speed == ((n - 1) as real) * p.speed + p.speed;
      assert FallN(p, n) == Fall(q);
    }
  }

  /** `PowerUp.checkCollision(player)`: the strict box overlap. */
  predicate CheckCollision(p: PowerUp, player: Box)
  {
    Overlaps(PowerUpBox(p), player)
  }

  /** The identity an explosion uses to remember an enemy: its position and type name, the
      parts of the string key `x_y_name`. */
  datatype HitKey = HitKey(x: real, y: real, name: string)

  /** An expanding area-damage ring centred at (x, y). */
  datatype Explosion = Explosion(x: real, y: real, radius: real, maxRadius: real,
                                 currentRadius: real, alpha: real, active: bool,
                                 lifetime: nat, age: nat, damage: real,
                                 hitEnemies: set<HitKey>)

  const Lifetime: nat := 20

  /** `new Explosion(x, y, radius, damage)` (the caller supplies the defaults 80 and 1). */
  function NewExplosion(x: real, y: real, radius: real, damage: real): (e: Explosion)
    ensures ExplosionValid(e) && e.active && e.age == 0 && e.currentRadius == 0.0
    ensures e.hitEnemies == {}
  {
    Explosion(x, y, radius, radius, 0.0, 1.0, true, Lifetime, 0, damage, {})
  }

  /** The invariant a live explosion keeps: its ring has grown in proportion to its age, and
      it is active exactly while younger than its lifetime. */
  ghost predicate ExplosionValid(e: Explosion)
  {
    e.lifetime == Lifetime && e.age <= e.lifetime &&
    e.currentRadius == e.maxRadius * (e.age as real / e.lifetime as real) &&
    (e.active <==> e.age < e.lifetime)
  }

  /** `Explosion.update`: one frame older, the ring at `age / lifetime` of its full radius,
      and switched off at the end of its lifetime. */
  function ExplosionUpdate(e: Explosion): (f: Explosion)
    requires e.lifetime > 0
    ensures f.hitEnemies == e.hitEnemies && f.maxRadius == e.maxRadius && f.lifetime == e.lifetime
    ensures f.x == e.x && f.y == e.y && f.damage == e.damage
    ensures f.age == e.age + 1
    ensures f.currentRadius == f.maxRadius * (f.age as real / f.lifetime as real)
    ensures f.active <==> e.active && f.age < f.lifetime
    ensures ExplosionValid(e) && e.active ==> ExplosionValid(f)
  {
    var age := e.age + 1;
    var aged := e.(age := age,
                   currentRadius := e.maxRadius * (age as real / e.lifetime as real),
                   alpha := 1.0 - (age as real / e.lifetime as real));
    if aged.age >= aged.lifetime then aged.(active := false) else aged
  }

  function ExplosionUpdateN(e: Explosion, n: nat): (f: Explosion)
    requires e.lifetime > 0
    ensures f.lifetime == e.lifetime
  {
    if n == 0 then e else ExplosionUpdate(ExplosionUpdateN(e, n - 1))
  }

  /** A new explosion lives exactly `lifetime` updates: after `n <= 20` of them its age is
      `n`, its ring is `n / 20` of the full radius, and it is active exactly while `n < 20`. */
  lemma {:induction false} ExplosionLifetime(e: Explosion, n: nat)
    requires ExplosionValid(e) && e.age == 0
    requires n <= Lifetime
    ensures var f := ExplosionUpdateN(e, n);
            ExplosionValid(f) && f.age == n && (f.active <==> n < Lifetime) &&
            f.maxRadius == e.maxRadius && f.hitEnemies == e.hitEnemies
  {
    if n > 0 {
      ExplosionLifetime(e, n - 1);
    }
  }

  /** A ring that is at most as large as its full radius. */
  lemma RadiusBounded(e: Explosion)
    requires ExplosionValid(e) && e.maxRadius >= 0.0
    ensures 0.0 <= e.currentRadius <= e.maxRadius
  {
    var t := e.age as real / e.lifetime as real;
    assert 0.0 <= t <= 1.0;
  }

  function EnemyKey(enemy: Box, name: string): HitKey
  {
    HitKey(enemy.x, enemy.y, name)
  }

  /** Whether an enemy centre lies strictly inside the current ring. */
  predicate InRing(e: Explosion, enemy: Box)
  {
    WithinRadius(enemy.x + enemy.width / 2.0 - e.x, enemy.y + enemy.height / 2.0 - e.y, e.currentRadius)
  }

  /** `Explosion.checkEnemyInRange(enemy)`: true, and the enemy remembered, the first time an
      enemy is found inside the ring; false for enemies outside or already hurt. */
  function CheckEnemyInRange(e: Explosion, enemy: Box, name: string): (r: (bool, Explosion))
    ensures r.0 <==> InRing(e, enemy) && EnemyKey(enemy, name) !in e.hitEnemies
    ensures r.1.hitEnemies == if r.0 then e.hitEnemies + {EnemyKey(enemy, name)} else e.hitEnemies
    ensures r.1.(hitEnemies := e.hitEnemies) == e
  {
    var key := EnemyKey(enemy, name);
    if InRing(e, enemy) && key !in e.hitEnemies then
      (true, e.(hitEnemies := e.hitEnemies + {key}))
    else
      (false, e)
  }

  /** What happens to one explosion over its life: frames pass and enemies are tested. */
  datatype Event = Tick | Query(enemy: Box, name: string)

  /** The keys that occur in a list. */
  function Keys(hits: seq<HitKey>): set<HitKey>
  {
    set k | k in hits
  }

  /** One event on an explosion: the explosion afterwards and the key it reported, if any. */
  function Step(e: Explosion, ev: Event): (r: (Explosion, seq<HitKey>))
    requires e.lifetime > 0
    ensures r.0.lifetime == e.lifetime && |r.1| <= 1
    ensures forall k :: k in r.1 ==> k !in e.hitEnemies
    ensures r.0.hitEnemies == e.hitEnemies + Keys(r.1)
  {
    match ev
    case Tick => (ExplosionUpdate(e), [])
    case Query(enemy, name) =>
      var (hit, f) := CheckEnemyInRange(e, enemy, name);
      (f, if hit then [EnemyKey(enemy, name)] else [])
  }

  /** Replays the events on an explosion and lists the keys of the enemies it reported as hit. */
  function Replay(e: Explosion, events: seq<Event>): (r: (Explosion, seq<HitKey>))
    requires e.lifetime > 0
    ensures r.0.lifetime == e.lifetime
    decreases |events|
  {
    if events == [] then (e, [])
    else
      var (next, hits) := Step(e, events[0]);
      var (last, more) := Replay(next, events[1..]);
      (last, hits + more)
  }

  /** Replaying one more event continues from where the others left the explosion. */
  lemma {:induction false} ReplaySnoc(e: Explosion, events: seq<Event>, ev: Event)
    requires e.lifetime > 0
    ensures var mid := Replay(e, events);
            Replay(e, events + [ev]) == (Step(mid.0, ev).0, mid.1 + Step(mid.0, ev).1)
    decreases |events|
  {
    if events == [] {
      var first := Step(e, ev);
      assert events + [ev] == [ev] && [ev][1..] == [];
      assert Replay(e, [ev]) == (first.0, first.1 + []);
      assert [] + first.1 == first.1 + [];
    } else {
      var (next, hits) := Step(e, events[0]);
      assert (events + [ev])[0] == events[0] && (events + [ev])[1..] == events[1..] + [ev];
      ReplaySnoc(next, events[1..], ev);
      var mid := Replay(next, events[1..]);
      var last := Step(mid.0, ev);
      assert Replay(e, events) == (mid.0, hits + mid.1);
      assert Replay(e, events + [ev]) == (last.0, hits + (mid.1 + last.1));
      assert hits + (mid.1 + last.1) == (hits + mid.1) + last.1;
    }
  }

  /** No key occurs twice in a list. */
  predicate Distinct(hits: seq<HitKey>)
  {
    forall i, j :: 0 <= i < j < |hits| ==> hits[i] != hits[j]
  }

  lemma DistinctAppend(a: seq<HitKey>, b: seq<HitKey>)
    requires |a| <= 1 && Distinct(b)
    requires forall k :: k in a ==> k !in b
    ensures Distinct(a + b) && Keys(a + b) == Keys(a) + Keys(b)
  {
    var c := a + b;
    forall i, j | 0 <= i < j < |c|
      ensures c[i] != c[j]
    {
      if i < |a| {
        assert c[j] == b[j - |a|] && b[j - |a|] in b;
      } else {
        assert c[i] == b[i - |a|] && c[j] == b[j - |a|];
      }
    }
  }

  /** An explosion damages each enemy at most once over its whole life: the keys it reports
      are pairwise distinct, none was already remembered, and all end up remembered. */
  lemma {:induction false} ReplayHitsOnce(e: Explosion, events: seq<Event>)
    requires e.lifetime > 0
    ensures Distinct(Replay(e, events).1)
    ensures forall k :: k in Replay(e, events).1 ==> k !in e.hitEnemies
    ensures Replay(e, events).0.hitEnemies == e.hitEnemies + Keys(Replay(e, events).1)
    decreases |events|
  {
    if events != [] {
      var (next, hits) := Step(e, events[0]);
      ReplayHitsOnce(next, events[1..]);
      var (last, more) := Replay(next, events[1..]);
      assert Replay(e, events) == (last, hits + more);
      DistinctAppend(hits, more);
    }
  }

  /** The test of the explosion filter. */
  predicate IsLit(e: Explosion)
  {
    e.active
  }

  /** The explosion filter `explosions.filter(e => { e.update(); return e.active; })`. */
  function AdvanceExplosions(es: seq<Explosion>): (r: seq<Explosion>)
    requires forall i :: 0 <= i < |es| ==> es[i].lifetime > 0
    ensures forall i :: 0 <= i < |r| ==> r[i].active && r[i].lifetime > 0
    ensures (forall i :: 0 <= i < |es| ==> ExplosionValid(es[i])) ==>
              forall i :: 0 <= i < |r| ==> ExplosionValid(r[i])
    decreases |es|
  {
    if es == [] then []
    else
      var f := ExplosionUpdate(es[0]);
      var rest := AdvanceExplosions(es[1..]);
      if f.active then [f] + rest else rest
  }

  /** The explosion filter keeps exactly the updated explosions still alight, in order. */
  lemma {:induction false} AdvanceExplosionsIsFilter(es: seq<Explosion>)
    requires forall i :: 0 <= i < |es| ==> es[i].lifetime > 0
    ensures AdvanceExplosions(es) == Filter(Map(es, ExplosionUpdate), IsLit)
    decreases |es|
  {
    if es != [] {
      FilterMapFirst(es, ExplosionUpdate, IsLit);
      AdvanceExplosionsIsFilter(es[1..]);
    }
  }
}
