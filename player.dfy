/** The player's fighter (player.js): weapon modes S / L / B / C that exclude one another, the
    stacking P level capped at 6, the low-health boost that pins P at 6 and restores the saved
    level on recovery, the EXP and P-gauge accumulators with their level-ups, heal clamping,
    the invulnerability window, the charge shot and the shot tables per P level. */
module Players {
  import opened Common
  import opened Bullets
  import opened PowerUps

  const MaxPLevel: nat := 6
  const ExpMax: int := 100
  const MaxChargeFrames: nat := 90
  const ShootRate: nat := 10
  const InvulnerableFrames: int := 120

  // ---------------------------------------------------------------------------------------
  // Weapon timers.

  /** The `{ active, endTime, startTime }` record of one timed weapon; an `endTime` of 0 means
      the weapon never expires. */
  datatype Timer = Timer(active: bool, endTime: real, startTime: real)

  const Off: Timer := Timer(false, 0.0, 0.0)

  /** The P power: always untimed, so only its flag and level matter. */
  datatype Power = Power(active: bool, level: nat)

  /** The four timed weapons S, L, B and C. */
  datatype Weapons = Weapons(s: Timer, l: Timer, b: Timer, c: Timer)

  const NoWeapons: Weapons := Weapons(Off, Off, Off, Off)

  function Get(ws: Weapons, k: Kind): Timer
    requires IsWeapon(k)
  {
    match k
    case S => ws.s
    case L => ws.l
    case B => ws.b
    case C => ws.c
  }

  function Set(ws: Weapons, k: Kind, t: Timer): (r: Weapons)
    requires IsWeapon(k)
    ensures Get(r, k) == t
    ensures forall j :: IsWeapon(j) && j != k ==> Get(r, j) == Get(ws, j)
  {
    match k
    case S => ws.(s := t)
    case L => ws.(l := t)
    case B => ws.(b := t)
    case C => ws.(c := t)
  }

  /** Exactly weapon `k` is active. */
  predicate OnlyWeapon(ws: Weapons, k: Kind)
    requires IsWeapon(k)
  {
    Get(ws, k).active && forall j :: IsWeapon(j) && j != k ==> !Get(ws, j).active
  }

  /** No two weapons are active together. */
  predicate AtMostOneWeapon(ws: Weapons)
  {
    (ws.s.active ==> !ws.l.active && !ws.b.active && !ws.c.active) &&
    (ws.l.active ==> !ws.b.active && !ws.c.active) &&
    (ws.b.active ==> !ws.c.active)
  }

  /** The expiry check of `updatePowerUps` for one weapon at time `now`. */
  function Expire(t: Timer, now: real): (r: Timer)
    ensures r.endTime == t.endTime && r.startTime == t.startTime
    ensures r.active <==> t.active && (t.endTime <= 0.0 || now < t.endTime)
  {
    if t.active && t.endTime > 0.0 && now >= t.endTime then t.(active := false) else t
  }

  /** A weapon picked up with an infinite duration never expires. */
  lemma UntimedNeverExpires(t: Timer, now: real)
    requires t.active && t.endTime == 0.0
    ensures Expire(t, now) == t
  {
  }

  // ---------------------------------------------------------------------------------------
  // Shot tables.

  /** The firing mode, chosen by the first active weapon in the order L, B, C, S. */
  datatype FireMode = LaserMode | BombMode | RocketMode | SpreadMode | DefaultMode

  function ModeOf(ws: Weapons): FireMode
  {
    if ws.l.active then LaserMode
    else if ws.b.active then BombMode
    else if ws.c.active then RocketMode
    else if ws.s.active then SpreadMode
    else DefaultMode
  }

  /** The default fan: one straight shot, then a symmetric pair per P level. */
  function DefaultAngles(p: nat, pi: real): seq<real>
  {
    [0.0]
    + (if p >= 1 then [-pi / 12.0, pi / 12.0] else [])
    + (if p >= 2 then [-pi / 6.0, pi / 6.0] else [])
    + (if p >= 3 then [pi / 2.5, -pi / 2.5] else [])
    + (if p >= 4 then [pi / 2.0, -pi / 2.0] else [])
    + (if p >= 5 then [-pi / 8.0, pi / 8.0] else [])
    + (if p >= 6 then [-pi / 4.0, pi / 4.0] else [])
  }

  /** The S-mode fan: three forward shots, rear shots from P1, more from there on. */
  function SpreadAngles(p: nat, pi: real): seq<real>
  {
    [-pi / 6.0, 0.0, pi / 6.0]
    + (if p >= 1 then [pi + pi / 6.0, pi - pi / 6.0] else [])
    + (if p >= 2 then [pi] else [])
    + (if p >= 3 then [-pi / 12.0, pi / 12.0] else [])
    + (if p >= 4 then [-pi / 8.0, pi / 8.0] else [])
    + (if p >= 5 then [-pi / 4.0, pi / 4.0, pi + pi / 12.0, pi - pi / 12.0] else [])
    + (if p >= 6 then [-pi / 3.0, pi / 3.0] else [])
  }

  /** `calculateAngles(count)`: the bomb fan for 1 to 6 bombs; the six-bomb entry lists seven
      angles, and any other count gives a single straight shot. */
  function CalculateAngles(count: int, pi: real): seq<real>
  {
    if count == 1 then [0.0]
    else if count == 2 then [-pi / 12.0, pi / 12.0]
    else if count == 3 then [-pi / 6.0, 0.0, pi / 6.0]
    else if count == 4 then [-pi / 5.0, -pi / 12.0, pi / 12.0, pi / 5.0]
    else if count == 5 then [-pi / 4.0, -pi / 8.0, 0.0, pi / 8.0, pi / 4.0]
    else if count == 6 then [-pi / 4.0, -pi / 8.0, 0.0, pi / 8.0, pi / 4.0, pi / 2.5, -pi / 2.5]
    else [0.0]
  }

  /** The table sizes: the default fan has 2p + 1 shots, the bomb fan has `count` angles for
      1 to 5 and seven for 6. */
  lemma AngleCounts(p: nat, count: int, pi: real)
    ensures |DefaultAngles(p, pi)| == 2 * MinInt(p, MaxPLevel) + 1
    ensures 1 <= count <= 5 ==> |CalculateAngles(count, pi)| == count
    ensures |CalculateAngles(6, pi)| == 7
    ensures |SpreadAngles(p, pi)| == [3, 5, 6, 8, 10, 14, 16][MinInt(p, MaxPLevel)]
  {
  }

  /** What kind of fan a fan bullet belongs to. */
  datatype FanKind = PlainFan | BombFan | ChargedFan

  /** One bullet of a fan at `angle`: speed 10 (12 for the charged shot), sideways speed
      `sin(angle) * speed * 0.6`, upward speed `-cos(angle) * speed`. */
  function FanBullet(kind: FanKind, angle: real, cx: real, cy: real, p: nat, ch: real, m: MathLib): (b: Projectile)
    ensures b.isPlayerBullet && b.active && b.x == cx && b.y == cy && b.payload.angle == angle
    ensures kind == BombFan ==> b.payload.isBomb && !b.payload.penetrating
    ensures kind == ChargedFan ==> b.payload.isCharged && b.payload.penetrating && b.homing.isHoming
    ensures kind == PlainFan ==> !b.payload.penetrating && !b.homing.isHoming
  {
    var speed := if kind == ChargedFan then 12.0 else 10.0;
    var b := NewBullet(cx, cy, speed, true, ch).(speedX := m.sin(angle) * speed * 0.6,
                                                 speedY := -m.cos(angle) * speed);
    match kind
    case PlainFan =>
      b.(payload := PlainPayload.(damage := 1.0 + p as real * 0.5, size := 4.0, angle := angle))
    case BombFan =>
      b.(payload := PlainPayload.(damage := 1.0 + p as real * 0.5, size := 10.0, angle := angle,
                                  isBomb := true, bombRadius := 200.0, bombDamage := 2.5))
    case ChargedFan =>
      b.(homing := Homing(true, 0.15, NoTarget),
         payload := PlainPayload.(isCharged := true, damage := 2.5, size := 12.0, penetrating := true,
                                  angle := angle))
  }

  /** The `angles.forEach(angle => bullets.push(...))` idiom: one fan bullet per angle, in order. */
  function Fan(kind: FanKind, angles: seq<real>, cx: real, cy: real, p: nat, ch: real, m: MathLib): (r: seq<Projectile>)
    ensures |r| == |angles|
    ensures forall i :: 0 <= i < |r| ==> r[i] == FanBullet(kind, angles[i], cx, cy, p, ch, m)
    decreases |angles|
  {
    if angles == [] then []
    else Fan(kind, angles[..|angles| - 1], cx, cy, p, ch, m) +
         [FanBullet(kind, angles[|angles| - 1], cx, cy, p, ch, m)]
  }

  /** The offset of laser `i` of `n` in a row with the given spacing, centred on the ship. */
  function RowOffset(i: nat, n: nat, spacing: real): real
  {
    if n > 1 then (i as real - (n - 1) as real / 2.0) * spacing else 0.0
  }

  /** A forward laser: speed 15 straight up, 1.5 times the P damage, penetrating. */
  function ForwardLaser(i: nat, n: nat, cx: real, cy: real, p: nat, ch: real): Projectile
  {
    NewBullet(cx + RowOffset(i, n, 36.0), cy, 15.0, true, ch).(
      speedX := 0.0, speedY := -15.0,
      payload := PlainPayload.(isCharged := true, damage := (1.0 + p as real * 0.5) * 1.5, size := 8.0,
                               penetrating := true, isLaser := true))
  }

  /** A rear laser: speed 12 straight down from low on the fuselage, 1.2 times the P damage. */
  function RearLaser(i: nat, n: nat, cx: real, rearY: real, p: nat, ch: real): Projectile
  {
    NewBullet(cx + RowOffset(i, n, 45.0), rearY, 12.0, true, ch).(
      speedX := 0.0, speedY := 12.0,
      payload := PlainPayload.(isCharged := true, damage := (1.0 + p as real * 0.5) * 1.2, size := 6.0,
                               penetrating := true, isLaser := true))
  }

  /** The first `k` lasers of an `n`-laser row (forward or rear). */
  function LaserRow(rear: bool, k: nat, n: nat, cx: real, y: real, p: nat, ch: real): (r: seq<Projectile>)
    ensures |r| == k
    ensures forall i :: 0 <= i < k ==>
              r[i] == (if rear then RearLaser(i, n, cx, y, p, ch) else ForwardLaser(i, n, cx, y, p, ch))
    decreases k
  {
    if k == 0 then []
    else LaserRow(rear, k - 1, n, cx, y, p, ch) +
         [if rear then RearLaser(k - 1, n, cx, y, p, ch) else ForwardLaser(k - 1, n, cx, y, p, ch)]
  }

  function ForwardLaserCount(p: nat): nat { MinInt(6, 1 + p) }
  function RearLaserCount(p: nat): nat { if p >= 4 then MinInt(4, p - 3) else 0 }
  function BombCount(p: nat): nat { MinInt(6, 1 + p) }

  /** The single straight bomb fired when only one bomb is due. */
  function SingleBomb(cx: real, cy: real, p: nat, ch: real): Projectile
  {
    NewBullet(cx, cy, 10.0, true, ch).(
      speedX := 0.0, speedY := -10.0,
      payload := PlainPayload.(damage := 1.0 + p as real * 0.5, size := 10.0, isBomb := true,
                               bombRadius := 200.0, bombDamage := 2.5))
  }

  /** The C-mode rocket: always one, homing, with damage `3 + 1.2p`. */
  function Rocket(cx: real, cy: real, p: nat, ch: real): Projectile
  {
    NewBullet(cx, cy, 8.0, true, ch).(
      speedX := 0.0, speedY := -8.0, homing := Homing(true, 0.15, NoTarget),
      payload := PlainPayload.(isCharged := true, damage := 3.0 + p as real * 1.2, size := 8.0,
                               isMissile := true))
  }

  /** Everything `shoot()` fires in mode `mode` at P level `p` from the ship's nose (cx, cy)
      with the rear row at `rearY`. */
  function Volley(mode: FireMode, p: nat, cx: real, cy: real, rearY: real, ch: real, m: MathLib): seq<Projectile>
  {
    match mode
    case LaserMode =>
      LaserRow(false, ForwardLaserCount(p), ForwardLaserCount(p), cx, cy, p, ch) +
      LaserRow(true, RearLaserCount(p), RearLaserCount(p), cx, rearY, p, ch)
    case BombMode =>
      if BombCount(p) == 1 then [SingleBomb(cx, cy, p, ch)]
      else Fan(BombFan, CalculateAngles(BombCount(p), m.pi), cx, cy, p, ch, m)
    case RocketMode => [Rocket(cx, cy, p, ch)]
    case SpreadMode => Fan(PlainFan, SpreadAngles(p, m.pi), cx, cy, p, ch, m)
    case DefaultMode => Fan(PlainFan, DefaultAngles(p, m.pi), cx, cy, p, ch, m)
  }

  /** The shot counts per mode and P level: lasers `min(6, 1+p)` forward plus `min(4, p-3)`
      rear from P4; bombs one per level above zero up to five, then seven; one rocket; the S
      table 3, 5, 6, 8, 10, 14, 16; and `2p + 1` by default. */
  lemma VolleyCounts(mode: FireMode, p: nat, cx: real, cy: real, rearY: real, ch: real, m: MathLib)
    requires p <= MaxPLevel
    ensures var v := Volley(mode, p, cx, cy, rearY, ch, m);
            (mode == LaserMode ==> |v| == MinInt(6, 1 + p) + (if p >= 4 then MinInt(4, p - 3) else 0)) &&
            (mode == BombMode ==> |v| == (if p == 0 then 1 else if p <= 4 then p + 1 else 7)) &&
            (mode == RocketMode ==> |v| == 1) &&
            (mode == SpreadMode ==> |v| == [3, 5, 6, 8, 10, 14, 16][p]) &&
            (mode == DefaultMode ==> |v| == 2 * p + 1)
  {
    AngleCounts(p, BombCount(p), m.pi);
  }

  /** Every laser of a row is an active player bullet. */
  lemma LaserRowIsPlayers(rear: bool, k: nat, n: nat, cx: real, y: real, p: nat, ch: real)
    ensures var r := LaserRow(rear, k, n, cx, y, p, ch);
            forall i :: 0 <= i < |r| ==> r[i].isPlayerBullet && r[i].active
  {
  }

  /** Every shot of a volley is an active player bullet. */
  lemma VolleyIsPlayers(mode: FireMode, p: nat, cx: real, cy: real, rearY: real, ch: real, m: MathLib)
    ensures var v := Volley(mode, p, cx, cy, rearY, ch, m);
            forall i :: 0 <= i < |v| ==> v[i].isPlayerBullet && v[i].active
  {
    match mode {
      case LaserMode =>
        var front := LaserRow(false, ForwardLaserCount(p), ForwardLaserCount(p), cx, cy, p, ch);
        var rear := LaserRow(true, RearLaserCount(p), RearLaserCount(p), cx, rearY, p, ch);
        LaserRowIsPlayers(false, ForwardLaserCount(p), ForwardLaserCount(p), cx, cy, p, ch);
        LaserRowIsPlayers(true, RearLaserCount(p), RearLaserCount(p), cx, rearY, p, ch);
        var both: seq<Projectile> := front + rear;
        assert forall i :: 0 <= i < |both| ==> both[i] == if i < |front| then front[i] else rear[i - |front|];
      case BombMode =>
      case RocketMode =>
      case SpreadMode =>
      case DefaultMode =>
    }
  }

  /** The charged shot: three penetrating homing shots at -30, 0 and 30 degrees. */
  function ChargedVolley(cx: real, cy: real, ch: real, m: MathLib): (r: seq<Projectile>)
    ensures |r| == 3
    ensures forall i :: 0 <= i < 3 ==>
              r[i].payload.isCharged && r[i].payload.penetrating && r[i].homing.isHoming && r[i].payload.damage == 2.5
  {
    Fan(ChargedFan, [-m.pi / 6.0, 0.0, m.pi / 6.0], cx, cy, 0, ch, m)
  }

  // ---------------------------------------------------------------------------------------
  // Loadout: the weapons, the P power and the low-health boost.

  /** The player's equipment: the four weapon timers, the P power, and the low-health boost
      flag with the P level saved when it was entered. */
  datatype Loadout = Loadout(weapons: Weapons, power: Power, lowHealthPBoost: bool, savedPLevel: nat)

  const FreshLoadout: Loadout := Loadout(NoWeapons, Power(false, 0), false, 0)

  /** What every reachable loadout satisfies: P is active exactly when its level is positive
      and never above 6, at most one weapon is active, a boost pins P at the active level 6,
      and the saved level is one the boost could have been entered from. */
  predicate LoadoutValid(l: Loadout)
  {
    l.power.level <= MaxPLevel && (l.power.active <==> l.power.level > 0) &&
    AtMostOneWeapon(l.weapons) &&
    (l.lowHealthPBoost ==> l.power.level == MaxPLevel) &&
    l.savedPLevel < MaxPLevel
  }

  /** With exactly one weapon active, that weapon decides the firing mode. */
  lemma ModeOfOnlyWeapon(ws: Weapons, k: Kind)
    requires IsWeapon(k) && OnlyWeapon(ws, k)
    ensures ModeOf(ws) == match k
                          case L => LaserMode
                          case B => BombMode
                          case C => RocketMode
                          case _ => SpreadMode
  {
    match k
    case S => assert !Get(ws, L).active && !Get(ws, B).active && !Get(ws, C).active;
    case L =>
    case B => assert !Get(ws, L).active;
    case C => assert !Get(ws, L).active && !Get(ws, B).active;
  }

  /** The weapon branch of `activatePowerUp`: `k`'s timer restarts at `now` (lasting the
      difficulty's duration, forever when that is 0) and every other weapon is switched off;
      picking up a different weapon drops P to level 0 outside the boost and forgets the
      saved level inside it, while renewing the same weapon leaves P alone. A P pick-up raises
      the P level by one, at most to 6, and leaves the weapons alone. */
  function Equip(l: Loadout, k: Kind, d: int, now: real): (r: Loadout)
    requires k != HP
    ensures k == P ==> r == l.(power := Power(true, MinInt(MaxPLevel, l.power.level + 1)))
    ensures IsWeapon(k) ==> OnlyWeapon(r.weapons, k) && r.lowHealthPBoost == l.lowHealthPBoost
    ensures IsWeapon(k) ==> Get(r.weapons, k).startTime == now &&
                            (d <= 1 ==> Get(r.weapons, k).endTime == 0.0) &&
                            (d > 1 ==> Get(r.weapons, k).endTime == now + WeaponDuration(d))
    ensures IsWeapon(k) ==> forall j :: IsWeapon(j) && j != k ==> Get(r.weapons, j) == Get(l.weapons, j).(active := false)
    ensures IsWeapon(k) && Get(l.weapons, k).active ==> r.power == l.power && r.savedPLevel == l.savedPLevel
    ensures IsWeapon(k) && !Get(l.weapons, k).active && !l.lowHealthPBoost ==>
              r.power == Power(false, 0) && r.savedPLevel == l.savedPLevel
    ensures IsWeapon(k) && !Get(l.weapons, k).active && l.lowHealthPBoost ==>
              r.power == l.power && r.savedPLevel == 0
  {
    if k == P then l.(power := Power(true, MinInt(MaxPLevel, l.power.level + 1)))
    else
      var same := Get(l.weapons, k).active;
      var power := if !same && !l.lowHealthPBoost then Power(false, 0) else l.power;
      var saved := if !same && l.lowHealthPBoost then 0 else l.savedPLevel;
      var ws := l.weapons;
      var cleared := Weapons(ws.s.(active := false), ws.l.(active := false),
                             ws.b.(active := false), ws.c.(active := false));
      var duration := WeaponDuration(d);
      var timer := Timer(true, if duration > 0.0 then now + duration else 0.0, now);
      Loadout(Set(cleared, k, timer), power, l.lowHealthPBoost, saved)
  }

  /** Every pick-up keeps the loadout valid. */
  lemma EquipValid(l: Loadout, k: Kind, d: int, now: real)
    requires k != HP && LoadoutValid(l)
    ensures LoadoutValid(Equip(l, k, d, now))
  {
    var r := Equip(l, k, d, now);
    if IsWeapon(k) {
      assert OnlyWeapon(r.weapons, k);
    }
  }

  /** The weapon loop of `updatePowerUps`: every timed weapon whose end time has passed is
      switched off; P is never checked. */
  function ExpireAll(ws: Weapons, now: real): (r: Weapons)
    ensures forall k :: IsWeapon(k) ==> Get(r, k) == Expire(Get(ws, k), now)
    ensures AtMostOneWeapon(ws) ==> AtMostOneWeapon(r)
  {
    Weapons(Expire(ws.s, now), Expire(ws.l, now), Expire(ws.b, now), Expire(ws.c, now))
  }

  /** The low-health test `health / maxHealth < 0.3`, stated on integers. */
  predicate LowHealth(health: int, maxHealth: int)
  {
    10 * health < 3 * maxHealth
  }

  /** For a positive maximum the integer test is exactly the ratio test of the source. */
  lemma LowHealthIsRatio(health: int, maxHealth: int)
    requires maxHealth > 0
    ensures LowHealth(health, maxHealth) <==> (health as real) / (maxHealth as real) < 0.3
  {
    var q := (health as real) / (maxHealth as real);
    assert q * (maxHealth as real) == health as real;
    MulMonotone(q, 0.3, maxHealth as real);
  }

  lemma MulMonotone(a: real, b: real, c: real)
    requires c > 0.0
    ensures a < b <==> a * c < b * c
  {
    if a < b {
      assert (b - a) * c > 0.0;
    } else {
      assert (a - b) * c >= 0.0;
    }
  }

  /** The boost rule of `updatePowerUps`: falling into low health below P6 saves the level
      and pins P at an active 6; recovering restores the saved level (inactive when it is 0);
      otherwise nothing changes. */
  function BoostStep(l: Loadout, low: bool): (r: Loadout)
    ensures r.weapons == l.weapons
    ensures low && !l.lowHealthPBoost && l.power.level < MaxPLevel ==>
              r.lowHealthPBoost && r.power == Power(true, MaxPLevel) && r.savedPLevel == l.power.level
    ensures !low && l.lowHealthPBoost ==>
              !r.lowHealthPBoost && r.power.level == l.savedPLevel && r.savedPLevel == l.savedPLevel
    ensures (low == l.lowHealthPBoost || (low && l.power.level >= MaxPLevel)) ==> r == l
  {
    if low && !l.lowHealthPBoost then
      if l.power.level < MaxPLevel then Loadout(l.weapons, Power(true, MaxPLevel), true, l.power.level)
      else l
    else if !low && l.lowHealthPBoost then
      Loadout(l.weapons, Power(if l.savedPLevel == 0 then false else l.power.active, l.savedPLevel),
              false, l.savedPLevel)
    else l
  }

  /** The boost keeps the loadout valid. */
  lemma BoostStepValid(l: Loadout, low: bool)
    requires LoadoutValid(l)
    ensures LoadoutValid(BoostStep(l, low))
  {
  }

  /** Entering the boost and recovering from it gives back exactly the P power held before. */
  lemma BoostRestoresPower(l: Loadout)
    requires LoadoutValid(l) && !l.lowHealthPBoost && l.power.level < MaxPLevel
    ensures BoostStep(BoostStep(l, true), false).power == l.power
    ensures !BoostStep(BoostStep(l, true), false).lowHealthPBoost
  {
  }

  /** A P pick-up during the boost is lost on recovery: the saved level comes back unchanged. */
  lemma PickupDuringBoostIsLost(l: Loadout, d: int, now: real)
    requires LoadoutValid(l) && l.lowHealthPBoost
    ensures BoostStep(Equip(l, P, d, now), false).power.level == l.savedPLevel
  {
  }

  // ---------------------------------------------------------------------------------------
  // Progression: player level, P gauge and health.

  const BaseMaxHealth: int := 100

  /** `Math.floor(baseMaxHealth * 0.35 / 12)`: the health gained per player level. */
  const HealthIncrease: int := (BaseMaxHealth as real * 0.35 / 12.0).Floor

  /** The level, the P gauge and the health of the player. */
  datatype Progress = Progress(playerLevel: nat, pGauge: int, pGaugeMax: int, maxHealth: int, health: int)

  const FreshProgress: Progress := Progress(1, 0, 100, BaseMaxHealth, BaseMaxHealth)

  /** What every reachable progress satisfies: level at least 1, a gauge of at least 100, the
      maximum health between the base and three times the base, and health at most the
      maximum. */
  predicate ProgressValid(s: Progress)
  {
    s.playerLevel >= 1 && s.pGaugeMax >= 100 &&
    BaseMaxHealth <= s.maxHealth <= 3 * BaseMaxHealth && s.health <= s.maxHealth
  }

  /** `Math.floor(v * 1.35)`: the gauge grows by at least 35 from 100 on. */
  function Grow(v: int): (r: int)
    ensures r as real <= v as real * 1.35 < r as real + 1.0
    ensures v >= 100 ==> r >= v + 35
  {
    (v as real * 1.35).Floor
  }

  /** `Math.floor(newMax * (gauge / oldMax))`: the gauge keeps its proportion of the new max. */
  function Rescale(gauge: int, oldMax: int, newMax: int): (r: int)
    requires oldMax > 0
    ensures r as real <= newMax as real * (gauge as real / oldMax as real) < r as real + 1.0
    ensures 0 <= gauge <= oldMax && newMax >= 0 ==> 0 <= r <= newMax
  {
    var ratio := gauge as real / oldMax as real;
    if 0 <= gauge <= oldMax && newMax >= 0 then
      assert 0.0 <= ratio <= 1.0;
      ScaleBelow(newMax as real, ratio);
      (newMax as real * ratio).Floor
    else (newMax as real * ratio).Floor
  }

  lemma ScaleBelow(n: real, t: real)
    requires n >= 0.0 && 0.0 <= t <= 1.0
    ensures 0.0 <= n * t <= n
  {
  }

  /** `upgradePlayerLevel`: one level more, the gauge 35 % larger with its proportion kept,
      and the maximum health and the health both raised by 2, capped at three times the
      base and at the new maximum. */
  function LevelUp(s: Progress): (r: Progress)
    requires s.pGaugeMax > 0
    ensures HealthIncrease == 2
    ensures r.playerLevel == s.playerLevel + 1
    ensures r.pGaugeMax == Grow(s.pGaugeMax) && r.pGauge == Rescale(s.pGauge, s.pGaugeMax, r.pGaugeMax)
    ensures s.pGaugeMax >= 100 ==> r.pGaugeMax >= s.pGaugeMax + 35
    ensures 0 <= s.pGauge <= s.pGaugeMax ==> 0 <= r.pGauge <= r.pGaugeMax
    ensures r.maxHealth == MinInt(s.maxHealth + 2, 3 * BaseMaxHealth)
    ensures r.health == MinInt(s.health + 2, r.maxHealth)
  {
    assert HealthIncrease == 2;
    var newMax := Grow(s.pGaugeMax);
    var maxHealth := MinInt(s.maxHealth + HealthIncrease, 3 * BaseMaxHealth);
    Progress(s.playerLevel + 1, Rescale(s.pGauge, s.pGaugeMax, newMax), newMax,
             maxHealth, MinInt(s.health + HealthIncrease, maxHealth))
  }

  /** A level-up keeps the progress valid. */
  lemma LevelUpValid(s: Progress)
    requires ProgressValid(s)
    ensures ProgressValid(LevelUp(s))
  {
  }

  /** `n` level-ups in a row. */
  function LevelUpN(s: Progress, n: nat): (r: Progress)
    requires s.pGaugeMax >= 100
    ensures r.pGaugeMax >= 100
  {
    if n == 0 then s else LevelUp(LevelUpN(s, n - 1))
  }

  /** After `n` level-ups the level has grown by `n`, the maximum health by 2 per level up to
      three times the base, and the progress is still valid. */
  lemma {:induction false} LevelUpsCapHealth(s: Progress, n: nat)
    requires ProgressValid(s)
    ensures LevelUpN(s, n).playerLevel == s.playerLevel + n
    ensures LevelUpN(s, n).maxHealth == MinInt(s.maxHealth + 2 * n, 3 * BaseMaxHealth)
    ensures ProgressValid(LevelUpN(s, n))
  {
    if n > 0 {
      LevelUpsCapHealth(s, n - 1);
      LevelUpValid(LevelUpN(s, n - 1));
    }
  }

  /** How many times the `while (exp >= expMax)` loop of `addExp` runs on a total of `v`. */
  function ExpLevels(v: int): nat
    decreases v
  {
    if v < ExpMax then 0 else 1 + ExpLevels(v - ExpMax)
  }

  /** The loop is a division: a non-negative total gives `v / 100` levels and keeps `v % 100`,
      and a negative total gives none. */
  lemma {:induction false} ExpLevelsIsDivision(v: int)
    ensures v >= 0 ==> ExpLevels(v) == v / ExpMax && v - ExpMax * ExpLevels(v) == v % ExpMax
    ensures v < 0 ==> ExpLevels(v) == 0
    decreases v
  {
    if v >= ExpMax {
      ExpLevelsIsDivision(v - ExpMax);
    }
  }

  /** `addPGauge`'s arithmetic: the amount is added and, when the gauge fills, one gauge's
      worth is taken off and a P level is due. Nothing is lost: the new gauge plus what was
      taken off is the old gauge plus the amount. */
  function GaugeFill(gauge: int, gaugeMax: int, amount: int): (r: (int, bool))
    ensures r.1 <==> gauge + amount >= gaugeMax
    ensures r.0 + (if r.1 then gaugeMax else 0) == gauge + amount
    ensures 0 <= gauge && 0 <= amount && gauge + amount < 2 * gaugeMax ==> 0 <= r.0 < gaugeMax
  {
    var g := gauge + amount;
    if g >= gaugeMax then (g - gaugeMax, true) else (g, false)
  }

  /** The HP pick-up: `floor(0.3 * max)` more health, never above the maximum. */
  function Heal(health: int, maxHealth: int): (r: int)
    ensures r <= maxHealth || r == health + (maxHealth as real * 0.3).Floor
    ensures health <= maxHealth ==> r <= maxHealth
    ensures maxHealth >= 0 ==> r >= MinInt(health, maxHealth)
    ensures r == maxHealth || r == health + (maxHealth as real * 0.3).Floor
    ensures r <= health + (maxHealth as real * 0.3).Floor
  {
    MinInt(maxHealth, health + (maxHealth as real * 0.3).Floor)
  }

  /** `activatePowerUp(kind, d)` at time `now` on the loadout and progress: an HP pick-up
      heals and leaves the loadout, any other is equipped and leaves the progress. */
  function Activate(l: Loadout, g: Progress, k: Kind, d: int, now: real): (r: (Loadout, Progress))
    ensures r.1 == g.(health := r.1.health) && (ProgressValid(g) ==> ProgressValid(r.1))
    ensures k == HP ==> r.0 == l
    ensures k != HP ==> r.1 == g
  {
    if k == HP then (l, g.(health := Heal(g.health, g.maxHealth))) else (Equip(l, k, d, now), g)
  }

  /** `activatePowerUp` for each collected kind in turn. Only health changes in the
      progress; with HP pick-ups only the loadout stays, and without any the progress
      stays. */
  function ActivateAll(l: Loadout, g: Progress, kinds: seq<Kind>, d: int, now: real): (r: (Loadout, Progress))
    ensures r.1 == g.(health := r.1.health)
    ensures (forall i :: 0 <= i < |kinds| ==> kinds[i] == HP) ==> r.0 == l
    ensures (forall i :: 0 <= i < |kinds| ==> kinds[i] != HP) ==> r.1 == g
    decreases |kinds|
  {
    if kinds == [] then (l, g)
    else
      var prev := ActivateAll(l, g, kinds[..|kinds| - 1], d, now);
      Activate(prev.0, prev.1, kinds[|kinds| - 1], d, now)
  }

  /** One more pick-up is activated after all the earlier ones. */
  lemma ActivateAllSnoc(l: Loadout, g: Progress, kinds: seq<Kind>, k: Kind, d: int, now: real)
    ensures var prev := ActivateAll(l, g, kinds, d, now);
            ActivateAll(l, g, kinds + [k], d, now) == Activate(prev.0, prev.1, k, d, now)
  {
    assert (kinds + [k])[..|kinds|] == kinds;
  }

  /** A run of pick-ups keeps the loadout and the progress reachable. */
  lemma {:induction false} ActivateAllValid(l: Loadout, g: Progress, kinds: seq<Kind>, d: int, now: real)
    requires LoadoutValid(l) && ProgressValid(g)
    ensures LoadoutValid(ActivateAll(l, g, kinds, d, now).0) && ProgressValid(ActivateAll(l, g, kinds, d, now).1)
    decreases |kinds|
  {
    if kinds != [] {
      var prev := ActivateAll(l, g, kinds[..|kinds| - 1], d, now);
      ActivateAllValid(l, g, kinds[..|kinds| - 1], d, now);
      if kinds[|kinds| - 1] != HP {
        EquipValid(prev.0, kinds[|kinds| - 1], d, now);
      }
    }
  }

  // ---------------------------------------------------------------------------------------
  // Keyboard, trigger and invulnerability.

  const PlayerWidth: real := 40.0
  const PlayerHeight: real := 50.0
  const PlayerSpeed: real := 5.0

  /** One axis of the keyboard movement: step back if that key is held and the position is
      above 0, then step forward if that key is held and the position is below the limit. */
  function AxisStep(pos: real, back: bool, forward: bool, limit: real, step: real): real
  {
    var a := if back && pos > 0.0 then pos - step else pos;
    if forward && a < limit then a + step else a
  }

  /** A position less than one step outside `[0, limit]` stays so: the keyboard moves the
      ship at most one step past an edge. */
  lemma AxisStepBounded(pos: real, back: bool, forward: bool, limit: real, step: real)
    requires step > 0.0 && -step < pos < limit + step
    ensures -step < AxisStep(pos, back, forward, limit, step) < limit + step
    ensures !back && !forward ==> AxisStep(pos, back, forward, limit, step) == pos
  {
  }

  /** The held keys of one frame. */
  datatype Keys = Keys(left: bool, right: bool, up: bool, down: bool, shoot: bool, charge: bool)

  /** The trigger state: the shot cooldown and the charge being built up. */
  datatype Trigger = Trigger(shootCooldown: nat, chargeTime: nat, isCharging: bool)

  const FreshTrigger: Trigger := Trigger(0, 0, false)

  /** The charge never exceeds 90 frames and is 0 when not charging; the cooldown stays
      below the 30 frames a charged shot sets (it is counted down in the same frame). */
  predicate TriggerValid(t: Trigger)
  {
    t.chargeTime <= MaxChargeFrames && (!t.isCharging ==> t.chargeTime == 0) && t.shootCooldown < 3 * ShootRate
  }

  /** A normal shot goes off this frame. */
  predicate ShotFires(t: Trigger, keys: Keys)
  {
    keys.shoot && t.shootCooldown == 0
  }

  /** A charged shot goes off this frame: the charge key was let go after a full charge and
      the cooldown was 0 even after the normal shot of the same frame. */
  predicate ChargeReleases(t: Trigger, keys: Keys)
  {
    !keys.charge && t.isCharging && t.chargeTime >= MaxChargeFrames &&
    t.shootCooldown == 0 && !ShotFires(t, keys)
  }

  /** The shooting and charging part of `update` before the cooldown tick: a shot sets the
      cooldown to 10; holding the charge key starts a charge at 0 and adds a frame up to 90;
      letting go ends the charge, and a released charged shot sets the cooldown to 30. */
  function TriggerStep(t: Trigger, keys: Keys): Trigger
  {
    var cd := if ShotFires(t, keys) then ShootRate else t.shootCooldown;
    if keys.charge then
      var start := if t.isCharging then t.chargeTime else 0;
      Trigger(cd, if start < MaxChargeFrames then start + 1 else start, true)
    else if t.isCharging then
      Trigger(if ChargeReleases(t, keys) then 3 * ShootRate else cd, 0, false)
    else t.(shootCooldown := cd)
  }

  /** The cooldown tick at the end of the frame. */
  function CoolDown(t: Trigger): (r: Trigger)
    ensures r.shootCooldown == MaxInt(t.shootCooldown - 1, 0)
    ensures r.chargeTime == t.chargeTime && r.isCharging == t.isCharging
  {
    if t.shootCooldown > 0 then t.(shootCooldown := t.shootCooldown - 1) else t
  }

  /** One whole frame of the trigger. */
  function TriggerFrame(t: Trigger, keys: Keys): Trigger
  {
    CoolDown(TriggerStep(t, keys))
  }

  function TriggerFrameN(t: Trigger, keys: Keys, n: nat): Trigger
  {
    if n == 0 then t else TriggerFrame(TriggerFrameN(t, keys, n - 1), keys)
  }

  /** A frame keeps the trigger valid; a released charge ends the charge and leaves 29
      frames of cooldown; letting go early fires nothing and ends the charge as well. */
  lemma TriggerFrameRules(t: Trigger, keys: Keys)
    requires TriggerValid(t)
    ensures TriggerValid(TriggerFrame(t, keys))
    ensures ChargeReleases(t, keys) ==> TriggerFrame(t, keys) == Trigger(3 * ShootRate - 1, 0, false)
    ensures ShotFires(t, keys) ==> TriggerFrame(t, keys).shootCooldown == ShootRate - 1
    ensures !keys.charge && t.isCharging ==>
              !TriggerFrame(t, keys).isCharging && TriggerFrame(t, keys).chargeTime == 0
    ensures keys.charge ==> TriggerFrame(t, keys).isCharging
  {
  }

  /** A charged shot needs the charge key let go after a full charge, with the cooldown at 0
      and the shot key up: pressing shot in the release frame spends the charge for nothing. */
  lemma ReleaseNeedsFullChargeAndQuiet(t: Trigger, keys: Keys)
    requires !keys.charge && t.isCharging
    ensures ChargeReleases(t, keys) <==> t.chargeTime >= MaxChargeFrames && t.shootCooldown == 0 && !keys.shoot
    ensures keys.shoot && t.shootCooldown == 0 ==> !ChargeReleases(t, keys) && !TriggerFrame(t, keys).isCharging
  {
  }

  /** Holding only the charge key for `n` frames from rest builds a charge of `min(n, 90)`. */
  lemma {:induction false} ChargeBuildsUp(t: Trigger, keys: Keys, n: nat)
    requires TriggerValid(t) && !t.isCharging && keys.charge
    ensures TriggerFrameN(t, keys, n).chargeTime == MinInt(n, MaxChargeFrames)
    ensures n > 0 ==> TriggerFrameN(t, keys, n).isCharging
  {
    if n > 0 {
      ChargeBuildsUp(t, keys, n - 1);
      var prev := TriggerFrameN(t, keys, n - 1);
      assert TriggerFrameN(t, keys, n) == TriggerFrame(prev, keys);

    }
  }

  /** Holding only the shot key from a cooldown of 0, the cooldown after `k` frames is
      `10 - k` for `k` up to 10: a shot, then nine silent frames, then the next shot. */
  lemma {:induction false} ShotCadence(t: Trigger, keys: Keys, k: nat)
    requires t.shootCooldown == 0 && !t.isCharging && keys.shoot && !keys.charge
    requires 1 <= k <= ShootRate
    ensures TriggerFrameN(t, keys, k).shootCooldown == ShootRate - k
    ensures !TriggerFrameN(t, keys, k).isCharging
  {
    if k > 1 {
      ShotCadence(t, keys, k - 1);
    }
  }

  /** The invulnerability window. */
  datatype Guard = Guard(invulnerable: bool, invulnerableTime: int)

  const FreshGuard: Guard := Guard(false, 0)

  predicate GuardValid(g: Guard)
  {
    (g.invulnerable <==> g.invulnerableTime > 0) && 0 <= g.invulnerableTime <= InvulnerableFrames
  }

  /** The invulnerability tick of `update`: the timer runs down and the window closes at 0. */
  function GuardTick(g: Guard): Guard
  {
    if g.invulnerable then
      var t := g.invulnerableTime - 1;
      Guard(t > 0, t)
    else g
  }

  function GuardTickN(g: Guard, n: nat): Guard
  {
    if n == 0 then g else GuardTick(GuardTickN(g, n - 1))
  }

  /** A tick keeps the guard valid. */
  lemma GuardTickValid(g: Guard)
    requires GuardValid(g)
    ensures GuardValid(GuardTick(g))
  {
  }

  /** A window of `t` frames lasts exactly `t` frames: invulnerable after `k` ticks exactly
      when `k < t`. */
  lemma {:induction false} WindowLasts(t: int, k: nat)
    requires 0 < t
    ensures GuardTickN(Guard(true, t), k).invulnerable <==> k < t
    ensures k <= t ==> GuardTickN(Guard(true, t), k).invulnerableTime == t - k
    ensures k >= t ==> GuardTickN(Guard(true, t), k) == Guard(false, 0)
  {
    if k > 0 {
      WindowLasts(t, k - 1);
    }
  }

  /** What `update` fires in a frame with the ship at (x, y): the normal volley of the
      current mode and P level if a shot goes off, then the charged volley if it is released. */
  function Fired(t: Trigger, keys: Keys, l: Loadout, x: real, y: real, ch: real, m: MathLib): seq<Projectile>
  {
    (if ShotFires(t, keys)
     then Volley(ModeOf(l.weapons), l.power.level, x + PlayerWidth / 2.0, y, y + PlayerHeight * 0.7, ch, m)
     else []) +
    (if ChargeReleases(t, keys) then ChargedVolley(x + PlayerWidth / 2.0, y, ch, m) else [])
  }

  /** A frame fires at most one of the two volleys. */
  lemma FiresOneVolley(t: Trigger, keys: Keys, l: Loadout, x: real, y: real, ch: real, m: MathLib)
    ensures !(ShotFires(t, keys) && ChargeReleases(t, keys))
    ensures ChargeReleases(t, keys) ==> |Fired(t, keys, l, x, y, ch, m)| == 3
    ensures !ShotFires(t, keys) && !ChargeReleases(t, keys) ==> Fired(t, keys, l, x, y, ch, m) == []
  {
  }

  // ---------------------------------------------------------------------------------------
  // The player.

  predicate ExplosionsLive(es: seq<Explosion>)
  {
    forall i :: 0 <= i < |es| ==> es[i].lifetime > 0
  }

  /** The `angles.forEach(angle => this.bullets.push(...))` loop, collecting the shots. */
  method FanShots(kind: FanKind, angles: seq<real>, cx: real, cy: real, p: nat, ch: real, m: MathLib)
    returns (shots: seq<Projectile>)
    ensures shots == Fan(kind, angles, cx, cy, p, ch, m)
  {
    shots := [];
    var i := 0;
    while i < |angles|
      invariant 0 <= i <= |angles|
      invariant shots == Fan(kind, angles[..i], cx, cy, p, ch, m)
    {
      assert angles[..i + 1][..i] == angles[..i];
      shots := shots + [FanBullet(kind, angles[i], cx, cy, p, ch, m)];
      i := i + 1;
    }
    assert angles[..i] == angles;
  }

  /** One `for (let i = 0; i < count; i++)` laser loop, collecting the shots. */
  method LaserShots(rear: bool, n: nat, cx: real, ly: real, p: nat, ch: real) returns (shots: seq<Projectile>)
    ensures shots == LaserRow(rear, n, n, cx, ly, p, ch)
  {
    shots := [];
    var i := 0;
    while i < n
      invariant 0 <= i <= n
      invariant shots == LaserRow(rear, i, n, cx, ly, p, ch)
    {
      shots := shots + [if rear then RearLaser(i, n, cx, ly, p, ch) else ForwardLaser(i, n, cx, ly, p, ch)];
      i := i + 1;
    }
  }

  /** The body of `shoot()`: the volley of mode `mode` at P level `p`, fired from the nose
      (cx, cy) with the rear row at `rearY`. */
  method VolleyShots(mode: FireMode, p: nat, cx: real, cy: real, rearY: real, ch: real, m: MathLib)
    returns (shots: seq<Projectile>)
    ensures shots == Volley(mode, p, cx, cy, rearY, ch, m)
  {
    match mode {
      case LaserMode =>
        var front := LaserShots(false, ForwardLaserCount(p), cx, cy, p, ch);
        var rear := LaserShots(true, RearLaserCount(p), cx, rearY, p, ch);
        shots := front + rear;
      case BombMode =>
        if BombCount(p) == 1 {
          shots := [SingleBomb(cx, cy, p, ch)];
        } else {
          shots := FanShots(BombFan, CalculateAngles(BombCount(p), m.pi), cx, cy, p, ch, m);
        }
      case RocketMode =>
        shots := [Rocket(cx, cy, p, ch)];
      case SpreadMode =>
        shots := FanShots(PlainFan, SpreadAngles(p, m.pi), cx, cy, p, ch, m);
      case DefaultMode =>
        shots := FanShots(PlainFan, DefaultAngles(p, m.pi), cx, cy, p, ch, m);
    }
  }

  /** The shooting and charging part of `update` for a ship at (x, y): a shot with the
      shoot key held and the cooldown at 0 (cooldown 10); holding the charge key starts a
      charge and counts it up to 90 frames; letting go after a full charge with the cooldown
      still at 0 fires the charged shot (cooldown 30), and letting go always ends the charge. */
  method FireShots(t: Trigger, keys: Keys, l: Loadout, x: real, y: real, ch: real, m: MathLib)
    returns (next: Trigger, shots: seq<Projectile>)
    ensures next == TriggerStep(t, keys)
    ensures shots == Fired(t, keys, l, x, y, ch, m)
  {
    next := t;
    shots := [];
    if keys.shoot && next.shootCooldown == 0 {
      shots := VolleyShots(ModeOf(l.weapons), l.power.level, x + PlayerWidth / 2.0, y, y + PlayerHeight * 0.7, ch, m);
      next := next.(shootCooldown := ShootRate);
    }
    if keys.charge {
      if !next.isCharging {
        next := next.(isCharging := true, chargeTime := 0);
      }
      if next.chargeTime < MaxChargeFrames {
        next := next.(chargeTime := next.chargeTime + 1);
      }
    } else if next.isCharging {
      if next.chargeTime >= MaxChargeFrames && next.shootCooldown == 0 {
        var charged := FanShots(ChargedFan, [-m.pi / 6.0, 0.0, m.pi / 6.0], x + PlayerWidth / 2.0, y, 0, ch, m);
        shots := shots + charged;
        next := next.(shootCooldown := 3 * ShootRate);
      }
      next := next.(isCharging := false, chargeTime := 0);
    }
  }

  class Player {
    var x: real
    var y: real
    var canvasHeight: real
    var bullets: seq<Projectile>
    var explosions: seq<Explosion>
    var loadout: Loadout
    var progress: Progress
    var exp: int
    var trigger: Trigger
    var guard: Guard

    ghost predicate Valid()
      reads this`loadout, this`progress, this`exp, this`trigger, this`guard, this`explosions
    {
      LoadoutValid(loadout) && ProgressValid(progress) && exp < ExpMax &&
      TriggerValid(trigger) && GuardValid(guard) && ExplosionsLive(explosions)
    }

    /** `new Player(canvas)`: centred near the bottom, full health, nothing equipped. */
    constructor (cw: real, ch: real)
      ensures Valid()
      ensures x == cw / 2.0 - PlayerWidth / 2.0 && y == ch - PlayerHeight - 20.0 && canvasHeight == ch
      ensures bullets == [] && explosions == [] && exp == 0
      ensures loadout == FreshLoadout && progress == FreshProgress
      ensures trigger == FreshTrigger && guard == FreshGuard
    {
      x := cw / 2.0 - PlayerWidth / 2.0;
      y := ch - PlayerHeight - 20.0;
      canvasHeight := ch;
      bullets := [];
      explosions := [];
      loadout := FreshLoadout;
      progress := FreshProgress;
      exp := 0;
      trigger := FreshTrigger;
      guard := FreshGuard;
    }

    /** `reset(canvas)`: back to the state of a new player. The charge and the shot cooldown
        are not touched. */
    method Reset(cw: real, ch: real)
      requires TriggerValid(trigger)
      modifies this`x, this`y, this`canvasHeight, this`bullets, this`explosions, this`loadout,
               this`progress, this`exp, this`guard
      ensures Valid()
      ensures x == cw / 2.0 - PlayerWidth / 2.0 && y == ch - PlayerHeight - 20.0 && canvasHeight == ch
      ensures bullets == [] && explosions == [] && exp == 0
      ensures loadout == FreshLoadout && progress == FreshProgress && guard == FreshGuard
    {
      x := cw / 2.0 - PlayerWidth / 2.0;
      y := ch - PlayerHeight - 20.0;
      canvasHeight := ch;
      bullets := [];
      explosions := [];
      loadout := FreshLoadout;
      progress := FreshProgress;
      exp := 0;
      guard := FreshGuard;
    }

    function BoxOf(): Box
      reads this`x, this`y
    {
      Box(x, y, PlayerWidth, PlayerHeight)
    }

    /** `hit(damage)`: outside the invulnerability window the damage is taken and a window
        of 120 frames opens; inside it nothing happens. */
    method Hit(damage: int) returns (hit: bool)
      requires Valid() && damage >= 0
      modifies this`progress, this`guard
      ensures Valid()
      ensures hit <==> !old(guard).invulnerable
      ensures hit ==> progress == old(progress).(health := old(progress).health - damage) &&
                      guard == Guard(true, InvulnerableFrames)
      ensures !hit ==> progress == old(progress) && guard == old(guard)
    {
      if !guard.invulnerable {
        progress := progress.(health := progress.health - damage);
        guard := Guard(true, InvulnerableFrames);
        hit := true;
      } else {
        hit := false;
      }
    }

    /** `activatePowerUp(type, difficulty)` at time `now`. */
    method ActivatePowerUp(kind: Kind, difficulty: int, now: real)
      requires Valid()
      modifies this`loadout, this`progress
      ensures Valid()
      ensures kind == HP ==> loadout == old(loadout) &&
                             progress == old(progress).(health := Heal(old(progress).health, old(progress).maxHealth))
      ensures kind != HP ==> progress == old(progress) && loadout == Equip(old(loadout), kind, difficulty, now)
      ensures (loadout, progress) == Activate(old(loadout), old(progress), kind, difficulty, now)
    {
      if kind == HP {
        progress := progress.(health := Heal(progress.health, progress.maxHealth));
      } else {
        EquipValid(loadout, kind, difficulty, now);
        loadout := Equip(loadout, kind, difficulty, now);
      }
    }

    /** `upgradePlayerLevel`. */
    method UpgradePlayerLevel()
      requires Valid()
      modifies this`progress
      ensures Valid()
      ensures progress == LevelUp(old(progress))
    {
      LevelUpValid(progress);
      progress := LevelUp(progress);
    }

    /** `addExp(amount)`: the EXP is added and every full 100 is turned into a player level. */
    method AddExp(amount: int)
      requires Valid()
      modifies this`exp, this`progress
      ensures Valid()
      ensures exp == old(exp) + amount - ExpMax * ExpLevels(old(exp) + amount)
      ensures progress == LevelUpN(old(progress), ExpLevels(old(exp) + amount))
    {
      ghost var total := exp + amount;
      ghost var p0 := progress;
      ghost var k: nat := 0;
      exp := exp + amount;
      while exp >= ExpMax
        invariant Valid() || exp >= ExpMax
        invariant LoadoutValid(loadout) && ProgressValid(progress) && TriggerValid(trigger)
        invariant GuardValid(guard) && ExplosionsLive(explosions)
        invariant exp == total - ExpMax * k
        invariant ExpLevels(total) == k + ExpLevels(exp)
        invariant progress == LevelUpN(p0, k)
        decreases exp
      {
        exp := exp - ExpMax;
        UpgradePlayerLevelStep();
        k := k + 1;
      }
    }

    /** `upgradePlayerLevel` as called from inside the `addExp` loop. */
    method UpgradePlayerLevelStep()
      requires ProgressValid(progress)
      modifies this`progress
      ensures ProgressValid(progress)
      ensures progress == LevelUp(old(progress))
    {
      LevelUpValid(progress);
      progress := LevelUp(progress);
    }

    /** `upgradePLevel`: one P level more, up to 6. */
    method UpgradePLevel()
      requires Valid()
      modifies this`loadout
      ensures Valid()
      ensures old(loadout).power.level < MaxPLevel ==>
                loadout == old(loadout).(power := Power(true, old(loadout).power.level + 1))
      ensures old(loadout).power.level >= MaxPLevel ==> loadout == old(loadout)
    {
      if loadout.power.level < MaxPLevel {
        loadout := loadout.(power := Power(true, loadout.power.level + 1));
      }
    }

    /** `addPGauge(amount)`: at P6 nothing happens; otherwise the amount is added and a full
        gauge turns into one P level. */
    method AddPGauge(amount: int)
      requires Valid()
      modifies this`progress, this`loadout
      ensures Valid()
      ensures old(loadout).power.level >= MaxPLevel ==> progress == old(progress) && loadout == old(loadout)
      ensures old(loadout).power.level < MaxPLevel ==>
                var f := GaugeFill(old(progress).pGauge, old(progress).pGaugeMax, amount);
                progress == old(progress).(pGauge := f.0) &&
                loadout == (if f.1 then old(loadout).(power := Power(true, old(loadout).power.level + 1))
                            else old(loadout))
    {
      if loadout.power.level >= MaxPLevel {
        return;
      }
      var f := GaugeFill(progress.pGauge, progress.pGaugeMax, amount);
      progress := progress.(pGauge := f.0);
      if f.1 {
        UpgradePLevel();
      }
    }

    /** `updatePowerUps()` at time `now`: expired weapons are switched off, then the boost
        rule is applied to the health, then the explosions are advanced. */
    method UpdatePowerUps(now: real)
      requires Valid()
      modifies this`loadout, this`explosions
      ensures Valid()
      ensures loadout == BoostStep(old(loadout).(weapons := ExpireAll(old(loadout).weapons, now)),
                                   LowHealth(progress.health, progress.maxHealth))
      ensures explosions == AdvanceExplosions(old(explosions))
    {
      var l := loadout.(weapons := ExpireAll(loadout.weapons, now));
      BoostStepValid(l, LowHealth(progress.health, progress.maxHealth));
      loadout := BoostStep(l, LowHealth(progress.health, progress.maxHealth));
      explosions := AdvanceExplosions(explosions);
    }

    /** The keyboard movement of `update`. */
    method Steer(keys: Keys, cw: real, ch: real)
      modifies this`x, this`y
      ensures x == AxisStep(old(x), keys.left, keys.right, cw - PlayerWidth, PlayerSpeed)
      ensures y == AxisStep(old(y), keys.up, keys.down, ch - PlayerHeight, PlayerSpeed)
    {
      x := AxisStep(x, keys.left, keys.right, cw - PlayerWidth, PlayerSpeed);
      y := AxisStep(y, keys.up, keys.down, ch - PlayerHeight, PlayerSpeed);
    }

    /** `shoot()`: the volley of the current mode and P level from the ship's nose. */
    method Shoot(m: MathLib)
      modifies this`bullets
      ensures bullets == old(bullets) + Volley(ModeOf(loadout.weapons), loadout.power.level, x + PlayerWidth / 2.0, y,
                                               y + PlayerHeight * 0.7, canvasHeight, m)
    {
      var shots := VolleyShots(ModeOf(loadout.weapons), loadout.power.level, x + PlayerWidth / 2.0, y,
                               y + PlayerHeight * 0.7, canvasHeight, m);
      bullets := bullets + shots;
    }

    /** `shootChargedBullet()`: the three charged shots, and a cooldown of 30 frames. */
    method ShootChargedBullet(m: MathLib)
      modifies this`bullets, this`trigger
      ensures bullets == old(bullets) + ChargedVolley(x + PlayerWidth / 2.0, y, canvasHeight, m)
      ensures trigger == old(trigger).(shootCooldown := 3 * ShootRate)
    {
      var shots := FanShots(ChargedFan, [-m.pi / 6.0, 0.0, m.pi / 6.0], x + PlayerWidth / 2.0, y, 0, canvasHeight, m);
      bullets := bullets + shots;
      trigger := trigger.(shootCooldown := 3 * ShootRate);
    }

    /** The shooting and charging part of `update`. */
    method Fire(keys: Keys, m: MathLib)
      modifies this`bullets, this`trigger
      ensures trigger == TriggerStep(old(trigger), keys)
      ensures bullets == old(bullets) + Fired(old(trigger), keys, loadout, x, y, canvasHeight, m)
    {
      var t, shots := FireShots(trigger, keys, loadout, x, y, canvasHeight, m);
      trigger := t;
      bullets := bullets + shots;
    }

    /** The movement and the shooting of `update`. */
    method Act(keys: Keys, touchActive: bool, cw: real, ch: real, m: MathLib)
      modifies this`x, this`y, this`bullets, this`trigger
      ensures !touchActive ==> x == AxisStep(old(x), keys.left, keys.right, cw - PlayerWidth, PlayerSpeed) &&
                               y == AxisStep(old(y), keys.up, keys.down, ch - PlayerHeight, PlayerSpeed)
      ensures touchActive ==> x == old(x) && y == old(y)
      ensures trigger == TriggerStep(old(trigger), keys)
      ensures bullets == old(bullets) + Fired(old(trigger), keys, loadout, x, y, canvasHeight, m)
    {
      if !touchActive {
        Steer(keys, cw, ch);
      }
      Fire(keys, m);
    }

    /** The end-of-frame ticks of `update`: cooldown, invulnerability, and the bullet filter. */
    method Tick(enemies: seq<Box>, m: MathLib)
      modifies this`bullets, this`trigger, this`guard
      ensures trigger == CoolDown(old(trigger)) && guard == GuardTick(old(guard))
      ensures bullets == Filter(Map(old(bullets), b => Updated(b, enemies, m)), IsActive)
      ensures |bullets| <= |old(bullets)|
      ensures forall i :: 0 <= i < |bullets| ==> bullets[i].active
      ensures enemies == [] ==> bullets == AdvanceAll(old(bullets))
    {
      trigger := CoolDown(trigger);
      guard := GuardTick(guard);
      bullets := UpdateAll(bullets, enemies, m);
    }

    /** `update(canvas, audio, enemies)`: keyboard movement unless a touch is active, the
        shot and the charge, the cooldown and invulnerability ticks, then every bullet is
        updated and the inactive ones dropped. */
    method Update(keys: Keys, touchActive: bool, cw: real, ch: real, enemies: seq<Box>, m: MathLib)
      requires Valid()
      modifies this`x, this`y, this`bullets, this`trigger, this`guard
      ensures Valid()
      ensures !touchActive ==> x == AxisStep(old(x), keys.left, keys.right, cw - PlayerWidth, PlayerSpeed) &&
                               y == AxisStep(old(y), keys.up, keys.down, ch - PlayerHeight, PlayerSpeed)
      ensures touchActive ==> x == old(x) && y == old(y)
      ensures trigger == TriggerFrame(old(trigger), keys)
      ensures guard == GuardTick(old(guard))
      ensures bullets == Filter(Map(old(bullets) + Fired(old(trigger), keys, loadout, x, y, canvasHeight, m),
                                    b => Updated(b, enemies, m)), IsActive)
      ensures |bullets| <= |old(bullets)| + |Fired(old(trigger), keys, loadout, x, y, canvasHeight, m)|
      ensures forall i :: 0 <= i < |bullets| ==> bullets[i].active
      ensures enemies == [] ==> bullets == AdvanceAll(old(bullets) + Fired(old(trigger), keys, loadout, x, y, canvasHeight, m))
    {
      TriggerFrameRules(trigger, keys);
      GuardTickValid(guard);
      Act(keys, touchActive, cw, ch, m);
      Tick(enemies, m);
    }
  }
}
