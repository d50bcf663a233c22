/** The boss bomber (boss.js): its difficulty-scaled stats, the movement phases
    entry -> hover <-> strafe, the low-health charge attack (charging -> dashing ->
    (waiting -> charging -> dashing)* -> returning -> idle), the four weapon volleys and the
    hit flash. The counters and flags of the charge sub-machine are specified by pure
    functions (`CooldownStep`, `ChargeBranch`) and the `Boss` methods are proved against them. */
module Bosses {
  import opened Common
  import opened Bullets

  const BossWidth: real := 180.0
  const BossHeight: real := 150.0

  /** What the boss sees of the player: its box and its maximum health. */
  datatype PlayerView = PlayerView(x: real, y: real, width: real, height: real, maxHealth: int)

  function CenterX(p: PlayerView): real { p.x + p.width / 2.0 }
  function CenterY(p: PlayerView): real { p.y + p.height / 2.0 }

  datatype MovePattern = Entry | Hover | Strafe

  // ---------------------------------------------------------------------------------------
  // The charge attack sub-machine.

  const MaxChargeTime: nat := 60
  const MaxChargeSpeed: real := 12.0
  const ReturnSpeed: real := 4.0
  const MaxCooldown: nat := 300
  const WaitDuration: nat := 30

  /** The `chargeAttack` record (its constant limits are the module constants above). */
  datatype ChargeAttack = ChargeAttack(
    active: bool, charging: bool, returning: bool, chargeTime: nat,
    targetX: real, targetY: real, initialX: real, initialY: real, speed: real,
    cooldown: nat, damage: int, totalCharges: nat, currentCharge: nat, waitTime: nat)

  const IdleCharge: ChargeAttack :=
    ChargeAttack(false, false, false, 0, 0.0, 0.0, 0.0, 0.0, 0.0, 0, 0, 0, 0, 0)

  /** The phases the flags encode. */
  datatype Phase = Idle | Charging | Dashing | Waiting | Returning

  function PhaseOf(c: ChargeAttack): Phase
  {
    if !c.active then Idle
    else if c.charging then Charging
    else if c.returning then Returning
    else if c.waitTime > 0 then Waiting
    else Dashing
  }

  /** The invariant of the sub-machine: an active attack has 2 to 4 charges and has not done
      more than that; only a finished attack returns; charging lasts under 60 frames; the
      dash speed stays in [0, 12]; an idle attack holds no charges. */
  predicate ChargeValid(c: ChargeAttack)
  {
    0.0 <= c.speed <= MaxChargeSpeed && c.waitTime <= WaitDuration &&
    (c.charging ==> c.chargeTime < MaxChargeTime && c.waitTime == 0) &&
    (!c.charging ==> c.chargeTime == 0) &&
    (c.active ==> 2 <= c.totalCharges <= 4 && c.currentCharge <= c.totalCharges) &&
    (!c.active ==> !c.charging && !c.returning && c.currentCharge == 0 &&
                   c.totalCharges == 0 && c.waitTime == 0) &&
    (c.returning ==> !c.charging && c.currentCharge == c.totalCharges && c.waitTime == 0) &&
    (c.active && !c.returning ==> c.currentCharge < c.totalCharges)
  }

  lemma IdleChargeValid()
    ensures ChargeValid(IdleCharge) && PhaseOf(IdleCharge) == Idle
  {
  }

  /** The number of charges `2 + floor(roll * 3)` drawn by `initiateChargeAttack`. */
  function ChargeCount(roll: real): (n: nat)
    requires 0.0 <= roll < 1.0
    ensures 2 <= n <= 4
  {
    2 + (roll * 3.0).Floor
  }

  /** `initiateChargeAttack(player)`: remember the start position, draw the number of
      charges, aim at the player's centre, start charging at speed 2, with a contact damage of
      a third of the player's maximum health. */
  function Initiate(c: ChargeAttack, x: real, y: real, p: PlayerView, roll: real): (d: ChargeAttack)
    requires 0.0 <= roll < 1.0
    ensures d.active && d.charging && !d.returning && d.chargeTime == 0 && d.waitTime == 0
    ensures d.initialX == x && d.initialY == y && d.currentCharge == 0
    ensures d.totalCharges == 2 + (roll * 3.0).Floor && 2 <= d.totalCharges <= 4
    ensures d.targetX == CenterX(p) && d.targetY == CenterY(p) && d.speed == 2.0
    ensures d.damage == (p.maxHealth as real / 3.0).Floor && d.cooldown == c.cooldown
  {
    c.(initialX := x, initialY := y, totalCharges := ChargeCount(roll), currentCharge := 0,
       active := true, charging := true, returning := false, chargeTime := 0, waitTime := 0,
       targetX := CenterX(p), targetY := CenterY(p), speed := 2.0,
       damage := (p.maxHealth as real / 3.0).Floor)
  }

  /** The cooldown part of `update` (lines 84-90): while below half health and not charging,
      the cooldown counts up, and at 300 the attack starts. */
  function CooldownStep(c: ChargeAttack, lowHealth: bool, x: real, y: real, p: PlayerView, roll: real): (d: ChargeAttack)
    requires 0.0 <= roll < 1.0
    ensures c.active || !lowHealth ==> d == c
    ensures !c.active && lowHealth && c.cooldown + 1 < MaxCooldown ==> d == c.(cooldown := c.cooldown + 1)
    ensures !c.active && lowHealth && c.cooldown + 1 >= MaxCooldown ==>
              d == Initiate(c.(cooldown := c.cooldown + 1), x, y, p, roll)
    ensures ChargeValid(c) ==> ChargeValid(d)
  {
    if lowHealth && !c.active then
      var counted := c.(cooldown := c.cooldown + 1);
      if counted.cooldown >= MaxCooldown then Initiate(counted, x, y, p, roll) else counted
    else c
  }

  /** The dash has reached its target: the boss centre is within 10 of it. */
  predicate AtTarget(c: ChargeAttack, x: real, y: real)
  {
    !Beyond(c.targetX - (x + BossWidth / 2.0), c.targetY - (y + BossHeight / 2.0), 10.0)
  }

  /** The return has reached its start: the boss corner is within 5 of it. */
  predicate AtHome(c: ChargeAttack, x: real, y: real)
  {
    !Beyond(c.initialX - x, c.initialY - y, 5.0)
  }

  /** The active branch of `update` (lines 93-164) on the flags and counters, for a boss at
      (x, y) at the start of the branch. */
  function ChargeBranch(c: ChargeAttack, x: real, y: real, p: PlayerView): (d: ChargeAttack)
    requires c.active
    ensures c.charging ==>
              d == (if c.chargeTime + 1 >= MaxChargeTime then c.(charging := false, chargeTime := 0)
                    else c.(chargeTime := c.chargeTime + 1))
    ensures !c.charging && c.returning && AtHome(c, x, y) ==>
              !d.active && !d.returning && d.speed == 0.0 && d.cooldown == 0 &&
              d.currentCharge == 0 && d.totalCharges == 0
    ensures !c.charging && c.returning && !AtHome(c, x, y) ==> d == c
    ensures !c.charging && !c.returning && c.currentCharge < c.totalCharges && c.waitTime >= WaitDuration ==>
              d.charging && d.chargeTime == 0 && d.waitTime == 0 &&
              d.targetX == CenterX(p) && d.targetY == CenterY(p)
    ensures d.currentCharge == c.currentCharge + 1 ==>
              !c.charging && !c.returning && c.waitTime == 0 && AtTarget(c, x, y) && d.speed == 0.0 &&
              (d.returning <==> d.currentCharge >= d.totalCharges)
    ensures d.currentCharge != c.currentCharge + 1 ==>
              d.currentCharge == c.currentCharge || d.currentCharge == 0
    ensures d.returning && !c.returning ==> d.currentCharge == c.currentCharge + 1
    ensures d.totalCharges == c.totalCharges || d.totalCharges == 0
    ensures ChargeValid(c) ==> ChargeValid(d)
  {
    if c.charging then
      var t := c.chargeTime + 1;
      if t >= MaxChargeTime then c.(charging := false, chargeTime := 0) else c.(chargeTime := t)
    else if c.returning then
      if !AtHome(c, x, y) then c
      else c.(active := false, returning := false, speed := 0.0, cooldown := 0,
              currentCharge := 0, totalCharges := 0)
    else if c.currentCharge < c.totalCharges then
      if 0 < c.waitTime < WaitDuration then c.(waitTime := c.waitTime + 1)
      else if c.waitTime >= WaitDuration then
        c.(charging := true, chargeTime := 0, targetX := CenterX(p), targetY := CenterY(p), waitTime := 0)
      else if !AtTarget(c, x, y) then c.(speed := MinReal(MaxChargeSpeed, c.speed + 0.5))
      else
        var done := c.(speed := 0.0, currentCharge := c.currentCharge + 1);
        if done.currentCharge < done.totalCharges then done.(waitTime := 1) else done.(returning := true)
    else c
  }

  /** One frame of the sub-machine: the cooldown part, then the active branch if the attack
      is (now) active. */
  function ChargeNext(c: ChargeAttack, lowHealth: bool, x: real, y: real, p: PlayerView, roll: real): ChargeAttack
    requires 0.0 <= roll < 1.0
  {
    var d := CooldownStep(c, lowHealth, x, y, p, roll);
    if d.active then ChargeBranch(d, x, y, p) else d
  }

  /** The invariant holds in every frame. */
  lemma ChargeNextValid(c: ChargeAttack, lowHealth: bool, x: real, y: real, p: PlayerView, roll: real)
    requires 0.0 <= roll < 1.0 && ChargeValid(c)
    ensures ChargeValid(ChargeNext(c, lowHealth, x, y, p, roll))
  {
  }

  /** How the phases follow one another in one frame: idle stays idle or starts charging;
      charging goes on or ends in a dash; a dash goes on, waits, or returns; waiting goes on
      or charges again; returning goes on or ends idle. */
  lemma PhaseSuccession(c: ChargeAttack, lowHealth: bool, x: real, y: real, p: PlayerView, roll: real)
    requires 0.0 <= roll < 1.0 && ChargeValid(c)
    ensures var d := ChargeNext(c, lowHealth, x, y, p, roll);
            match PhaseOf(c)
            case Idle => PhaseOf(d) == Idle || (PhaseOf(d) == Charging && d.chargeTime == 1)
            case Charging => PhaseOf(d) == Charging || PhaseOf(d) == Dashing
            case Dashing => PhaseOf(d) == Dashing || PhaseOf(d) == Waiting || PhaseOf(d) == Returning
            case Waiting => PhaseOf(d) == Waiting || PhaseOf(d) == Charging
            case Returning => PhaseOf(d) == Returning || PhaseOf(d) == Idle
  {
  }

  /** The cooldown only counts while the boss is below half health and idle, and the attack
      starts exactly when it reaches 300. */
  lemma CooldownRule(c: ChargeAttack, lowHealth: bool, x: real, y: real, p: PlayerView, roll: real)
    requires 0.0 <= roll < 1.0 && ChargeValid(c) && !c.active
    ensures var d := ChargeNext(c, lowHealth, x, y, p, roll);
            (d.active <==> lowHealth && c.cooldown + 1 >= MaxCooldown) &&
            (!d.active ==> d.cooldown == (if lowHealth then c.cooldown + 1 else c.cooldown)) &&
            (d.active ==> d.initialX == x && d.initialY == y && 2 <= d.totalCharges <= 4 &&
                          d.currentCharge == 0)
  {
  }

  /** Runs the active branch over a sequence of frames at fixed positions, stopping early
      once the attack is no longer active. */
  function RunBranch(c: ChargeAttack, x: real, y: real, p: PlayerView, n: nat): (d: ChargeAttack)
    decreases n
  {
    if n == 0 || !c.active then c else RunBranch(ChargeBranch(c, x, y, p), x, y, p, n - 1)
  }

  /** The charging phase lasts exactly 60 frames: from charging at `chargeTime` t, the boss is
      still charging after `k < 60 - t` frames (with chargeTime t + k) and dashing after
      `60 - t` frames, whatever the positions. */
  lemma {:induction false} ChargingLasts(c: ChargeAttack, x: real, y: real, p: PlayerView, k: nat)
    requires ChargeValid(c) && c.active && c.charging
    requires k <= MaxChargeTime - c.chargeTime
    ensures var d := RunBranch(c, x, y, p, k);
            (k < MaxChargeTime - c.chargeTime ==> d.charging && d.chargeTime == c.chargeTime + k) &&
            (k == MaxChargeTime - c.chargeTime ==> d.active && !d.charging && PhaseOf(d) == Dashing) &&
            d.currentCharge == c.currentCharge && d.totalCharges == c.totalCharges
    decreases k
  {
    if k > 0 {
      var next := ChargeBranch(c, x, y, p);
      if c.chargeTime + 1 < MaxChargeTime {
        ChargingLasts(next, x, y, p, k - 1);
      }
    }
  }

  /** Arriving home ends the whole attack: back at the start, idle, counters cleared. */
  lemma ReturnResets(c: ChargeAttack, x: real, y: real, p: PlayerView)
    requires ChargeValid(c) && PhaseOf(c) == Returning && AtHome(c, x, y)
    ensures var d := ChargeBranch(c, x, y, p);
            PhaseOf(d) == Idle && d.cooldown == 0 && d.currentCharge == 0 && d.totalCharges == 0 &&
            d.speed == 0.0 && ChargeValid(d)
  {
  }

  // ---------------------------------------------------------------------------------------
  // Normal movement.

  /** The movement state of the boss. */
  datatype Motion = Motion(pattern: MovePattern, timer: nat, x: real, y: real, direction: int)

  /** The side margins of hover and strafe. */
  function LeftEdge(): real { 20.0 }
  function RightEdge(canvasWidth: real): real { canvasWidth - BossWidth - 20.0 }

  /** The `switch (this.movePattern)` of `update`, applied after `moveTimer++`: entry sinks at
      0.5 per frame until y reaches 80, hover sways by `sin(moveTimer * 0.02) * 2` inside the
      margins, strafe sweeps 3 per frame and turns at the margins; hover gives way to strafe
      after 300 frames and strafe to hover after 200. */
  function Movement(s: Motion, canvasWidth: real, m: MathLib): (r: Motion)
    ensures s.pattern == Entry ==>
              r.y == s.y + 0.5 && r.x == s.x && r.direction == s.direction &&
              (r.y >= 80.0 ==> r.pattern == Hover && r.timer == 0) &&
              (r.y < 80.0 ==> r.pattern == Entry && r.timer == s.timer)
    ensures s.pattern == Hover ==>
              r.y == s.y && r.direction == s.direction &&
              (RightEdge(canvasWidth) >= LeftEdge() ==> LeftEdge() <= r.x <= RightEdge(canvasWidth)) &&
              (s.timer > 300 ==> r.pattern == Strafe && r.timer == 0) &&
              (s.timer <= 300 ==> r.pattern == Hover && r.timer == s.timer)
    ensures s.pattern == Strafe ==>
              r.y == s.y && r.x == s.x + (s.direction as real) * 3.0 &&
              (s.direction != 0 ==>
                 (r.direction == -s.direction <==> r.x <= LeftEdge() || r.x >= RightEdge(canvasWidth))) &&
              (s.timer > 200 ==> r.pattern == Hover && r.timer == 0) &&
              (s.timer <= 200 ==> r.pattern == Strafe && r.timer == s.timer)
    ensures r.pattern != Entry || s.pattern == Entry
    ensures (s.direction == 1 || s.direction == -1) ==> (r.direction == 1 || r.direction == -1)
  {
    match s.pattern
    case Entry =>
      var y := s.y + 0.5;
      if y >= 80.0 then s.(y := y, pattern := Hover, timer := 0) else s.(y := y)
    case Hover =>
      var swayed := s.x + m.sin(s.timer as real * 0.02) * 2.0;
      var a := if swayed < LeftEdge() then LeftEdge() else swayed;
      var x := if a > RightEdge(canvasWidth) then RightEdge(canvasWidth) else a;
      if s.timer > 300 then s.(x := x, pattern := Strafe, timer := 0) else s.(x := x)
    case Strafe =>
      var x := s.x + (s.direction as real) * 3.0;
      var dir := if x <= LeftEdge() || x >= RightEdge(canvasWidth) then -s.direction else s.direction;
      if s.timer > 200 then s.(x := x, direction := dir, pattern := Hover, timer := 0)
      else s.(x := x, direction := dir)
  }

  /** Once past entry, the boss never enters again. */
  lemma {:induction false} EntryNeverReturns(s: Motion, canvasWidth: real, m: MathLib, n: nat)
    requires s.pattern != Entry
    ensures MovementN(s, canvasWidth, m, n).pattern != Entry
  {
    if n > 0 {
      EntryNeverReturns(s, canvasWidth, m, n - 1);
    }
  }

  /** `n` frames of normal movement (with `moveTimer++` before each). */
  function MovementN(s: Motion, canvasWidth: real, m: MathLib, n: nat): Motion
  {
    if n == 0 then s
    else
      var prev := MovementN(s, canvasWidth, m, n - 1);
      Movement(prev.(timer := prev.timer + 1), canvasWidth, m)
  }

  /** Entry takes exactly as long as sinking to y = 80 at half a pixel per frame. */
  lemma {:induction false} EntrySinks(s: Motion, canvasWidth: real, m: MathLib, n: nat)
    requires s.pattern == Entry && s.y + (n as real) * 0.5 < 80.0
    ensures MovementN(s, canvasWidth, m, n).pattern == Entry
    ensures MovementN(s, canvasWidth, m, n).y == s.y + (n as real) * 0.5
  {
    if n > 0 {
      EntrySinks(s, canvasWidth, m, n - 1);
    }
  }

  // ---------------------------------------------------------------------------------------
  // Weapons.

  /** `weaponTypes[Math.floor(Math.random() * 4)]`. */
  function WeaponFromRoll(r: real): (w: BossWeapon)
    requires 0.0 <= r < 1.0
    ensures r < 0.25 <==> w == SpreadShot
    ensures 0.75 <= r <==> w == MissileShot
  {
    var i := (r * 4.0).Floor;
    if i <= 0 then SpreadShot else if i == 1 then LaserShot else if i == 2 then BombShot else MissileShot
  }

  /** The number of bullets each weapon fires at a boss difficulty `d` (at least 3, so the
      floors are the integer quotients). */
  function AttackCount(w: BossWeapon, d: nat): nat
  {
    match w
    case SpreadShot => MinInt(7, 3 + d / 2)
    case LaserShot => 1 + d / 3
    case BombShot => 1 + d / 4
    case MissileShot => 1 + d / 3
  }

  /** At the boss's minimum difficulty of 3 the spread already has 4 bullets (so its angle step
      never divides by zero), it reaches its cap of 7 at difficulty 8, and every weapon fires
      at least once. */
  lemma AttackCountBounds(w: BossWeapon, d: nat)
    requires d >= 3
    ensures 1 <= AttackCount(w, d)
    ensures w == SpreadShot ==> 4 <= AttackCount(w, d) <= 7 && (AttackCount(w, d) == 7 <==> d >= 8)
    ensures w == LaserShot || w == MissileShot ==> AttackCount(w, d) >= 2
    ensures d <= 10 ==> AttackCount(w, d) <= 7
  {
  }

  /** A harder boss never fires fewer bullets. */
  lemma AttackCountMonotone(w: BossWeapon, d1: nat, d2: nat)
    requires d1 <= d2
    ensures AttackCount(w, d1) <= AttackCount(w, d2)
  {
  }

  function Bonus(d: nat): real { d as real * 0.15 }

  function BossPayload(w: BossWeapon, damage: real, size: real): Payload
  {
    PlainPayload.(damage := damage, size := size, isBossWeapon := true, bossWeaponType := Some(w))
  }

  /** The angle of bullet `i` of an `n`-bullet spread: a 90-degree fan centred straight down. */
  function SpreadAngle(i: nat, n: nat, m: MathLib): real
  {
    var spread := m.pi / 2.0;
    m.pi / 2.0 - spread / 2.0 + SafeDiv(spread, (n - 1) as real) * i as real
  }

  /** The spread fan runs from a quarter turn to three quarters of a half turn, edge to edge. */
  lemma SpreadFanEdges(n: nat, m: MathLib)
    requires n >= 2
    ensures SpreadAngle(0, n, m) == m.pi / 4.0
    ensures SpreadAngle(n - 1, n, m) == 3.0 * m.pi / 4.0
  {
    var k := (n - 1) as real;
    assert SafeDiv(m.pi / 2.0, k) * k == m.pi / 2.0;
  }

  function SpreadBullet(i: nat, n: nat, cx: real, top: real, d: nat, ch: real, m: MathLib): Projectile
  {
    var speed := 6.0 + Bonus(d);
    var angle := SpreadAngle(i, n, m);
    NewBullet(cx, top, speed, false, ch).(speedX := m.cos(angle) * speed, speedY := m.sin(angle) * speed,
                                          payload := BossPayload(SpreadShot, 1.0 + Bonus(d), 6.0))
  }

  /** A laser from the boss centre aimed at the player's centre displaced by `(jitter - 0.5) * 100`. */
  function LaserBullet(cx: real, cy: real, d: nat, p: PlayerView, jitter: real, ch: real, m: MathLib): Projectile
  {
    var speed := 10.0 + Bonus(d);
    var dx := CenterX(p) + (jitter - 0.5) * 100.0 - cx;
    var dy := CenterY(p) - cy;
    var distance := Norm(m, dx, dy);
    NewBullet(cx, cy, speed, false, ch).(speedX := SafeDiv(dx, distance) * speed,
                                         speedY := SafeDiv(dy, distance) * speed,
                                         payload := BossPayload(LaserShot, 2.0 + Bonus(d), 8.0).(isLaser := true))
  }

  /** The horizontal offset `(i - n / 2) * spacing` of bomb and missile `i` of `n`. */
  function Offset(i: nat, n: nat, spacing: real): real
  {
    (i as real - n as real / 2.0) * spacing
  }

  function BombBullet(i: nat, n: nat, cx: real, top: real, d: nat, ch: real): Projectile
  {
    var speed := 5.0 + Bonus(d) * 0.5;
    NewBullet(cx + Offset(i, n, 30.0), top, speed, false, ch).(
      speedX := 0.0, speedY := speed,
      payload := BossPayload(BombShot, 1.0 + Bonus(d) * 0.5, 10.0).(
        isBomb := true, bombRadius := 120.0 + d as real * 5.0, bombDamage := 2.0 + Bonus(d)))
  }

  function MissileBullet(i: nat, n: nat, cx: real, top: real, d: nat, p: PlayerView, ch: real, m: MathLib): Projectile
  {
    var speed := 7.0 + Bonus(d);
    var x := cx + Offset(i, n, 40.0);
    var dx := CenterX(p) - x;
    var dy := CenterY(p) - top;
    var distance := Norm(m, dx, dy);
    NewBullet(x, top, speed, false, ch).(
      speedX := SafeDiv(dx, distance) * speed, speedY := SafeDiv(dy, distance) * speed,
      homing := Homing(true, 0.08 + d as real * 0.005, ThePlayer),
      payload := BossPayload(MissileShot, 1.5 + Bonus(d), 9.0).(isMissile := true))
  }

  /** Bullet `i` of a volley of weapon `w`, for a boss whose box starts at (bx, by); a laser
      uses the jitter draw `jitter`. */
  function VolleyBullet(w: BossWeapon, i: nat, n: nat, bx: real, by0: real, d: nat, p: PlayerView,
                        jitter: real, ch: real, m: MathLib): (b: Projectile)
    ensures !b.isPlayerBullet && b.active && b.payload.isBossWeapon && b.payload.bossWeaponType == Some(w)
    ensures w == BombShot ==> b.payload.isBomb && b.x == bx + BossWidth / 2.0 + Offset(i, n, 30.0)
    ensures w == LaserShot ==> b.payload.isLaser
    ensures w == MissileShot ==> b.homing.isHoming && b.homing.target == ThePlayer
  {
    var cx := bx + BossWidth / 2.0;
    match w
    case SpreadShot => SpreadBullet(i, n, cx, by0 + BossHeight, d, ch, m)
    case LaserShot => LaserBullet(cx, by0 + BossHeight / 2.0, d, p, jitter, ch, m)
    case BombShot => BombBullet(i, n, cx, by0 + BossHeight, d, ch)
    case MissileShot => MissileBullet(i, n, cx, by0 + BossHeight, d, p, ch, m)
  }

  /** The first `k` bullets of an `n`-bullet volley; laser `i` takes the jitter draw
      `draws(from + i)`. */
  function Volley(w: BossWeapon, n: nat, k: nat, bx: real, by0: real, d: nat, p: PlayerView,
                  draws: nat -> real, from: nat, ch: real, m: MathLib): seq<Projectile>
    decreases k
  {
    if k == 0 then []
    else Volley(w, n, k - 1, bx, by0, d, p, draws, from, ch, m) +
         [VolleyBullet(w, k - 1, n, bx, by0, d, p, if w == LaserShot then draws(from + k - 1) else 0.0, ch, m)]
  }

  /** The `for` loop of one volley: the `n` bullets of weapon `w`, drawing a jitter for each
      laser. */
  method VolleyShots(w: BossWeapon, n: nat, bx: real, by0: real, level: nat, p: PlayerView, rng: Random,
                     bottom: real, m: MathLib) returns (fired: seq<Projectile>)
    requires rng.Valid()
    modifies rng
    ensures rng.Valid() && rng.next == old(rng.next) + (if w == LaserShot then n else 0)
    ensures fired == Volley(w, n, n, bx, by0, level, p, rng.source, old(rng.next), bottom, m)
  {
    ghost var start := rng.next;
    fired := [];
    var i := 0;
    while i < n
      invariant 0 <= i <= n && rng.Valid()
      invariant fired == Volley(w, n, i, bx, by0, level, p, rng.source, start, bottom, m)
      invariant rng.next == start + (if w == LaserShot then i else 0)
    {
      VolleyNext(w, n, i, bx, by0, level, p, rng.source, start, bottom, m);
      var jitter := 0.0;
      if w == LaserShot {
        jitter := rng.Draw();
      }
      fired := fired + [VolleyBullet(w, i, n, bx, by0, level, p, jitter, bottom, m)];
      i := i + 1;
    }
  }

  /** One more shot of a volley is the next bullet after the earlier ones. */
  lemma VolleyNext(w: BossWeapon, n: nat, k: nat, bx: real, by0: real, d: nat, p: PlayerView,
                   draws: nat -> real, from: nat, ch: real, m: MathLib)
    ensures Volley(w, n, k + 1, bx, by0, d, p, draws, from, ch, m) ==
            Volley(w, n, k, bx, by0, d, p, draws, from, ch, m) +
            [VolleyBullet(w, k, n, bx, by0, d, p, if w == LaserShot then draws(from + k) else 0.0, ch, m)]
  {
  }

  /** A volley has one bullet per shot, all of them enemy bullets of the drawn weapon that
      start active; the bombs and missiles carry their flags. */
  lemma {:induction false} VolleyShape(w: BossWeapon, n: nat, k: nat, bx: real, by0: real, d: nat,
                                       p: PlayerView, draws: nat -> real, from: nat, ch: real, m: MathLib)
    ensures var v := Volley(w, n, k, bx, by0, d, p, draws, from, ch, m);
            |v| == k &&
            forall i :: 0 <= i < |v| ==>
              !v[i].isPlayerBullet && v[i].active && v[i].payload.isBossWeapon &&
              v[i].payload.bossWeaponType == Some(w) &&
              (w == BombShot ==> v[i].payload.isBomb) && (w == LaserShot ==> v[i].payload.isLaser) &&
              (w == MissileShot ==> v[i].homing.isHoming && v[i].homing.target == ThePlayer)
    decreases k
  {
    if k > 0 {
      VolleyShape(w, n, k - 1, bx, by0, d, p, draws, from, ch, m);
    }
  }

  /** The bomb row is not centred on the boss: its offsets run from `-n/2 * 30` up to
      `(n/2 - 1) * 30`, so a single bomb lands 15 pixels left of the centre. */
  lemma BombRowOffsets(n: nat)
    requires n >= 1
    ensures Offset(0, n, 30.0) == -(n as real) * 15.0
    ensures Offset(n - 1, n, 30.0) == (n as real) * 15.0 - 30.0
    ensures n == 1 ==> Offset(0, 1, 30.0) == -15.0
  {
  }

  /** A moved boss bullet stays while active and within 50 pixels above or below the field. */
  predicate Retained(b: Projectile, canvasHeight: real)
  {
    b.active && b.y < canvasHeight + 50.0 && b.y > -50.0
  }

  /** The boss bullet filter: move, then keep the active ones within 50 pixels of the field. */
  function AdvanceBossBullets(bs: seq<Projectile>, canvasHeight: real): (r: seq<Projectile>)
    ensures |r| <= |bs|
    ensures forall i :: 0 <= i < |r| ==> r[i].active && -50.0 < r[i].y < canvasHeight + 50.0
    ensures (forall i :: 0 <= i < |bs| ==> !bs[i].isPlayerBullet) ==>
              forall i :: 0 <= i < |r| ==> !r[i].isPlayerBullet
    decreases |bs|
  {
    if bs == [] then []
    else
      var b := Move(bs[0]);
      var rest := AdvanceBossBullets(bs[1..], canvasHeight);
      if Retained(b, canvasHeight) then [b] + rest else rest
  }

  /** The boss bullet filter keeps exactly the moved bullets that are active and near the
      field, in their order. */
  lemma {:induction false} AdvanceBossBulletsIsFilter(bs: seq<Projectile>, canvasHeight: real)
    ensures AdvanceBossBullets(bs, canvasHeight) == Filter(Map(bs, Move), b => Retained(b, canvasHeight))
    decreases |bs|
  {
    if bs != [] {
      FilterMapFirst(bs, Move, b => Retained(b, canvasHeight));
      AdvanceBossBulletsIsFilter(bs[1..], canvasHeight);
    }
  }

  // ---------------------------------------------------------------------------------------
  // One frame of the boss, on values.

  /** Where one frame of an active charge attack leaves the boss, for the two jitter draws
      `jx` and `jy`: trembling by up to 3 on each axis while charging; heading home at speed 4
      while returning, or snapping onto the start and resuming the hover once within 5;
      dashing at the target at the dash speed while more than 10 away; otherwise in place. */
  function ChargeMotion(c: ChargeAttack, s: Motion, jx: real, jy: real, m: MathLib): (r: Motion)
    ensures r.direction == s.direction
    ensures !(PhaseOf(c) == Returning && AtHome(c, s.x, s.y)) ==> r.pattern == s.pattern && r.timer == s.timer
    ensures PhaseOf(c) == Returning && AtHome(c, s.x, s.y) ==>
              r == Motion(Hover, 0, c.initialX, c.initialY, s.direction)
    ensures PhaseOf(c) == Dashing && AtTarget(c, s.x, s.y) ==> r == s
    ensures PhaseOf(c) != Charging && PhaseOf(c) != Returning && PhaseOf(c) != Dashing ==> r == s
  {
    match PhaseOf(c)
    case Charging => s.(x := s.x + (jx - 0.5) * 6.0, y := s.y + (jy - 0.5) * 6.0)
    case Returning =>
      if AtHome(c, s.x, s.y) then s.(x := c.initialX, y := c.initialY, pattern := Hover, timer := 0)
      else
        Toward(s, c.initialX - s.x, c.initialY - s.y, ReturnSpeed, m)
    case Dashing =>
      if AtTarget(c, s.x, s.y) then s
      else
        Toward(s, c.targetX - (s.x + BossWidth / 2.0), c.targetY - (s.y + BossHeight / 2.0), c.speed, m)
    case _ => s
  }

  /** `s` moved by `speed` along the unit vector of `(dx, dy)`, other fields kept. */
  function Toward(s: Motion, dx: real, dy: real, speed: real, m: MathLib): Motion
  {
    s.(x := s.x + SafeDiv(dx, Norm(m, dx, dy)) * speed, y := s.y + SafeDiv(dy, Norm(m, dx, dy)) * speed)
  }

  /** A step of `speed` along the unit vector toward a point more than `r` away has length
      exactly `speed`, under a true square root. */
  lemma UnitStep(dx: real, dy: real, r: real, speed: real, m: MathLib)
    requires SoundSqrt(m) && r >= 0.0 && Beyond(dx, dy, r)
    ensures var ex := SafeDiv(dx, Norm(m, dx, dy)) * speed;
            var ey := SafeDiv(dy, Norm(m, dx, dy)) * speed;
            ex * ex + ey * ey == speed * speed
  {
    NormSquared(m, dx, dy);
    assert Norm(m, dx, dy) > 0.0;
    ScaleSquares(dx, dy, Norm(m, dx, dy), speed);
  }

  /** The squared length of the step from `s` to `r`. */
  function StepSq(s: Motion, r: Motion): real
  {
    (r.x - s.x) * (r.x - s.x) + (r.y - s.y) * (r.y - s.y)
  }

  /** A frame that moves the boss by `speed` along the unit vector of a `(dx, dy)` longer
      than `radius` moves it by exactly `speed`, under a true square root. */
  lemma StepLength(s: Motion, r: Motion, dx: real, dy: real, radius: real, speed: real, m: MathLib)
    requires SoundSqrt(m) && radius >= 0.0 && Beyond(dx, dy, radius)
    requires r == Toward(s, dx, dy, speed, m)
    ensures StepSq(s, r) == speed * speed
  {
    UnitStep(dx, dy, radius, speed, m);
    var ex := SafeDiv(dx, Norm(m, dx, dy)) * speed;
    var ey := SafeDiv(dy, Norm(m, dx, dy)) * speed;
    assert r.x - s.x == ex && r.y - s.y == ey;
  }

  /** Away from home, the return moves the boss by exactly the homeward speed 4. */
  lemma ReturnStepLength(c: ChargeAttack, s: Motion, jx: real, jy: real, m: MathLib)
    requires SoundSqrt(m) && PhaseOf(c) == Returning && !AtHome(c, s.x, s.y)
    ensures StepSq(s, ChargeMotion(c, s, jx, jy, m)) == ReturnSpeed * ReturnSpeed
  {
    StepLength(s, ChargeMotion(c, s, jx, jy, m), c.initialX - s.x, c.initialY - s.y, 5.0, ReturnSpeed, m);
  }

  /** Away from its target, the dash moves the boss by exactly the dash speed. */
  lemma DashStepLength(c: ChargeAttack, s: Motion, jx: real, jy: real, m: MathLib)
    requires SoundSqrt(m) && PhaseOf(c) == Dashing && !AtTarget(c, s.x, s.y)
    ensures StepSq(s, ChargeMotion(c, s, jx, jy, m)) == c.speed * c.speed
  {
    var dx := c.targetX - (s.x + BossWidth / 2.0);
    var dy := c.targetY - (s.y + BossHeight / 2.0);
    StepLength(s, ChargeMotion(c, s, jx, jy, m), dx, dy, 10.0, c.speed, m);
  }

  /** While charging, the boss trembles by less than 3 on each axis. */
  lemma TrembleStep(c: ChargeAttack, s: Motion, jx: real, jy: real, m: MathLib)
    requires PhaseOf(c) == Charging && 0.0 <= jx < 1.0 && 0.0 <= jy < 1.0
    ensures var r := ChargeMotion(c, s, jx, jy, m);
            -3.0 <= r.x - s.x < 3.0 && -3.0 <= r.y - s.y < 3.0
  {
    var r := ChargeMotion(c, s, jx, jy, m);
    assert r.x == s.x + (jx - 0.5) * 6.0 && r.y == s.y + (jy - 0.5) * 6.0;
  }

  /** Snapping home moves the boss by at most 5. */
  lemma HomeStep(c: ChargeAttack, s: Motion, jx: real, jy: real, m: MathLib)
    requires PhaseOf(c) == Returning && AtHome(c, s.x, s.y)
    ensures StepSq(s, ChargeMotion(c, s, jx, jy, m)) <= 25.0
  {
    var r := ChargeMotion(c, s, jx, jy, m);
    assert r.x == c.initialX && r.y == c.initialY;
  }

  /** The manoeuvre part of `update` from the motion `s` (after `moveTimer++`), with the
      draws read from `from` on: the cooldown part, then the charge attack's motion if that
      leaves an attack active, the normal movement otherwise. The second component is the
      next unread draw: one more when the attack starts, two more while charging. */
  function Manoeuvred(c: ChargeAttack, lowHealth: bool, s: Motion, p: PlayerView, draws: nat -> real,
                      from: nat, canvasWidth: real, m: MathLib): (r: (Motion, nat))
    requires 0.0 <= draws(from) < 1.0
    ensures r.1 >= from
  {
    var c1 := CooldownStep(c, lowHealth, s.x, s.y, p, draws(from));
    var k := from + (if c1.active && !c.active then 1 else 0);
    if c1.active then (ChargeMotion(c1, s, draws(k), draws(k + 1), m), k + (if c1.charging then 2 else 0))
    else (Movement(s, canvasWidth, m), k)
  }

  /** A boss that is not below half health and not attacking moves normally and reads no
      draw; a boss in the middle of an attack never takes the normal movement. */
  lemma ManoeuvreModes(c: ChargeAttack, lowHealth: bool, s: Motion, p: PlayerView, draws: nat -> real,
                       from: nat, canvasWidth: real, m: MathLib)
    requires 0.0 <= draws(from) < 1.0
    ensures !c.active && !lowHealth ==> Manoeuvred(c, lowHealth, s, p, draws, from, canvasWidth, m) ==
                                        (Movement(s, canvasWidth, m), from)
    ensures c.active ==> Manoeuvred(c, lowHealth, s, p, draws, from, canvasWidth, m) ==
                         (ChargeMotion(c, s, draws(from), draws(from + 1), m), from + (if c.charging then 2 else 0))
  {
  }

  /** The bullets of the regular attack at the tail of `update`: none unless it is `due`;
      otherwise one weapon draw at `from` and that weapon's volley from the boss at (x, y).
      The second component is the next unread draw. */
  function SalvoShots(due: bool, x: real, y: real, d: nat, p: PlayerView, draws: nat -> real, from: nat,
                      ch: real, m: MathLib): (r: (seq<Projectile>, nat))
    requires 0.0 <= draws(from) < 1.0
    ensures !due ==> r == ([], from)
    ensures due ==> var w := WeaponFromRoll(draws(from));
                    |r.0| == AttackCount(w, d) && r.1 == from + 1 + (if w == LaserShot then |r.0| else 0)
  {
    if !due then ([], from)
    else
      var w := WeaponFromRoll(draws(from));
      var n := AttackCount(w, d);
      VolleyShape(w, n, n, x, y, d, p, draws, from + 1, ch, m);
      (Volley(w, n, n, x, y, d, p, draws, from + 1, ch, m), from + 1 + (if w == LaserShot then n else 0))
  }

  /** The motion part of the active branch of `update` on the motion `s0`: trembling by two
      draws while charging, heading home at speed 4 while returning (snapping onto the start
      and resuming the hover when within 5), and dashing at the target while more than 10
      away. */
  method ChargeMotionStep(c: ChargeAttack, s0: Motion, rng: Random, m: MathLib) returns (s: Motion)
    requires rng.Valid() && c.active && ChargeValid(c)
    modifies rng
    ensures s == ChargeMotion(c, s0, rng.source(old(rng.next)), rng.source(old(rng.next) + 1), m)
    ensures rng.next == old(rng.next) + (if c.charging then 2 else 0)
  {
    s := s0;
    if c.charging {
      var jx := rng.Draw();
      var jy := rng.Draw();
      s := s.(x := s.x + (jx - 0.5) * 6.0, y := s.y + (jy - 0.5) * 6.0);
    } else if c.returning {
      var dx := c.initialX - s.x;
      var dy := c.initialY - s.y;
      if Beyond(dx, dy, 5.0) {
        var distance := Norm(m, dx, dy);
        s := s.(x := s.x + SafeDiv(dx, distance) * ReturnSpeed, y := s.y + SafeDiv(dy, distance) * ReturnSpeed);
      } else {
        s := s.(x := c.initialX, y := c.initialY, pattern := Hover, timer := 0);
      }
    } else if c.currentCharge < c.totalCharges && c.waitTime == 0 {
      var dx := c.targetX - (s.x + BossWidth / 2.0);
      var dy := c.targetY - (s.y + BossHeight / 2.0);
      if Beyond(dx, dy, 10.0) {
        var distance := Norm(m, dx, dy);
        s := s.(x := s.x + SafeDiv(dx, distance) * c.speed, y := s.y + SafeDiv(dy, distance) * c.speed);
      }
    }
  }

  // ---------------------------------------------------------------------------------------
  // The boss object.

  class Boss {
    const width: real
    const height: real
    const speed: real
    const canvasWidth: real
    const canvasHeight: real
    const difficulty: nat
    const maxHealth: real
    const score: int
    const targetY: real
    const attackCooldown: nat
    const hitFlashDuration: nat

    var x: real
    var y: real
    var health: real
    var movePattern: MovePattern
    var moveTimer: nat
    var moveDirection: int
    var charge: ChargeAttack
    var attackTimer: nat
    var attackPhase: nat
    var bullets: seq<Projectile>
    var hitFlash: nat

    ghost predicate Valid()
      reads this
    {
      width == BossWidth && height == BossHeight && speed == 0.5 && difficulty >= 3 &&
      maxHealth == 150.0 + (difficulty as real) * 80.0 && attackCooldown == 45 &&
      hitFlashDuration == 10 && targetY == 80.0 &&
      ChargeValid(charge) && (moveDirection == 1 || moveDirection == -1) &&
      hitFlash <= hitFlashDuration &&
      forall i :: 0 <= i < |bullets| ==> !bullets[i].isPlayerBullet
    }

    /** `new Boss(canvas, d)`: centred above the top edge, at least difficulty 3, with
        150 + 80 * difficulty health and a 5000 * difficulty reward. */
    constructor (canvasWidth: real, canvasHeight: real, d: int)
      ensures Valid()
      ensures difficulty == MaxInt(3, d) && maxHealth == 150.0 + (difficulty as real) * 80.0
      ensures health == maxHealth && score == 5000 * difficulty
      ensures x == canvasWidth / 2.0 - 90.0 && y == -150.0 && speed == 0.5
      ensures this.canvasWidth == canvasWidth && this.canvasHeight == canvasHeight
      ensures movePattern == Entry && moveTimer == 0 && moveDirection == 1
      ensures charge == IdleCharge && attackTimer == 0 && attackPhase == 0
      ensures bullets == [] && hitFlash == 0
    {
      width := BossWidth;
      height := BossHeight;
      x := canvasWidth / 2.0 - BossWidth / 2.0;
      y := -BossHeight;
      speed := 0.5;
      this.canvasWidth := canvasWidth;
      this.canvasHeight := canvasHeight;
      var level := MaxInt(3, d);
      difficulty := level;
      maxHealth := 150.0 + (level as real) * 80.0;
      health := 150.0 + (level as real) * 80.0;
      score := 5000 * level;
      movePattern := Entry;
      moveTimer := 0;
      targetY := 80.0;
      moveDirection := 1;
      charge := IdleCharge;
      attackTimer := 0;
      attackCooldown := 45;
      attackPhase := 0;
      bullets := [];
      hitFlash := 0;
      hitFlashDuration := 10;
    }

    predicate LowHealth()
      reads this
    {
      maxHealth != 0.0 && health / maxHealth < 0.5
    }

    /** `hit(damage)`: lose exactly `damage`, flash for 10 frames, report defeat at zero. */
    method Hit(damage: real) returns (defeated: bool)
      requires Valid()
      modifies this`health, this`hitFlash
      ensures Valid()
      ensures health == old(health) - damage && hitFlash == hitFlashDuration
      ensures defeated <==> health <= 0.0
    {
      health := health - damage;
      hitFlash := hitFlashDuration;
      defeated := health <= 0.0;
    }

    /** `isOffScreen(canvas)`: more than 75 pixels below the bottom edge. */
    predicate IsOffScreen()
      reads this
    {
      y > canvasHeight + 75.0
    }

    /** `initiateChargeAttack(player)`: nothing without a player, otherwise `Initiate` with
        one draw. */
    method InitiateChargeAttack(player: Option<PlayerView>, rng: Random)
      requires rng.Valid()
      modifies this`charge, rng
      ensures player.None? ==> charge == old(charge) && rng.next == old(rng.next)
      ensures player.Some? ==>
                rng.next == old(rng.next) + 1 &&
                charge == Initiate(old(charge), x, y, player.value, rng.source(old(rng.next)))
    {
      if player.None? {
        return;
      }
      var p := player.value;
      var c := charge.(initialX := x, initialY := y);
      var roll := rng.Draw();
      c := c.(totalCharges := 2 + (roll * 3.0).Floor, currentCharge := 0);
      c := c.(active := true, charging := true, returning := false, chargeTime := 0, waitTime := 0);
      c := c.(targetX := CenterX(p), targetY := CenterY(p), speed := 2.0);
      c := c.(damage := (p.maxHealth as real / 3.0).Floor);
      charge := c;
    }

    /** The cooldown part of `update`. */
    method CheckCooldown(p: PlayerView, rng: Random)
      requires Valid() && rng.Valid()
      modifies this`charge, rng
      ensures Valid()
      ensures charge == CooldownStep(old(charge), LowHealth(), x, y, p, rng.source(old(rng.next)))
      ensures rng.next == old(rng.next) + (if charge.active && !old(charge.active) then 1 else 0)
    {
      ghost var roll := rng.source(rng.next);
      if LowHealth() && !charge.active {
        charge := charge.(cooldown := charge.cooldown + 1);
        if charge.cooldown >= MaxCooldown {
          InitiateChargeAttack(Some(p), rng);
        }
      }
    }

    /** The motion part of the active branch of `update`: trembling by two draws while
        charging, heading home at speed 4 while returning (snapping onto the start and
        resuming the hover when within 5), and dashing at the target while more than 10
        away. */
    method ChargeMove(rng: Random, m: MathLib)
      requires Valid() && rng.Valid() && charge.active
      modifies this`x, this`y, this`movePattern, this`moveTimer, rng
      ensures Valid()
      ensures MotionOf() == ChargeMotion(charge, old(MotionOf()), rng.source(old(rng.next)),
                                         rng.source(old(rng.next) + 1), m)
      ensures rng.next == old(rng.next) + (if charge.charging then 2 else 0)
    {
      var s := ChargeMotionStep(charge, MotionOf(), rng, m);
      x, y, movePattern, moveTimer := s.x, s.y, s.pattern, s.timer;
    }

    /** The flag and counter part of the active branch of `update`, for a boss that stood at
        (x0, y0) when the branch began. */
    method ChargeFlags(x0: real, y0: real, p: PlayerView)
      requires Valid() && charge.active
      modifies this`charge
      ensures Valid()
      ensures charge == ChargeBranch(old(charge), x0, y0, p)
    {
      var c := charge;
      if c.charging {
        c := c.(chargeTime := c.chargeTime + 1);
        if c.chargeTime >= MaxChargeTime {
          c := c.(charging := false, chargeTime := 0);
        }
      } else if c.returning {
        if !Beyond(c.initialX - x0, c.initialY - y0, 5.0) {
          c := c.(active := false, returning := false, speed := 0.0, cooldown := 0);
          c := c.(currentCharge := 0, totalCharges := 0);
        }
      } else if !c.returning && c.currentCharge < c.totalCharges {
        if c.waitTime > 0 && c.waitTime < WaitDuration {
          c := c.(waitTime := c.waitTime + 1);
        } else if c.waitTime >= WaitDuration {
          c := c.(charging := true, chargeTime := 0, targetX := CenterX(p), targetY := CenterY(p));
          c := c.(waitTime := 0);
        } else if Beyond(c.targetX - (x0 + width / 2.0), c.targetY - (y0 + height / 2.0), 10.0) {
          c := c.(speed := MinReal(MaxChargeSpeed, c.speed + 0.5));
        } else {
          c := c.(speed := 0.0, currentCharge := c.currentCharge + 1);
          if c.currentCharge < c.totalCharges {
            c := c.(waitTime := 1);
          } else {
            c := c.(returning := true);
          }
        }
      }
      charge := c;
    }

    /** The active branch of `update` (boss.js:93-164). Every test of the branch reads the
        position the boss had when the branch began, so the motion and the flags are
        computed one after the other. */
    method StepCharge(p: PlayerView, rng: Random, m: MathLib)
      requires Valid() && rng.Valid() && charge.active
      modifies this`charge, this`x, this`y, this`movePattern, this`moveTimer, rng
      ensures Valid()
      ensures charge == ChargeBranch(old(charge), old(x), old(y), p)
      ensures MotionOf() == ChargeMotion(old(charge), old(MotionOf()), rng.source(old(rng.next)),
                                         rng.source(old(rng.next) + 1), m)
      ensures rng.next == old(rng.next) + (if old(charge.charging) then 2 else 0)
    {
      var x0, y0 := x, y;
      ChargeMove(rng, m);
      ChargeFlags(x0, y0, p);
    }

    function MotionOf(): Motion
      reads this
    {
      Motion(movePattern, moveTimer, x, y, moveDirection)
    }

    /** The normal-movement branch of `update`. */
    method StepMovement(m: MathLib)
      requires Valid()
      modifies this`x, this`y, this`movePattern, this`moveTimer, this`moveDirection
      ensures Valid()
      ensures MotionOf() == Movement(old(MotionOf()), canvasWidth, m)
    {
      match movePattern {
        case Entry =>
          y := y + speed;
          if y >= targetY {
            movePattern := Hover;
            moveTimer := 0;
          }
        case Hover =>
          x := x + m.sin(moveTimer as real * 0.02) * 2.0;
          if x < 20.0 {
            x := 20.0;
          }
          if x > canvasWidth - width - 20.0 {
            x := canvasWidth - width - 20.0;
          }
          if moveTimer > 300 {
            movePattern := Strafe;
            moveTimer := 0;
          }
        case Strafe =>
          x := x + (moveDirection as real) * 3.0;
          if x <= 20.0 || x >= canvasWidth - width - 20.0 {
            moveDirection := -moveDirection;
          }
          if moveTimer > 200 {
            movePattern := Hover;
            moveTimer := 0;
          }
      }
    }

    /** One volley of `n` bullets of weapon `w`, appended to the boss's bullets. */
    method FireVolley(w: BossWeapon, n: nat, p: PlayerView, rng: Random, m: MathLib)
      requires rng.Valid()
      modifies this`bullets, rng
      ensures rng.next == old(rng.next) + (if w == LaserShot then n else 0)
      ensures bullets == old(bullets) + Volley(w, n, n, x, y, difficulty, p, rng.source, old(rng.next), canvasHeight, m)
    {
      var fired := VolleyShots(w, n, x, y, difficulty, p, rng, canvasHeight, m);
      bullets := bullets + fired;
    }

    /** `attack(player)`: nothing without a player; otherwise draw a weapon, append its volley
        and count the attack. */
    method Attack(player: Option<PlayerView>, rng: Random, m: MathLib)
      requires Valid() && rng.Valid()
      modifies this`bullets, this`attackPhase, rng
      ensures Valid()
      ensures player.None? ==>
                bullets == old(bullets) && attackPhase == old(attackPhase) && rng.next == old(rng.next)
      ensures player.Some? ==>
                var w := WeaponFromRoll(rng.source(old(rng.next)));
                var n := AttackCount(w, difficulty);
                attackPhase == old(attackPhase) + 1 &&
                rng.next == old(rng.next) + 1 + (if w == LaserShot then n else 0) &&
                bullets == old(bullets) + Volley(w, n, n, x, y, difficulty, player.value, rng.source,
                                                 old(rng.next) + 1, canvasHeight, m)
    {
      if player.None? {
        return;
      }
      var roll := rng.Draw();
      var w := WeaponFromRoll(roll);
      var n := AttackCount(w, difficulty);
      VolleyShape(w, n, n, x, y, difficulty, player.value, rng.source, rng.next, canvasHeight, m);
      FireVolley(w, n, player.value, rng, m);
      attackPhase := attackPhase + 1;
    }

    /** The cooldown part followed by either the active branch or the normal movement (the
        branch is chosen once, after the cooldown part). */
    method Manoeuvre(p: PlayerView, rng: Random, m: MathLib)
      requires Valid() && rng.Valid()
      modifies this`charge, this`x, this`y, this`movePattern, this`moveTimer, this`moveDirection, rng
      ensures Valid()
      ensures charge == ChargeNext(old(charge), LowHealth(), old(x), old(y), p, rng.source(old(rng.next)))
      ensures (MotionOf(), rng.next) ==
              Manoeuvred(old(charge), LowHealth(), old(MotionOf()), p, rng.source, old(rng.next), canvasWidth, m)
    {
      ghost var c0, s0, k0 := charge, MotionOf(), rng.next;
      CheckCooldown(p, rng);
      assert MotionOf() == s0 && charge == CooldownStep(c0, LowHealth(), s0.x, s0.y, p, rng.source(k0));
      if charge.active {
        StepCharge(p, rng, m);
      } else {
        StepMovement(m);
      }
    }

    /** The counters at the head of `update`: the movement and attack timers advance and the
        hit flash fades by one frame. */
    method Countdown()
      requires Valid()
      modifies this`moveTimer, this`attackTimer, this`hitFlash
      ensures Valid()
      ensures moveTimer == old(moveTimer) + 1 && attackTimer == old(attackTimer) + 1
      ensures hitFlash == if old(hitFlash) > 0 then old(hitFlash) - 1 else 0
    {
      moveTimer := moveTimer + 1;
      attackTimer := attackTimer + 1;
      if hitFlash > 0 {
        hitFlash := hitFlash - 1;
      }
    }

    /** The tail of `update`: the regular attack when idle and the cooldown has run out (the
        timer restarts), then the bullet filter. */
    method Salvo(p: PlayerView, rng: Random, m: MathLib)
      requires Valid() && rng.Valid()
      modifies this`attackTimer, this`bullets, this`attackPhase, rng
      ensures Valid()
      ensures charge.active || old(attackTimer) < attackCooldown ==>
                attackTimer == old(attackTimer) && attackPhase == old(attackPhase)
      ensures !charge.active && old(attackTimer) >= attackCooldown ==>
                attackTimer == 0 && attackPhase == old(attackPhase) + 1
      ensures var shots := SalvoShots(!charge.active && old(attackTimer) >= attackCooldown, x, y, difficulty, p,
                                      rng.source, old(rng.next), canvasHeight, m);
              bullets == AdvanceBossBullets(old(bullets) + shots.0, canvasHeight) && rng.next == shots.1
    {
      ghost var shots := SalvoShots(!charge.active && attackTimer >= attackCooldown, x, y, difficulty, p,
                                    rng.source, rng.next, canvasHeight, m);
      if !charge.active && attackTimer >= attackCooldown {
        Attack(Some(p), rng, m);
        attackTimer := 0;
      }
      assert bullets == old(bullets) + shots.0 && rng.next == shots.1;
      bullets := AdvanceBossBullets(bullets, canvasHeight);
    }

    /** The head of `update`: the counters, then the cooldown check and the motion. */
    method Travel(p: PlayerView, rng: Random, m: MathLib)
      requires Valid() && rng.Valid()
      modifies this`charge, this`x, this`y, this`movePattern, this`moveTimer, this`moveDirection, rng
      modifies this`attackTimer, this`hitFlash
      ensures Valid()
      ensures charge == ChargeNext(old(charge), LowHealth(), old(x), old(y), p, rng.source(old(rng.next)))
      ensures hitFlash == if old(hitFlash) > 0 then old(hitFlash) - 1 else 0
      ensures attackTimer == old(attackTimer) + 1
      ensures (MotionOf(), rng.next) ==
              Manoeuvred(old(charge), LowHealth(), old(MotionOf()).(timer := old(moveTimer) + 1), p,
                         rng.source, old(rng.next), canvasWidth, m)
    {
      Countdown();
      Manoeuvre(p, rng, m);
    }

    /** `update(canvas, player)`: the counters, the charge attack or the normal movement, the
        regular attack when idle and due, and the bullet filter. */
    method Update(p: PlayerView, rng: Random, m: MathLib)
      requires Valid() && rng.Valid()
      modifies this`charge, this`x, this`y, this`movePattern, this`moveTimer, this`moveDirection, rng
      modifies this`attackTimer, this`hitFlash, this`bullets, this`attackPhase
      ensures Valid()
      ensures charge == ChargeNext(old(charge), LowHealth(), old(x), old(y), p, rng.source(old(rng.next)))
      ensures hitFlash == if old(hitFlash) > 0 then old(hitFlash) - 1 else 0
      ensures charge.active ==> attackTimer == old(attackTimer) + 1 && attackPhase == old(attackPhase)
      ensures !charge.active && old(attackTimer) + 1 >= attackCooldown ==>
                attackTimer == 0 && attackPhase == old(attackPhase) + 1
      ensures !charge.active && old(attackTimer) + 1 < attackCooldown ==>
                attackTimer == old(attackTimer) + 1 && attackPhase == old(attackPhase)
      ensures var moved := Manoeuvred(old(charge), LowHealth(), old(MotionOf()).(timer := old(moveTimer) + 1), p,
                                      rng.source, old(rng.next), canvasWidth, m);
              var shots := SalvoShots(!charge.active && old(attackTimer) + 1 >= attackCooldown, x, y, difficulty, p,
                                      rng.source, moved.1, canvasHeight, m);
              MotionOf() == moved.0 &&
              bullets == AdvanceBossBullets(old(bullets) + shots.0, canvasHeight) && rng.next == shots.1
    {
      Travel(p, rng, m);
      ghost var s1 := MotionOf();
      Salvo(p, rng, m);
      assert MotionOf() == s1;
    }
  }
}
