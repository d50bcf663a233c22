/** Enemy fighters (enemy.js): the four aircraft types, the difficulty scaling of their stats,
    the per-frame movement patterns with the lateral clamp, the random fire gate, the shot,
    the one-point hit, the off-screen rules and the wing colour computation. */
module Enemies {
  import opened Common
  import opened Bullets

  datatype EnemyKind = Zero | Messerschmitt | Spitfire | Stuka

  datatype Pattern = Zigzag | Dive | Circle | Slow

  /** A row of `ENEMY_TYPES`. */
  datatype EnemyType = EnemyType(name: string, color: string, width: real, height: real,
                                 speed: real, health: int, score: int, shootChance: real,
                                 pattern: Pattern)

  /** The type table, in declaration order. */
  const EnemyKinds: seq<EnemyKind> := [Zero, Messerschmitt, Spitfire, Stuka]

  function TypeOf(k: EnemyKind): EnemyType
  {
    match k
    case Zero => EnemyType("零式战斗机", "#8B0000", 35.0, 45.0, 1.5, 1, 100, 0.02, Zigzag)
    case Messerschmitt => EnemyType("Me-109", "#2F4F2F", 40.0, 50.0, 2.0, 2, 200, 0.03, Dive)
    case Spitfire => EnemyType("喷火战斗机", "#4B0082", 38.0, 48.0, 2.5, 2, 250, 0.025, Circle)
    case Stuka => EnemyType("Ju-87俯冲轰炸机", "#556B2F", 50.0, 55.0, 1.0, 3, 300, 0.015, Slow)
  }

  /** `types[Math.floor(Math.random() * types.length)]`: each quarter of [0, 1) picks one type. */
  function KindFromRoll(r: real): (k: EnemyKind)
    requires 0.0 <= r < 1.0
    ensures k == EnemyKinds[(r * 4.0).Floor]
    ensures r < 0.25 ==> k == Zero
    ensures 0.75 <= r ==> k == Stuka
  {
    var i := (r * 4.0).Floor;
    if i <= 0 then Zero else if i == 1 then Messerschmitt else if i == 2 then Spitfire else Stuka
  }

  datatype Enemy = Enemy(
    kind: EnemyKind, width: real, height: real, x: real, y: real,
    speed: real, health: int, maxHealth: int, score: int, shootChance: real,
    pattern: Pattern, bullets: seq<Projectile>, canvasHeight: real, difficulty: int,
    time: nat, initialX: real, amplitude: real, isBottomSpawned: bool)

  function EnemyBox(e: Enemy): Box
  {
    Box(e.x, e.y, e.width, e.height)
  }

  function Name(e: Enemy): string
  {
    TypeOf(e.kind).name
  }

  /** The difficulty scaling of the constructor. */
  function ScaledSpeed(t: EnemyType, d: int): real { t.speed * (1.0 + (d - 1) as real * 0.1) }
  function ScaledHealth(t: EnemyType, d: int): int { t.health + ((d - 1) as real / 2.0).Floor }
  function ScaledShootChance(t: EnemyType, d: int): real
  {
    MinReal(0.05, t.shootChance * (1.0 + (d - 1) as real * 0.15))
  }

  /** `new Enemy(canvas, null, difficulty)` with the two draws `kindRoll` (type) and `xRoll`
      (horizontal position) given: the enemy starts just above the top edge. */
  function NewEnemy(canvasWidth: real, canvasHeight: real, d: int, kindRoll: real, xRoll: real): (e: Enemy)
    requires 0.0 <= kindRoll < 1.0
    ensures var t := TypeOf(e.kind);
            e.kind == KindFromRoll(kindRoll) &&
            e.width == t.width && e.height == t.height &&
            e.x == xRoll * (canvasWidth - t.width) && e.y == -t.height &&
            e.health == t.health + ((d - 1) as real / 2.0).Floor && e.maxHealth == e.health &&
            e.score == t.score * d && e.speed == t.speed * (1.0 + (d - 1) as real * 0.1) &&
            e.shootChance == MinReal(0.05, t.shootChance * (1.0 + (d - 1) as real * 0.15)) &&
            e.shootChance <= 0.05 && e.pattern == t.pattern
    ensures e.bullets == [] && e.time == 0 && e.initialX == e.x && !e.isBottomSpawned
    ensures d >= 1 ==> e.health >= 1
  {
    var t := TypeOf(KindFromRoll(kindRoll));
    var x := xRoll * (canvasWidth - t.width);
    Enemy(KindFromRoll(kindRoll), t.width, t.height, x, -t.height,
          ScaledSpeed(t, d), ScaledHealth(t, d), ScaledHealth(t, d), t.score * d,
          ScaledShootChance(t, d), t.pattern, [], canvasHeight, d, 0, x, 50.0, false)
  }

  /** Every aircraft gains one point of health per two difficulty levels above the first. */
  lemma HealthGrowth(k: EnemyKind, d: int)
    requires d >= 1
    ensures ScaledHealth(TypeOf(k), d + 2) == ScaledHealth(TypeOf(k), d) + 1
    ensures ScaledHealth(TypeOf(k), d) >= TypeOf(k).health
  {
    var a := (d - 1) as real / 2.0;
    assert (d + 1) as real / 2.0 == a + 1.0;
  }

  /** The fire chance is capped at 5% at every difficulty, and is a proper probability. */
  lemma ShootChanceCapped(k: EnemyKind, d: int)
    requires d >= 1
    ensures 0.0 < ScaledShootChance(TypeOf(k), d) <= 0.05
  {
  }

  /** Every aircraft is worth at least 100 points per difficulty level. */
  lemma ScorePositive(k: EnemyKind, d: int)
    requires d >= 1
    ensures TypeOf(k).score * d >= 100 * d > 0
  {
  }

  /** The pattern step of `update`, before clamping: zigzag and circle swing about the start
      column (`sin(time * 0.05)` and `cos(time * 0.08)` times the amplitude); dive drifts half
      its speed right for 30 frames and left for 30; everything moves down. */
  function PatternStep(e: Enemy, time: nat, m: MathLib): (p: (real, real))
    ensures e.pattern == Dive ==>
              p.1 == e.y + e.speed * 1.5 &&
              p.0 == (if time % 60 < 30 then e.x + e.speed * 0.5 else e.x - e.speed * 0.5)
    ensures e.pattern == Slow ==> p == (e.x, e.y + e.speed)
    ensures e.pattern == Zigzag ==> p.1 == e.y + e.speed
    ensures e.pattern == Circle ==> p.1 == e.y + e.speed * 0.8
  {
    match e.pattern
    case Zigzag => (e.initialX + m.sin(time as real * 0.05) * e.amplitude, e.y + e.speed)
    case Dive => (if time % 60 < 30 then e.x + e.speed * 0.5 else e.x - e.speed * 0.5,
                  e.y + e.speed * 1.5)
    case Circle => (e.initialX + m.cos(time as real * 0.08) * e.amplitude, e.y + e.speed * 0.8)
    case Slow => (e.x, e.y + e.speed)
  }

  /** The boundary check: first raise a negative `x` to 0, then lower one beyond the right
      edge to `canvasWidth - width`. */
  function Clamp(x: real, width: real, canvasWidth: real): (c: real)
    ensures canvasWidth >= width ==> 0.0 <= c <= canvasWidth - width
    ensures 0.0 <= x <= canvasWidth - width ==> c == x
    ensures x < 0.0 && canvasWidth >= width ==> c == 0.0
    ensures x > canvasWidth - width ==> c == canvasWidth - width
  {
    var a := if x < 0.0 then 0.0 else x;
    if a > canvasWidth - width then canvasWidth - width else a
  }

  /** The fire gate: the draw beats the shoot chance while the enemy is in its firing half of
      the screen (the lower half, open below the bottom edge, for one spawned at the bottom;
      the upper half, below the top edge, otherwise). */
  predicate FiresAt(e: Enemy, canvasHeight: real, roll: real)
  {
    roll < e.shootChance &&
    if e.isBottomSpawned then e.y > canvasHeight / 2.0 && e.y < canvasHeight
    else e.y > 0.0 && e.y < canvasHeight / 2.0
  }

  /** `shoot`: one enemy bullet from the enemy's centre column, leaving at the top edge going
      up for a bottom-spawned enemy, at the bottom edge going down otherwise. */
  function Shot(e: Enemy): (b: Projectile)
    ensures !b.isPlayerBullet && b.active && b.canvasHeight == e.canvasHeight
    ensures b.x == e.x + e.width / 2.0
    ensures e.isBottomSpawned ==> b.y == e.y && b.speed == -5.0
    ensures !e.isBottomSpawned ==> b.y == e.y + e.height && b.speed == 5.0
  {
    if e.isBottomSpawned then NewBullet(e.x + e.width / 2.0, e.y, -5.0, false, e.canvasHeight)
    else NewBullet(e.x + e.width / 2.0, e.y + e.height, 5.0, false, e.canvasHeight)
  }

  function Shoot(e: Enemy): (f: Enemy)
    ensures f.bullets == e.bullets + [Shot(e)]
    ensures f.(bullets := e.bullets) == e
  {
    e.(bullets := e.bullets + [Shot(e)])
  }

  /** `update(canvas)` with the frame's `Math.random()` draw `roll`: advance the clock, take
      the pattern step, clamp, possibly fire, then move the enemy's own bullets and drop the
      spent ones (the new shot moves in the same frame). */
  function Advance(e: Enemy, canvasWidth: real, canvasHeight: real, roll: real, m: MathLib): (f: Enemy)
    ensures f.time == e.time + 1
    ensures f.x == Clamp(PatternStep(e, e.time + 1, m).0, e.width, canvasWidth)
    ensures f.y == PatternStep(e, e.time + 1, m).1
    ensures canvasWidth >= e.width ==> 0.0 <= f.x <= canvasWidth - e.width
    ensures var placed := e.(time := f.time, x := f.x, y := f.y);
            f.bullets == AdvanceAll(if FiresAt(placed, canvasHeight, roll)
                                    then placed.bullets + [Shot(placed)] else placed.bullets)
    ensures f.(time := e.time, x := e.x, y := e.y, bullets := e.bullets) == e
  {
    var time := e.time + 1;
    var p := PatternStep(e, time, m);
    var placed := e.(time := time, x := Clamp(p.0, e.width, canvasWidth), y := p.1);
    var armed := if FiresAt(placed, canvasHeight, roll) then Shoot(placed) else placed;
    armed.(bullets := AdvanceAll(armed.bullets))
  }

  /** `hit()`: one point of damage; destroyed once health reaches zero or below. */
  function Hit(e: Enemy): (r: (bool, Enemy))
    ensures r.1.health == e.health - 1
    ensures r.0 <==> r.1.health <= 0
    ensures r.1.(health := e.health) == e
  {
    var f := e.(health := e.health - 1);
    (f.health <= 0, f)
  }

  /** `isOffScreen(canvas)`: gone past the top edge for a bottom spawn, past the bottom
      edge otherwise. */
  predicate IsOffScreen(e: Enemy, canvasHeight: real)
  {
    if e.isBottomSpawned then e.y < -e.height else e.y > canvasHeight
  }

  // ---------------------------------------------------------------------------------------
  // Wing colour: `adjustColor(color, amount)` on a `#rrggbb` colour.

  predicate IsHexDigit(c: char)
  {
    '0' <= c <= '9' || 'a' <= c <= 'f' || 'A' <= c <= 'F'
  }

  function DigitValue(c: char): (v: nat)
    requires IsHexDigit(c)
    ensures v < 16
  {
    if '0' <= c <= '9' then (c - '0') as nat
    else if 'a' <= c <= 'f' then (c - 'a') as nat + 10
    else (c - 'A') as nat + 10
  }

  /** The lower-case digit of `toString(16)`. */
  function LowerDigit(v: nat): (c: char)
    requires v < 16
    ensures IsHexDigit(c) && DigitValue(c) == v
    ensures '0' <= c <= '9' || 'a' <= c <= 'f'
  {
    if v < 10 then ('0' as int + v) as char else ('a' as int + v - 10) as char
  }

  predicate IsHexString(s: string)
  {
    forall i :: 0 <= i < |s| ==> IsHexDigit(s[i])
  }

  /** `parseInt(s, 16)` on a string made of hex digits only. */
  function ParseHex(s: string): nat
    requires IsHexString(s)
  {
    if s == [] then 0 else ParseHex(s[..|s| - 1]) * 16 + DigitValue(s[|s| - 1])
  }

  function Pow16(k: nat): (p: nat)
    ensures p >= 1
  {
    if k == 0 then 1 else 16 * Pow16(k - 1)
  }

  /** The `k` lowest hex digits of `n` in lower case, most significant first (the padded
      `toString(16)` when `n` has at most `k` digits). */
  function ToHex(n: nat, k: nat): (s: string)
    ensures |s| == k && IsHexString(s)
    ensures forall i :: 0 <= i < |s| ==> '0' <= s[i] <= '9' || 'a' <= s[i] <= 'f'
  {
    if k == 0 then [] else ToHex(n / 16, k - 1) + [LowerDigit(n % 16)]
  }

  lemma Pow16Six()
    ensures Pow16(6) == 16777216
  {
    assert Pow16(2) == 256;
    assert Pow16(4) == 65536;
  }

  /** A string of `k` hex digits denotes a number below 16^k. */
  lemma {:induction false} ParseHexBound(s: string)
    requires IsHexString(s)
    ensures ParseHex(s) < Pow16(|s|)
  {
    if s != [] {
      ParseHexBound(s[..|s| - 1]);
    }
  }

  /** Printing a number below 16^k with `k` digits and parsing it back gives the number. */
  lemma {:induction false} ParseToHex(n: nat, k: nat)
    requires n < Pow16(k)
    ensures ParseHex(ToHex(n, k)) == n
  {
    if k > 0 {
      var s := ToHex(n, k);
      assert s[..|s| - 1] == ToHex(n / 16, k - 1);
      ParseToHex(n / 16, k - 1);
    }
  }

  /** A `#rrggbb` colour. */
  predicate IsHexColor(s: string)
  {
    |s| == 7 && s[0] == '#' && IsHexString(s[1..])
  }

  /** A colour channel limited to 0..255: 0 below, 255 above, unchanged between. */
  function ClampChannel(v: int): (c: int)
    ensures 0 <= c <= 255
    ensures 0 <= v <= 255 ==> c == v
    ensures v < 0 ==> c == 0
    ensures v > 255 ==> c == 255
  {
    MinInt(255, MaxInt(0, v))
  }

  /** The red, green and blue channels of a packed `0xrrggbb` value. */
  function Red(n: nat): nat { n / 65536 }
  function Green(n: nat): nat { (n / 256) % 256 }
  function Blue(n: nat): nat { n % 256 }

  function Pack(red: nat, green: nat, blue: nat): nat
  {
    red * 65536 + green * 256 + blue
  }

  /** Packing three channels and reading them back gives the channels. */
  lemma Unpack(red: nat, green: nat, blue: nat)
    requires red <= 255 && green <= 255 && blue <= 255
    ensures Red(Pack(red, green, blue)) == red
    ensures Green(Pack(red, green, blue)) == green
    ensures Blue(Pack(red, green, blue)) == blue
    ensures Pack(red, green, blue) < 16777216
  {
    var n := Pack(red, green, blue);
    assert n / 256 == red * 256 + green;
  }

  /** Every value of six hex digits is the packing of its own three channels. */
  lemma Repack(n: nat)
    requires n < 16777216
    ensures Red(n) <= 255 && Pack(Red(n), Green(n), Blue(n)) == n
  {
    var q := n / 256;
    assert n == q * 256 + n % 256;
    assert q == (q / 256) * 256 + q % 256;
    assert q / 256 == n / 65536;
  }

  /** The packed value of a colour value with every channel shifted by `amount` and clamped. */
  function Shifted(num: nat, amount: int): nat
  {
    Pack(ClampChannel(Red(num) + amount), ClampChannel(Green(num) + amount),
         ClampChannel(Blue(num) + amount))
  }

  /** `adjustColor(color, amount)`: shift every channel by `amount`, clamp each to [0, 255],
      and print the result as `#` followed by six lower-case hex digits. */
  function AdjustColor(color: string, amount: int): (r: string)
    requires IsHexColor(color)
    ensures IsHexColor(r)
    ensures forall i :: 1 <= i < 7 ==> '0' <= r[i] <= '9' || 'a' <= r[i] <= 'f'
  {
    "#" + ToHex(Shifted(ParseHex(color[1..]), amount), 6)
  }

  /** The printed digits of the adjusted colour parse back to the shifted value. */
  lemma AdjustColorValue(color: string, amount: int)
    requires IsHexColor(color)
    ensures ParseHex(AdjustColor(color, amount)[1..]) == Shifted(ParseHex(color[1..]), amount)
  {
    var packed := Shifted(ParseHex(color[1..]), amount);
    ShiftedChannels(ParseHex(color[1..]), amount);
    Pow16Six();
    ParseToHex(packed, 6);
    assert AdjustColor(color, amount)[1..] == ToHex(packed, 6);
  }

  /** The channels of a shifted value are the clamped shifted channels. */
  lemma ShiftedChannels(num: nat, amount: int)
    ensures Shifted(num, amount) < 16777216
    ensures Red(Shifted(num, amount)) == ClampChannel(Red(num) + amount)
    ensures Green(Shifted(num, amount)) == ClampChannel(Green(num) + amount)
    ensures Blue(Shifted(num, amount)) == ClampChannel(Blue(num) + amount)
  {
    Unpack(ClampChannel(Red(num) + amount), ClampChannel(Green(num) + amount),
           ClampChannel(Blue(num) + amount));
  }

  /** A zero shift keeps the colour's value and only normalises its digits to lower case,
      so adjusting twice by zero is the same as once. */
  lemma AdjustColorZero(color: string)
    requires IsHexColor(color)
    ensures ParseHex(AdjustColor(color, 0)[1..]) == ParseHex(color[1..])
    ensures AdjustColor(AdjustColor(color, 0), 0) == AdjustColor(color, 0)
  {
    var num := ParseHex(color[1..]);
    ParseHexBound(color[1..]);
    Pow16Six();
    Repack(num);
    assert Red(num) <= 255 && Green(num) <= 255 && Blue(num) <= 255;
    AdjustColorValue(color, 0);
    var once := AdjustColor(color, 0);
    var out := ParseHex(once[1..]);
    ParseHexBound(once[1..]);
    Repack(out);
  }
}
