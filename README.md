# A vertical shooter's frame logic, modelled in Dafny

The game is a browser shoot-'em-up. The player flies at the bottom of a canvas. Waves of enemy planes enter from the top, and at higher difficulty from the bottom too. A boss appears every 1080 frames, and defeating it raises the difficulty by one, up to 10.

The player's weapon is one of the following:
- the default fan;
- a spread fan (`S`);
- lasers (`L`);
- bombs (`B`);
- homing rockets (`C`).

The weapon is boosted by a stacking power level `P` (0 to 6). Picking up `HP` heals. Holding the charge key for 90 frames and then releasing it fires three homing, penetrating shots. A lightning skill clears the screen and then needs 300 frames to recharge.

This project models the per-frame logic of that game and proves properties of the model. Drawing, sound and input capture are not modelled. The model has one module per source file:

- **Common** (`common.dfy`) holds the helpers every actor uses:
  - the strict axis-aligned overlap test `checkCollision`;
  - squared-distance thresholds, so that `sqrt(d) < r` is stated without a square root;
  - the iteration count of a `for (i = 0; i < v; i++)` loop over a real `v`;
  - a `MathLib` record that stands for `Math.sqrt`, `Math.sin` and `Math.cos`;
  - the `Random` class, the stream of `Math.random()` draws.
- **Bullets** (`bullet.js`):
  - the projectile's move rule and its deactivation bounds;
  - choosing the nearest enemy ahead of a homing shot, and steering towards it while keeping the speed;
  - particles.
- **PowerUps** (`powerup.js`):
  - the weapon duration as a function of difficulty;
  - the weighted choice of a pick-up's kind;
  - a pick-up falling;
  - explosions growing, and the set of enemies each explosion has already hit.
- **Enemies** (`enemy.js`):
  - stats derived from the difficulty;
  - the four flight patterns, lateral clamping and fire gating;
  - `hit`, the off-screen rule and `adjustColor`.
- **Bosses** (`boss.js`), a `Boss` class:
  - the entry, hover and strafe movement;
  - the low-health charge-attack sub-machine (charging, dashing, waiting, returning);
  - the four weapons and their volley sizes.
- **Players** (`player.js`), a `Player` class:
  - the weapon loadout with its exclusive modes;
  - the P level and the low-health boost;
  - EXP and P-gauge level-ups, healing, and the invulnerability window;
  - the trigger (plain shot cadence and charge shot);
  - the bullet-count tables of every fire mode.
- **Games** (`game.js`), a `Game` class:
  - the spawn scheduler and the boss timer;
  - the combat passes: explosions, player bullets and enemy bullets against enemies, the shield and the player, and the boss fight;
  - pruning destroyed and off-screen enemies once per frame, after the bullet pass (game.js:381-386);
  - the lightning skill, `spawnBoss` and the reset in `startGame`.

## How it is modelled

- **Values and classes.** Enemies, projectiles, pick-ups, explosions and particles each live in exactly one array of the game and are never shared. They are therefore Dafny datatypes held in `seq` fields, and an update in place becomes a function returning the new record. The player, the boss and the game are classes whose methods declare the fields they change.
- **Methods and loops.** The source's loops are methods with loop invariants. Most are proved against a specification function:
  - the damage loop;
  - the volley loops of `shoot` and `attack`;
  - the search for the nearest enemy;
  - the player's bullet filter (`Bullets.UpdateAll`, against `Common.Filter` of `Bullets.Updated`);
  - the enemy update loop and the spawn wave;
  - the pick-up loop (`Games.Pick`, against `Games.Remaining`, `Games.Collected` and `Players.ActivateAll`);
  - the explosion pass (`Games.Detonate` and `Games.Detonations`, against `PowerUps.Replay`);
  - one bullet's sweep over the enemies (`Games.Sweep`).

  The outer loop of the bullet pass (`Games.Barrage`) is not proved against such a function; it states wear and each bullet's activity (see "Left out").
- **Filters.** Every `array.filter(x => { x.update(); return test(x); })` is `Common.Filter` of `Common.Map`: exactly the updated elements that pass the test, in order.
- **The boss frame.** Its motion is computed on values: `Bosses.ChargeMotion` moves the boss during a charge attack, `Bosses.Movement` moves it otherwise, and `Bosses.Manoeuvred` picks between them with the cooldown check. `Bosses.SalvoShots` is the regular attack. `Boss.StepCharge` applies the motion first (`Boss.ChargeMove`) and then the flag changes (`Boss.ChargeFlags`). The flag changes test the position from before the move, as the source's `if` chain does.
- **Randomness.** `Math.random()` is a stream `source: nat -> real` of values in `[0, 1)`, read through `Random.Draw`. Every contract says which draw was used.
- **Clocks.** `Date.now()` is a parameter `now`.
- **Geometry.** Square roots, sines and cosines are the unconstrained functions of a `MathLib` value. Where a proof needs `sqrt`, it assumes only that the function returns a non-negative square root (`SoundSqrt`). Distance tests against a radius are stated exactly with squared distances.
- **The charge shield.** It is set by the drawing code, so it is passed in as an optional `Shield`.
- **Game-over.** The branch tests `player.lives` (game.js:417), a field the player never has, so it is dead code and not modelled.

Behaviour of the code that the model reproduces as written:

- **Damage loop.** It runs `for (i = 0; i < damage; i++)`, so a shot of damage `d > 0` makes ⌈d⌉ calls of `hit()` (game.js:334). The model follows the code: `Games.Shots` is `LoopCount(damage || 1)`, and `Common.LoopCountRoundsUp` proves it is the ceiling.
- **Pruning.** Destroyed enemies are removed only after the whole bullet pass (game.js:382-386). A later bullet in the same frame therefore hits an enemy at health 0 and destroys and scores it again. `Games.Destroys` holds for health ≤ n with n ≥ 1, which covers health 0.
- **Non-penetrating bullets.** Such a bullet is switched off on its first overlap, but the loop over enemies goes on. In that frame it still damages every enemy it overlaps (game.js:316-379).
- **`calculateAngles(6)`** returns 7 angles (player.js:890).
- **Explosion hit keys.** The key is made from the enemy's position at the moment of the hit (powerup.js:230). A moving enemy is therefore a new key on a later frame.
- **Zigzag and circle enemies.** They swing around `initialX`, which the spawner's 80-pixel offset does not move (game.js:247, enemy.js:88, 100).
- **`startGame`** clears enemies, bullets and particles but not the pick-ups on screen (game.js:152-190).
- **Boss bullets.** They are enemy bullets, so `update()` moves them straight down by their speed. Their `speedX` and `speedY` are never used (bullet.js:92-94).

## Model

| member | source | states |
|---|---|---|
| Common.Overlaps | game.js:737-742 | two boxes collide exactly when they share an interior point on both axes |
| Common.Map | game.js:274-277 | updating every element gives one result per element, in order |
| Common.Filter | game.js:274-277 | a filter keeps only elements that pass the test and never adds any |
| Common.FilterAppend | game.js:274-277 | filtering a concatenation is concatenating the filtered parts, so the order is kept |
| Common.FilterCounts | game.js:274-277 | a filter keeps every copy of an element that passes the test and none of one that fails |
| Common.FilterKeepsAll | game.js:274-277 | when every element passes, the filter keeps the list as it is |
| Common.FilterMapFirst | enemy.js:127-130 | filtering an updated list is the updated first element if it passes, followed by filtering the rest |
| Common.FilterMapLast | player.js:1125-1129 | filtering an updated list is filtering all but its last element, followed by the updated last element if it passes |
| Common.OverlapsSymmetric | game.js:737-742 | the axis-aligned overlap test gives the same answer for either argument order |
| Common.OverlapsStrict | game.js:737-742 | a box of positive size overlaps itself, and a box shifted right by its width or more does not overlap it (edges that only touch do not collide) |
| Common.LoopCount | game.js:334 | a counted loop `i < v` over a real `v` runs 0 times for `v <= 0` and otherwise `n` times with `n - 1 < v <= n` |
| Common.LoopCountRoundsUp | game.js:334 | for positive `v` the number of iterations is the ceiling of `v`: the floor for whole `v`, the floor plus one otherwise, and at least one |
| Common.Random.Draw | game.js:342 | a draw returns the next value of the stream, which lies in `[0, 1)`, and advances the stream by one |
| Bullets.Move | bullet.js:85-100 | a player bullet with a non-zero velocity moves by that vector, otherwise straight up by its speed; an enemy bullet moves only down, by its speed; afterwards it is active exactly when it was active and is inside the bounds (not above `-height`, not below the canvas, x within `[-50, 850]`); nothing else changes |
| Bullets.EnemyBulletsFallStraight | bullet.js:92-94 | after `n` frames an enemy bullet keeps its x and has fallen exactly `n * speed` |
| Bullets.InactiveStaysInactive | bullet.js:97-100 | an inactive bullet is never reactivated, over any number of frames |
| Bullets.Nearest | bullet.js:41-54 | there is no target exactly when no enemy is ahead (`dy < 100`); otherwise the target is ahead, no enemy ahead is closer, and every earlier enemy ahead is strictly farther (the first on ties) |
| Bullets.SelectTarget | bullet.js:41-54 | the running-minimum search loop finds exactly the target `Nearest` specifies |
| Bullets.Steer | bullet.js:57-82 | steering records the enemy as the target and changes only the velocity; when the enemy sits exactly on the bullet the velocity is kept |
| Bullets.BlendKeepsSpeed | bullet.js:69-80 | the blended, renormalised velocity has the same speed as the old one, whenever the blended direction is not zero |
| Bullets.RescaledSpeed | bullet.js:69-80 | rescaling a non-zero direction `(a, b)` to the length of `(vx, vy)` yields a vector whose squared length is that of `(vx, vy)`, under a true square root |
| Bullets.Update | bullet.js:36-101 | a bullet that is not a charged homing shot, has no enemy list, or finds no enemy ahead just moves; otherwise it is first steered at the nearest enemy ahead and then moves |
| Bullets.AdvanceAll | enemy.js:127-130 | moving the bullets and dropping the inactive ones keeps only active bullets and never adds any |
| Bullets.AdvanceAllIsFilter | game.js:274-277 | the enemy bullet filter keeps exactly the moved bullets that are still active, in order |
| Bullets.AdvanceAllMoves | enemy.js:127-130 | every bullet kept is the moved version of a bullet of the input |
| Bullets.AdvanceAllKeepsActive | enemy.js:127-130 | when every moved bullet stays active, the result is every bullet moved, in order |
| Bullets.Updated | bullet.js:36-101 | the update of one bullet is its move rule, after steering at the nearest enemy ahead when it homes and finds one |
| Bullets.UpdateWithoutEnemies | bullet.js:36-101 | with no enemy on the field, updating every bullet is moving it |
| Bullets.UpdateAllIdle | bullet.js:36-101 | with no enemy on the field, the player's bullet filter is the enemies' one |
| Bullets.UpdateAll | player.js:319-322 | the player's bullet filter keeps exactly the updated bullets that are still active, in order, and without enemies is exactly `AdvanceAll` |
| Bullets.UpdateAllStep | player.js:319-322 | the filter of the updated bullets from index `i` is the first bullet, kept only if it is still active, followed by the filter of the rest |
| Bullets.OffField | bullet.js:96-100 | a bullet leaves the field above its own height, below the canvas, or more than 50 pixels past either side of the 800-pixel field; `Move` deactivates exactly such bullets |
| Bullets.CollidesWith | bullet.js:223-228 | a bullet collides with a box exactly when their boxes overlap strictly |
| Bullets.NewParticle | bullet.js:233-242 | a new particle has life 1 and a decay in `[0.01, 0.03)` |
| Bullets.ParticleUpdate | bullet.js:244-249 | a frame moves the particle by its velocity, adds 0.1 gravity to `vy`, and lowers life by exactly the decay (strictly, for positive decay) |
| Bullets.ParticleLifeFalls | bullet.js:244-249 | after `n` frames life has fallen by exactly `n * decay` |
| Bullets.ParticleDiesWithin100 | bullet.js:244-263 | a particle with life at most 1 and decay at least 0.01 is dead after 100 frames |
| Bullets.IsDead | bullet.js:261-263 | a particle is dead once its life is at most 0 |
| Bullets.AdvanceParticles | game.js:571-574 | the particle filter keeps exactly the updated particles that are still alive, in order |
| PowerUps.WeightsPartition | powerup.js:86-97 | the weights 25, 15, 18, 21, 8, 13 are positive and sum to 100, so the cumulative brackets partition `[0, 100)` |
| PowerUps.CumulativeValues | powerup.js:86-97 | the bracket bounds are 0, 25, 40, 58, 79, 87, 100 |
| PowerUps.IndexOf | powerup.js:86 | every kind has a position in the list S, L, B, C, HP, P |
| PowerUps.PickKind | powerup.js:86-97 | for a roll in `[0, 100)` the cumulative loop picks the kind whose bracket contains the roll; below 25, or outside the range, it picks `S` |
| PowerUps.WeaponDuration | powerup.js:57-72 | the duration is 0 (no expiry) exactly for difficulty ≤ 1, 30000 ms from difficulty 10, 180000 at 2, 60000 at 9, and within `[60000, 180000]` in between |
| PowerUps.WeaponDurationNonIncreasing | powerup.js:63-70 | from difficulty 2 on, a higher difficulty never gives a longer duration |
| PowerUps.NewPowerUp | powerup.js:76-106 | a new pick-up is active, 30 by 30, falls at speed 2 and has the chosen kind |
| PowerUps.Fall | powerup.js:108-122 | a frame adds the speed to y and leaves the pick-up active exactly when it was and y is at most 650 |
| PowerUps.FallReaches | powerup.js:108-122 | after `n` frames y has grown by `n * speed`, and once it passes 650 the pick-up is inactive |
| PowerUps.NewExplosion | powerup.js:174-186 | a new explosion is active, aged 0, of radius 0, with no enemy hit yet, and well formed |
| PowerUps.ExplosionUpdate | powerup.js:188-198 | a frame ages the explosion by one, sets the radius to `maxRadius * age / 20`, keeps it active exactly while `age < 20`, and keeps the hit set |
| PowerUps.ExplosionLifetime | powerup.js:188-198 | from age 0, `n ≤ 20` frames give age `n`, active exactly when `n < 20`, and the hit set unchanged |
| PowerUps.RadiusBounded | powerup.js:193 | the radius of a well-formed explosion lies between 0 and `maxRadius` |
| PowerUps.CheckEnemyInRange | powerup.js:224-238 | the test succeeds exactly when the enemy's centre is inside the current radius and its key is not yet in the hit set; on success the key is added, on failure nothing changes |
| PowerUps.Step | powerup.js:188-238 | one event (an ageing frame or an enemy test) reports at most one key, never a key already hit, and adds exactly the reported keys to the hit set |
| PowerUps.DistinctAppend | powerup.js:230-236 | a new key in front of a list of distinct keys gives distinct keys |
| PowerUps.ReplayHitsOnce | powerup.js:224-238 | over any sequence of frames and tests, every key is reported at most once and never one hit before, and the hit set is the old set plus the keys reported |
| PowerUps.ReplaySnoc | powerup.js:188-238 | replaying one more event continues from the explosion the earlier events left |
| PowerUps.CheckCollision | powerup.js:164-169 | a pick-up touches the player exactly when their boxes overlap strictly |
| PowerUps.AdvanceExplosions | player.js:1126-1129 | the explosion filter keeps only active explosions, never adds any, and keeps them well formed |
| PowerUps.AdvanceExplosionsIsFilter | player.js:1126-1129 | the explosion filter keeps exactly the updated explosions that are still active, in order |
| Enemies.KindFromRoll | enemy.js:53-57 | the type is the entry `floor(roll * 4)` of the type list: the first type below 0.25, the last from 0.75 |
| Enemies.NewEnemy | enemy.js:51-80 | the new enemy takes its type's size and pattern, sits above the canvas at `roll * (width - w)`, and has health `health + floor((d - 1) / 2)` (`ScaledHealth`; also its maxHealth, at least 1), score `score * d`, speed `speed * (1 + 0.1 (d - 1))` (`ScaledSpeed`) and shoot chance `min(0.05, shootChance * (1 + 0.15 (d - 1)))` (`ScaledShootChance`) |
| Enemies.HealthGrowth | enemy.js:67 | two more difficulty levels add exactly one health point, and health never falls below the type's |
| Enemies.ShootChanceCapped | enemy.js:70 | for every difficulty the shoot chance is positive and at most 0.05 |
| Enemies.ScorePositive | enemy.js:69 | an enemy is worth at least `100 * d` points |
| Enemies.PatternStep | enemy.js:86-106 | dive adds `1.5 * speed` to y and moves `0.5 * speed` right while `time mod 60 < 30`, left otherwise; slow adds speed to y; zigzag adds speed and circle `0.8 * speed` to y |
| Enemies.Clamp | enemy.js:109-110 | an x below 0 is raised to 0 (when the canvas is wide enough) and one beyond the right edge lowered to `canvasWidth - width`; an x already inside is kept, so the result lies in `[0, canvasWidth - width]` |
| Enemies.Shot | enemy.js:133-141 | an enemy fires one enemy bullet from its centre line: at its top edge with speed -5 when bottom-spawned, at its bottom edge with speed 5 otherwise |
| Enemies.Shoot | enemy.js:133-141 | shooting appends exactly that bullet and changes nothing else |
| Enemies.Advance | enemy.js:82-131 | a frame advances the clock, applies the pattern step, clamps x into the canvas, fires exactly when the roll is below the chance and the enemy is in its half of the screen, and moves and filters its bullets; nothing else changes |
| Enemies.FiresAt | enemy.js:115-124 | an enemy fires when the roll is below its chance and it is in the lower half of the screen (spawned at the bottom) or the upper half (spawned at the top) |
| Enemies.IsOffScreen | enemy.js:252-259 | an enemy spawned at the bottom is off screen above its own height past the top edge; any other one past the bottom edge |
| Enemies.Hit | enemy.js:247-250 | a hit lowers health by exactly one and reports destruction exactly when health is then at most 0 |
| Enemies.DigitValue | enemy.js:240 | a hex digit is worth less than 16 |
| Enemies.LowerDigit | enemy.js:244 | the digit written for a value below 16 is a lower-case hex digit worth that value |
| Enemies.ToHex | enemy.js:244 | writing a number in `k` digits gives exactly `k` lower-case hex digits |
| Enemies.ParseHexBound | enemy.js:240 | a string of `k` hex digits is worth less than `16^k` |
| Enemies.ParseToHex | enemy.js:240-244 | reading back a number below `16^k` written in `k` digits gives the number |
| Enemies.ClampChannel | enemy.js:241-243 | a channel below 0 becomes 0, one above 255 becomes 255, and one in `[0, 255]` is kept |
| Enemies.Unpack | enemy.js:241-244 | packing three channels below 256 and splitting again gives them back, below `16^6` |
| Enemies.Repack | enemy.js:240-244 | a number below `16^6` is its three channels packed again |
| Enemies.AdjustColor | enemy.js:239-245 | adjusting a `#rrggbb` colour gives `#` and six lower-case hex digits |
| Enemies.AdjustColorValue | enemy.js:239-245 | the adjusted colour's value is the old value with every channel shifted by the amount and clamped |
| Enemies.ShiftedChannels | enemy.js:241-244 | each channel of the shifted colour is that channel plus the amount, clamped to `[0, 255]` |
| Enemies.AdjustColorZero | enemy.js:239-245 | adjusting by 0 keeps the colour's value, and doing it twice gives the same string as once |
| Bosses.IdleChargeValid | boss.js:28-48 | the boss starts with an idle, well-formed charge attack |
| Bosses.ChargeCount | boss.js:242 | the number of charges `2 + floor(3 * roll)` is 2, 3 or 4 |
| Bosses.Initiate | boss.js:234-257 | starting a charge marks it active and charging, records the current position, aims at the player's centre, restarts the counts with 2 to 4 charges, sets speed 2 and damage `floor(maxHealth / 3)`, and keeps the cooldown |
| Bosses.CooldownStep | boss.js:84-90 | the cooldown counts only while the charge is idle and health is below half; when it reaches 300 the charge starts; an active charge or a healthy boss is unchanged; and well-formedness is kept |
| Bosses.ChargeBranch | boss.js:93-164 | charging counts to 60 and then dashes; returning home resets everything, returning elsewhere changes no flags; after the wait it aims again and charges; a completed dash is counted only on arrival with speed reset, and it starts returning exactly when all charges are done; well-formedness is kept |
| Bosses.ChargeNextValid | boss.js:84-164 | every frame keeps the charge attack well formed (`currentCharge ≤ totalCharges`, 2 to 4 charges while active, at most one phase flag) |
| Bosses.PhaseSuccession | boss.js:84-164 | the phases only move idle → charging → dashing → (waiting → charging → dashing)* → returning → idle, or stay |
| Bosses.CooldownRule | boss.js:84-90 | from idle the charge starts exactly when health is below half and the incremented cooldown reaches 300; otherwise the cooldown grows by one exactly when health is below half |
| Bosses.ChargingLasts | boss.js:94-104 | the charging phase lasts exactly 60 frames of `ChargeBranch`, run `n` times by `RunBranch`, after which the boss is dashing with its charge counts unchanged |
| Bosses.ReturnResets | boss.js:111-126 | arriving home ends the charge attack: idle, cooldown 0, counts 0, speed 0 |
| Bosses.Movement | boss.js:167-207 | entry sinks by 0.5 and turns to hover at y ≥ 80; hover stays within the margins and turns to strafe after 300 frames; strafe moves 3 per frame, reverses exactly at the margins, and turns to hover after 200 frames; entry is never re-entered |
| Bosses.EntryNeverReturns | boss.js:167-207 | once the boss has left the entry pattern it never returns to it |
| Bosses.EntrySinks | boss.js:168-175 | during entry the boss sinks exactly 0.5 per frame until it reaches y = 80 |
| Bosses.WeaponFromRoll | boss.js:266-267 | the weapon is spread for rolls below 0.25 and missiles from 0.75 |
| Bosses.AttackCountBounds | boss.js:272-357 | the volley size `AttackCount` of each weapon: at boss difficulty (≥ 3) spread fires 4 to 7 bullets, 7 exactly from difficulty 8; lasers and missiles at least 2; every weapon at least 1, and at most 7 up to difficulty 10 |
| Bosses.AttackCountMonotone | boss.js:272-357 | a higher difficulty never fires fewer bullets |
| Bosses.SpreadFanEdges | boss.js:276-279 | the spread fan runs from `pi / 4` to `3 pi / 4` |
| Bosses.VolleyBullet | boss.js:259-361 | every volley bullet is an active boss-weapon enemy bullet of the chosen weapon: bombs are bombs placed `(i - n/2) * 30` from the centre, lasers are lasers, missiles home on the player |
| Bosses.VolleyShape | boss.js:272-357 | a volley of `k` bullets has exactly `k` bullets, each of the weapon's kind |
| Bosses.BombRowOffsets | boss.js:317 | the bomb row runs from `-15 n` to `15 n - 30` around the centre (off-centre, as written) |
| Bosses.AdvanceBossBullets | boss.js:228-231 | the bullet filter keeps only active bullets within 50 pixels of the canvas vertically, never adds any, and keeps enemy bullets enemy bullets |
| Bosses.AdvanceBossBulletsIsFilter | boss.js:228-231 | the boss's bullet filter keeps exactly the moved bullets that are active and within 50 pixels of the canvas vertically, in order |
| Bosses.ChargeMotion | boss.js:93-164 | a charge-attack frame keeps the strafe direction and, except on arrival home, the movement pattern and timer; arriving home puts the boss on its start point, hovering with timer 0; a dash that has arrived, and every other phase, leaves it in place; the step lengths are stated by the four lemmas below |
| Bosses.UnitStep | boss.js:109-113 | with a true square root, a step of `speed` along the unit vector of a vector longer than the threshold has length exactly `speed` |
| Bosses.ReturnStepLength | boss.js:105-113 | more than 5 pixels from home, the boss moves back exactly 4 pixels |
| Bosses.StepLength | boss.js:105-147 | a frame that moves the boss by `speed` along the unit vector of a vector longer than the threshold moves it by exactly `speed` |
| Bosses.DashStepLength | boss.js:139-147 | more than 10 pixels from its target, the dashing boss moves exactly its charge speed towards it |
| Bosses.TrembleStep | boss.js:94-98 | while charging, the boss shakes by at least -3 and less than 3 pixels on each axis |
| Bosses.HomeStep | boss.js:114-117 | arriving home moves the boss at most 5 pixels |
| Bosses.Manoeuvred | boss.js:83-208 | the motion of a frame and the position in the draw stream after it, which never goes back; `ManoeuvreModes` states which motion is chosen |
| Bosses.ManoeuvreModes | boss.js:83-208 | a healthy idle boss moves as `Movement` with no draw; a boss already charging moves as `ChargeMotion` |
| Bosses.SalvoShots | boss.js:221-225 | when due, the shots number exactly the attack count of the weapon chosen by one draw, and one more draw is used per laser; otherwise no shot and no draw |
| Bosses.ChargeMotionStep | boss.js:93-164 | the `if` chain of a charge-attack frame computes exactly `ChargeMotion`, with two draws while charging and none otherwise |
| Bosses.Boss.constructor | boss.js:3-71 | difficulty `max(3, d)`, maxHealth `150 + 80 * difficulty`, full health, score `5000 * difficulty`, centred above the canvas, entry pattern, idle charge and timers at 0 |
| Bosses.Boss.Hit | boss.js:363-368 | a hit lowers health by exactly the damage, sets `hitFlash` to 10, and reports defeat exactly when health is then at most 0 |
| Bosses.Boss.InitiateChargeAttack | boss.js:234-257 | without a player nothing changes; otherwise the charge becomes `Initiate` with one draw |
| Bosses.Boss.CheckCooldown | boss.js:84-90 | the charge becomes `CooldownStep`, using a draw exactly when the charge starts |
| Bosses.Boss.IsOffScreen | boss.js:762-764 | the boss is off screen once more than 75 pixels below the bottom edge |
| Bosses.Boss.ChargeMove | boss.js:93-164 | the position, pattern and timer become `ChargeMotion` of the old ones, with two draws while charging |
| Bosses.Boss.ChargeFlags | boss.js:93-164 | the charge becomes `ChargeBranch` of the old one, tested at the position before the move |
| Bosses.Boss.StepCharge | boss.js:93-164 | the charge becomes `ChargeBranch` and the position, pattern and timer `ChargeMotion` of the old ones, with two draws while charging |
| Bosses.Boss.StepMovement | boss.js:167-207 | position, pattern, timer and direction become `Movement` of the old ones |
| Bosses.Boss.FireVolley | boss.js:272-357 | the loop appends exactly the specified volley, using one draw per laser |
| Bosses.VolleyShots | boss.js:272-357 | the volley loop returns exactly `Volley` of the weapon, using one draw per laser and none otherwise |
| Bosses.VolleyNext | boss.js:272-357 | a volley of `k + 1` shots is the volley of `k` shots followed by shot `k`, which uses draw `k` only for the laser |
| Bosses.Boss.Attack | boss.js:259-361 | without a player nothing changes; otherwise one draw picks the weapon, exactly its count of bullets is appended, and the attack phase grows by one |
| Bosses.Boss.Manoeuvre | boss.js:83-208 | the charge attack becomes `ChargeNext` of the old one, and the motion and the draws used are `Manoeuvred` |
| Bosses.Boss.Travel | boss.js:73-208 | the counters advance, the charge becomes `ChargeNext`, and the motion is `Manoeuvred` with the incremented timer |
| Bosses.Boss.Countdown | boss.js:74-81 | the move and attack timers grow by one and the hit flash fades by one down to 0 |
| Bosses.Boss.Salvo | boss.js:221-231 | the boss attacks, resets the attack timer and counts the phase exactly when no charge is active and the timer has reached 45; the bullets become the filter of the old ones plus `SalvoShots` |
| Bosses.Boss.Update | boss.js:73-232 | a frame steps the charge attack by `ChargeNext`, fades the hit flash, moves as `Manoeuvred`, attacks exactly when no charge is active and the incremented timer reaches 45, and its bullets become the filter of the old ones plus `SalvoShots` |
| Players.Set | player.js:988-991 | setting a weapon's timer changes that weapon and no other |
| Players.Expire | player.js:1083-1087 | a weapon stays active exactly while it has no end time or the clock is before it |
| Players.UntimedNeverExpires | player.js:1083-1087 | a weapon with end time 0 never expires |
| Players.AngleCounts | player.js:877-893 | the default fan (`DefaultAngles`) has `2p + 1` angles, `calculateAngles(n)` (`CalculateAngles`) gives `n` angles for `n` in 1..5 and 7 for 6, and the spread fan (`SpreadAngles`, player.js:401-416) has 3, 5, 6, 8, 10, 14 or 16 |
| Players.FanBullet | player.js:401-416 | a fan bullet is an active player bullet at the nose with its angle; bombs do not penetrate; charged shots penetrate and home; plain shots neither |
| Players.Fan | player.js:401-416 | a fan has one bullet per angle, each the fan bullet of that angle |
| Players.LaserRow | player.js:336-378 | a laser row of `k` has exactly `k` lasers, front or rear as asked |
| Players.VolleyCounts | player.js:330-546 | lasers fire `min(6, 1 + p)` forward (`ForwardLaserCount`) plus `min(4, p - 3)` rear from level 4 (`RearLaserCount`); bombs 1, `p + 1` or 7 (from `BombCount`); rockets 1; spread 3 to 16 by level; the default fan `2p + 1` |
| Players.VolleyIsPlayers | player.js:325-546 | every bullet `shoot` fires is an active player bullet |
| Players.ChargedVolley | player.js:552-593 | the charge shot is 3 charged, penetrating, homing bullets of damage 2.5 |
| Players.ModeOfOnlyWeapon | player.js:330-494 | with only weapon `k` active, `shoot` takes `k`'s branch: lasers for `L`, bombs for `B`, rockets for `C`, the spread fan for `S` |
| Players.Equip | player.js:951-992 | P raises the level by one up to 6 and marks it active; a weapon becomes the only active one with start `now` and end `now + duration` (0 for no expiry); switching outside the boost resets P to 0, during the boost clears the saved level, and re-picking the same type keeps P |
| Players.EquipValid | player.js:941-994 | a pick-up keeps the loadout well formed (at most one weapon active, P level at most 6 and active exactly when above 0, level 6 during the boost, a saved level below 6) |
| Players.ExpireAll | player.js:1079-1088 | every weapon expires by its own timer, and at most one weapon stays active |
| Players.LowHealthIsRatio | player.js:1107-1108 | the integer low-health test is exactly `health / maxHealth < 0.3` |
| Players.BoostStep | player.js:1106-1123 | falling below 30% below level 6 saves the level and pins P at 6; recovering restores the saved level; otherwise nothing changes; weapons stay as they are |
| Players.BoostStepValid | player.js:1106-1123 | the boost step keeps the loadout well formed |
| Players.BoostRestoresPower | player.js:1106-1123 | entering and then leaving the boost restores the original P level and activity |
| Players.PickupDuringBoostIsLost | player.js:1106-1123 | a P picked up during the boost is lost on recovery: the level goes back to the saved one |
| Players.Grow | player.js:1014 | the new gauge maximum is `floor(1.35 * v)`: at most `1.35 v` and less than one below it, so from 100 on it adds at least 35 |
| Players.Rescale | player.js:1012-1015 | the rescaled gauge is `floor(newMax * gauge / oldMax)`: at most the old proportion of the new maximum and less than one below it, and within `[0, newMax]` for a gauge within its old maximum |
| Players.LevelUp | player.js:1008-1036 | a level-up adds one level, sets the gauge maximum to `Grow` of the old one (at least 35 more from 100 on) and the gauge to `Rescale` of the old gauge to it (kept within it), adds 2 to maxHealth up to 300, and heals 2 up to maxHealth |
| Players.LevelUpValid | player.js:1008-1036 | a level-up keeps the progression well formed (level at least 1, gauge maximum at least 100, 100 ≤ maxHealth ≤ 300, health ≤ maxHealth) |
| Players.LevelUpN | player.js:1001-1004 | the gauge maximum stays at least 100 over any number of level-ups |
| Players.LevelUpsCapHealth | player.js:1001-1024 | `n` level-ups add `n` levels and `2n` maxHealth, capped at 300, and stay well formed |
| Players.ExpLevelsIsDivision | player.js:997-1005 | the `while` loop, counted by `ExpLevels`, levels up once per whole 100 of EXP and leaves the remainder, in `[0, 100)` |
| Players.GaugeFill | player.js:1045-1051 | the gauge overflows exactly when it reaches its maximum, in which case one maximum is subtracted; nothing is lost |
| Players.Activate | player.js:941-994 | one pick-up changes only health in the progress and keeps it well formed; `HP` leaves the loadout, any other kind leaves the progress |
| Players.ActivateAll | player.js:941-994 | a run of pick-ups changes only health in the progress; a run of `HP` only leaves the loadout, a run without `HP` leaves the progress |
| Players.ActivateAllSnoc | player.js:941-994 | one more pick-up is activated after all the earlier ones |
| Players.ActivateAllValid | player.js:941-994 | a run of pick-ups keeps the loadout and the progress well formed |
| Players.Heal | player.js:945-949 | healing gives `min(maxHealth, health + floor(0.3 * maxHealth))`: one of the two, at most each of them when the health was not above the maximum, and never below the smaller of the old health and the maximum |
| Players.AxisStepBounded | player.js:247-260 | keyboard movement along one axis (`AxisStep`) keeps the ship within one step of the canvas and does nothing without keys |
| Players.CoolDown | player.js:306-308 | the shot cooldown falls by one down to 0 |
| Players.TriggerFrameRules | player.js:264-308 | a trigger frame (`TriggerFrame`: the charge and fire rules, then the cooldown) keeps the charge within 90; a release fires and leaves cooldown 29; a plain shot leaves cooldown 9; letting go ends charging; holding charges |
| Players.ReleaseNeedsFullChargeAndQuiet | player.js:288-304 | letting go fires the charge shot exactly when it was full (90) with cooldown 0 and no shot this frame |
| Players.ChargeBuildsUp | player.js:270-286 | holding the key for `n` frames charges `min(n, 90)` |
| Players.ShotCadence | player.js:264-308 | holding fire shoots once and waits 10 frames, the cooldown counting down |
| Players.GuardTickValid | player.js:311-316 | counting down the invulnerability window (`GuardTick`) keeps it well formed |
| Players.WindowLasts | player.js:311-316 | a window of `t` frames makes the ship invulnerable for exactly `t` frames |
| Players.FiresOneVolley | player.js:264-304 | a frame never fires both shots; a release fires exactly 3 bullets; otherwise with no shot nothing is fired |
| Players.FanShots | player.js:401-416 | the loop builds exactly the specified fan |
| Players.LaserShots | player.js:336-378 | the loop builds exactly the specified row of lasers |
| Players.VolleyShots | player.js:325-546 | the loops build exactly the volley of the current mode |
| Players.FireShots | player.js:263-308 | the trigger frame yields exactly `TriggerStep` and the bullets `Fired` |
| Players.Player.constructor | player.js:3-77 | the ship starts centred 20 pixels above the bottom with fresh weapons, level, gauge, trigger and guard |
| Players.Player.Reset | player.js:905-938 | `reset` recentres the ship and clears bullets, explosions, weapons, level, gauges and the invulnerability window |
| Players.Player.Hit | player.js:895-903 | while invulnerable nothing changes and the hit is refused; otherwise health falls by the damage and 120 frames of invulnerability start |
| Players.Player.ActivatePowerUp | player.js:941-994 | `HP` heals and leaves the loadout; any other kind equips and leaves health; together, `Activate` of the old state |
| Players.Player.UpgradePlayerLevel | player.js:1008-1036 | the progression becomes `LevelUp` of the old one |
| Players.Player.AddExp | player.js:997-1005 | the `while` loop leaves the remainder of EXP by 100 and levels up once per whole 100 |
| Players.Player.UpgradePlayerLevelStep | player.js:1003 | one iteration of the loop levels up once |
| Players.Player.UpgradePLevel | player.js:1055-1073 | below level 6 the level rises by one and P becomes active; at 6 nothing changes |
| Players.Player.AddPGauge | player.js:1039-1052 | at level 6 nothing changes; otherwise the gauge fills and, on overflow, the level rises by one |
| Players.Player.UpdatePowerUps | player.js:1076-1130 | weapons expire by the clock, the low-health boost steps, and finished explosions are dropped |
| Players.Player.Steer | player.js:247-260 | each axis moves one step for its key, within the canvas |
| Players.Player.Shoot | player.js:325-550 | exactly the volley of the current mode and level is appended |
| Players.Player.ShootChargedBullet | player.js:552-593 | exactly the three charged shots are appended and the cooldown becomes 30 |
| Players.Player.Fire | player.js:263-304 | the trigger steps and exactly the bullets it fires are appended |
| Players.Player.Act | player.js:245-304 | the ship moves by the keys unless touch controls are active, and then fires |
| Players.Player.Tick | player.js:306-322 | the cooldown and the invulnerability window count down, and the bullets become exactly the updated old bullets that are still active, in order |
| Players.Player.Update | player.js:245-323 | a player frame: moves unless touch is active, steps the trigger, counts down the guard, and the bullets become exactly the updated old and newly fired bullets that are still active, in order |
| Games.SpawnRate | game.js:236 | the spawn interval is `100 - 7 d` up to difficulty 10 and never below 30 |
| Games.SpawnRateNonIncreasing | game.js:236 | a higher difficulty never spawns more slowly |
| Games.SimultaneousSpawns | game.js:239-240 | `ceil(1.5 * min(3, floor(d / 3) + 1))` is 2 below difficulty 3, 3 below 6, 5 from 6 |
| Games.Count | game.js:223-258 | a frame counter fires exactly when its increment reaches the period, and then restarts at 0 |
| Games.CountPeriod | game.js:223-228 | started at 0, the counter fires first exactly at frame `period` |
| Games.BossAfterInterval | game.js:223-230 | with no boss, the boss comes exactly on the 1080th frame |
| Games.Placed | game.js:246-254 | the `i`-th new enemy is moved `80 i` right; a bottom spawn sits at the canvas bottom with its speed pointing up; nothing else changes |
| Games.SpawnedOnScreen | game.js:246-254 | a freshly placed enemy is not off screen |
| Games.Battered | game.js:334-354 | the damage loop changes only health, which stays between 0 and its old value |
| Games.DamageLoop | game.js:334-354 | the counted loop destroys the enemy exactly when at least one call is made and the calls reach its health; it then stops after `max(1, health)` calls with health 0, otherwise after all `n` |
| Games.Boxes | game.js:320 | the box list has one box per enemy |
| Games.OverlappedNone | game.js:319-320 | a bullet overlaps no enemy exactly when the overlap count is 0 |
| Games.DownedBounds | game.js:334-354 | a bullet destroys at most as many enemies as it overlaps, once each, and the score it earns is not negative |
| Games.StruckAll | game.js:319-378 | striking a list applies the damage loop to each overlapped enemy, in order |
| Games.WornTransitive | game.js:297-379 | wearing enemies down twice is wearing them down |
| Games.WornKeepsBoxes | game.js:297-379 | wear changes no enemy's box |
| Games.StruckWears | game.js:319-378 | a bullet pass only lowers health, and keeps it non-negative |
| Games.ExplosionsLiveAppend | game.js:364 | appended explosions keep every lifetime positive |
| Games.Blast | game.js:357-364 | a bomb leaves a fresh explosion of lifetime 20 at the enemy's centre |
| Games.Survivors | game.js:382-386 | pruning keeps exactly the enemies with health above 0 that are on screen, in order, and never adds any |
| Games.ShieldedNeverLands | game.js:393-406 | a bullet inside the shield never reaches the player |
| Games.UnshieldedLands | game.js:469-486 | without a shield every active bullet touching the player lands |
| Games.SkillTick | game.js:720-734 | the skill stays well formed (available exactly at cooldown 0) |
| Games.SkillRecharges | game.js:729-734 | after use the flash lasts 20 frames and the skill is available again after exactly 300 |
| Games.Remaining | game.js:280-291 | the pick-ups kept are active and not touching the player, and none is added |
| Games.RemainingIsFilter | game.js:280-291 | the pick-ups kept are exactly the fallen ones still active and not touching the player, in order |
| Games.RunStep | game.js:280-291 | one more pick-up is collected exactly when it touches the player, and kept exactly when it does not and is still on screen |
| Games.CollectedOrRemaining | game.js:280-291 | no pick-up is both collected and kept |
| Games.Pick | game.js:280-291 | the loop keeps exactly `Remaining`, and the player's loadout and progress become `ActivateAll` of the kinds `Collected`, in order |
| Games.Wave | game.js:244-257 | a wave has the simultaneous-spawn count of fresh, on-screen enemies of the current difficulty, none bottom-spawned up to difficulty 7 |
| Games.AdvanceWave | game.js:263-271 | every enemy becomes its `Advance` with its own draw, one draw each, and its bullets are emptied |
| Games.WornKeepsQueries | game.js:297-313 | wear changes no enemy's box or type, so an explosion asks the worn enemies the same queries |
| Games.Detonate | game.js:298-311 | one explosion only wears enemies down; it ends as `Replay` of one query per enemy leaves it, so it hurts each enemy at most once; every enemy it hurts is one it had not hurt before and now remembers |
| Games.Detonations | game.js:297-313 | the explosion pass only wears enemies down, and every explosion ends as `Replay` of one query per enemy leaves it |
| Games.Drop | game.js:342-347 | a drop happens exactly when the draw is below 0.3, centred 15 pixels up and left of the enemy's centre |
| Games.Strike | game.js:320-354 | one bullet–enemy pair: the enemy is `Struck`, destruction is `Downs`, at most one drop, and no draw without a destruction |
| Games.SweepTallyCounts | game.js:319-378 | a bullet's sweep, tallied by `SweepTally`, gives every enemy struck; the bullet stays active exactly when it penetrates or overlaps none; destroyed count and score are `Downed` and `Bounty`; one blast per overlap of a bomb |
| Games.SweepStep | game.js:319-378 | one more enemy adds its strike, its kill and its blast to the sweep |
| Games.SweepOne | game.js:320-377 | one loop body adds exactly that enemy's strike, kill, score and blast |
| Games.Sweep | game.js:316-379 | the loop over enemies yields exactly the sweep: enemies struck, activity, score, kills, one blast per bomb overlap and at most one drop per kill |
| Games.Barrage | game.js:316-379 | every player bullet ends as its single-pass activity against the enemies; enemies are only worn down and the score only grows |
| Games.Rewards | game.js:524-529 | a defeated boss drops 5 pick-ups 25 pixels apart from 50 left of its centre |
| Games.Game.constructor | game.js:3-70 | the game starts with score 0, no actors, difficulty 1, timers at 0 and the skill ready |
| Games.Game.StartGame | game.js:152-190 | `startGame` zeroes score and kills, empties enemies, bullets and particles, resets the player, difficulty 1, the timers, the boss and the skill, and keeps the pick-ups |
| Games.Game.ClearBoard | game.js:155-175 | the game's own fields are reset as `startGame` does |
| Games.Game.ClearField | game.js:155-159 | score, kills, enemies, enemy bullets and particles are cleared |
| Games.Game.ClearSchedule | game.js:161-175 | difficulty, spawn timer, boss and skill are reset |
| Games.Game.SpawnBoss | game.js:744-755 | `spawnBoss` empties enemies and enemy bullets and brings in a fresh boss of difficulty `max(3, d)` at full health |
| Games.Game.ClockBoss | game.js:222-230 | with a boss nothing changes; otherwise the boss timer counts and, on reaching 1080, spawns the boss |
| Games.Game.SpawnEnemies | game.js:232-260 | with a boss nothing changes; otherwise the spawn timer counts and, when it fires, exactly one wave of fresh on-screen enemies is appended |
| Games.Game.AdvanceEnemies | game.js:262-271 | every enemy becomes its `Advance` with its own draw and its bullets emptied; the game's enemy-bullet list only grows at its end |
| Games.Game.CollectPowerUps | game.js:279-291 | the pick-ups remaining are exactly `Remaining`, the player's loadout and progress become `ActivateAll` of the kinds `Collected`, and maxHealth stays |
| Games.Game.ExplosionPass | game.js:296-313 | enemies are only worn down, explosions only add to their hit sets, score and kills only grow |
| Games.Game.BulletPass | game.js:315-379 | every player bullet ends as its single-pass activity; enemies are only worn down; score and kills only grow; explosions and pick-ups are appended |
| Games.Game.Incoming | game.js:389-498 | every bullet inside the shield or touching the player is switched off; the player is hit exactly when some bullet lands and the ship is not invulnerable |
| Games.Game.ContactPass | game.js:424-442 | every enemy touching the ship is destroyed; the player is hit exactly when one touches and the ship is not invulnerable |
| Games.Game.DefeatBoss | game.js:512-547 | the boss's score is added, 5 pick-ups dropped, the boss removed with its timer reset, and the difficulty raised by one up to 10 |
| Games.Game.StrikeBoss | game.js:500-553 | on defeat the result is as `DefeatBoss` says, otherwise the boss stays and nothing but bullets and boss health changes; only non-penetrating bullets are switched off |
| Games.Game.BossPass | game.js:444-568 | while the boss lives difficulty and score stay; when it falls they change as `DefeatBoss` says |
| Games.Game.ActivateLightningSkill | game.js:616-658 | while cooling down or unavailable nothing changes; otherwise every enemy scores double and counts a kill, enemies and enemy bullets vanish, and the skill cools down for 300 frames with a 20-frame flash |
| Games.Game.TickLightning | game.js:678-735 | the skill counters step as `SkillTick` |
| Games.Game.Schedule | game.js:222-260 | while a boss is active the spawn timer stays, and a new boss is a fresh one |
| Games.Game.Equip | game.js:216-294 | the player frame and pick-up collection keep the game well formed |
| Games.Game.Attack | game.js:296-379 | the explosion and bullet passes never lower kills or score |
| Games.Game.Defend | game.js:381-568 | difficulty changes only when the boss fight ends in a defeat, by +1, with the boss timer reset |
| Games.Game.Update | game.js:206-578 | a frame raises the difficulty only on a boss defeat, by one; the spawn timer stands still during a boss fight; kills never fall |

## Left out

- **Presentation.** Drawing, gradients, clouds, the UI, audio, the boss warning and the level-up notifications are not modelled. They change nothing the frame logic reads.
- **Particle creation.** `createExplosion` and `createHitEffect` are not modelled. They only add particles, which the model treats as input to the particle filter.
- **Input plumbing.** Key and touch listeners, tap counting and touch dragging are not modelled. The keys and the touch flag are parameters.
- **Game-over.** The game-over branch tests `player.lives`, which is never defined, so it can never run.
- **Lightning bolt paths.** The points of `createLightningBolt` and their random branches are only drawn, so they are not modelled.
- **Turret angles and engine pulse.** The boss's `turrets` angles and `enginePulse` are only drawn, so they are not modelled.
- **Trigonometry.** `Math.sqrt`, `Math.sin` and `Math.cos` are unconstrained functions. The exact values of angles, velocity vectors and sinusoidal positions are therefore not stated, only how they are used.
- **Division by zero.** Where JavaScript divides by a zero distance or speed and gets `NaN` or `Infinity`, the model uses `SafeDiv`, which gives 0.
- Players.Player.Hit: requires a non-negative damage. The game only calls it with the default of 20.
- Players.Player.Reset: requires the trigger to be well formed and does not touch it. The source's `reset` leaves `shootCooldown`, `isCharging` and `chargeTime` as they were.
- Games.Detonate: states wear, the explosion's replay and the enemies it hurts, not the exact new health. That is `CheckEnemyInRange` followed by `DamageLoop`.
- Games.Detonations: states wear and each explosion's replay, not the exact new health, as `Games.Detonate` does.
- Games.Barrage: states each bullet's activity and wear, not the exact enemies, because a later bullet sees the enemies earlier ones wore down. `Games.Sweep` states one bullet exactly.
- Games.Game.ExplosionPass: states wear and the growth of the hit sets only. The replay of each explosion is stated one level down, by `Games.Detonations`.
- Games.Game.BulletPass: states wear only, as `Games.Barrage` does.
- Games.Game.BossPass: states difficulty, score and the boss only. The boss frame, the bullets and the contact are stated by `Bosses.Boss.Update`, `Games.Game.Incoming` and `Games.Game.StrikeBoss`.
- Games.Game.Schedule, Games.Game.Equip, Games.Game.Attack, Games.Game.Defend, Games.Game.Update: these compose the passes above and state only what survives the composition (difficulty, the boss timer, kills). Each pass is stated on its own, as far as its row says. `Games.Game.ExplosionPass` and `Games.Game.BulletPass` state wear only, as noted above.
- **Pruning between passes.** `Game.Update` prunes with `Games.Survivors`, but no contract lists the enemies left after a whole frame.
- **Randomness.** The `Random` stream is the subsequence of `Math.random` draws that the modelled logic reads. The draws for cloud wrapping (game.js:213), particle creation and lightning bolts are not part of it. The model says which draw is used where, but nothing about the distribution.
- **Number representation.** JavaScript numbers are IEEE doubles; the model computes with exact `real` and `int`. So the floors in `Players.Heal`, `Players.Grow`, `Players.Rescale`, `Enemies.ScaledHealth` and `Games.SimultaneousSpawns` are taken without rounding error. On the values the game reaches, the two agree (for example `0.3 * maxHealth` for `maxHealth` in 100..300, and `1.35 * 100`, `1.35 * 135`).
- **Order within a frame.** `Games.Game.Update` runs `Equip` (the player frame, pick-up collection and `updatePowerUps`) before `Schedule` (the boss clock, spawns and enemy moves), whereas game.js:222-294 collects pick-ups after the enemy moves. The two write disjoint fields, neither reads what the other writes, and only `Schedule` draws random numbers, so the frame's result is the same.
- **Aliasing.** Enemies, bullets, pick-ups and explosions are values. The source never shares them between arrays, so no sharing is modelled.
- **Explosion hit keys.** The key string `x_y_typeName` is modelled as the `HitKey` record of the same three parts. Numbers print distinctly and type names contain no `_`, so the two are equally injective.
