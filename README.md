# ebiten-archero combat core in Dafny

A model of the per-tick combat simulation of the ebiten-archero game and
proofs about it. The game runs at a fixed 60 ticks per second. Each tick it:

- moves the player from the held keys;
- counts down the attack cooldown and the wave's spawn timer;
- tops the enemy list up to the number of enemies the wave has released;
- runs every enemy's Rest/Dash state machine and applies contact damage;
- fires a volley at the nearest live enemy when the player stands still and
  the cooldown has run out;
- moves every projectile and lets it strike the first live enemy it
  overlaps;
- prunes the inactive projectiles and dead enemies;
- lets the player drink the potions it touches;
- eases the camera toward the player and clamps it to the map;
- starts the next wave once the current one is released and cleared.

The skill menu (key L, then keys 1/2/3) and the teleport-gate tile lookup
under the player are modelled too.

Modules, one per source file:

- `Geometry`: the strict box overlap test shared by all entities, the 1/60 s
  frame step, and the bounded one-axis move.
- `Skills` (game/skill.go): the six skill kinds and the catalogue.
- `Players` (game/player.go): the `Player` class.
- `Enemies` (game/enemy.go): the `Enemy` class and its state machine as a
  pure `Step` function on `EnemyState`.
- `Projectiles` (game/projectile.go): the `Projectile` class, with `Launch`
  and `Advance` on `ProjectileState`.
- `Waves` (game/wave.go): the `WaveManager` class.
- `Cameras` (systems/camera.go): the `Camera` class.
- `Combat`: the game loop's rules stated on values. This covers filtering,
  potion pickup, contact damage, the volley, projectile resolution,
  nearest-target search, the clamp and the tile lookup.
- `Archero` (main.go): the `ArcheroGame` class. Its methods change the
  objects in place and are proved equal to the `Combat` functions applied to
  snapshots of the old state.

Entities the source changes in place are classes with `modifies` frames. The
methods of `Enemy` and `Projectile` ensure that the new snapshot (`State()`)
equals a pure step function of the old one (`Step`, `Damaged`, `Advance`), and
lemmas state what those step functions promise; `Player`, `WaveManager` and
`Camera` state each field they change. The enemy and projectile lists are
sequences of objects. `ArcheroGame.Valid` requires each list to hold no object
twice and the wave's counters to agree with its number, so the released count
stays within the quota from tick to tick.

Square roots, trigonometry and randomness are parameters (the `Oracles`
datatype):

- `hypot` is the Euclidean length.
- `ring(k)` is the offset of the k-th enemy placed in a tick.
- `dropRoll(i)` is the potion coin of the i-th enemy.
- `diagonal` gives the two diagonal aim points.

Key presses are booleans (the `Input` datatype).

## Model

| member | source | states |
|---|---|---|
| Geometry.OverlapsSymmetric | game/player.go:120-125 | the box collision test gives the same answer whichever box asks |
| Geometry.TouchingIsNotOverlapping | game/player.go:120-125 | boxes that only share an edge or corner do not collide (the test is strict) |
| Geometry.StepWithin | game/player.go:64-78 | one axis of a bounded move takes pos+delta exactly when that lies in [0, limit], and otherwise keeps pos, wherever pos starts (an off-map coordinate never moves on an out-of-range step); an in-bounds coordinate stays in bounds |
| Skills.SixDistinctKinds | game/skill.go:6-13 | there are exactly six kinds, kind i has ordinal i, and ordinals are distinct |
| Skills.HoldsIffCounted | game/player.go:141-159 | a list holds a kind exactly when its count of that kind is positive |
| Skills.CountOfAppend | game/player.go:128-129 | appending a skill adds one to the count of its own kind and nothing to the others |
| Skills.HoldsAppendOther | game/player.go:141-148 | appending a skill of another kind does not change whether a kind is held |
| Skills.CatalogueNamesEachKindOnce | game/skill.go:22-29 | the catalogue has six entries and each kind occurs exactly once |
| Skills.CatalogueOrder | game/skill.go:22-29 | catalogue order is AttackBoost, SpeedBoost, Multishot, ParallelShot, PiercingShot, DiagonalArrow, unlike ordinal order; the first three (the menu) are the two boosts and Multishot |
| Players.EffectiveSpeed | game/player.go:28-30 | a requested speed below 2.7 becomes 3.2, any other is kept; the result is at least 2.7 |
| Players.AfterDamage | game/player.go:107-112 | health after damage is never negative: it drops by exactly the amount while that leaves something, and is exactly 0 when the damage exceeds the health |
| Players.CooledDown | game/player.go:47-51 | a positive cooldown drops by 1/60, a non-positive one is unchanged |
| Players.BoostedDamage | game/player.go:132-134 | a learned skill never lowers non-negative damage and raises it at most by the factor 1.2; positive damage changes exactly when the skill is AttackBoost |
| Players.BoostedSpeed | game/player.go:135-136 | a learned skill never slows the player and adds at most one 0.5 step; speed grows exactly when the skill is SpeedBoost |
| Players.LearnedSpeedStacks | game/player.go:128-138 | after learning a list of skills, speed is the start plus 0.5 per SpeedBoost learned |
| Players.LearnedDamageStacks | game/player.go:128-138 | after learning a list of skills, damage is the start times 1.2 to the number of AttackBoosts learned |
| Players.Player.constructor | game/player.go:26-44 | full health, zero cooldown (so it can attack), 16x16 box, no skills, speed replaced by 3.2 below 2.7 |
| Players.Player.Update | game/player.go:47-51 | the cooldown becomes CooledDown of the old one |
| Players.Player.CanAttack | game/player.go:54-56 | the player may attack exactly when the per-tick cooldown has nothing left to count down (a ready player stays ready while it does not fire) |
| Players.Player.Attack | game/player.go:59-61 | the cooldown becomes 1/attackSpeed, so with a positive attack speed the player cannot attack again at once |
| Players.Player.Move | game/player.go:64-78 | each axis moves by delta times speed only if the box stays in the map; an in-bounds player stays in bounds |
| Players.Player.Center | game/player.go:81-83 | the centre of the player's box: equally far from opposite edges, so within the box when its size is non-negative |
| Players.Player.TakeDamage | game/player.go:107-112 | health becomes AfterDamage of the old health, never negative |
| Players.Player.CheckCollision | game/player.go:120-125 | the player collides with a box exactly when that box's own overlap test against the player says so; boxes that only touch never collide |
| Players.Player.LearnSkill | game/player.go:128-138 | appends exactly the skill; AttackBoost multiplies damage by 1.2, SpeedBoost adds 0.5 to speed; the count of its kind rises by one, the others stay |
| Players.Player.HasSkill | game/player.go:141-148 | true exactly when some learned skill has the kind, equivalently when its count is positive |
| Players.Player.GetSkillCount | game/player.go:151-159 | the number of learned skills of the kind |
| Enemies.StepOfInert | game/enemy.go:50-54 | a tick of an inactive or zero-health enemy only clears `active` |
| Enemies.StepSwitchesMode | game/enemy.go:56-68 | a live enemy's timer drops by 1/60; at 0 or below Rest turns to Dash with 1.2 s and Dash to Rest with 0.8 s; mode and timer do not depend on the player's position |
| Enemies.RestingEnemyStaysPut | game/enemy.go:70-95 | an enemy resting after the mode check does not move |
| Enemies.DashIsBounded | game/enemy.go:71-93 | an enemy moves only when alive, dashing and at a corner-to-point distance strictly between 0 and its follow distance; an enemy inside the map stays inside |
| Enemies.DistanceTo | game/enemy.go:135-140 | the distance to a point placed at the enemy's centre is the length of the zero vector |
| Enemies.DistanceOffsetOnly | game/enemy.go:135-140 | the distance depends only on the point's offset from the enemy's centre: moving both by the same amount, or changing anything but the position, leaves it unchanged |
| Enemies.LivenessOnlyDecreases | game/enemy.go:50-115 | a tick never kills a live enemy, and neither a tick nor damage reactivates an inactive one |
| Enemies.DamageKills | game/enemy.go:104-110 | damage to 0 or below sets health 0 and inactive; otherwise health drops by the amount; health is never negative afterwards |
| Enemies.Enemy.constructor | game/enemy.go:32-48 | active, resting, timer 1.0, full health, 16x16 box |
| Enemies.Enemy.Update | game/enemy.go:50-96 | the new snapshot is `Step` of the old one |
| Enemies.Enemy.DashAlong | game/enemy.go:77-93 | the dash moves each axis by unit vector times speed times 1.8 only if it stays in the map |
| Enemies.Enemy.Center | game/enemy.go:99-101 | the centre of the enemy's box: equally far from opposite edges, so within the box when its size is non-negative |
| Enemies.Enemy.GetDistanceTo | game/enemy.go:135-140 | the length of the offset from the centre of the enemy's box (not the corner the dash measures from) to the point; the nearest-enemy search at main.go:428 uses it |
| Enemies.Enemy.TakeDamage | game/enemy.go:104-110 | the new snapshot is `Damaged` of the old one |
| Enemies.Enemy.IsAlive | game/enemy.go:113-115 | alive exactly when the snapshot is `Alive`: active with health above 0 |
| Enemies.Enemy.CheckCollision | game/enemy.go:143-148 | the enemy collides with a box exactly when that box's own overlap test against the enemy says so; boxes that only touch never collide |
| Projectiles.AimDivisor | game/projectile.go:29-33 | a zero distance is replaced by 1, any other kept, so the divisor is never 0 |
| Projectiles.LaunchAtOrigin | game/projectile.go:26-36 | aiming at the launch point gives velocity (0, 0) |
| Projectiles.LaunchSpeed | game/projectile.go:26-36 | with a positive distance, each velocity component is speed/distance times the aim component |
| Projectiles.AdvanceMoves | game/projectile.go:55-70 | an active projectile moves by its velocity, ages 1/60, keeps velocity and damage, and is inactive afterwards exactly when out of the extended screen or expired |
| Projectiles.AdvanceInactive | game/projectile.go:55-58 | a tick of an inactive projectile changes nothing, and no tick reactivates one |
| Projectiles.Projectile.constructor | game/projectile.go:26-52 | the snapshot is `Launch`: active, lifetime 0 of 5, 8x8 box, not piercing |
| Projectiles.Projectile.Update | game/projectile.go:55-70 | the new snapshot is `Advance` of the old one |
| Projectiles.Projectile.CheckCollision | game/projectile.go:91-96 | the projectile hits a box exactly when that box's own overlap test against the projectile says so; boxes that only touch never collide |
| Waves.Max | game/wave.go:75 | the larger of two reals: at least both, and one of them |
| Waves.Quota | game/wave.go:69-76 | every wave from the first on releases at least 5 enemies, and from wave 2 on at least 9 (5 + 2 * wave after the first) |
| Waves.Interval | game/wave.go:69-76 | the spawn interval is never below the 0.3 s floor, is at most 1.0 s in every wave, and at most 0.9 s from wave 2 on (1.0 - 0.05 * wave after the first) |
| Waves.IntervalShrinks | game/wave.go:75 | every wave's interval lies in [0.3, 1.0] and never grows from one wave to a later one |
| Waves.QuotaGrows | game/wave.go:71 | a later wave has a strictly larger quota |
| Waves.IntervalFloor | game/wave.go:75 | from wave 14 on the interval is the 0.3 s floor |
| Waves.WaveManager.constructor | game/wave.go:21-32 | wave 1, quota 5, none released, interval 1.0, timer 0, not complete, given screen size |
| Waves.WaveManager.Update | game/wave.go:35-51 | nothing while complete; else the timer gains 1/60 and, once at the interval with quota left, it restarts at 0 and one more enemy is released; releases rise by at most one and stay within the quota |
| Waves.WaveManager.StartNextWave | game/wave.go:69-76 | next wave number, quota 5 + 2 * wave, none released, timer 0, not complete, interval max(0.3, 1 - 0.05 * wave), never longer than before |
| Waves.WaveManager.Reset | game/wave.go:79-86 | back to the wave-1 values; the screen size is not touched |
| Cameras.Approach | systems/camera.go:25-33 | one easing step leaves 0.9 of the gap to the target on the same side, never overshooting; the target is its only fixed point |
| Cameras.ApproachTimesGap | systems/camera.go:25-33 | after n steps toward a fixed target the gap is 0.9^n of the first |
| Cameras.ApproachTimesShrinks | systems/camera.go:25-33 | each of n steps shrinks the gap by the factor 0.9 |
| Cameras.ApproachTimesReaches | systems/camera.go:25-33 | n steps reach the target exactly when the camera started on it |
| Cameras.Camera.constructor | systems/camera.go:13-22 | at (0, 0), following (0, 0), with the given size |
| Cameras.Camera.Update | systems/camera.go:25-33 | each coordinate takes one `Approach` step toward follow point minus half the size; a camera on its target stays put; only x and y change |
| Cameras.Camera.SetFollowTarget | systems/camera.go:36-39 | sets the follow point and nothing else |
| Combat.Filter | main.go:392-408 | the in-place filter never lengthens a list |
| Combat.FilterMembers | main.go:392-408 | everything kept is in the list and passes; everything in the list that passes is kept |
| Combat.FilterConcat | main.go:392-408 | filtering a concatenation is concatenating the filtered parts, so the kept elements keep their relative order |
| Combat.FilterSingleton | main.go:392-408 | a single element is kept exactly when it passes |
| Combat.FilterAllKept | main.go:392-408 | a list whose elements all pass is kept whole |
| Combat.FilterTwice | main.go:392-408 | filtering twice equals filtering once (a second cleanup removes nothing) |
| Combat.Healed | main.go:251-254 | one potion heals 20 but never above the maximum, and never lowers health at or below the maximum |
| Combat.HealedTimesClosedForm | main.go:245-261 | n potions give health + 20n when that fits, else the maximum, and health stays within [start, max] |
| Combat.PickupSplits | main.go:245-261 | the potions left are exactly those the player does not touch; drunk and left add up to all |
| Combat.PickupSnoc | main.go:247-259 | one more potion is kept when untouched and counted as drunk when touched |
| Combat.HitTimesClosedForm | main.go:175-177 | n contact hits take 5n health, floored at 0 |
| Combat.ContactCount | main.go:172-184 | the number of contact hits is at most the number of enemies |
| Combat.ContactCountSnoc | main.go:175-177 | one more enemy adds a hit exactly when it is alive and overlaps the player |
| Combat.StepAll | main.go:172-175 | ticking the list keeps its length |
| Combat.StepAllSnoc | main.go:172-175 | ticking one more enemy appends its own tick |
| Combat.StepAllAt | main.go:172-175 | the i-th ticked enemy is the tick of the i-th enemy |
| Combat.NoDeathDuringStep | main.go:178-183 | no live enemy dies during its own tick |
| Combat.DropsSnoc | main.go:178-183 | one more enemy appends its own drop, if any |
| Combat.NoDrops | main.go:178-183 | the enemy loop's potion drop never fires |
| Combat.VolleyIgnoresOtherSkills | main.go:304-340 | only Multishot and DiagonalArrow change the volley size; ParallelShot and the rest have no effect |
| Combat.VolleyShape | main.go:304-340 | a volley has 2 arrows with Multishot else 1, plus 2 with DiagonalArrow; all active, aged 0, speed 4.5, the player's damage; piercing exactly on the diagonal pair with PiercingShot |
| Combat.FirstHit | main.go:379-388 | the index of the first live enemy the projectile overlaps, none before it; the list length when there is none |
| Combat.StrikeHitsFirstOnly | main.go:379-388 | a strike damages only the first enemy hit, and the projectile ends on a hit whether or not it is piercing |
| Combat.ResolveAll | main.go:373-390 | resolution keeps both list lengths |
| Combat.ResolveAllShape | main.go:373-390 | resolution only lowers health or clears liveness of live enemies, never moves or revives one, never touches a dead one, never revives a projectile |
| Combat.ScanFindsNearest | main.go:420-435 | the search finds a live enemy at minimal distance, the earliest among equals, or nothing when no live enemy is nearer than the largest float |
| Combat.NearestNoneIffNoneAlive | main.go:420-435 | with finite distances, no target is found exactly when no enemy is alive |
| Combat.Clamp | main.go:548-556 | with lo <= hi the result is in [lo, hi]; a value inside is returned unchanged; below lo gives lo, above hi gives hi |
| Combat.RowMajorInRange | main.go:512-513 | a cell inside the grid has a row-major index inside the layer data |
| Combat.Truncate | main.go:509-510 | the float-to-int conversion drops the fraction toward zero |
| Archero.DirectionCancels | main.go:214-230 | opposite keys cancel on their axis; no motion exactly when both pairs cancel |
| Archero.ResolveStep | main.go:373-390 | resolving one more projectile extends the resolution of those before it |
| Archero.LiveOnlyKeepsExactly | main.go:401-407 | the pruned enemy list holds exactly the live enemies; its states are the old live states in order |
| Archero.ActiveOnlyKeepsExactly | main.go:393-399 | the pruned projectile list holds exactly the active projectiles; its states are the old active states in order |
| Archero.LiveOnlyAllAlive | main.go:401-407 | every enemy kept is alive |
| Archero.ActiveOnlyAllActive | main.go:393-399 | every projectile kept is active |
| Archero.LiveOnlyDistinct | main.go:401-407 | pruning a list without repeats leaves a list without repeats |
| Archero.ActiveOnlyDistinct | main.go:393-399 | pruning a list without repeats leaves a list without repeats |
| Archero.TickedStep | main.go:172-175 | one pass of the enemy loop extends the ticked list by the enemy just ticked |
| Archero.HitsStep | main.go:175-177 | one pass costs the player one more hit exactly when that enemy is in contact |
| Archero.DropsStep | main.go:178-183 | one pass adds the drop of the enemy just ticked, if any |
| Archero.Picks | main.go:198-212 | one skill per pressed key among 1, 2 and 3 |
| Archero.PicksFromOffer | main.go:198-212 | every pick is one of the three options, in key order |
| Archero.PicksLearned | main.go:198-212 | learning the picks key by key gives the stats of learning the whole pick list |
| Archero.LearnFolds | game/player.go:128-138 | learning one more skill extends both stat folds by that skill's boost |
| Archero.KeepActive | main.go:393-399 | the pruning loop keeps exactly `ActiveOnly` of the list |
| Archero.KeepLive | main.go:401-407 | the pruning loop keeps exactly `LiveOnly` of the list |
| Archero.ArcheroGame.constructor | main.go:130-145 | player from the save record with speed 3.2, zero cooldown and no skills; empty lists; wave 1 with quota 5, none released, timer 0, interval 1.0, not complete, sized to the map; camera at the origin following the origin with the screen size; map size is tiles times tile size |
| Archero.ArcheroGame.CleanupEntities | main.go:392-408 | projectiles become `ActiveOnly` and enemies `LiveOnly` of the old lists; no repeats |
| Archero.ArcheroGame.FindNearestEnemy | main.go:420-435 | returns the enemy at index `Nearest` of the states, or null exactly when `Nearest` finds none |
| Archero.ArcheroGame.SpawnEnemiesIfNeeded | main.go:410-418 | only appends, up to max(old length, released count); each new enemy is fresh at the player plus its ring offset with 30 health, speed 1.2, damage 5, follow distance 400 |
| Archero.ArcheroGame.HandleWaveComplete | main.go:437-441 | starts the next wave (number, quota 5 + 2 * wave, none released, timer 0, interval max(0.3, 1 - 0.05 * wave)) exactly when the quota is released and the enemy list is empty; else the wave is unchanged; the wave counters stay consistent and the interval never grows |
| Archero.ArcheroGame.HandlePotions | main.go:245-261 | potions become `Uncollected` of the old ones; health is healed once per potion collected, capped at the maximum |
| Archero.ArcheroGame.UpdateCamera | main.go:443-451 | follows the player's centre, takes one easing step, then clamps (lower bound first) to the map; inside the map when it is larger than the screen |
| Archero.ArcheroGame.HandleMovement | main.go:214-243 | no key or cancelling keys leave the player; otherwise it steps along the key direction normalised to unit length; an in-bounds player stays in bounds |
| Archero.ArcheroGame.MoveAlong | main.go:231-242 | moves along the non-zero direction scaled to unit length |
| Archero.ArcheroGame.HandleSkillSelection | main.go:198-212 | the skills learned are `Picks` of the keys in key order; damage and speed are the learned folds; any key returns to Playing |
| Archero.ArcheroGame.PressKey | main.go:199-202 | a pressed option key learns that option and returns to Playing; otherwise nothing changes |
| Archero.ArcheroGame.HandleTeleportGate | main.go:507-522 | reports activation exactly when E is pressed and some layer holds the gate tile in the cell under the player's centre |
| Archero.ArcheroGame.EnemyPhase | main.go:172-184 | enemy states become `StepAll` of the old ones; the player loses 5 health per ticked enemy in contact (floored at 0); potions gain the loop's drops |
| Archero.ArcheroGame.EnemyLoopRun | main.go:172-184 | the loop ends with every enemy ticked and the loop invariant kept |
| Archero.ArcheroGame.EnemyPass | main.go:173-183 | one pass keeps the enemy loop invariant |
| Archero.ArcheroGame.TickEnemy | main.go:173-183 | enemy i takes its `Step`, the player loses 5 on contact, and a drop is added if the enemy died during the tick and its coin came up |
| Archero.ArcheroGame.UpdateProjectiles | main.go:373-390 | projectile and enemy states become `ResolveAll` of the old ones |
| Archero.ArcheroGame.ProjectileLoopRun | main.go:374-389 | the loop ends with every projectile resolved |
| Archero.ArcheroGame.ProjectilePass | main.go:375-388 | one pass keeps the projectile loop invariant |
| Archero.ArcheroGame.ResolveAt | main.go:375-388 | projectile i moves and strikes: its state and the enemy states become `Strike` of its advanced state |
| Archero.ArcheroGame.AdvanceAt | main.go:375 | projectile i takes its `Advance`; nothing else changes |
| Archero.ArcheroGame.StrikeAt | main.go:376-388 | an active projectile i strikes the first enemy it hits |
| Archero.ArcheroGame.StrikeFirstEnemy | main.go:379-388 | the projectile and enemy states become `Strike` of the old ones: skip dead enemies, damage the first overlapped one, deactivate and stop |
| Archero.ArcheroGame.SpawnOffsetProjectile | main.go:346-359 | a fresh arrow from the player's corner shifted by (ox, oy), aimed at the target shifted the same way |
| Archero.ArcheroGame.SpawnProjectile | main.go:361-371 | a fresh arrow from the player's corner at the aim point, piercing exactly when PiercingShot is held |
| Archero.ArcheroGame.HandleAutoAttack | main.go:274-344 | nothing changes when moving, with no target or during the cooldown; otherwise the volley aimed at the nearest enemy is appended as fresh arrows and the cooldown restarts once |
| Archero.ArcheroGame.Shoot | main.go:288-343 | appends the volley aimed at the target as fresh arrows, then restarts the cooldown |
| Archero.ArcheroGame.AddShots | main.go:346-371 | the arrows are appended after the old list, with no repeats |
| Archero.ArcheroGame.FireVolley | main.go:288-340 | fresh distinct arrows whose states are `Volley` of the skills and centres |
| Archero.ArcheroGame.FireStraight | main.go:291-322 | fresh distinct arrows whose states are `StraightShots`: one, or the Multishot pair |
| Archero.ArcheroGame.FirePair | main.go:304-311 | the two Multishot arrows, offset to either side across the aim |
| Archero.ArcheroGame.FireDiagonal | main.go:324-340 | fresh distinct arrows whose states are `DiagonalShots`: none, or two at the diagonal aim points |
| Archero.ArcheroGame.Tick | main.go:147-196 | L opens the menu with the first three catalogue entries; in the menu the option keys learn their picks (skills, damage and speed folded in key order) while the position, health, cooldown, wave, camera, enemies and projectiles stay untouched and the gate is not checked; otherwise the gate is checked and Escape terminates with the player, wave, camera, enemies and projectiles untouched; after a playing tick every enemy is alive and every projectile active |
| Archero.ArcheroGame.PlayFrame | main.go:166-192 | a playing frame keeps the game valid, and afterwards every listed enemy is alive and every listed projectile active |
| Archero.ArcheroGame.MovePhase | main.go:166-184 | the cooldown ticks once, an in-bounds player stays in bounds, the wave releases at most one enemy, and the enemy list keeps its old enemies first and grows to the released count with fresh ones |
| Archero.ArcheroGame.PlayerStep | main.go:166-168 | the cooldown becomes CooledDown of the old one, an in-bounds player stays in bounds, and the wave releases at most one enemy |
| Archero.ArcheroGame.ArrivalStep | main.go:170-184 | the enemy list keeps its old enemies first and grows to max(old length, released count) with fresh enemies only |
| Archero.ArcheroGame.SpawnStep | main.go:170 | the enemy list keeps its old enemies first and grows to max(old length, released count) with fresh enemies at the player plus their ring offsets |
| Archero.ArcheroGame.EnemyStep | main.go:172-184 | enemy states become `StepAll` of the old ones, the player loses 5 per ticked enemy in contact (floored at 0), and potions gain the loop's drops |
| Archero.ArcheroGame.AttackPhase | main.go:186-187 | projectile and enemy states become `ResolveAll` of the old projectiles followed by the tick's volley (none unless the attack fires) and the old enemies; the cooldown restarts exactly when the attack fires |
| Archero.ArcheroGame.AttackStep | main.go:186 | projectile states become the old ones followed by the volley aimed at the nearest enemy when the attack fires, and nothing else; the cooldown restarts exactly when it fires |
| Archero.ArcheroGame.CleanupPhase | main.go:188-192 | enemies become `LiveOnly` and projectiles `ActiveOnly` of the old lists (so all alive and active); untouched potions remain and health heals once per potion taken; the camera follows the player's centre; the next wave starts exactly when the quota is released and no enemy is left, else the wave is unchanged |
| Archero.ArcheroGame.Aftermath | main.go:189-192 | potions, camera and wave check in order: untouched potions remain, health heals once per potion taken, the camera follows the player's centre and stays inside a map larger than the screen, and the wave advances exactly when the quota is released and no enemy is left |

## Left out

- Rendering is not modelled: every `Draw` method, `DrawTilemap`, `DrawHealthBar`, `DrawSkillMenu`, `drawUI` and the gate hint only issue draw calls.
- File and JSON input/output is not modelled. This covers `NewTilemapJSON`, systems/save.go, `handleSaveLoad` (F5/F9) and the asset loading in `NewArcheroGame`. The game constructor takes the save record and the decoded map as values.
- Key polling is not modelled; the held or just-pressed keys of a tick arrive as the `Input` booleans.
- `GetSpawnPosition`'s random angle and distance are the `ring` oracle; only the offset from the player is modelled.
- The 30% potion coin is the `dropRoll` oracle.
- The diagonal aim points (atan2, cos and sin at 30 degrees and range 200) are the `diagonal` oracle.
- Every square root is the `hypot` oracle. Movement requires it to be positive on non-zero vectors.
- `Player.GetDistanceTo` (game/player.go:99-104) and `Player.IsAlive` (game/player.go:115-117) are not modelled; the core never calls them.
- Log output is not modelled. Neither is the gate's effect, which only logs, so `HandleTeleportGate` returns whether it would fire.
- Escape's termination is the `terminate` result of `Tick`.
- Timers and positions are exact reals. IEEE rounding is not modelled, and no exact tick counts are claimed.
- Integer counters are unbounded. Go's wrap-around at 2^63 is not modelled, since no wave count comes near it.
- Players.Player.Attack: requires a non-zero attack speed, where Go would set the cooldown to +Inf. `ArcheroGame.Valid` carries the same condition.
- Combat.StraightShots: when the player and target centres coincide, the source divides by a zero length and gets NaN. The model uses the zero vector, as its `Unit` function does.
- Projectiles.LaunchSpeed: does not state that the velocity has length `speed`. That needs `hypot` to be the true length, which is nonlinear real arithmetic the model does not assume.
- Archero.ArcheroGame.constructor: requires positive tile sizes and layers with one id per cell. On a malformed map the source divides by zero or indexes out of range.
- Combat.NearestNoneIffNoneAlive: requires every distance below the largest float64. The source compares strictly against math.MaxFloat64, so a live enemy at that distance or more is never chosen.
- Archero.ArcheroGame.Tick: states the mode and skill transitions, termination, the gate, validity and the liveness of everything left after cleanup. The exact new state of each step is stated by that step's own method, not repeated in `Tick`.
- Archero.ArcheroGame.PlayFrame: states validity and the liveness of everything left after cleanup, not the composed new state; each phase's own method states that.
- Archero.ArcheroGame.MovePhase: states the cooldown, the player's bounds, the wave's release count and the shape of the enemy list, not the ticked enemy states; `SpawnStep` and `EnemyStep` state those.
- Archero.ArcheroGame.PlayerStep: states the player's bounds rather than the exact new position; `HandleMovement` states that.
- Archero.ArcheroGame.ArrivalStep: states the shape of the enemy list, not the spawned and ticked states; `SpawnStep` and `EnemyStep` state those.
- The spawn helpers return the new arrow, and the attack appends the whole volley at once. The source appends each arrow as it makes it. The final list and its order are the same.
- The potion drop in the enemy loop is modelled as written, but it never fires: an enemy cannot die during its own tick (`Combat.NoDrops`).
- ParallelShot and the piercing flag are modelled as written: ParallelShot changes nothing, and the flag is set but never read.
