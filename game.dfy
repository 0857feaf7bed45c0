/** The game object: the player, the enemy, projectile and potion lists, the
    wave counters, the camera and the map, advanced one tick at a time in a
    fixed order. */
module Archero {
  import opened Geometry
  import opened Skills
  import opened Players
  import opened Enemies
  import opened Projectiles
  import opened Waves
  import opened Cameras
  import opened Combat

  /** The logical screen is 960 by 540 pixels. */
  const ScreenWidth: real := 960.0
  const ScreenHeight: real := 540.0
  /** Speed handed to every new player (the constructor keeps it, being above 2.7). */
  const StartSpeed: real := 3.2
  /** Stats of every spawned enemy. */
  const EnemyHealth: real := 30.0
  const EnemySpeed: real := 1.2
  const EnemyDamage: real := 5.0
  const EnemyFollowDist: real := 400.0

  /** Whether the game is running or waiting for a skill choice. */
  datatype GameMode = Playing | SkillSelect

  /** The values a new game takes from its save record. */
  datatype SaveData = SaveData(playerX: real, playerY: real, maxHealth: real, attackDamage: real,
                               attackSpeed: real)

  /** Keys held (or, for E, just pressed) during one tick. `up` stands for W or
      the up arrow, and so on. */
  datatype Input = Input(keyL: bool, key1: bool, key2: bool, key3: bool, keyE: bool, escape: bool,
                         up: bool, down: bool, left: bool, right: bool)
  {
    /** A movement key is held. */
    predicate Moving() { up || down || left || right }
  }

  /** What the model takes from outside for one tick: `hypot` is the Euclidean
      length of a vector; `ring(k)` is the offset from the player of the k-th
      enemy placed in the tick; `dropRoll(i)` is the potion coin of the i-th
      enemy; `diagonal` gives the two diagonal aim points from the player's and
      the target's centres. */
  datatype Oracles = Oracles(hypot: (real, real) -> real, ring: nat -> (real, real),
                             dropRoll: nat -> bool,
                             diagonal: (real, real, real, real) -> DiagonalTargets)

  /** The length of a non-zero vector is positive. */
  ghost predicate PositiveLength(hypot: (real, real) -> real)
  {
    forall a: real, b: real :: a != 0.0 || b != 0.0 ==> hypot(a, b) > 0.0
  }

  /** The movement direction from the keys, each axis -1, 0 or 1; opposite keys cancel. */
  function Direction(up: bool, down: bool, left: bool, right: bool): (real, real)
  {
    ((if left then -1.0 else 0.0) + (if right then 1.0 else 0.0),
     (if up then -1.0 else 0.0) + (if down then 1.0 else 0.0))
  }

  /** Opposite keys cancel, and a single key moves along its axis only. */
  lemma DirectionCancels(up: bool, down: bool, left: bool, right: bool)
    ensures Direction(up, down, left, right).0 == 0.0 <==> (left == right)
    ensures Direction(up, down, left, right).1 == 0.0 <==> (up == down)
    ensures Direction(up, down, left, right) == (0.0, 0.0) <==> left == right && up == down
  {
  }

  /** A non-zero vector scaled to unit length. */
  function Normalised(dx: real, dy: real, hypot: (real, real) -> real): (real, real)
    requires hypot(dx, dy) != 0.0
  {
    (dx / hypot(dx, dy), dy / hypot(dx, dy))
  }

  /** (x1, y1) is where a step from (x0, y0) along the non-zero vector (dx, dy),
      scaled to unit length and then by `speed`, lands: each axis moves only if
      it stays inside [0, limitX] (respectively [0, limitY]). */
  ghost predicate SteppedAlong(x0: real, y0: real, x1: real, y1: real, dx: real, dy: real, speed: real,
                               limitX: real, limitY: real, hypot: (real, real) -> real)
  {
    && hypot(dx, dy) != 0.0
    && var (ux, uy) := Normalised(dx, dy, hypot);
       && x1 == StepWithin(x0, ux * speed, limitX)
       && y1 == StepWithin(y0, uy * speed, limitY)
  }

  /** No two positions of the list hold the same object. */
  predicate Distinct<T(==)>(s: seq<T>)
  {
    forall i, j :: 0 <= i < j < |s| ==> s[i] != s[j]
  }

  /** Resolving one more projectile extends the resolution of the ones before it. */
  lemma ResolveStep(ps: seq<ProjectileState>, es: seq<EnemyState>, i: nat, w: real, h: real)
    requires i < |ps|
    ensures var r := ResolveAll(ps[..i], es, w, h);
      var (q, es2) := Strike(Advance(ps[i], w, h), r.1);
      ResolveAll(ps[..i + 1], es, w, h) == (r.0 + [q], es2)
  {
    assert ps[..i + 1][..i] == ps[..i];
  }

  /** Two duplicate-free lists with no element in common join into one. */
  lemma DistinctConcat<T>(a: seq<T>, b: seq<T>)
    requires Distinct(a) && Distinct(b)
    requires forall i, j :: 0 <= i < |a| && 0 <= j < |b| ==> a[i] != b[j]
    ensures Distinct(a + b)
  {
  }

  /** The snapshots of a list of enemies, one per object, in list order. */
  function EnemyStates(es: seq<Enemy>): (r: seq<EnemyState>)
    reads es
    ensures |r| == |es|
  {
    seq(|es|, i requires 0 <= i < |es| reads es => es[i].State())
  }

  /** The same snapshot map as `EnemyStates`, for the projectile list. */
  function ProjectileStates(ps: seq<Projectile>): (r: seq<ProjectileState>)
    reads ps
    ensures |r| == |ps|
  {
    seq(|ps|, i requires 0 <= i < |ps| reads ps => ps[i].State())
  }

  /** The test the cleanup keeps enemies by. */
  predicate Living(s: EnemyState) { s.Alive() }
  /** The test the cleanup keeps projectiles by. */
  predicate Flying(s: ProjectileState) { s.active }

  /** The live enemies of a list, in order. */
  function LiveOnly(es: seq<Enemy>): seq<Enemy>
    reads es
  {
    if es == [] then []
    else LiveOnly(es[..|es| - 1]) + if es[|es| - 1].IsAlive() then [es[|es| - 1]] else []
  }

  /** The active projectiles of a list, in order. */
  function ActiveOnly(ps: seq<Projectile>): seq<Projectile>
    reads ps
  {
    if ps == [] then []
    else ActiveOnly(ps[..|ps| - 1]) + if ps[|ps| - 1].active then [ps[|ps| - 1]] else []
  }

  /** The pruned enemy list holds exactly the live enemies, and its states are the
      live states of the old list in their order. */
  lemma {:induction false} LiveOnlyKeepsExactly(es: seq<Enemy>)
    ensures forall i :: 0 <= i < |LiveOnly(es)| ==> LiveOnly(es)[i] in es && LiveOnly(es)[i].IsAlive()
    ensures forall i :: 0 <= i < |es| && es[i].IsAlive() ==> es[i] in LiveOnly(es)
    ensures EnemyStates(LiveOnly(es)) == Filter(EnemyStates(es), Living)
  {
    if es != [] {
      var init := es[..|es| - 1];
      LiveOnlyKeepsExactly(init);
      assert EnemyStates(es) == EnemyStates(init) + [es[|es| - 1].State()];
      assert forall i :: 0 <= i < |init| ==> init[i] == es[i];
      var rest := LiveOnly(init);
      var last := if es[|es| - 1].IsAlive() then [es[|es| - 1]] else [];
      assert EnemyStates(rest + last) == EnemyStates(rest) + EnemyStates(last);
    }
  }

  /** The pruned projectile list holds exactly the active projectiles, and its
      states are the active states of the old list in their order. */
  lemma {:induction false} ActiveOnlyKeepsExactly(ps: seq<Projectile>)
    ensures forall i :: 0 <= i < |ActiveOnly(ps)| ==> ActiveOnly(ps)[i] in ps && ActiveOnly(ps)[i].active
    ensures forall i :: 0 <= i < |ps| && ps[i].active ==> ps[i] in ActiveOnly(ps)
    ensures ProjectileStates(ActiveOnly(ps)) == Filter(ProjectileStates(ps), Flying)
  {
    if ps != [] {
      var init := ps[..|ps| - 1];
      ActiveOnlyKeepsExactly(init);
      assert ProjectileStates(ps) == ProjectileStates(init) + [ps[|ps| - 1].State()];
      assert forall i :: 0 <= i < |init| ==> init[i] == ps[i];
      var rest := ActiveOnly(init);
      var last := if ps[|ps| - 1].active then [ps[|ps| - 1]] else [];
      assert ProjectileStates(rest + last) == ProjectileStates(rest) + ProjectileStates(last);
    }
  }

  /** Every enemy the pruning keeps is alive. */
  lemma LiveOnlyAllAlive(es: seq<Enemy>)
    ensures forall i :: 0 <= i < |LiveOnly(es)| ==> LiveOnly(es)[i].IsAlive()
  {
    LiveOnlyKeepsExactly(es);
  }

  /** Every projectile the pruning keeps is active. */
  lemma ActiveOnlyAllActive(ps: seq<Projectile>)
    ensures forall i :: 0 <= i < |ActiveOnly(ps)| ==> ActiveOnly(ps)[i].active
  {
    ActiveOnlyKeepsExactly(ps);
  }

  /** Keeping the live enemies of a list without repeats gives a list without repeats. */
  lemma {:induction false} LiveOnlyDistinct(es: seq<Enemy>)
    requires Distinct(es)
    ensures Distinct(LiveOnly(es))
  {
    if es != [] {
      var init := es[..|es| - 1];
      LiveOnlyDistinct(init);
      LiveOnlyKeepsExactly(init);
      assert forall i :: 0 <= i < |init| ==> init[i] != es[|es| - 1];
    }
  }

  /** Keeping the active projectiles of a list without repeats gives a list without repeats. */
  lemma {:induction false} ActiveOnlyDistinct(ps: seq<Projectile>)
    requires Distinct(ps)
    ensures Distinct(ActiveOnly(ps))
  {
    if ps != [] {
      var init := ps[..|ps| - 1];
      ActiveOnlyDistinct(init);
      ActiveOnlyKeepsExactly(init);
      assert forall i :: 0 <= i < |init| ==> init[i] != ps[|ps| - 1];
    }
  }

  /** One pass of the enemy loop extends the ticked list by the enemy just ticked. */
  lemma TickedStep(before: seq<EnemyState>, after: seq<EnemyState>, i: nat, s: EnemyState,
                   px: real, py: real, w: real, h: real, hypot: (real, real) -> real)
    requires i < |before|
    requires after == StepAll(before[..i], px, py, w, h, hypot)
    requires s == Step(before[i], px, py, w, h, hypot)
    ensures after + [s] == StepAll(before[..i + 1], px, py, w, h, hypot)
  {
    assert before[..i + 1] == before[..i] + [before[i]];
    StepAllSnoc(before[..i], before[i], px, py, w, h, hypot);
  }

  /** One pass of the enemy loop costs the player one more hit exactly when the
      enemy just ticked is in contact. */
  lemma HitsStep(after: seq<EnemyState>, s: EnemyState, box: Box, h0: real, health: real, health': real)
    requires health == HitTimes(h0, ContactCount(after, box))
    requires health' == if Contact(s, box) then AfterDamage(health, ContactDamage) else health
    ensures health' == HitTimes(h0, ContactCount(after + [s], box))
  {
    ContactCountSnoc(after, s, box);
  }

  /** One pass of the enemy loop adds the drop of the enemy just ticked, if any. */
  lemma DropsStep(before: seq<EnemyState>, after: seq<EnemyState>, i: nat, s: EnemyState,
                  pots0: seq<Potion>, pots: seq<Potion>, pots': seq<Potion>, roll: nat -> bool)
    requires i < |before| && |after| == i
    requires pots == pots0 + Drops(before[..i], after, roll)
    requires pots' == pots + if before[i].Alive() && !s.Alive() && roll(i) then [DropAt(s.x, s.y)] else []
    ensures pots' == pots0 + Drops(before[..i + 1], after + [s], roll)
  {
    assert before[..i + 1] == before[..i] + [before[i]];
    DropsSnoc(before[..i], after, before[i], s, roll);
  }

  /** The states of two lists joined are the states of each, joined. */
  lemma ProjectileStatesAppend(a: seq<Projectile>, b: seq<Projectile>)
    ensures ProjectileStates(a + b) == ProjectileStates(a) + ProjectileStates(b)
  {
  }

  /** Replacing the first element after a prefix moves it onto the prefix. */
  lemma SpliceNext<T>(done: seq<T>, rest: seq<T>, x: T)
    requires |rest| > 0
    ensures (done + rest)[|done| := x] == (done + [x]) + rest[1..]
  {
  }

  /** The skills picked from the three options by keys 1, 2 and 3, in key order;
      pressing several keys in one tick learns several. */
  function Picks(options: seq<Skill>, key1: bool, key2: bool, key3: bool): (r: seq<Skill>)
    requires |options| >= 3
    ensures |r| == (if key1 then 1 else 0) + (if key2 then 1 else 0) + (if key3 then 1 else 0)
  {
    (if key1 then [options[0]] else []) + (if key2 then [options[1]] else [])
    + (if key3 then [options[2]] else [])
  }

  /** Every skill picked is one of the three on offer, and the picks keep key order. */
  lemma PicksFromOffer(options: seq<Skill>, key1: bool, key2: bool, key3: bool)
    requires |options| >= 3
    ensures var r := Picks(options, key1, key2, key3);
      forall i :: 0 <= i < |r| ==> r[i] in options[..3]
    ensures key1 ==> Picks(options, key1, key2, key3)[0] == options[0]
    ensures !key1 && key2 ==> Picks(options, key1, key2, key3)[0] == options[1]
    ensures key1 && key2 ==> Picks(options, key1, key2, key3)[1] == options[1]
  {
  }

  /** Damage after learning `s` if `key` is pressed. */
  function PressDamage(damage: real, key: bool, s: Skill): real
  {
    if key then BoostedDamage(damage, s.kind) else damage
  }

  /** Speed after learning `s` if `key` is pressed. */
  function PressSpeed(speed: real, key: bool, s: Skill): real
  {
    if key then BoostedSpeed(speed, s.kind) else speed
  }

  /** Learning the picks one key at a time, in key order, gives the stats of
      learning the whole pick list. */
  lemma PicksLearned(options: seq<Skill>, key1: bool, key2: bool, key3: bool, damage: real, speed: real)
    requires |options| >= 3
    ensures LearnedDamage(damage, Picks(options, key1, key2, key3))
            == PressDamage(PressDamage(PressDamage(damage, key1, options[0]), key2, options[1]), key3, options[2])
    ensures LearnedSpeed(speed, Picks(options, key1, key2, key3))
            == PressSpeed(PressSpeed(PressSpeed(speed, key1, options[0]), key2, options[1]), key3, options[2])
  {
    var p1 := if key1 then [options[0]] else [];
    var p2 := p1 + if key2 then [options[1]] else [];
    var p3 := p2 + if key3 then [options[2]] else [];
    assert p3 == Picks(options, key1, key2, key3);
    LearnFolds(damage, speed, [], options[0]);
    assert [] + [options[0]] == [options[0]];
    assert p1 + [] == p1 && p2 + [] == p2;
    LearnFolds(damage, speed, p1, options[1]);
    LearnFolds(damage, speed, p2, options[2]);
  }

  /** Learning one more skill extends both stat folds by that skill's boost. */
  lemma LearnFolds(damage: real, speed: real, learned: seq<Skill>, s: Skill)
    ensures LearnedDamage(damage, learned + [s]) == BoostedDamage(LearnedDamage(damage, learned), s.kind)
    ensures LearnedSpeed(speed, learned + [s]) == BoostedSpeed(LearnedSpeed(speed, learned), s.kind)
  {
    assert (learned + [s])[..|learned|] == learned;
  }

  /** The pruning loop over the projectile list. */
  method KeepActive(ps: seq<Projectile>) returns (kept: seq<Projectile>)
    ensures kept == ActiveOnly(ps)
  {
    kept := [];
    var i := 0;
    while i < |ps|
      invariant 0 <= i <= |ps|
      invariant kept == ActiveOnly(ps[..i])
    {
      assert ps[..i + 1][..i] == ps[..i];
      if ps[i].active {
        kept := kept + [ps[i]];
      }
      i := i + 1;
    }
    assert ps[..i] == ps;
  }

  /** The pruning loop over the enemy list. */
  method KeepLive(es: seq<Enemy>) returns (kept: seq<Enemy>)
    ensures kept == LiveOnly(es)
  {
    kept := [];
    var i := 0;
    while i < |es|
      invariant 0 <= i <= |es|
      invariant kept == LiveOnly(es[..i])
    {
      assert es[..i + 1][..i] == es[..i];
      if es[i].IsAlive() {
        kept := kept + [es[i]];
      }
      i := i + 1;
    }
    assert es[..i] == es;
  }

  class ArcheroGame {
    const player: Player
    var enemies: seq<Enemy>
    var projectiles: seq<Projectile>
    var potions: seq<Potion>
    const wave: WaveManager
    const camera: Camera
    const tilemap: Tilemap
    /** The map's size in pixels. */
    const mapWidth: real
    const mapHeight: real
    var mode: GameMode
    /** The three skills on offer while a choice is pending. */
    var skillOptions: seq<Skill>

    /** No entity is listed twice, the player can attack (a zero attack speed
        would make the cooldown infinite), a pending choice has three options,
        the wave's counters agree with its number, and the map is usable. */
    predicate Valid()
      reads this`enemies, this`projectiles, this`mode, this`skillOptions, player`attackSpeed, wave
    {
      && Distinct(enemies) && Distinct(projectiles)
      && wave.Valid()
      && player.attackSpeed != 0.0
      && (mode == SkillSelect ==> |skillOptions| == 3)
      && MapOk()
    }

    /** The map's tiles have a size and every layer has one id per cell. */
    predicate MapOk()
    {
      && tilemap.tileW > 0 && tilemap.tileH > 0
      && (forall i :: 0 <= i < |tilemap.layers| ==> WellFormed(tilemap.layers[i]))
    }

    /** A new game from a save record: the player at the saved position with the
        saved stats, empty lists, wave 1, the camera at the origin. */
    constructor (save: SaveData, tiles: Tilemap)
      requires save.attackSpeed != 0.0
      requires tiles.tileW > 0 && tiles.tileH > 0
      requires forall i :: 0 <= i < |tiles.layers| ==> WellFormed(tiles.layers[i])
      ensures Valid()
      ensures player.x == save.playerX && player.y == save.playerY
      ensures player.health == save.maxHealth && player.maxHealth == save.maxHealth
      ensures player.speed == StartSpeed && player.attackDamage == save.attackDamage
      ensures player.attackSpeed == save.attackSpeed && player.skills == []
      ensures enemies == [] && projectiles == [] && potions == []
      ensures mapWidth == (tiles.width * tiles.tileW) as real && mapHeight == (tiles.height * tiles.tileH) as real
      ensures player.attackTimer == 0.0
      ensures wave.currentWave == 1 && wave.enemiesSpawned == 0 && wave.enemiesPerWave == FirstWaveQuota
      ensures wave.spawnTimer == 0.0 && wave.spawnInterval == FirstWaveInterval && !wave.waveComplete
      ensures wave.screenWidth == mapWidth && wave.screenHeight == mapHeight
      ensures camera.x == 0.0 && camera.y == 0.0 && camera.followX == 0.0 && camera.followY == 0.0
      ensures camera.width == ScreenWidth && camera.height == ScreenHeight
      ensures mode == Playing
    {
      tilemap := tiles;
      mapWidth := (tiles.width * tiles.tileW) as real;
      mapHeight := (tiles.height * tiles.tileH) as real;
      player := new Player(save.playerX, save.playerY, save.maxHealth, StartSpeed, save.attackDamage,
                           save.attackSpeed);
      enemies := [];
      potions := [];
      projectiles := [];
      wave := new WaveManager((tiles.width * tiles.tileW) as real, (tiles.height * tiles.tileH) as real);
      camera := new Camera(ScreenWidth, ScreenHeight);
      mode := Playing;
      skillOptions := [];
    }

    /** Drops the inactive projectiles and the dead enemies, keeping the order of
        the others. */
    method CleanupEntities()
      requires Valid()
      modifies this`projectiles, this`enemies
      ensures projectiles == ActiveOnly(old(projectiles))
      ensures enemies == LiveOnly(old(enemies))
      ensures Valid()
    {
      ActiveOnlyDistinct(projectiles);
      LiveOnlyDistinct(enemies);
      var flying := KeepActive(projectiles);
      var living := KeepLive(enemies);
      projectiles, enemies := flying, living;
    }

    /** The live enemy nearest to the player's centre, the earliest among equals;
        none when no live enemy is nearer than the largest float. */
    method FindNearestEnemy(hypot: (real, real) -> real) returns (best: Enemy?)
      ensures var n := Nearest(EnemyStates(enemies), player.Center().0, player.Center().1, hypot);
        && (n == None <==> best == null)
        && (n.Some? ==> n.value < |enemies| && best == enemies[n.value])
    {
      var (px, py) := player.Center();
      ghost var states := EnemyStates(enemies);
      ghost var bestIndex: Option<nat> := None;
      best := null;
      var bestDist := MaxFloat64;
      var i := 0;
      while i < |enemies|
        invariant 0 <= i <= |enemies|
        invariant (bestIndex, bestDist) == Scan(states, px, py, hypot, i)
        invariant bestIndex == None <==> best == null
        invariant bestIndex.Some? ==> bestIndex.value < i && best == enemies[bestIndex.value]
      {
        if enemies[i].IsAlive() {
          var dist := enemies[i].GetDistanceTo(px, py, hypot);
          if dist < bestDist {
            bestDist := dist;
            best := enemies[i];
            bestIndex := Some(i);
          }
        }
        i := i + 1;
      }
    }

    /** Appends enemies until the list is as long as the number the wave has
        released; the k-th new enemy stands at the player's position plus
        `ring(k)`, with 30 health, speed 1.2, damage 5 and follow distance 400. */
    method SpawnEnemiesIfNeeded(ring: nat -> (real, real))
      requires Valid()
      modifies this`enemies
      ensures Valid()
      ensures |enemies| == if wave.enemiesSpawned > |old(enemies)| then wave.enemiesSpawned else |old(enemies)|
      ensures enemies[..|old(enemies)|] == old(enemies)
      ensures forall k :: |old(enemies)| <= k < |enemies| ==>
        && fresh(enemies[k])
        && enemies[k].State() == Spawned(player.x + ring(k - |old(enemies)|).0, player.y + ring(k - |old(enemies)|).1,
                                         EnemyHealth, EnemySpeed, EnemyDamage, EnemyFollowDist)
    {
      var placed := 0;
      while |enemies| < wave.enemiesSpawned
        invariant |enemies| == |old(enemies)| + placed
        invariant placed == 0 || |enemies| <= wave.enemiesSpawned
        invariant enemies[..|old(enemies)|] == old(enemies)
        invariant forall k :: |old(enemies)| <= k < |enemies| ==>
          && fresh(enemies[k])
          && enemies[k].State() == Spawned(player.x + ring(k - |old(enemies)|).0, player.y + ring(k - |old(enemies)|).1,
                                           EnemyHealth, EnemySpeed, EnemyDamage, EnemyFollowDist)
        invariant Valid()
        decreases wave.enemiesSpawned - |enemies|
      {
        var (ox, oy) := ring(placed);
        var e := new Enemy(player.x + ox, player.y + oy, EnemyHealth, EnemySpeed, EnemyDamage, EnemyFollowDist);
        enemies := enemies + [e];
        placed := placed + 1;
      }
    }

    /** Starts the next wave exactly when the wave has released its whole quota
        and no enemy is left; otherwise the wave is untouched. */
    method HandleWaveComplete()
      requires wave.Valid()
      modifies wave`currentWave, wave`enemiesPerWave, wave`enemiesSpawned, wave`waveComplete,
               wave`spawnTimer, wave`spawnInterval
      ensures old(wave.enemiesSpawned >= wave.enemiesPerWave) && enemies == [] ==>
        && wave.currentWave == old(wave.currentWave) + 1
        && wave.enemiesPerWave == 5 + 2 * wave.currentWave && wave.enemiesSpawned == 0
        && wave.spawnTimer == 0.0 && !wave.waveComplete
        && wave.spawnInterval == Max(MinInterval, 1.0 - (wave.currentWave as real) * 0.05)
      ensures !(old(wave.enemiesSpawned >= wave.enemiesPerWave) && enemies == []) ==> unchanged(wave)
      ensures wave.Valid() && wave.spawnInterval <= old(wave.spawnInterval)
    {
      if wave.enemiesSpawned >= wave.enemiesPerWave && |enemies| == 0 {
        wave.StartNextWave();
      }
    }

    /** Drinks every potion the player touches, in list order, 20 health each up
        to the maximum, and keeps the others in order. */
    method HandlePotions()
      modifies this`potions, player`health
      ensures potions == Uncollected(old(potions), player.Bounds())
      ensures player.health
              == HealedTimes(old(player.health), player.maxHealth, |Collected(old(potions), player.Bounds())|)
    {
      ghost var box := player.Bounds();
      var kept: seq<Potion> := [];
      var i := 0;
      while i < |potions|
        invariant 0 <= i <= |potions|
        invariant potions == old(potions) && player.maxHealth == old(player.maxHealth)
        invariant player.Bounds() == box
        invariant kept == Uncollected(potions[..i], box)
        invariant player.health == HealedTimes(old(player.health), player.maxHealth, |Collected(potions[..i], box)|)
      {
        var p := potions[i];
        assert potions[..i + 1] == potions[..i] + [p];
        PickupSnoc(potions[..i], p, box);
        if player.CheckCollision(p.x, p.y, p.width, p.height) {
          player.health := player.health + HealAmount;
          if player.health > player.maxHealth {
            player.health := player.maxHealth;
          }
          i := i + 1;
          continue;
        }
        kept := kept + [p];
        i := i + 1;
      }
      assert potions[..i] == potions;
      potions := kept;
    }

    /** Points the camera at the player's centre, eases it one step and clamps its
        corner to the map (lower bound first). */
    method UpdateCamera()
      modifies camera`x, camera`y, camera`followX, camera`followY
      ensures camera.followX == player.Center().0 && camera.followY == player.Center().1
      ensures camera.x == Clamp(Approach(old(camera.x), camera.followX - camera.width / 2.0), 0.0,
                                mapWidth - ScreenWidth)
      ensures camera.y == Clamp(Approach(old(camera.y), camera.followY - camera.height / 2.0), 0.0,
                                mapHeight - ScreenHeight)
      ensures ScreenWidth <= mapWidth ==> 0.0 <= camera.x <= mapWidth - ScreenWidth
      ensures ScreenHeight <= mapHeight ==> 0.0 <= camera.y <= mapHeight - ScreenHeight
    {
      var (px, py) := player.Center();
      camera.SetFollowTarget(px, py);
      camera.Update();
      camera.x := Clamp(camera.x, 0.0, mapWidth - ScreenWidth);
      camera.y := Clamp(camera.y, 0.0, mapHeight - ScreenHeight);
    }

    /** Moves the player one step in the held direction, normalised so that
        diagonals are not faster; no key or cancelling keys leave it in place. */
    method HandleMovement(up: bool, down: bool, left: bool, right: bool, hypot: (real, real) -> real)
      requires PositiveLength(hypot)
      modifies player`x, player`y
      ensures var (dx, dy) := Direction(up, down, left, right);
        && (dx == 0.0 && dy == 0.0 ==> player.x == old(player.x) && player.y == old(player.y))
        && (dx != 0.0 || dy != 0.0 ==>
              SteppedAlong(old(player.x), old(player.y), player.x, player.y, dx, dy, player.speed,
                           mapWidth - player.width, mapHeight - player.height, hypot))
      ensures 0.0 <= old(player.x) <= mapWidth - player.width ==> 0.0 <= player.x <= mapWidth - player.width
      ensures 0.0 <= old(player.y) <= mapHeight - player.height ==> 0.0 <= player.y <= mapHeight - player.height
    {
      var dx: real, dy: real := 0.0, 0.0;
      if up {
        dy := dy - 1.0;
      }
      if down {
        dy := dy + 1.0;
      }
      if left {
        dx := dx - 1.0;
      }
      if right {
        dx := dx + 1.0;
      }
      if dx != 0.0 || dy != 0.0 {
        MoveAlong(dx, dy, hypot);
      }
    }

    /** The normalising step of the movement: moves the player along the
        non-zero vector (dx, dy) scaled to unit length. */
    method MoveAlong(dx: real, dy: real, hypot: (real, real) -> real)
      requires hypot(dx, dy) != 0.0
      modifies player`x, player`y
      ensures SteppedAlong(old(player.x), old(player.y), player.x, player.y, dx, dy, player.speed,
                           mapWidth - player.width, mapHeight - player.height, hypot)
      ensures 0.0 <= old(player.x) <= mapWidth - player.width ==> 0.0 <= player.x <= mapWidth - player.width
      ensures 0.0 <= old(player.y) <= mapHeight - player.height ==> 0.0 <= player.y <= mapHeight - player.height
    {
      var (ux, uy) := Normalised(dx, dy, hypot);
      player.Move(ux, uy, mapWidth, mapHeight);
    }

    /** Keys 1, 2 and 3 each learn the matching option, in that order, and any of
        them ends the choice. */
    method HandleSkillSelection(key1: bool, key2: bool, key3: bool)
      requires Valid() && mode == SkillSelect
      modifies this`mode, player`skills, player`attackDamage, player`speed
      ensures var picks := Picks(skillOptions, key1, key2, key3);
        && player.skills == old(player.skills) + picks
        && player.attackDamage == LearnedDamage(old(player.attackDamage), picks)
        && player.speed == LearnedSpeed(old(player.speed), picks)
      ensures mode == if key1 || key2 || key3 then Playing else SkillSelect
      ensures Valid()
    {
      PicksLearned(skillOptions, key1, key2, key3, player.attackDamage, player.speed);
      PressKey(key1, 0);
      PressKey(key2, 1);
      PressKey(key3, 2);
      assert player.skills == old(player.skills) + Picks(skillOptions, key1, key2, key3);
    }

    /** One option key: when pressed, option `k` is learned and the choice ends. */
    method PressKey(key: bool, k: nat)
      requires k < |skillOptions|
      modifies this`mode, player`skills, player`attackDamage, player`speed
      ensures player.skills == old(player.skills) + if key then [skillOptions[k]] else []
      ensures player.attackDamage == PressDamage(old(player.attackDamage), key, skillOptions[k])
      ensures player.speed == PressSpeed(old(player.speed), key, skillOptions[k])
      ensures mode == if key then Playing else old(mode)
    {
      if key {
        player.LearnSkill(skillOptions[k]);
        mode := Playing;
      }
    }

    /** Whether E was just pressed while the cell under the player's centre holds
        the gate tile in some layer (the source only logs this). */
    method HandleTeleportGate(keyE: bool) returns (activated: bool)
      requires MapOk()
      ensures activated <==> keyE && OnGate(tilemap, player.Center().0, player.Center().1)
    {
      var col := Truncate((player.x + player.width / 2.0) / tilemap.tileW as real);
      var row := Truncate((player.y + player.height / 2.0) / tilemap.tileH as real);
      activated := false;
      var i := 0;
      while i < |tilemap.layers|
        invariant 0 <= i <= |tilemap.layers|
        invariant activated <==> keyE && exists j :: 0 <= j < i && GateIn(tilemap.layers[j], col, row)
      {
        var layer := tilemap.layers[i];
        if row >= 0 && row < layer.height && col >= 0 && col < layer.width {
          RowMajorInRange(col, row, layer.width, layer.height);
          var tile := layer.data[row * layer.width + col];
          if tile == GateTile && keyE {
            activated := true;
          }
        }
        i := i + 1;
      }
    }

    /** The enemy loop of a tick: each enemy in turn takes its tick toward the
        player; each one alive and touching the player afterwards costs the player
        5 health; an enemy that died during its tick may drop a potion. */
    method EnemyPhase(hypot: (real, real) -> real, dropRoll: nat -> bool)
      requires Valid()
      modifies enemies, player`health, this`potions
      ensures Valid()
      ensures EnemyStates(enemies) == StepAll(old(EnemyStates(enemies)), player.x, player.y, mapWidth, mapHeight, hypot)
      ensures player.health == HitTimes(old(player.health), ContactCount(EnemyStates(enemies), player.Bounds()))
      ensures potions == old(potions) + Drops(old(EnemyStates(enemies)), EnemyStates(enemies), dropRoll)
    {
      ghost var before := EnemyStates(enemies);
      ghost var px, py, box := player.x, player.y, player.Bounds();
      ghost var h0, pots0 := player.health, potions;
      ghost var after := EnemyLoopRun(before, px, py, box, h0, pots0, hypot, dropRoll);
      assert before[..|before|] == before;
    }

    /** The loop over the enemy list, from none ticked to all ticked. */
    method EnemyLoopRun(ghost before: seq<EnemyState>, ghost px: real, ghost py: real, ghost box: Box,
                        ghost h0: real, ghost pots0: seq<Potion>,
                        hypot: (real, real) -> real, dropRoll: nat -> bool)
      returns (ghost after: seq<EnemyState>)
      requires EnemyLoop(0, before, [], px, py, box, h0, pots0, hypot, dropRoll)
      modifies enemies, player`health, this`potions
      ensures EnemyLoop(|before|, before, after, px, py, box, h0, pots0, hypot, dropRoll)
    {
      after := [];
      var i := 0;
      while i < |enemies|
        invariant EnemyLoop(i, before, after, px, py, box, h0, pots0, hypot, dropRoll)
      {
        after := EnemyPass(i, before, after, px, py, box, h0, pots0, hypot, dropRoll);
        i := i + 1;
      }
    }

    /** The enemy loop's invariant after `i` passes: the first `i` enemies have
        taken their tick, the rest have not; the player has taken one hit per
        ticked enemy in contact, and the ticked enemies' drops are appended. */
    ghost predicate EnemyLoop(i: nat, before: seq<EnemyState>, after: seq<EnemyState>, px: real, py: real,
                              box: Box, h0: real, pots0: seq<Potion>,
                              hypot: (real, real) -> real, dropRoll: nat -> bool)
      reads this`enemies, enemies, player`x, player`y, player`health, this`potions
      reads this`projectiles, this`mode, this`skillOptions, player`attackSpeed, wave
    {
      && i <= |before| == |enemies| && |after| == i
      && player.x == px && player.y == py && player.Bounds() == box
      && EnemyStates(enemies) == after + before[i..]
      && after == StepAll(before[..i], px, py, mapWidth, mapHeight, hypot)
      && player.health == HitTimes(h0, ContactCount(after, box))
      && potions == pots0 + Drops(before[..i], after, dropRoll)
      && Valid()
    }

    /** One pass of the enemy loop keeps its invariant. */
    method EnemyPass(i: nat, ghost before: seq<EnemyState>, ghost after: seq<EnemyState>, ghost px: real,
                     ghost py: real, ghost box: Box, ghost h0: real, ghost pots0: seq<Potion>,
                     hypot: (real, real) -> real, dropRoll: nat -> bool)
      returns (ghost after': seq<EnemyState>)
      requires i < |enemies| && EnemyLoop(i, before, after, px, py, box, h0, pots0, hypot, dropRoll)
      modifies enemies[i], player`health, this`potions
      ensures EnemyLoop(i + 1, before, after', px, py, box, h0, pots0, hypot, dropRoll)
    {
      ghost var health, pots := player.health, potions;
      assert EnemyStates(enemies)[i] == before[i];
      ghost var s := TickEnemy(i, before[i], hypot, dropRoll);
      TickedStep(before, after, i, s, px, py, mapWidth, mapHeight, hypot);
      HitsStep(after, s, box, h0, health, player.health);
      DropsStep(before, after, i, s, pots0, pots, potions, dropRoll);
      SpliceNext(after, before[i..], s);
      assert before[i..][1..] == before[i + 1..];
      after' := after + [s];
    }

    /** One pass of the enemy loop: enemy `i` takes its tick, hurts the player on
        contact, and drops a potion if it died during the tick and its coin comes up. */
    method TickEnemy(i: nat, ghost b: EnemyState, hypot: (real, real) -> real, dropRoll: nat -> bool)
      returns (ghost s: EnemyState)
      requires Valid() && i < |enemies| && enemies[i].State() == b
      modifies enemies[i], player`health, this`potions
      ensures s == Step(b, player.x, player.y, mapWidth, mapHeight, hypot)
      ensures EnemyStates(enemies) == old(EnemyStates(enemies))[i := s]
      ensures player.health
              == if Contact(s, player.Bounds()) then AfterDamage(old(player.health), ContactDamage)
                 else old(player.health)
      ensures potions == old(potions)
              + if b.Alive() && !s.Alive() && dropRoll(i) then [DropAt(s.x, s.y)] else []
    {
      var e := enemies[i];
      var prevAlive := e.IsAlive();
      e.Update(player.x, player.y, mapWidth, mapHeight, hypot);
      if e.IsAlive() && e.CheckCollision(player.x, player.y, player.width, player.height) {
        player.TakeDamage(ContactDamage);
      }
      if prevAlive && !e.IsAlive() {
        if dropRoll(i) {
          potions := potions + [DropAt(e.x, e.y)];
        }
      }
      s := e.State();
    }

    /** The projectile loop of a tick: each projectile in turn moves, and if still
        active strikes the first live enemy it overlaps, against the enemies as
        the earlier projectiles left them. */
    method UpdateProjectiles()
      requires Distinct(projectiles) && Distinct(enemies)
      modifies projectiles, enemies
      ensures (ProjectileStates(projectiles), EnemyStates(enemies))
              == ResolveAll(old(ProjectileStates(projectiles)), old(EnemyStates(enemies)), mapWidth, mapHeight)
    {
      ghost var ps0, es0 := ProjectileStates(projectiles), EnemyStates(enemies);
      assert ps0[..0] == [] && ps0[0..] == ps0;
      ProjectileLoopRun(ps0, es0);
      assert ps0[..|ps0|] == ps0 && ps0[|ps0|..] == [];
      ghost var r := ResolveAll(ps0, es0, mapWidth, mapHeight);
      assert ProjectileStates(projectiles) == r.0 + [] == r.0;
    }

    /** The loop over the projectile list, from none moved to all moved. */
    method ProjectileLoopRun(ghost ps0: seq<ProjectileState>, ghost es0: seq<EnemyState>)
      requires ProjectileLoop(0, ps0, es0)
      modifies projectiles, enemies
      ensures ProjectileLoop(|ps0|, ps0, es0)
    {
      var i := 0;
      while i < |projectiles|
        invariant ProjectileLoop(i, ps0, es0)
      {
        ProjectilePass(i, ps0, es0);
        i := i + 1;
      }
    }

    /** The projectile loop's invariant after `i` passes: the first `i`
        projectiles and the enemies are as resolving those `i` leaves them, the
        rest of the projectiles are untouched. */
    ghost predicate ProjectileLoop(i: nat, ps0: seq<ProjectileState>, es0: seq<EnemyState>)
      reads this`projectiles, projectiles, this`enemies, enemies
    {
      && i <= |ps0| == |projectiles|
      && Distinct(projectiles) && Distinct(enemies)
      && var r := ResolveAll(ps0[..i], es0, mapWidth, mapHeight);
      && ProjectileStates(projectiles) == r.0 + ps0[i..]
      && EnemyStates(enemies) == r.1
    }

    /** One pass of the projectile loop: projectile `i` moves, then strikes. */
    method ProjectilePass(i: nat, ghost ps0: seq<ProjectileState>, ghost es0: seq<EnemyState>)
      requires i < |projectiles| && ProjectileLoop(i, ps0, es0)
      modifies projectiles[i], enemies
      ensures ProjectileLoop(i + 1, ps0, es0)
    {
      ghost var r := ResolveAll(ps0[..i], es0, mapWidth, mapHeight);
      ResolveStep(ps0, es0, i, mapWidth, mapHeight);
      assert ProjectileStates(projectiles)[i] == ps0[i];
      ResolveAt(i);
      ghost var q := Strike(Advance(ps0[i], mapWidth, mapHeight), r.1).0;
      SpliceNext(r.0, ps0[i..], q);
      assert ps0[i..][1..] == ps0[i + 1..];
    }

    /** Projectile `i` moves and, if still active, strikes; no other projectile changes. */
    method ResolveAt(i: nat)
      requires i < |projectiles| && Distinct(projectiles) && Distinct(enemies)
      modifies projectiles[i], enemies
      ensures var (q, es) := Strike(Advance(old(projectiles[i].State()), mapWidth, mapHeight),
                                    old(EnemyStates(enemies)));
        ProjectileStates(projectiles) == old(ProjectileStates(projectiles))[i := q]
        && EnemyStates(enemies) == es
    {
      ghost var before := ProjectileStates(projectiles);
      AdvanceAt(i);
      assert ProjectileStates(projectiles)[i] == Advance(before[i], mapWidth, mapHeight);
      StrikeAt(i);
      assert ProjectileStates(projectiles) == before[i := ProjectileStates(projectiles)[i]];
    }

    /** Projectile `i` takes its tick of motion; no other projectile and no enemy changes. */
    method AdvanceAt(i: nat)
      requires i < |projectiles| && Distinct(projectiles)
      modifies projectiles[i]
      ensures ProjectileStates(projectiles)
              == old(ProjectileStates(projectiles))[i := Advance(old(projectiles[i].State()), mapWidth, mapHeight)]
      ensures EnemyStates(enemies) == old(EnemyStates(enemies))
    {
      projectiles[i].Update(mapWidth, mapHeight);
    }

    /** Projectile `i`, if still active, strikes the first live enemy it overlaps. */
    method StrikeAt(i: nat)
      requires i < |projectiles| && Distinct(projectiles) && Distinct(enemies)
      modifies projectiles[i], enemies
      ensures var (q, es) := Strike(old(projectiles[i].State()), old(EnemyStates(enemies)));
        ProjectileStates(projectiles) == old(ProjectileStates(projectiles))[i := q]
        && EnemyStates(enemies) == es
    {
      var p := projectiles[i];
      if p.active {
        StrikeFirstEnemy(p);
      }
    }

    /** The hit search of one active projectile: the first live enemy it overlaps
        takes its damage and the projectile is spent; otherwise nothing changes. */
    method StrikeFirstEnemy(p: Projectile)
      requires p.active && Distinct(enemies)
      modifies enemies, p`active
      ensures (p.State(), EnemyStates(enemies)) == Strike(old(p.State()), old(EnemyStates(enemies)))
    {
      ghost var es0 := EnemyStates(enemies);
      var j := 0;
      while j < |enemies|
        invariant j <= |enemies|
        invariant p.active && p.State() == old(p.State())
        invariant EnemyStates(enemies) == es0
        invariant forall k :: 0 <= k < j ==> !Hits(p.State(), es0[k])
      {
        var e := enemies[j];
        if !e.IsAlive() {
          j := j + 1;
          continue;
        }
        if p.CheckCollision(e.x, e.y, e.width, e.height) {
          e.TakeDamage(p.damage);
          p.active := false;
          assert EnemyStates(enemies) == es0[j := Damaged(es0[j], p.damage)];
          return;
        }
        j := j + 1;
      }
    }

    /** The arrow launched from (px - 4 + ox, py - 4 + oy) at (ex + ox, ey + oy). */
    method SpawnOffsetProjectile(px: real, py: real, ex: real, ey: real, ox: real, oy: real,
                                 hypot: (real, real) -> real)
      returns (p: Projectile)
      ensures fresh(p)
      ensures p.State() == Launch(px - ArrowInset + ox, py - ArrowInset + oy, ex + ox, ey + oy, ArrowSpeed,
                                  player.attackDamage, hypot)
    {
      p := new Projectile(px - ArrowInset + ox, py - ArrowInset + oy, ex + ox, ey + oy, ArrowSpeed,
                          player.attackDamage, hypot);
    }

    /** The arrow from the player's centre at (targetX, targetY), piercing when
        the player holds PiercingShot. */
    method SpawnProjectile(targetX: real, targetY: real, hypot: (real, real) -> real)
      returns (p: Projectile)
      ensures fresh(p)
      ensures p.State()
              == Launch(player.Center().0 - ArrowInset, player.Center().1 - ArrowInset, targetX, targetY,
                        ArrowSpeed, player.attackDamage, hypot).(piercing := Holds(player.skills, PiercingShot))
    {
      var (px, py) := player.Center();
      p := new Projectile(px - ArrowInset, py - ArrowInset, targetX, targetY, ArrowSpeed,
                          player.attackDamage, hypot);
      var piercing := player.HasSkill(PiercingShot);
      if piercing {
        p.piercing := true;
      }
    }

    /** Fires one volley at the nearest live enemy, unless a movement key is held,
        there is no target, or the cooldown is running; a volley restarts the
        cooldown once. */
    method HandleAutoAttack(moving: bool, hypot: (real, real) -> real,
                            diagonal: (real, real, real, real) -> DiagonalTargets)
      requires Valid()
      modifies this`projectiles, player`attackTimer
      ensures Valid()
      ensures var n := old(Nearest(EnemyStates(enemies), player.Center().0, player.Center().1, hypot));
        var fire := !moving && n.Some? && old(player.CanAttack());
        && (!fire ==> projectiles == old(projectiles) && player.attackTimer == old(player.attackTimer))
        && (fire ==>
              && n.value < |enemies|
              && Extended(old(projectiles), old(AimedVolley(enemies[n.value], hypot, diagonal)))
              && (forall k :: |old(projectiles)| <= k < |projectiles| ==> fresh(projectiles[k]))
              && player.attackTimer == 1.0 / player.attackSpeed)
    {
      if moving {
        return;
      }
      var target := FindNearestEnemy(hypot);
      if target == null || !player.CanAttack() {
        return;
      }
      ghost var n := Nearest(EnemyStates(enemies), player.Center().0, player.Center().1, hypot);
      assert n.value < |enemies| && enemies[n.value] == target;
      Shoot(target, hypot, diagonal);
    }

    /** The volley an attack on `target` fires, from the player's centre at the
        target's centre. */
    ghost function AimedVolley(target: Enemy, hypot: (real, real) -> real,
                               diagonal: (real, real, real, real) -> DiagonalTargets): seq<ProjectileState>
      reads player`x, player`y, player`skills, player`attackDamage, target
    {
      var (px, py) := player.Center();
      var (ex, ey) := target.State().Center();
      Volley(player.skills, px, py, ex, ey, player.attackDamage, hypot, diagonal(px, py, ex, ey))
    }

    /** Whether the auto attack fires this tick: standing still, some live enemy
        in range of the search, and the cooldown over. */
    ghost predicate Fires(moving: bool, hypot: (real, real) -> real)
      reads this`enemies, enemies, player
    {
      var n := Nearest(EnemyStates(enemies), player.Center().0, player.Center().1, hypot);
      !moving && n.Some? && player.CanAttack()
    }

    /** The arrows the auto attack adds this tick: the volley aimed at the nearest
        enemy when it fires, none otherwise. */
    ghost function AttackShots(moving: bool, hypot: (real, real) -> real,
                               diagonal: (real, real, real, real) -> DiagonalTargets): seq<ProjectileState>
      reads this`enemies, enemies, player
    {
      var n := Nearest(EnemyStates(enemies), player.Center().0, player.Center().1, hypot);
      if Fires(moving, hypot) && n.value < |enemies| then AimedVolley(enemies[n.value], hypot, diagonal) else []
    }

    /** The projectile list is `before` followed by arrows in the states `added`. */
    ghost predicate Extended(before: seq<Projectile>, added: seq<ProjectileState>)
      reads this`projectiles, projectiles
    {
      && |before| <= |projectiles|
      && projectiles[..|before|] == before
      && ProjectileStates(projectiles[|before|..]) == added
    }

    /** One attack on `target`: its volley is appended and the cooldown restarts. */
    method Shoot(target: Enemy, hypot: (real, real) -> real,
                 diagonal: (real, real, real, real) -> DiagonalTargets)
      requires Valid()
      modifies this`projectiles, player`attackTimer
      ensures Valid()
      ensures Extended(old(projectiles), old(AimedVolley(target, hypot, diagonal)))
      ensures forall k :: |old(projectiles)| <= k < |projectiles| ==> fresh(projectiles[k])
      ensures player.attackTimer == 1.0 / player.attackSpeed
    {
      ghost var volley := AimedVolley(target, hypot, diagonal);
      var (px, py) := player.Center();
      var (ex, ey) := target.Center();
      var shots := FireVolley(px, py, ex, ey, hypot, diagonal);
      AddShots(shots, volley);
      player.Attack();
    }

    /** Appends new arrows in the states `volley` to the projectile list. */
    method AddShots(shots: seq<Projectile>, ghost volley: seq<ProjectileState>)
      requires Distinct(projectiles) && Distinct(shots) && ProjectileStates(shots) == volley
      requires forall i, j :: 0 <= i < |projectiles| && 0 <= j < |shots| ==> projectiles[i] != shots[j]
      modifies this`projectiles
      ensures projectiles == old(projectiles) + shots
      ensures Distinct(projectiles) && Extended(old(projectiles), volley)
    {
      DistinctConcat(projectiles, shots);
      projectiles := projectiles + shots;
      assert projectiles[|old(projectiles)|..] == shots;
    }

    /** The arrows of one volley from the player's centre (px, py) at the target
        centre (ex, ey), in the order they are added. */
    method FireVolley(px: real, py: real, ex: real, ey: real, hypot: (real, real) -> real,
                      diagonal: (real, real, real, real) -> DiagonalTargets)
      returns (shots: seq<Projectile>)
      requires player.Center() == (px, py)
      ensures forall k :: 0 <= k < |shots| ==> fresh(shots[k])
      ensures Distinct(shots)
      ensures ProjectileStates(shots)
              == Volley(player.skills, px, py, ex, ey, player.attackDamage, hypot, diagonal(px, py, ex, ey))
    {
      var straight := FireStraight(px, py, ex, ey, hypot);
      var diagonals := FireDiagonal(px, py, ex, ey, hypot, diagonal);
      DistinctConcat(straight, diagonals);
      shots := straight + diagonals;
      ProjectileStatesAppend(straight, diagonals);
    }

    /** The arrows aimed straight at the target: one, or with Multishot two
        offset 4 pixels to either side across the aim. */
    method FireStraight(px: real, py: real, ex: real, ey: real, hypot: (real, real) -> real)
      returns (shots: seq<Projectile>)
      ensures forall k :: 0 <= k < |shots| ==> fresh(shots[k])
      ensures Distinct(shots)
      ensures ProjectileStates(shots) == StraightShots(player.skills, px, py, ex, ey, player.attackDamage, hypot)
    {
      var dx := ex - px;
      var dy := ey - py;
      var len := hypot(dx, dy);
      if len != 0.0 {
        dx := dx / len;
        dy := dy / len;
      } else {
        dx, dy := 0.0, 0.0;
      }
      assert (dx, dy) == Unit(px, py, ex, ey, hypot);
      var perpX, perpY := -dy, dx;
      var multishot := player.HasSkill(Multishot);
      if multishot {
        shots := FirePair(px, py, ex, ey, perpX * MultishotOffset, perpY * MultishotOffset, hypot);
      } else {
        var p := new Projectile(px - ArrowInset, py - ArrowInset, ex, ey, ArrowSpeed, player.attackDamage, hypot);
        shots := [p];
      }
    }

    /** The Multishot pair: two arrows shifted by (ox, oy) to either side. */
    method FirePair(px: real, py: real, ex: real, ey: real, ox: real, oy: real, hypot: (real, real) -> real)
      returns (shots: seq<Projectile>)
      ensures |shots| == 2 && fresh(shots[0]) && fresh(shots[1]) && shots[0] != shots[1]
      ensures ProjectileStates(shots)
              == [Launch(px - ArrowInset + ox, py - ArrowInset + oy, ex + ox, ey + oy, ArrowSpeed, player.attackDamage, hypot),
                  Launch(px - ArrowInset - ox, py - ArrowInset - oy, ex - ox, ey - oy, ArrowSpeed, player.attackDamage, hypot)]
    {
      var left := SpawnOffsetProjectile(px, py, ex, ey, ox, oy, hypot);
      var right := SpawnOffsetProjectile(px, py, ex, ey, -ox, -oy, hypot);
      shots := [left, right];
    }

    /** With DiagonalArrow, the two arrows at the diagonal aim points. */
    method FireDiagonal(px: real, py: real, ex: real, ey: real, hypot: (real, real) -> real,
                        diagonal: (real, real, real, real) -> DiagonalTargets)
      returns (shots: seq<Projectile>)
      requires player.Center() == (px, py)
      ensures forall k :: 0 <= k < |shots| ==> fresh(shots[k])
      ensures Distinct(shots)
      ensures ProjectileStates(shots)
              == DiagonalShots(player.skills, px, py, player.attackDamage, hypot, diagonal(px, py, ex, ey))
    {
      ghost var volley := DiagonalShots(player.skills, px, py, player.attackDamage, hypot, diagonal(px, py, ex, ey));
      shots := [];
      var diagonalArrow := player.HasSkill(DiagonalArrow);
      if diagonalArrow {
        var t := diagonal(px, py, ex, ey);
        var left := SpawnProjectile(t.leftX, t.leftY, hypot);
        assert left.State() == volley[0];
        var right := SpawnProjectile(t.rightX, t.rightY, hypot);
        assert right.State() == volley[1];
        shots := [left, right];
        assert ProjectileStates(shots) == [left.State(), right.State()];
      }
    }

    /** One tick. Key L opens the skill menu with the first three catalogue
        entries; while the menu is open only the option keys act. Otherwise the
        gate is checked, Escape ends the game, and the rest of the frame runs. */
    method Tick(input: Input, oracles: Oracles) returns (terminate: bool, gateActivated: bool)
      requires Valid() && PositiveLength(oracles.hypot)
      modifies this, player, wave, camera, enemies, projectiles
      ensures Valid()
      ensures input.keyL ==> skillOptions == AllSkills[..3]
      ensures var selecting := input.keyL || old(mode) == SkillSelect;
        && (selecting ==>
              && !terminate && !gateActivated && |skillOptions| == 3
              && mode == (if input.key1 || input.key2 || input.key3 then Playing else SkillSelect)
              && player.skills == old(player.skills) + Picks(skillOptions, input.key1, input.key2, input.key3)
              && player.attackDamage
                 == LearnedDamage(old(player.attackDamage), Picks(skillOptions, input.key1, input.key2, input.key3))
              && player.speed == LearnedSpeed(old(player.speed), Picks(skillOptions, input.key1, input.key2, input.key3))
              && enemies == old(enemies) && projectiles == old(projectiles) && potions == old(potions))
        && (selecting ==>
              && unchanged(player`x, player`y, player`health, player`attackTimer)
              && unchanged(wave, camera) && unchanged(old(enemies)) && unchanged(old(projectiles)))
        && (!selecting ==>
              && mode == Playing && skillOptions == old(skillOptions)
              && terminate == input.escape
              && (gateActivated <==> input.keyE && old(OnGate(tilemap, player.Center().0, player.Center().1))))
        && (!selecting && input.escape ==>
              && enemies == old(enemies) && projectiles == old(projectiles) && potions == old(potions)
              && unchanged(player, wave, camera) && unchanged(old(enemies)) && unchanged(old(projectiles)))
        && (!selecting && !input.escape ==>
              && (forall k :: 0 <= k < |enemies| ==> enemies[k].IsAlive())
              && (forall k :: 0 <= k < |projectiles| ==> projectiles[k].active))
    {
      terminate, gateActivated := false, false;
      if input.keyL {
        CatalogueOrder();
        mode := SkillSelect;
        skillOptions := AllSkills[..3];
      }
      if mode == SkillSelect {
        HandleSkillSelection(input.key1, input.key2, input.key3);
        return;
      }
      gateActivated := HandleTeleportGate(input.keyE);
      if input.escape {
        terminate := true;
        return;
      }
      PlayFrame(input, oracles);
    }

    /** The playing part of a tick, in the source's order: movement, cooldown,
        wave timer, spawning, the enemy loop, the attack, the projectile loop,
        cleanup, potions, camera and the wave check. Afterwards every listed
        enemy is alive and every listed projectile active. */
    method PlayFrame(input: Input, oracles: Oracles)
      requires Valid() && PositiveLength(oracles.hypot)
      modifies this`enemies, this`projectiles, this`potions, player, wave, camera, enemies, projectiles
      ensures Valid()
      ensures forall k :: 0 <= k < |enemies| ==> enemies[k].IsAlive()
      ensures forall k :: 0 <= k < |projectiles| ==> projectiles[k].active
    {
      MovePhase(input, oracles);
      AttackPhase(input, oracles);
      CleanupPhase();
    }

    /** Movement, cooldown, wave timer, spawning and the enemy loop. The enemy
        list keeps its old entries and gains only new ones. */
    method MovePhase(input: Input, oracles: Oracles)
      requires Valid() && PositiveLength(oracles.hypot)
      modifies this`enemies, this`potions, player, wave, enemies
      ensures Valid()
      ensures forall k :: 0 <= k < |enemies| ==> enemies[k] in old(enemies) || fresh(enemies[k])
      ensures player.attackTimer == CooledDown(old(player.attackTimer))
      ensures 0.0 <= old(player.x) <= mapWidth - player.width ==> 0.0 <= player.x <= mapWidth - player.width
      ensures 0.0 <= old(player.y) <= mapHeight - player.height ==> 0.0 <= player.y <= mapHeight - player.height
      ensures old(wave.enemiesSpawned) <= wave.enemiesSpawned <= old(wave.enemiesSpawned) + 1
      ensures |enemies| == if wave.enemiesSpawned > |old(enemies)| then wave.enemiesSpawned else |old(enemies)|
      ensures enemies[..|old(enemies)|] == old(enemies)
    {
      PlayerStep(input, oracles.hypot);
      ArrivalStep(oracles);
    }

    /** Movement, cooldown and the wave timer. */
    method PlayerStep(input: Input, hypot: (real, real) -> real)
      requires Valid() && PositiveLength(hypot)
      modifies player`x, player`y, player`attackTimer, wave`spawnTimer, wave`enemiesSpawned
      ensures Valid()
      ensures player.attackTimer == CooledDown(old(player.attackTimer))
      ensures 0.0 <= old(player.x) <= mapWidth - player.width ==> 0.0 <= player.x <= mapWidth - player.width
      ensures 0.0 <= old(player.y) <= mapHeight - player.height ==> 0.0 <= player.y <= mapHeight - player.height
      ensures old(wave.enemiesSpawned) <= wave.enemiesSpawned <= old(wave.enemiesSpawned) + 1
    {
      HandleMovement(input.up, input.down, input.left, input.right, hypot);
      player.Update();
      wave.Update();
    }

    /** Spawning and the enemy loop: the old enemies stay first in the list and the
        list grows to the number of enemies the wave has released. */
    method ArrivalStep(oracles: Oracles)
      requires Valid()
      modifies this`enemies, this`potions, player`health, enemies
      ensures Valid()
      ensures forall k :: 0 <= k < |enemies| ==> enemies[k] in old(enemies) || fresh(enemies[k])
      ensures |enemies| == if wave.enemiesSpawned > |old(enemies)| then wave.enemiesSpawned else |old(enemies)|
      ensures enemies[..|old(enemies)|] == old(enemies)
    {
      SpawnStep(oracles.ring);
      EnemyStep(oracles);
    }

    /** The enemy loop with the tick's oracles. */
    method EnemyStep(oracles: Oracles)
      requires Valid()
      modifies enemies, player`health, this`potions
      ensures Valid()
      ensures EnemyStates(enemies)
              == StepAll(old(EnemyStates(enemies)), player.x, player.y, mapWidth, mapHeight, oracles.hypot)
      ensures player.health == HitTimes(old(player.health), ContactCount(EnemyStates(enemies), player.Bounds()))
      ensures potions == old(potions) + Drops(old(EnemyStates(enemies)), EnemyStates(enemies), oracles.dropRoll)
    {
      EnemyPhase(oracles.hypot, oracles.dropRoll);
    }

    /** Spawning, seen from the frame: the enemy list keeps its old entries and
        gains only new ones. */
    method SpawnStep(ring: nat -> (real, real))
      requires Valid()
      modifies this`enemies
      ensures Valid()
      ensures forall k :: 0 <= k < |enemies| ==> enemies[k] in old(enemies) || fresh(enemies[k])
      ensures |enemies| == if wave.enemiesSpawned > |old(enemies)| then wave.enemiesSpawned else |old(enemies)|
      ensures enemies[..|old(enemies)|] == old(enemies)
      ensures forall k :: |old(enemies)| <= k < |enemies| ==>
        enemies[k].State() == Spawned(player.x + ring(k - |old(enemies)|).0, player.y + ring(k - |old(enemies)|).1,
                                      EnemyHealth, EnemySpeed, EnemyDamage, EnemyFollowDist)
    {
      SpawnEnemiesIfNeeded(ring);
    }

    /** The auto attack and the projectile loop. The projectile list keeps its old
        entries and gains only new ones. */
    method AttackPhase(input: Input, oracles: Oracles)
      requires Valid()
      modifies this`projectiles, player`attackTimer, projectiles, enemies
      ensures Valid()
      ensures forall k :: 0 <= k < |projectiles| ==> projectiles[k] in old(projectiles) || fresh(projectiles[k])
      ensures (ProjectileStates(projectiles), EnemyStates(enemies))
              == ResolveAll(old(ProjectileStates(projectiles) + AttackShots(input.Moving(), oracles.hypot, oracles.diagonal)),
                            old(EnemyStates(enemies)), mapWidth, mapHeight)
      ensures player.attackTimer
              == if old(Fires(input.Moving(), oracles.hypot)) then 1.0 / player.attackSpeed else old(player.attackTimer)
    {
      AttackStep(input.Moving(), oracles);
      UpdateProjectiles();
    }

    /** The auto attack, seen from the frame: the projectile list keeps its old
        entries and gains only new ones. */
    method AttackStep(moving: bool, oracles: Oracles)
      requires Valid()
      modifies this`projectiles, player`attackTimer
      ensures Valid()
      ensures forall k :: 0 <= k < |projectiles| ==> projectiles[k] in old(projectiles) || fresh(projectiles[k])
      ensures ProjectileStates(projectiles)
              == old(ProjectileStates(projectiles) + AttackShots(moving, oracles.hypot, oracles.diagonal))
      ensures player.attackTimer
              == if old(Fires(moving, oracles.hypot)) then 1.0 / player.attackSpeed else old(player.attackTimer)
    {
      ghost var before := projectiles;
      ghost var shots := AttackShots(moving, oracles.hypot, oracles.diagonal);
      HandleAutoAttack(moving, oracles.hypot, oracles.diagonal);
      ExtendedStates(before, shots);
    }

    /** A list extended by arrows in the states `added` has the old states
        followed by `added`. */
    lemma ExtendedStates(before: seq<Projectile>, added: seq<ProjectileState>)
      requires Extended(before, added)
      ensures ProjectileStates(projectiles) == ProjectileStates(before) + added
    {
      assert projectiles == projectiles[..|before|] + projectiles[|before|..];
      ProjectileStatesAppend(projectiles[..|before|], projectiles[|before|..]);
    }

    /** Cleanup, potions, camera and the wave check: the dead enemies and the
        spent projectiles are gone. */
    method CleanupPhase()
      requires Valid()
      modifies this`enemies, this`projectiles, this`potions, player`health, wave, camera
      ensures Valid()
      ensures forall k :: 0 <= k < |enemies| ==> enemies[k].IsAlive()
      ensures forall k :: 0 <= k < |projectiles| ==> projectiles[k].active
      ensures enemies == LiveOnly(old(enemies)) && projectiles == ActiveOnly(old(projectiles))
      ensures potions == Uncollected(old(potions), player.Bounds())
      ensures player.health
              == HealedTimes(old(player.health), player.maxHealth, |Collected(old(potions), player.Bounds())|)
      ensures camera.followX == player.Center().0 && camera.followY == player.Center().1
      ensures old(wave.enemiesSpawned >= wave.enemiesPerWave) && enemies == [] ==>
                wave.currentWave == old(wave.currentWave) + 1 && wave.enemiesSpawned == 0
      ensures !(old(wave.enemiesSpawned >= wave.enemiesPerWave) && enemies == []) ==> unchanged(wave)
    {
      ghost var es, ps := enemies, projectiles;
      CleanupEntities();
      LiveOnlyAllAlive(es);
      ActiveOnlyAllActive(ps);
      Aftermath();
    }

    /** Potions, camera and the wave check, in that order; both lists are left
        alone. */
    method Aftermath()
      requires Valid()
      modifies this`potions, player`health, wave, camera
      ensures Valid()
      ensures potions == Uncollected(old(potions), player.Bounds())
      ensures player.health
              == HealedTimes(old(player.health), player.maxHealth, |Collected(old(potions), player.Bounds())|)
      ensures camera.followX == player.Center().0 && camera.followY == player.Center().1
      ensures ScreenWidth <= mapWidth ==> 0.0 <= camera.x <= mapWidth - ScreenWidth
      ensures ScreenHeight <= mapHeight ==> 0.0 <= camera.y <= mapHeight - ScreenHeight
      ensures old(wave.enemiesSpawned >= wave.enemiesPerWave) && enemies == [] ==>
                wave.currentWave == old(wave.currentWave) + 1 && wave.enemiesSpawned == 0
      ensures !(old(wave.enemiesSpawned >= wave.enemiesPerWave) && enemies == []) ==> unchanged(wave)
    {
      HandlePotions();
      UpdateCamera();
      HandleWaveComplete();
    }
  }
}
