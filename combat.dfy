/** The rules of the game loop stated on values: list pruning, potion pickup,
    contact damage, the volley an attack fires, projectile-versus-enemy
    resolution, nearest-target selection, the camera clamp and the tile lookup
    under the player. The ArcheroGame class applies them to its objects. */
module Combat {
  import opened Geometry
  import opened Skills
  import opened Players
  import opened Enemies
  import opened Projectiles

  datatype Option<T> = None | Some(value: T)

  // ---------------------------------------------------------------- filtering

  /** The elements of `s` that satisfy `keep`, in their original order. */
  function Filter<T>(s: seq<T>, keep: T -> bool): (r: seq<T>)
    ensures |r| <= |s|
  {
    if s == [] then []
    else Filter(s[..|s| - 1], keep) + (if keep(s[|s| - 1]) then [s[|s| - 1]] else [])
  }

  /** The filter keeps exactly the elements that satisfy `keep`: everything kept
      is in the list and passes, and everything in the list that passes is kept. */
  lemma {:induction false} FilterMembers<T>(s: seq<T>, keep: T -> bool)
    ensures forall i :: 0 <= i < |Filter(s, keep)| ==> Filter(s, keep)[i] in s && keep(Filter(s, keep)[i])
    ensures forall i :: 0 <= i < |s| && keep(s[i]) ==> s[i] in Filter(s, keep)
  {
    if s != [] {
      var init := s[..|s| - 1];
      FilterMembers(init, keep);
      assert forall i :: 0 <= i < |init| ==> init[i] == s[i];
    }
  }

  /** Filtering distributes over concatenation, so the kept elements keep their
      relative order. */
  lemma {:induction false} FilterConcat<T>(a: seq<T>, b: seq<T>, keep: T -> bool)
    ensures Filter(a + b, keep) == Filter(a, keep) + Filter(b, keep)
  {
    if b == [] {
      assert a + b == a;
    } else {
      var init := b[..|b| - 1];
      FilterConcat(a, init, keep);
      assert (a + b)[..|a + b| - 1] == a + init;
    }
  }

  /** An element is kept exactly when it satisfies `keep`: a singleton filters to
      itself or to nothing. */
  lemma FilterSingleton<T>(x: T, keep: T -> bool)
    ensures Filter([x], keep) == if keep(x) then [x] else []
  {
    assert [x][..0] == [];
  }

  /** Filtering a list whose elements all pass keeps it as it is. */
  lemma {:induction false} FilterAllKept<T>(s: seq<T>, keep: T -> bool)
    requires forall i :: 0 <= i < |s| ==> keep(s[i])
    ensures Filter(s, keep) == s
  {
    if s != [] {
      FilterAllKept(s[..|s| - 1], keep);
    }
  }

  /** Filtering twice is filtering once: a second cleanup removes nothing. */
  lemma FilterTwice<T>(s: seq<T>, keep: T -> bool)
    ensures Filter(Filter(s, keep), keep) == Filter(s, keep)
  {
    FilterMembers(s, keep);
    FilterAllKept(Filter(s, keep), keep);
  }

  // ---------------------------------------------------------------- potions

  /** A health potion: a 16 by 16 box that heals on contact. */
  datatype Potion = Potion(x: real, y: real, width: real, height: real)
  {
    function Bounds(): Box { Box(x, y, width, height) }
  }

  const PotionSize: real := 16.0
  /** Health restored by one potion. */
  const HealAmount: real := 20.0

  /** The potion dropped at (x, y). */
  function DropAt(x: real, y: real): Potion
  {
    Potion(x, y, PotionSize, PotionSize)
  }

  /** Health after drinking one potion: 20 more, but never above the maximum. */
  function Healed(health: real, maxHealth: real): (r: real)
    ensures r <= maxHealth && r <= health + HealAmount
    ensures r == health + HealAmount || r == maxHealth
    ensures health <= maxHealth ==> health <= r
  {
    var h := health + HealAmount;
    if h > maxHealth then maxHealth else h
  }

  /** Health after drinking `n` potions one after the other. */
  function HealedTimes(health: real, maxHealth: real, n: nat): real
  {
    if n == 0 then health else Healed(HealedTimes(health, maxHealth, n - 1), maxHealth)
  }

  /** Drinking `n` potions heals 20 per potion up to the cap: the result is
      health + 20n when that fits, else the maximum. */
  lemma {:induction false} HealedTimesClosedForm(health: real, maxHealth: real, n: nat)
    requires health <= maxHealth
    ensures HealedTimes(health, maxHealth, n)
            == if health + HealAmount * (n as real) <= maxHealth then health + HealAmount * (n as real)
               else maxHealth
    ensures health <= HealedTimes(health, maxHealth, n) <= maxHealth
  {
    if n > 0 {
      HealedTimesClosedForm(health, maxHealth, n - 1);
    }
  }

  /** The player's box touches the potion. */
  predicate Touches(player: Box, p: Potion)
  {
    Overlaps(player, p.Bounds())
  }

  /** The potions left after the player picks up every one it touches. */
  function Uncollected(potions: seq<Potion>, player: Box): seq<Potion>
  {
    Filter(potions, p => !Touches(player, p))
  }

  /** The potions the player picks up. */
  function Collected(potions: seq<Potion>, player: Box): seq<Potion>
  {
    Filter(potions, p => Touches(player, p))
  }

  /** Pickup removes exactly the potions the player touches and keeps the others
      in order: the collected and the uncollected potions together are all of them. */
  lemma {:induction false} PickupSplits(potions: seq<Potion>, player: Box)
    ensures forall p :: p in Uncollected(potions, player) <==> p in potions && !Touches(player, p)
    ensures |Collected(potions, player)| + |Uncollected(potions, player)| == |potions|
  {
    if potions != [] {
      PickupSplits(potions[..|potions| - 1], player);
    }
  }

  /** One more potion in list order: it is kept when the player does not touch
      it and counted as drunk when it does. */
  lemma PickupSnoc(potions: seq<Potion>, p: Potion, player: Box)
    ensures Uncollected(potions + [p], player)
            == Uncollected(potions, player) + if Touches(player, p) then [] else [p]
    ensures |Collected(potions + [p], player)| == |Collected(potions, player)| + if Touches(player, p) then 1 else 0
  {
    assert (potions + [p])[..|potions|] == potions;
  }

  // ---------------------------------------------------------------- contact damage

  /** Damage taken each tick from each live enemy touching the player. */
  const ContactDamage: real := 5.0

  /** Health after `n` contact hits. */
  function HitTimes(health: real, n: nat): real
  {
    if n == 0 then health else AfterDamage(HitTimes(health, n - 1), ContactDamage)
  }

  /** `n` contact hits take 5n health, floored at 0. */
  lemma {:induction false} HitTimesClosedForm(health: real, n: nat)
    requires health >= 0.0
    ensures HitTimes(health, n)
            == if health - ContactDamage * (n as real) >= 0.0 then health - ContactDamage * (n as real) else 0.0
  {
    if n > 0 {
      HitTimesClosedForm(health, n - 1);
    }
  }

  /** An enemy hurts the player this tick: alive after its own update and
      overlapping the player's box. */
  predicate Contact(e: EnemyState, player: Box)
  {
    e.Alive() && Overlaps(e.Bounds(), player)
  }

  /** Number of enemies in contact with the player. */
  function ContactCount(es: seq<EnemyState>, player: Box): (r: nat)
    ensures r <= |es|
  {
    if es == [] then 0
    else ContactCount(es[..|es| - 1], player) + (if Contact(es[|es| - 1], player) then 1 else 0)
  }

  /** Counting one more enemy adds one exactly when that enemy is in contact. */
  lemma ContactCountSnoc(es: seq<EnemyState>, s: EnemyState, player: Box)
    ensures ContactCount(es + [s], player) == ContactCount(es, player) + (if Contact(s, player) then 1 else 0)
  {
    assert (es + [s])[..|es|] == es;
  }

  /** Every enemy's tick, each seeing the same player position. */
  function StepAll(es: seq<EnemyState>, playerX: real, playerY: real, mapWidth: real, mapHeight: real,
                   hypot: (real, real) -> real): (r: seq<EnemyState>)
    ensures |r| == |es|
  {
    if es == [] then []
    else StepAll(es[..|es| - 1], playerX, playerY, mapWidth, mapHeight, hypot)
         + [Step(es[|es| - 1], playerX, playerY, mapWidth, mapHeight, hypot)]
  }

  /** Ticking one more enemy appends its own tick. */
  lemma StepAllSnoc(es: seq<EnemyState>, e: EnemyState, px: real, py: real, w: real, h: real,
                    hypot: (real, real) -> real)
    ensures StepAll(es + [e], px, py, w, h, hypot) == StepAll(es, px, py, w, h, hypot) + [Step(e, px, py, w, h, hypot)]
  {
    assert (es + [e])[..|es|] == es;
  }

  /** The i-th enemy of the ticked list is the i-th enemy ticked. */
  lemma {:induction false} StepAllAt(es: seq<EnemyState>, px: real, py: real, w: real, h: real,
                                     hypot: (real, real) -> real, i: nat)
    requires i < |es|
    ensures StepAll(es, px, py, w, h, hypot)[i] == Step(es[i], px, py, w, h, hypot)
  {
    if i < |es| - 1 {
      StepAllAt(es[..|es| - 1], px, py, w, h, hypot, i);
    }
  }

  /** No enemy dies during its own tick, so the enemy loop's potion drop (for an
      enemy alive before its update and dead after it) never fires. */
  lemma NoDeathDuringStep(es: seq<EnemyState>, px: real, py: real, w: real, h: real,
                          hypot: (real, real) -> real)
    ensures forall i :: 0 <= i < |es| && es[i].Alive() ==> StepAll(es, px, py, w, h, hypot)[i].Alive()
  {
    forall i | 0 <= i < |es| && es[i].Alive()
      ensures StepAll(es, px, py, w, h, hypot)[i].Alive()
    {
      StepAllAt(es, px, py, w, h, hypot, i);
      LivenessOnlyDecreases(es[i], px, py, w, h, hypot, 0.0);
    }
  }

  /** The potions the enemy loop drops: one at the enemy's corner for each enemy
      alive before its tick and dead after it whose coin `roll(i)` comes up. */
  function Drops(before: seq<EnemyState>, after: seq<EnemyState>, roll: nat -> bool): seq<Potion>
    requires |before| == |after|
  {
    if before == [] then []
    else
      var n := |before| - 1;
      Drops(before[..n], after[..n], roll)
      + if before[n].Alive() && !after[n].Alive() && roll(n) then [DropAt(after[n].x, after[n].y)] else []
  }

  /** One more enemy adds its own possible drop at the end. */
  lemma DropsSnoc(before: seq<EnemyState>, after: seq<EnemyState>, b: EnemyState, e: EnemyState,
                  roll: nat -> bool)
    requires |before| == |after|
    ensures Drops(before + [b], after + [e], roll)
            == Drops(before, after, roll)
               + if b.Alive() && !e.Alive() && roll(|before|) then [DropAt(e.x, e.y)] else []
  {
    assert (before + [b])[..|before|] == before;
    assert (after + [e])[..|after|] == after;
  }

  /** Because a tick never kills a live enemy, the enemy loop never drops a potion. */
  lemma {:induction false} NoDrops(es: seq<EnemyState>, px: real, py: real, w: real, h: real,
                                   hypot: (real, real) -> real, roll: nat -> bool)
    ensures Drops(es, StepAll(es, px, py, w, h, hypot), roll) == []
  {
    if es != [] {
      var n := |es| - 1;
      assert StepAll(es, px, py, w, h, hypot)[..n] == StepAll(es[..n], px, py, w, h, hypot);
      assert StepAll(es, px, py, w, h, hypot)[n] == Step(es[n], px, py, w, h, hypot);
      NoDrops(es[..n], px, py, w, h, hypot, roll);
      LivenessOnlyDecreases(es[n], px, py, w, h, hypot, 0.0);
    }
  }

  // ---------------------------------------------------------------- the volley

  /** Speed of every arrow. */
  const ArrowSpeed: real := 4.5
  /** Multishot arrows sit this far on each side of the aim line. */
  const MultishotOffset: real := 4.0
  /** Arrows start at the player's centre minus half their size. */
  const ArrowInset: real := 4.0

  /** Aim points of the two diagonal arrows, 30 degrees to each side of the aim;
      the angles and their sines and cosines are not part of this model. */
  datatype DiagonalTargets = DiagonalTargets(leftX: real, leftY: real, rightX: real, rightY: real)

  /** Arrows one attack adds: two with Multishot, otherwise one, and two more
      with DiagonalArrow. */
  function VolleySize(skills: seq<Skill>): nat
  {
    (if Holds(skills, Multishot) then 2 else 1) + (if Holds(skills, DiagonalArrow) then 2 else 0)
  }

  /** Only Multishot and DiagonalArrow change the volley: learning any other
      skill, ParallelShot included, leaves it as it was. */
  lemma VolleyIgnoresOtherSkills(skills: seq<Skill>, s: Skill)
    requires s.kind != Multishot && s.kind != DiagonalArrow
    ensures VolleySize(skills + [s]) == VolleySize(skills)
  {
    HoldsAppendOther(skills, s, Multishot);
    HoldsAppendOther(skills, s, DiagonalArrow);
  }

  /** The unit vector from (px, py) toward (ex, ey); (0, 0) when the points coincide. */
  function Unit(px: real, py: real, ex: real, ey: real, hypot: (real, real) -> real): (real, real)
  {
    var len := hypot(ex - px, ey - py);
    if len == 0.0 then (0.0, 0.0) else ((ex - px) / len, (ey - py) / len)
  }

  /** The arrows one attack fires from the player's centre (px, py) at the target
      centre (ex, ey), in the order they are added. */
  function Volley(skills: seq<Skill>, px: real, py: real, ex: real, ey: real, damage: real,
                  hypot: (real, real) -> real, diagonal: DiagonalTargets): seq<ProjectileState>
  {
    StraightShots(skills, px, py, ex, ey, damage, hypot) + DiagonalShots(skills, px, py, damage, hypot, diagonal)
  }

  /** The arrows aimed at the target: one from the player's corner, or with
      Multishot two, shifted 4 pixels to either side across the aim. */
  function StraightShots(skills: seq<Skill>, px: real, py: real, ex: real, ey: real, damage: real,
                         hypot: (real, real) -> real): seq<ProjectileState>
  {
    var u := Unit(px, py, ex, ey, hypot);
    var ox := -u.1 * MultishotOffset;
    var oy := u.0 * MultishotOffset;
    if Holds(skills, Multishot) then
      [Launch(px - ArrowInset + ox, py - ArrowInset + oy, ex + ox, ey + oy, ArrowSpeed, damage, hypot),
       Launch(px - ArrowInset - ox, py - ArrowInset - oy, ex - ox, ey - oy, ArrowSpeed, damage, hypot)]
    else [Launch(px - ArrowInset, py - ArrowInset, ex, ey, ArrowSpeed, damage, hypot)]
  }

  /** With DiagonalArrow, two more arrows from the player's corner at the two
      diagonal aim points, piercing when PiercingShot is held; otherwise none. */
  function DiagonalShots(skills: seq<Skill>, px: real, py: real, damage: real,
                         hypot: (real, real) -> real, diagonal: DiagonalTargets): seq<ProjectileState>
  {
    var pierce := Holds(skills, PiercingShot);
    if Holds(skills, DiagonalArrow) then
      [Launch(px - ArrowInset, py - ArrowInset, diagonal.leftX, diagonal.leftY, ArrowSpeed, damage, hypot)
         .(piercing := pierce),
       Launch(px - ArrowInset, py - ArrowInset, diagonal.rightX, diagonal.rightY, ArrowSpeed, damage, hypot)
         .(piercing := pierce)]
    else []
  }

  /** A volley has VolleySize arrows, all active, new and carrying the player's
      damage; only diagonal arrows can be piercing, and they are exactly when
      PiercingShot is held. */
  lemma VolleyShape(skills: seq<Skill>, px: real, py: real, ex: real, ey: real, damage: real,
                    hypot: (real, real) -> real, diagonal: DiagonalTargets)
    ensures var v := Volley(skills, px, py, ex, ey, damage, hypot, diagonal);
      && |v| == VolleySize(skills)
      && (forall i :: 0 <= i < |v| ==> v[i].active && v[i].lifeTime == 0.0 && v[i].damage == damage
                                       && v[i].speed == ArrowSpeed)
      && (forall i :: 0 <= i < |v| ==>
            (v[i].piercing <==> Holds(skills, DiagonalArrow) && Holds(skills, PiercingShot)
                                && i >= |v| - 2))
  {
  }

  // ---------------------------------------------------------------- hits

  /** The projectile strikes the enemy: the enemy is alive and the boxes overlap. */
  predicate Hits(p: ProjectileState, e: EnemyState)
  {
    e.Alive() && Overlaps(p.Bounds(), e.Bounds())
  }

  /** Index of the first enemy the projectile strikes, or |es| when there is none. */
  function FirstHit(p: ProjectileState, es: seq<EnemyState>): (k: nat)
    ensures k <= |es|
    ensures k < |es| ==> Hits(p, es[k])
    ensures forall j :: 0 <= j < k ==> !Hits(p, es[j])
  {
    if es == [] then 0
    else if Hits(p, es[0]) then 0
    else 1 + FirstHit(p, es[1..])
  }

  /** An active projectile damages the first enemy it strikes by its damage and
      is deactivated; with no strike, or when inactive, nothing changes. */
  function Strike(p: ProjectileState, es: seq<EnemyState>): (ProjectileState, seq<EnemyState>)
  {
    if !p.active then (p, es)
    else
      var k := FirstHit(p, es);
      if k == |es| then (p, es)
      else (p.(active := false), es[k := Damaged(es[k], p.damage)])
  }

  /** A strike touches at most one enemy, the first one hit, and ends the
      projectile whether or not it is piercing. */
  lemma StrikeHitsFirstOnly(p: ProjectileState, es: seq<EnemyState>)
    ensures var (q, es2) := Strike(p, es);
      var k := FirstHit(p, es);
      && |es2| == |es|
      && (forall j :: 0 <= j < |es| && j != k ==> es2[j] == es[j])
      && (p.active && k < |es| ==> es2[k] == Damaged(es[k], p.damage))
      && q == p.(active := p.active && k == |es|)
  {
  }

  /** One tick of the projectile list against the enemy list: each projectile in
      turn moves, then strikes against the enemies as earlier projectiles left them. */
  function ResolveAll(ps: seq<ProjectileState>, es: seq<EnemyState>, mapWidth: real, mapHeight: real)
    : (r: (seq<ProjectileState>, seq<EnemyState>))
    ensures |r.0| == |ps| && |r.1| == |es|
  {
    if ps == [] then ([], es)
    else
      var (done, es1) := ResolveAll(ps[..|ps| - 1], es, mapWidth, mapHeight);
      var (q, es2) := Strike(Advance(ps[|ps| - 1], mapWidth, mapHeight), es1);
      (done + [q], es2)
  }

  /** Enemy `e2` is `e1` with at most its health and liveness changed, and it is
      alive only if `e1` was. */
  predicate OnlyHurt(e1: EnemyState, e2: EnemyState)
  {
    && e2 == e1.(health := e2.health, active := e2.active)
    && (e2.Alive() ==> e1.Alive())
    && (!e1.Alive() ==> e2 == e1)
  }

  /** Resolution keeps both lists' lengths; it only hurts enemies (never moves or
      revives one, never touches a dead one) and never revives a projectile. */
  lemma {:induction false} ResolveAllShape(ps: seq<ProjectileState>, es: seq<EnemyState>, w: real, h: real)
    ensures var (ps2, es2) := ResolveAll(ps, es, w, h);
      && |ps2| == |ps| && |es2| == |es|
      && (forall i :: 0 <= i < |es| ==> OnlyHurt(es[i], es2[i]))
      && (forall j :: 0 <= j < |ps| ==> ps2[j].active ==> ps[j].active)
  {
    if ps != [] {
      var init := ps[..|ps| - 1];
      ResolveAllShape(init, es, w, h);
      var (done, es1) := ResolveAll(init, es, w, h);
      var a := Advance(ps[|ps| - 1], w, h);
      AdvanceInactive(ps[|ps| - 1], w, h);
      StrikeHitsFirstOnly(a, es1);
      var (q, es2) := Strike(a, es1);
      forall i | 0 <= i < |es|
        ensures OnlyHurt(es[i], es2[i])
      {
        if a.active && i == FirstHit(a, es1) {
          DamageKills(es1[i], a.damage);
        }
      }
    }
  }

  // ---------------------------------------------------------------- targeting

  /** Largest finite float64: the starting "best distance" of the search, so an
      enemy at that distance or more is never chosen. */
  const MaxFloat64: real :=
    179769313486231570814527423731704356798070567525844996598917476803157260780028538760589558632766878171540458953514382464234321326889464182768467546703537516986049910576551282076245490090389328944075868508455133942304583236903222948165808559332123348274797826204144723168738177180919299881250404026184124858368.0

  /** The nearest-enemy search after looking at the first `n` enemies: the best
      index so far and its distance. A later enemy replaces the best only when
      strictly nearer. */
  function Scan(es: seq<EnemyState>, px: real, py: real, hypot: (real, real) -> real, n: nat)
    : (Option<nat>, real)
    requires n <= |es|
  {
    if n == 0 then (None, MaxFloat64)
    else
      var (best, bestDist) := Scan(es, px, py, hypot, n - 1);
      var d := DistanceTo(es[n - 1], px, py, hypot);
      if es[n - 1].Alive() && d < bestDist then (Some(n - 1), d) else (best, bestDist)
  }

  /** The enemy the player aims at, if any. */
  function Nearest(es: seq<EnemyState>, px: real, py: real, hypot: (real, real) -> real): Option<nat>
  {
    Scan(es, px, py, hypot, |es|).0
  }

  /** The search finds nothing exactly when no live enemy is nearer than the
      largest float; otherwise it finds a live enemy at minimal distance, and the
      earliest one among equals. */
  lemma {:induction false} ScanFindsNearest(es: seq<EnemyState>, px: real, py: real,
                                            hypot: (real, real) -> real, n: nat)
    requires n <= |es|
    ensures var (best, d) := Scan(es, px, py, hypot, n);
      && (best == None <==>
            forall j :: 0 <= j < n && es[j].Alive() ==> DistanceTo(es[j], px, py, hypot) >= MaxFloat64)
      && (best == None ==> d == MaxFloat64)
      && (best.Some? ==>
            && best.value < n && es[best.value].Alive()
            && d == DistanceTo(es[best.value], px, py, hypot) && d < MaxFloat64
            && (forall j :: 0 <= j < n && es[j].Alive() ==> d <= DistanceTo(es[j], px, py, hypot))
            && (forall j :: 0 <= j < best.value && es[j].Alive() ==> d < DistanceTo(es[j], px, py, hypot)))
  {
    if n > 0 {
      ScanFindsNearest(es, px, py, hypot, n - 1);
    }
  }

  /** With a true (non-negative) distance, nothing is found exactly when no enemy is alive. */
  lemma NearestNoneIffNoneAlive(es: seq<EnemyState>, px: real, py: real, hypot: (real, real) -> real)
    requires forall i :: 0 <= i < |es| ==> DistanceTo(es[i], px, py, hypot) < MaxFloat64
    ensures Nearest(es, px, py, hypot) == None <==> forall j :: 0 <= j < |es| ==> !es[j].Alive()
  {
    ScanFindsNearest(es, px, py, hypot, |es|);
  }

  // ---------------------------------------------------------------- camera clamp

  /** `v` limited to [lo, hi]; tested against lo first, so lo wins when lo > hi. */
  function Clamp(v: real, lo: real, hi: real): (r: real)
    ensures lo <= hi ==> lo <= r <= hi
    ensures lo <= v <= hi ==> r == v
    ensures v < lo ==> r == lo
    ensures lo <= v && hi < v ==> r == hi
  {
    if v < lo then lo else if v > hi then hi else v
  }

  // ---------------------------------------------------------------- tiles

  /** The tile id of the teleport gate. */
  const GateTile: int := 159

  /** One tile layer, row-major. */
  datatype Layer = Layer(data: seq<int>, width: int, height: int)
  /** The map: its layers, size in tiles and tile size in pixels. */
  datatype Tilemap = Tilemap(layers: seq<Layer>, width: int, height: int, tileW: int, tileH: int)

  /** A layer whose data holds one id per cell. */
  predicate WellFormed(l: Layer)
  {
    l.width >= 0 && l.height >= 0 && |l.data| == l.width * l.height
  }

  /** A cell inside the grid has a row-major index inside the data. */
  lemma RowMajorInRange(col: int, row: int, width: int, height: int)
    requires 0 <= col < width && 0 <= row < height
    ensures 0 <= row * width + col < width * height
  {
    MulLeq(row, height - 1, width);
  }

  lemma MulLeq(a: int, b: int, c: int)
    requires 0 <= a <= b && c >= 0
    ensures a * c <= b * c
  {
  }

  /** Conversion of a float to an int in the source: the fraction is dropped,
      rounding toward zero. */
  function Truncate(v: real): (r: int)
    ensures v >= 0.0 ==> 0 <= r && r as real <= v < r as real + 1.0
    ensures v < 0.0 ==> r <= 0 && r as real - 1.0 < v <= r as real
  {
    if v >= 0.0 then v.Floor else -((-v).Floor)
  }

  /** The layer holds the gate tile at (col, row). */
  predicate GateIn(l: Layer, col: int, row: int)
    requires WellFormed(l)
  {
    0 <= row < l.height && 0 <= col < l.width
    && (RowMajorInRange(col, row, l.width, l.height); l.data[row * l.width + col] == GateTile)
  }

  /** Some layer holds the gate tile in the cell under the point (cx, cy). */
  predicate OnGate(m: Tilemap, cx: real, cy: real)
    requires m.tileW > 0 && m.tileH > 0
    requires forall i :: 0 <= i < |m.layers| ==> WellFormed(m.layers[i])
  {
    var col := Truncate(cx / m.tileW as real);
    var row := Truncate(cy / m.tileH as real);
    exists i :: 0 <= i < |m.layers| && GateIn(m.layers[i], col, row)
  }
}
