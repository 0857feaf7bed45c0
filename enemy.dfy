/** Enemies: a two-mode (Rest/Dash) timer state machine that dashes toward the
    player when in range, staying inside the map, and dies when its health runs out. */
module Enemies {
  import opened Geometry

  /** An enemy's box is 16 by 16 pixels. */
  const EnemySize: real := 16.0
  /** Timer of a new enemy: a grace period before its first dash. */
  const SpawnGrace: real := 1.0
  /** Timer set on entering each mode. */
  const DashDuration: real := 1.2
  const RestDuration: real := 0.8
  /** A dashing enemy moves this many times its speed per tick. */
  const DashMultiplier: real := 1.8

  /** The behaviour mode; the source stores it as an integer, 0 for Rest and 1 for Dash. */
  datatype Mode = Rest | Dash

  /** A snapshot of every field of an enemy. */
  datatype EnemyState = EnemyState(
    x: real, y: real,
    health: real, maxHealth: real,
    speed: real, damage: real,
    width: real, height: real,
    active: bool,
    followDist: real,
    mode: Mode,
    timer: real)
  {
    predicate Alive() { active && health > 0.0 }
    function Bounds(): Box { Box(x, y, width, height) }
    function Center(): (real, real) { (x + width / 2.0, y + height / 2.0) }
    /** The box lies inside a map of the given size. */
    predicate InMap(mapWidth: real, mapHeight: real)
    {
      0.0 <= x <= mapWidth - width && 0.0 <= y <= mapHeight - height
    }
  }

  /** Euclidean distance from the enemy's centre to the point (x, y); `hypot` is
      the length of a vector. Only the offset of the point from the centre
      matters: a point at the centre is at the zero vector's length. */
  function DistanceTo(s: EnemyState, x: real, y: real, hypot: (real, real) -> real): (r: real)
    ensures (x, y) == s.Center() ==> r == hypot(0.0, 0.0)
  {
    hypot(x - s.Center().0, y - s.Center().1)
  }

  /** Moving the enemy and the point by the same offset leaves the distance as it
      was, and so does any change to the enemy other than its position or size. */
  lemma DistanceOffsetOnly(s: EnemyState, t: EnemyState, x: real, y: real, dx: real, dy: real,
                           hypot: (real, real) -> real)
    requires t.width == s.width && t.height == s.height
    ensures DistanceTo(s.(x := s.x + dx, y := s.y + dy), x + dx, y + dy, hypot) == DistanceTo(s, x, y, hypot)
    ensures t.x == s.x && t.y == s.y ==> DistanceTo(t, x, y, hypot) == DistanceTo(s, x, y, hypot)
  {
  }

  /** The state of a freshly made enemy. */
  function Spawned(x: real, y: real, maxHealth: real, speed: real, damage: real, followDist: real): EnemyState
  {
    EnemyState(x, y, maxHealth, maxHealth, speed, damage, EnemySize, EnemySize, true, followDist, Rest, SpawnGrace)
  }

  /** The timer countdown and the mode switch of a live enemy's tick. */
  function Retimed(s: EnemyState): EnemyState
  {
    var t := s.timer - FrameStep;
    if t <= 0.0 then
      if s.mode == Rest then s.(mode := Dash, timer := DashDuration)
      else s.(mode := Rest, timer := RestDuration)
    else s.(timer := t)
  }

  /** The dash move: a dashing enemy within `followDist` (but not at distance 0) of
      the point (playerX, playerY) moves toward it by DashMultiplier times its speed,
      each axis only if it stays inside the map. `distance` is the Euclidean length
      from the enemy's corner to that point. */
  function Dashed(s: EnemyState, playerX: real, playerY: real, mapWidth: real, mapHeight: real,
                  distance: real): EnemyState
  {
    if s.mode == Dash && distance < s.followDist && distance > 0.0 then
      DashMove(s, (playerX - s.x) / distance, (playerY - s.y) / distance, mapWidth, mapHeight)
    else s
  }

  /** A dash along the unit vector (ux, uy): DashMultiplier times the speed, each
      axis only if it stays inside the map. */
  function DashMove(s: EnemyState, ux: real, uy: real, mapWidth: real, mapHeight: real): EnemyState
  {
    s.(x := StepWithin(s.x, ux * s.speed * DashMultiplier, mapWidth - s.width),
       y := StepWithin(s.y, uy * s.speed * DashMultiplier, mapHeight - s.height))
  }

  /** One tick of an enemy. A dead or inactive enemy is only marked inactive.
      `hypot` is the Euclidean length of a vector. */
  function Step(s: EnemyState, playerX: real, playerY: real, mapWidth: real, mapHeight: real,
                hypot: (real, real) -> real): EnemyState
  {
    if !s.active || s.health <= 0.0 then s.(active := false)
    else
      var r := Retimed(s);
      Dashed(r, playerX, playerY, mapWidth, mapHeight, hypot(playerX - r.x, playerY - r.y))
  }

  /** Health and liveness after taking damage. */
  function Damaged(s: EnemyState, amount: real): EnemyState
  {
    var h := s.health - amount;
    if h <= 0.0 then s.(health := 0.0, active := false) else s.(health := h)
  }

  /** A dead or inactive enemy is only deactivated by a tick; nothing else changes. */
  lemma StepOfInert(s: EnemyState, px: real, py: real, w: real, h: real, hypot: (real, real) -> real)
    requires !s.active || s.health <= 0.0
    ensures Step(s, px, py, w, h, hypot) == s.(active := false)
  {
  }

  /** A live enemy's tick lowers its timer by one frame; when that reaches 0 the
      mode flips, Rest to Dash with 1.2 s and Dash to Rest with 0.8 s. The mode and
      timer do not depend on where the player is. */
  lemma StepSwitchesMode(s: EnemyState, px: real, py: real, qx: real, qy: real, w: real, h: real,
                         hypot: (real, real) -> real)
    requires s.Alive()
    ensures var r := Step(s, px, py, w, h, hypot);
      && (s.timer - FrameStep > 0.0 ==> r.mode == s.mode && r.timer == s.timer - FrameStep)
      && (s.timer - FrameStep <= 0.0 && s.mode == Rest ==> r.mode == Dash && r.timer == DashDuration)
      && (s.timer - FrameStep <= 0.0 && s.mode == Dash ==> r.mode == Rest && r.timer == RestDuration)
    ensures Step(s, px, py, w, h, hypot).mode == Step(s, qx, qy, w, h, hypot).mode
    ensures Step(s, px, py, w, h, hypot).timer == Step(s, qx, qy, w, h, hypot).timer
  {
  }

  /** An enemy that is resting after the mode check does not move. */
  lemma RestingEnemyStaysPut(s: EnemyState, px: real, py: real, w: real, h: real, hypot: (real, real) -> real)
    requires Step(s, px, py, w, h, hypot).mode == Rest
    ensures Step(s, px, py, w, h, hypot).x == s.x && Step(s, px, py, w, h, hypot).y == s.y
  {
  }

  /** An enemy moves only while dashing at a distance strictly between 0 and its
      follow distance, and an enemy inside the map stays inside it. */
  lemma DashIsBounded(s: EnemyState, px: real, py: real, w: real, h: real, hypot: (real, real) -> real)
    ensures var r := Step(s, px, py, w, h, hypot);
      var d := hypot(px - s.x, py - s.y);
      (r.x != s.x || r.y != s.y) ==> s.Alive() && r.mode == Dash && 0.0 < d < s.followDist
    ensures s.InMap(w, h) ==> Step(s, px, py, w, h, hypot).InMap(w, h)
  {
  }

  /** A tick never kills a live enemy, and nothing brings an inactive one back. */
  lemma LivenessOnlyDecreases(s: EnemyState, px: real, py: real, w: real, h: real,
                              hypot: (real, real) -> real, amount: real)
    ensures s.Alive() ==> Step(s, px, py, w, h, hypot).Alive()
    ensures !s.active ==> !Step(s, px, py, w, h, hypot).active && !Damaged(s, amount).active
    ensures !s.Alive() ==> !Step(s, px, py, w, h, hypot).Alive()
  {
  }

  /** Damage that drives health to 0 or below kills: health 0 and inactive;
      otherwise health drops by the amount. */
  lemma DamageKills(s: EnemyState, amount: real)
    ensures s.health - amount <= 0.0 ==> Damaged(s, amount).health == 0.0 && !Damaged(s, amount).active
    ensures s.health - amount > 0.0 ==> Damaged(s, amount) == s.(health := s.health - amount)
    ensures Damaged(s, amount).health >= 0.0
  {
  }

  class Enemy {
    var x: real
    var y: real
    var health: real
    var maxHealth: real
    var speed: real
    /** Declared contact damage (the game loop applies a fixed amount instead). */
    var damage: real
    const width: real
    const height: real
    var active: bool
    /** Beyond this distance the enemy does not chase. */
    var followDist: real
    var mode: Mode
    /** Seconds left in the current mode. */
    var timer: real

    function State(): EnemyState
      reads this
    {
      EnemyState(x, y, health, maxHealth, speed, damage, width, height, active, followDist, mode, timer)
    }

    /** A new enemy: active, resting, full health, timer at the grace period. */
    constructor (x0: real, y0: real, maxHealth0: real, speed0: real, damage0: real, followDist0: real)
      ensures State() == Spawned(x0, y0, maxHealth0, speed0, damage0, followDist0)
      ensures active && mode == Rest && timer == SpawnGrace && health == maxHealth
    {
      x, y := x0, y0;
      health, maxHealth := maxHealth0, maxHealth0;
      speed, damage := speed0, damage0;
      width, height := EnemySize, EnemySize;
      active := true;
      followDist := followDist0;
      mode := Rest;
      timer := SpawnGrace;
    }

    /** One tick of the state machine and the dash; `hypot` gives the Euclidean
        length the source computes with a square root. */
    method Update(playerX: real, playerY: real, screenWidth: real, screenHeight: real,
                  hypot: (real, real) -> real)
      modifies this
      ensures State() == Step(old(State()), playerX, playerY, screenWidth, screenHeight, hypot)
    {
      if !active || health <= 0.0 {
        active := false;
        return;
      }
      timer := timer - FrameStep;
      if timer <= 0.0 {
        if mode == Rest {
          mode := Dash;
          timer := DashDuration;
        } else {
          mode := Rest;
          timer := RestDuration;
        }
      }
      if mode == Dash {
        var dx := playerX - x;
        var dy := playerY - y;
        var distance := hypot(dx, dy);
        if distance < followDist && distance > 0.0 {
          DashAlong(dx / distance, dy / distance, screenWidth, screenHeight);
        }
      }
    }

    /** The dash step of a tick: along the unit vector (ux, uy) by DashMultiplier
        times the speed, each axis only if it stays inside the map. */
    method DashAlong(ux: real, uy: real, screenWidth: real, screenHeight: real)
      modifies this`x, this`y
      ensures State() == DashMove(old(State()), ux, uy, screenWidth, screenHeight)
    {
      var newX := x + ux * speed * DashMultiplier;
      var newY := y + uy * speed * DashMultiplier;
      if newX >= 0.0 && newX <= screenWidth - width {
        x := newX;
      }
      if newY >= 0.0 && newY <= screenHeight - height {
        y := newY;
      }
    }

    /** The centre of the enemy's box: midway between its left and right edges
        and between its top and bottom edges, so inside the box. */
    function Center(): (r: (real, real))
      reads this
      ensures r.0 - x == (x + width) - r.0 && r.1 - y == (y + height) - r.1
      ensures 0.0 <= width ==> x <= r.0 <= x + width
      ensures 0.0 <= height ==> y <= r.1 <= y + height
    {
      State().Center()
    }

    /** The distance from the centre of the enemy's box (not its corner, which
        the dash measures from) to the point (px, py). */
    function GetDistanceTo(px: real, py: real, hypot: (real, real) -> real): (r: real)
      reads this
      ensures r == hypot(px - Center().0, py - Center().1)
      ensures (px, py) == Center() ==> r == hypot(0.0, 0.0)
    {
      DistanceTo(State(), px, py, hypot)
    }

    /** Subtracts the damage; at 0 or below the enemy dies. */
    method TakeDamage(amount: real)
      modifies this
      ensures State() == Damaged(old(State()), amount)
    {
      health := health - amount;
      if health <= 0.0 {
        health := 0.0;
        active := false;
      }
    }

    /** Active with health left: the same test as `State().Alive()`, so a
        killed (inactive) enemy or one at no health is never alive. */
    predicate IsAlive()
      reads this
      ensures IsAlive() <==> State().Alive()
    {
      active && health > 0.0
    }

    /** Strict box overlap between this enemy and another box: the same answer
        as the other box's own test, and never for boxes that only touch. */
    predicate CheckCollision(px: real, py: real, pw: real, ph: real)
      reads this
      ensures CheckCollision(px, py, pw, ph) <==> Overlaps(Box(px, py, pw, ph), State().Bounds())
      ensures x + width == px || px + pw == x || y + height == py || py + ph == y
              ==> !CheckCollision(px, py, pw, ph)
    {
      Overlaps(State().Bounds(), Box(px, py, pw, ph))
    }
  }
}
