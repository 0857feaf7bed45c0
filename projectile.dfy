/** Projectiles: launched along a straight line toward a target point, they move
    by a fixed velocity each tick and deactivate when they leave the play area or
    when their lifetime is used up. */
module Projectiles {
  import opened Geometry

  /** A projectile's box is 8 by 8 pixels. */
  const ProjectileSize: real := 8.0
  /** Seconds a projectile lives. */
  const MaxLife: real := 5.0

  /** A snapshot of every field of a projectile. */
  datatype ProjectileState = ProjectileState(
    x: real, y: real,
    vx: real, vy: real,
    speed: real, damage: real,
    active: bool,
    width: real, height: real,
    lifeTime: real, maxLifeTime: real,
    piercing: bool)
  {
    function Bounds(): Box { Box(x, y, width, height) }

    /** Outside the screen extended by one box size on each side, or expired. */
    predicate Spent(screenWidth: real, screenHeight: real)
    {
      x < -width || x > screenWidth + width || y < -height || y > screenHeight + height
      || lifeTime >= maxLifeTime
    }
  }

  /** The divisor used to normalise the aim vector: its length, or 1 when the
      length is 0 (so a zero vector gives a zero velocity instead of a division by 0). */
  function AimDivisor(length: real): (r: real)
    ensures r != 0.0
    ensures length != 0.0 ==> r == length
    ensures length == 0.0 ==> r == 1.0
  {
    if length == 0.0 then 1.0 else length
  }

  /** The projectile made at (x, y) aimed at (targetX, targetY): active, aged 0,
      velocity along the aim scaled by `speed`. `hypot` is the Euclidean length. */
  function Launch(x: real, y: real, targetX: real, targetY: real, speed: real, damage: real,
                  hypot: (real, real) -> real): ProjectileState
  {
    var dx := targetX - x;
    var dy := targetY - y;
    var d := AimDivisor(hypot(dx, dy));
    ProjectileState(x, y, (dx / d) * speed, (dy / d) * speed, speed, damage, true,
                    ProjectileSize, ProjectileSize, 0.0, MaxLife, false)
  }

  /** Aiming at the launch point itself gives a projectile that does not move. */
  lemma LaunchAtOrigin(x: real, y: real, speed: real, damage: real, hypot: (real, real) -> real)
    ensures Launch(x, y, x, y, speed, damage, hypot).vx == 0.0
    ensures Launch(x, y, x, y, speed, damage, hypot).vy == 0.0
  {
  }

  /** With a distinct target and a positive length, the velocity points at the
      target: each component is speed / length times the aim vector's component. */
  lemma LaunchSpeed(x: real, y: real, tx: real, ty: real, speed: real, damage: real,
                    hypot: (real, real) -> real)
    requires hypot(tx - x, ty - y) > 0.0
    ensures var p := Launch(x, y, tx, ty, speed, damage, hypot);
      var k := speed / hypot(tx - x, ty - y);
      p.vx == k * (tx - x) && p.vy == k * (ty - y)
  {
  }

  /** One tick: an inactive projectile is left alone; an active one moves by its
      velocity, ages one frame, and is deactivated once spent. */
  function Advance(s: ProjectileState, screenWidth: real, screenHeight: real): ProjectileState
  {
    if !s.active then s
    else
      var m := s.(x := s.x + s.vx, y := s.y + s.vy, lifeTime := s.lifeTime + FrameStep);
      if m.Spent(screenWidth, screenHeight) then m.(active := false) else m
  }

  /** What a tick of an active projectile does: it moves by (vx, vy), ages by one
      frame, keeps its velocity, and is inactive afterwards exactly when it is
      then out of the extended screen or expired. */
  lemma AdvanceMoves(s: ProjectileState, w: real, h: real)
    requires s.active
    ensures var r := Advance(s, w, h);
      && r.x == s.x + s.vx && r.y == s.y + s.vy
      && r.lifeTime == s.lifeTime + FrameStep
      && r.vx == s.vx && r.vy == s.vy && r.damage == s.damage && r.piercing == s.piercing
      && (!r.active <==> r.Spent(w, h))
  {
  }

  /** Ticking an inactive projectile changes nothing; nothing reactivates one. */
  lemma AdvanceInactive(s: ProjectileState, w: real, h: real)
    ensures !s.active ==> Advance(s, w, h) == s
    ensures Advance(s, w, h).active ==> s.active
  {
  }

  class Projectile {
    var x: real
    var y: real
    var vx: real
    var vy: real
    var speed: real
    var damage: real
    var active: bool
    const width: real
    const height: real
    /** Seconds since launch. */
    var lifeTime: real
    var maxLifeTime: real
    /** Set on DiagonalArrow shots of a player holding PiercingShot; never read
        by the collision code. */
    var piercing: bool

    function State(): ProjectileState
      reads this
    {
      ProjectileState(x, y, vx, vy, speed, damage, active, width, height, lifeTime, maxLifeTime, piercing)
    }

    /** A projectile at (x0, y0) aimed at (targetX, targetY). */
    constructor (x0: real, y0: real, targetX: real, targetY: real, speed0: real, damage0: real,
                 hypot: (real, real) -> real)
      ensures State() == Launch(x0, y0, targetX, targetY, speed0, damage0, hypot)
      ensures active && !piercing && lifeTime == 0.0 && maxLifeTime == MaxLife
    {
      var dx := targetX - x0;
      var dy := targetY - y0;
      var distance := hypot(dx, dy);
      if distance == 0.0 {
        distance := 1.0;
      }
      x, y := x0, y0;
      vx := (dx / distance) * speed0;
      vy := (dy / distance) * speed0;
      speed, damage := speed0, damage0;
      active := true;
      width, height := ProjectileSize, ProjectileSize;
      lifeTime, maxLifeTime := 0.0, MaxLife;
      piercing := false;
    }

    /** One tick of motion and ageing. */
    method Update(screenWidth: real, screenHeight: real)
      modifies this
      ensures State() == Advance(old(State()), screenWidth, screenHeight)
    {
      if !active {
        return;
      }
      x := x + vx;
      y := y + vy;
      lifeTime := lifeTime + FrameStep;
      if x < -width || x > screenWidth + width || y < -height || y > screenHeight + height
         || lifeTime >= maxLifeTime {
        active := false;
      }
    }

    /** Strict box overlap between this projectile and another box: the same
        answer as the other box's own test, and never for boxes that only touch. */
    predicate CheckCollision(ex: real, ey: real, ew: real, eh: real)
      reads this
      ensures CheckCollision(ex, ey, ew, eh) <==> Overlaps(Box(ex, ey, ew, eh), State().Bounds())
      ensures x + width == ex || ex + ew == x || y + height == ey || ey + eh == y
              ==> !CheckCollision(ex, ey, ew, eh)
    {
      Overlaps(State().Bounds(), Box(ex, ey, ew, eh))
    }
  }
}
