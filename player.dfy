/** The player character: position, health, attack cooldown and the list of
    learned skills, updated in place by the game loop. */
module Players {
  import opened Geometry
  import opened Skills

  /** A requested speed below this is replaced by DefaultSpeed. */
  const MinSpeed: real := 2.7
  const DefaultSpeed: real := 3.2
  /** The player's box is 16 by 16 pixels. */
  const PlayerSize: real := 16.0
  /** AttackBoost multiplies the damage, SpeedBoost adds to the speed. */
  const AttackBoostFactor: real := 1.2
  const SpeedBoostStep: real := 0.5

  /** The speed a new player actually gets. */
  function EffectiveSpeed(speed: real): (r: real)
    ensures r >= MinSpeed
    ensures speed >= MinSpeed ==> r == speed
    ensures speed < MinSpeed ==> r == DefaultSpeed
  {
    if speed < MinSpeed then DefaultSpeed else speed
  }

  /** Health after taking `amount` damage: never negative, and lowered by exactly
      `amount` while that leaves something. */
  function AfterDamage(health: real, amount: real): (r: real)
    ensures r >= 0.0
    ensures health - amount >= 0.0 ==> r == health - amount
    ensures health - amount < 0.0 ==> r == 0.0
    ensures amount >= 0.0 && health >= 0.0 ==> r <= health
  {
    var h := health - amount;
    if h < 0.0 then 0.0 else h
  }

  /** The attack cooldown after one tick: a running cooldown drops by one frame,
      a finished one is left as it is. */
  function CooledDown(timer: real): (r: real)
    ensures r <= timer
    ensures timer <= 0.0 ==> r == timer
    ensures timer > 0.0 ==> r == timer - FrameStep && r > -FrameStep
  {
    if timer > 0.0 then timer - FrameStep else timer
  }

  /** Attack damage after learning a skill of kind `kind`: a learned skill never
      weakens the player, and only AttackBoost changes the damage. */
  function BoostedDamage(damage: real, kind: SkillType): (r: real)
    ensures kind == AttackBoost ==> r == damage * AttackBoostFactor
    ensures kind != AttackBoost ==> r == damage
    ensures damage >= 0.0 ==> damage <= r <= damage * AttackBoostFactor
    ensures damage > 0.0 ==> (r == damage <==> kind != AttackBoost)
  {
    if kind == AttackBoost then damage * AttackBoostFactor else damage
  }

  /** Movement speed after learning a skill of kind `kind`: never slower, by at
      most one boost step, and faster exactly for SpeedBoost. */
  function BoostedSpeed(speed: real, kind: SkillType): (r: real)
    ensures kind == SpeedBoost ==> r == speed + SpeedBoostStep
    ensures kind != SpeedBoost ==> r == speed
    ensures speed <= r <= speed + SpeedBoostStep
    ensures r > speed <==> kind == SpeedBoost
  {
    if kind == SpeedBoost then speed + SpeedBoostStep else speed
  }

  /** Attack damage after learning the skills `learned` in order. */
  function LearnedDamage(damage: real, learned: seq<Skill>): real
  {
    if learned == [] then damage
    else BoostedDamage(LearnedDamage(damage, learned[..|learned| - 1]), learned[|learned| - 1].kind)
  }

  /** Movement speed after learning the skills `learned` in order. */
  function LearnedSpeed(speed: real, learned: seq<Skill>): real
  {
    if learned == [] then speed
    else BoostedSpeed(LearnedSpeed(speed, learned[..|learned| - 1]), learned[|learned| - 1].kind)
  }

  /** 1.2 to the power `n`. */
  function BoostPower(n: nat): (r: real)
    ensures r >= 1.0
  {
    if n == 0 then 1.0 else AttackBoostFactor * BoostPower(n - 1)
  }

  /** SpeedBoost stacks additively: each copy learned adds 0.5, whatever else is learned. */
  lemma {:induction false} LearnedSpeedStacks(speed: real, learned: seq<Skill>)
    ensures LearnedSpeed(speed, learned) == speed + SpeedBoostStep * (CountOf(learned, SpeedBoost) as real)
  {
    if learned != [] {
      LearnedSpeedStacks(speed, learned[..|learned| - 1]);
    }
  }

  /** AttackBoost stacks multiplicatively: each copy learned multiplies by 1.2. */
  lemma {:induction false} LearnedDamageStacks(damage: real, learned: seq<Skill>)
    ensures LearnedDamage(damage, learned) == damage * BoostPower(CountOf(learned, AttackBoost))
  {
    if learned != [] {
      var init := learned[..|learned| - 1];
      LearnedDamageStacks(damage, init);
      MultiplyAssociates(damage, BoostPower(CountOf(init, AttackBoost)), AttackBoostFactor);
    }
  }

  /** Reordering a product of three reals. */
  lemma MultiplyAssociates(a: real, b: real, c: real)
    ensures (a * b) * c == a * (c * b)
  {
  }

  class Player {
    var x: real
    var y: real
    var health: real
    var maxHealth: real
    /** Pixels per tick. */
    var speed: real
    var attackDamage: real
    /** Attacks per second. */
    var attackSpeed: real
    /** Seconds until the next attack is allowed. */
    var attackTimer: real
    const width: real
    const height: real
    /** Learned skills in learning order; duplicates stack. */
    var skills: seq<Skill>

    /** A new player at full health, ready to attack, with no skills. */
    constructor (x0: real, y0: real, maxHealth0: real, speed0: real, attackDamage0: real, attackSpeed0: real)
      ensures x == x0 && y == y0
      ensures health == maxHealth0 && maxHealth == maxHealth0
      ensures speed == EffectiveSpeed(speed0)
      ensures attackDamage == attackDamage0 && attackSpeed == attackSpeed0
      ensures attackTimer == 0.0 && CanAttack()
      ensures width == PlayerSize && height == PlayerSize
      ensures skills == []
    {
      var s := speed0;
      if s < MinSpeed {
        s := DefaultSpeed;
      }
      x, y := x0, y0;
      health, maxHealth := maxHealth0, maxHealth0;
      speed := s;
      attackDamage, attackSpeed := attackDamage0, attackSpeed0;
      attackTimer := 0.0;
      width, height := PlayerSize, PlayerSize;
      skills := [];
    }

    /** The per-tick cooldown countdown. */
    method Update()
      modifies this`attackTimer
      ensures attackTimer == CooledDown(old(attackTimer))
    {
      if attackTimer > 0.0 {
        attackTimer := attackTimer - FrameStep;
      }
    }

    /** Attacks are allowed once the cooldown has run out: exactly when the
        per-tick countdown has nothing left to count down. */
    predicate CanAttack()
      reads this`attackTimer
      ensures CanAttack() <==> CooledDown(attackTimer) == attackTimer
    {
      attackTimer <= 0.0
    }

    /** Firing restarts the cooldown at one attack period. */
    method Attack()
      requires attackSpeed != 0.0
      modifies this`attackTimer
      ensures attackTimer == 1.0 / attackSpeed
      ensures attackSpeed > 0.0 ==> !CanAttack()
    {
      attackTimer := 1.0 / attackSpeed;
    }

    /** Moves by (dx, dy) times the speed, each axis on its own and only when the
        new coordinate keeps the box inside the map. */
    method Move(dx: real, dy: real, mapWidth: real, mapHeight: real)
      modifies this`x, this`y
      ensures x == StepWithin(old(x), dx * speed, mapWidth - width)
      ensures y == StepWithin(old(y), dy * speed, mapHeight - height)
      ensures 0.0 <= old(x) <= mapWidth - width ==> 0.0 <= x <= mapWidth - width
      ensures 0.0 <= old(y) <= mapHeight - height ==> 0.0 <= y <= mapHeight - height
    {
      var newX := x + dx * speed;
      var newY := y + dy * speed;
      if newX >= 0.0 && newX <= mapWidth - width {
        x := newX;
      }
      if newY >= 0.0 && newY <= mapHeight - height {
        y := newY;
      }
    }

    /** The centre of the player's box: as far from the left edge as from the
        right, and as far from the top as from the bottom, so inside the box. */
    function Center(): (r: (real, real))
      reads this`x, this`y
      ensures r.0 - x == (x + width) - r.0 && r.1 - y == (y + height) - r.1
      ensures 0.0 <= width ==> x <= r.0 <= x + width
      ensures 0.0 <= height ==> y <= r.1 <= y + height
    {
      (x + width / 2.0, y + height / 2.0)
    }

    /** The player's box. */
    function Bounds(): Box
      reads this`x, this`y
    {
      Box(x, y, width, height)
    }

    /** Subtracts the damage, clamping health at 0. */
    method TakeDamage(amount: real)
      modifies this`health
      ensures health == AfterDamage(old(health), amount)
      ensures health >= 0.0
    {
      health := health - amount;
      if health < 0.0 {
        health := 0.0;
      }
    }

    /** Strict box overlap between the player and another box: the same answer
        as the other box's own test, and never for boxes that only touch. */
    predicate CheckCollision(otherX: real, otherY: real, otherW: real, otherH: real)
      reads this`x, this`y
      ensures CheckCollision(otherX, otherY, otherW, otherH) <==> Overlaps(Box(otherX, otherY, otherW, otherH), Bounds())
      ensures x + width == otherX || otherX + otherW == x || y + height == otherY || otherY + otherH == y
              ==> !CheckCollision(otherX, otherY, otherW, otherH)
    {
      Overlaps(Bounds(), Box(otherX, otherY, otherW, otherH))
    }

    /** Appends the skill; the two stat boosts take effect at once. */
    method LearnSkill(s: Skill)
      modifies this`skills, this`attackDamage, this`speed
      ensures skills == old(skills) + [s]
      ensures attackDamage == BoostedDamage(old(attackDamage), s.kind)
      ensures speed == BoostedSpeed(old(speed), s.kind)
      ensures forall t :: CountOf(skills, t) == CountOf(old(skills), t) + (if s.kind == t then 1 else 0)
    {
      skills := skills + [s];
      match s.kind {
        case AttackBoost =>
          attackDamage := attackDamage * AttackBoostFactor;
        case SpeedBoost =>
          speed := speed + SpeedBoostStep;
        case _ =>
      }
      forall t
        ensures CountOf(skills, t) == CountOf(old(skills), t) + (if s.kind == t then 1 else 0)
      {
        CountOfAppend(old(skills), s, t);
      }
    }

    /** Whether some learned skill has kind `t`: a scan that stops at the first match. */
    method HasSkill(t: SkillType) returns (has: bool)
      ensures has <==> Holds(skills, t)
      ensures has <==> CountOf(skills, t) > 0
    {
      HoldsIffCounted(skills, t);
      var i := 0;
      while i < |skills|
        invariant 0 <= i <= |skills|
        invariant forall j :: 0 <= j < i ==> skills[j].kind != t
      {
        if skills[i].kind == t {
          return true;
        }
        i := i + 1;
      }
      return false;
    }

    /** How many learned skills have kind `t`. */
    method GetSkillCount(t: SkillType) returns (count: nat)
      ensures count == CountOf(skills, t)
      ensures count <= |skills|
    {
      count := 0;
      var i := 0;
      while i < |skills|
        invariant 0 <= i <= |skills|
        invariant count == CountOf(skills[..i], t) && count <= i
      {
        assert skills[..i + 1][..i] == skills[..i];
        if skills[i].kind == t {
          count := count + 1;
        }
        i := i + 1;
      }
      assert skills[..i] == skills;
    }
  }
}
