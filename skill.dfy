/** The skill catalogue: six kinds of skill, their display entries, and the
    counting of a learned-skill list by kind. */
module Skills {

  /** The six kinds, in the order of their declaration (and of their ordinals). */
  datatype SkillType = AttackBoost | SpeedBoost | Multishot | PiercingShot | DiagonalArrow | ParallelShot

  /** The integer each kind stands for in the source's enumeration. */
  function Ordinal(t: SkillType): nat
  {
    match t
    case AttackBoost => 0
    case SpeedBoost => 1
    case Multishot => 2
    case PiercingShot => 3
    case DiagonalArrow => 4
    case ParallelShot => 5
  }

  /** The kinds in declaration order. */
  const Kinds: seq<SkillType> := [AttackBoost, SpeedBoost, Multishot, PiercingShot, DiagonalArrow, ParallelShot]

  /** There are exactly six kinds, and each has as ordinal its place in the declaration:
      the ordinals are distinct and are 0..5. */
  lemma SixDistinctKinds()
    ensures |Kinds| == 6
    ensures forall t :: t in Kinds
    ensures forall i :: 0 <= i < |Kinds| ==> Ordinal(Kinds[i]) == i
    ensures forall t, u :: Ordinal(t) == Ordinal(u) ==> t == u
  {
    forall t
      ensures t in Kinds
    {
      assert Kinds[Ordinal(t)] == t;
    }
  }

  /** A catalogue entry: the kind plus the text shown in the selection menu. */
  datatype Skill = Skill(kind: SkillType, name: string, description: string)

  /** Every skill the game offers, in catalogue order. */
  const AllSkills: seq<Skill> := [
    Skill(AttackBoost, "AttackBoost +", "+20% ATK"),
    Skill(SpeedBoost, "SpeedBoost +", "SpeedBoost"),
    Skill(Multishot, "Multishot", "Multishot"),
    Skill(ParallelShot, "ParallelShot", "+1 Parallel Arrow"),
    Skill(PiercingShot, "PiercingShot", "PiercingShot"),
    Skill(DiagonalArrow, "DiagonalArrow", "DiagonalArrow")
  ]

  /** Number of entries of kind `t` in a skill list. */
  function CountOf(skills: seq<Skill>, t: SkillType): nat
  {
    if skills == [] then 0
    else CountOf(skills[..|skills| - 1], t) + (if skills[|skills| - 1].kind == t then 1 else 0)
  }

  /** Some entry of a skill list has kind `t`. */
  predicate Holds(skills: seq<Skill>, t: SkillType)
  {
    exists i :: 0 <= i < |skills| && skills[i].kind == t
  }

  /** Holding a kind is the same as counting at least one entry of it. */
  lemma {:induction false} HoldsIffCounted(skills: seq<Skill>, t: SkillType)
    ensures Holds(skills, t) <==> CountOf(skills, t) > 0
  {
    if skills != [] {
      var init := skills[..|skills| - 1];
      HoldsIffCounted(init, t);
      if Holds(init, t) {
        var i :| 0 <= i < |init| && init[i].kind == t;
        assert skills[i].kind == t;
      }
      if Holds(skills, t) && skills[|skills| - 1].kind != t {
        var i :| 0 <= i < |skills| && skills[i].kind == t;
        assert init[i].kind == t;
      }
    }
  }

  /** Appending an entry adds one to the count of its own kind and nothing to the others. */
  lemma CountOfAppend(skills: seq<Skill>, s: Skill, t: SkillType)
    ensures CountOf(skills + [s], t) == CountOf(skills, t) + (if s.kind == t then 1 else 0)
  {
    assert (skills + [s])[..|skills|] == skills;
  }

  /** Appending an entry of another kind does not change whether `t` is held. */
  lemma HoldsAppendOther(skills: seq<Skill>, s: Skill, t: SkillType)
    requires s.kind != t
    ensures Holds(skills + [s], t) <==> Holds(skills, t)
  {
    CountOfAppend(skills, s, t);
    HoldsIffCounted(skills + [s], t);
    HoldsIffCounted(skills, t);
  }

  /** The catalogue has six entries and names each kind exactly once. */
  lemma CatalogueNamesEachKindOnce()
    ensures |AllSkills| == 6
    ensures forall t :: CountOf(AllSkills, t) == 1
  {
    forall t
      ensures CountOf(AllSkills, t) == 1
    {
      var s := AllSkills;
      CountOfAppend([], s[0], t);
      CountOfAppend(s[..1], s[1], t);
      CountOfAppend(s[..2], s[2], t);
      CountOfAppend(s[..3], s[3], t);
      CountOfAppend(s[..4], s[4], t);
      CountOfAppend(s[..5], s[5], t);
      assert [] + [s[0]] == s[..1] && s[..1] + [s[1]] == s[..2] && s[..2] + [s[2]] == s[..3];
      assert s[..3] + [s[3]] == s[..4] && s[..4] + [s[4]] == s[..5] && s[..5] + [s[5]] == s;
    }
  }

  /** Catalogue order puts ParallelShot fourth, so it differs from ordinal order,
      and the first three entries (the menu offered on key L) are the two stat
      boosts and Multishot. */
  lemma CatalogueOrder()
    ensures |AllSkills| == 6
    ensures AllSkills[0].kind == AttackBoost && AllSkills[1].kind == SpeedBoost
    ensures AllSkills[2].kind == Multishot && AllSkills[3].kind == ParallelShot
    ensures AllSkills[4].kind == PiercingShot && AllSkills[5].kind == DiagonalArrow
    ensures Ordinal(AllSkills[3].kind) != 3 && Ordinal(AllSkills[4].kind) != 4
    ensures |AllSkills[..3]| == 3
    ensures forall i :: 0 <= i < 3 ==> AllSkills[..3][i].kind in {AttackBoost, SpeedBoost, Multishot}
  {
  }
}
