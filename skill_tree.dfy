/**
 * The skill tree: slots whose level is bounded by their skill's maximum,
 * which unlock once every prerequisite slot is unlocked and maxed, and whose
 * spent points are dispatched to a one-point bump of exactly one player stat.
 */
module SkillTree {
  import opened DecimalText
  import opened Int32

  /** The text of a slot's level label: `"<level>/<maxLevel>"`, or `"Locked"`. */
  function LevelLabel(isUnlocked: bool, level: int, maxLevel: int): string {
    if isUnlocked then Decimal(level) + "/" + Decimal(maxLevel) else "Locked"
  }

  /**
   * The label tells a locked slot from an unlocked one, and for an unlocked
   * slot it gives back both the level and the maximum.
   */
  lemma LevelLabelReadsBack(u1: bool, level1: int, max1: int, u2: bool, level2: int, max2: int)
    ensures LevelLabel(u1, level1, max1) == LevelLabel(u2, level2, max2) <==>
            u1 == u2 && (u1 ==> level1 == level2 && max1 == max2)
  {
    if LevelLabel(u1, level1, max1) == LevelLabel(u2, level2, max2) {
      if u1 && !u2 {
        UnlockedLabelIsNotLocked(level1, max1);
      } else if u2 && !u1 {
        UnlockedLabelIsNotLocked(level2, max2);
      } else if u1 {
        DecimalPairReadsBack(level1, max1, level2, max2, "/");
      }
    }
  }

  lemma UnlockedLabelIsNotLocked(level: int, maxLevel: int)
    ensures LevelLabel(true, level, maxLevel) != "Locked"
  {
    assert LevelLabel(true, level, maxLevel)[0] == Decimal(level)[0];
    NumeralChars(Decimal(level), 0);
  }

  datatype SkillEvent = AbilityPointSpent(slot: SkillSlot) | SkillMaxed(slot: SkillSlot)

  /** The two static events of `SkillSlot`, as the sequence of raises in order. */
  class SkillEvents {
    var raised: seq<SkillEvent>

    constructor()
      ensures raised == []
    {
      raised := [];
    }
  }

  class SkillSlot {
    const prerequisites: seq<SkillSlot>
    const skillName: string
    const maxLevel: int
    var currentLevel: int
    var isUnlocked: bool
    var levelText: string
    var interactable: bool

    /** A slot as the inspector sets it up, its label drawn by `OnValidate`. */
    constructor(prerequisites: seq<SkillSlot>, skillName: string, maxLevel: int, currentLevel: int, isUnlocked: bool)
      ensures this.prerequisites == prerequisites && this.skillName == skillName && this.maxLevel == maxLevel
      ensures this.currentLevel == currentLevel && this.isUnlocked == isUnlocked
      ensures Shown()
    {
      this.prerequisites, this.skillName, this.maxLevel := prerequisites, skillName, maxLevel;
      this.currentLevel, this.isUnlocked := currentLevel, isUnlocked;
      levelText, interactable := LevelLabel(isUnlocked, currentLevel, maxLevel), isUnlocked;
    }

    /** Unlocked and at (or past) the maximum level. */
    predicate Mastered()
      reads this
    {
      isUnlocked && currentLevel >= maxLevel
    }

    /** The label and the button show the slot's current state. */
    predicate Shown()
      reads this
    {
      levelText == LevelLabel(isUnlocked, currentLevel, maxLevel) && interactable == isUnlocked
    }

    method UpdateUI()
      modifies this
      ensures currentLevel == old(currentLevel) && isUnlocked == old(isUnlocked)
      ensures Shown()
    {
      if isUnlocked {
        interactable := true;
        levelText := Decimal(currentLevel) + "/" + Decimal(maxLevel);
      } else {
        interactable := false;
        levelText := "Locked";
      }
    }

    /**
     * An unlocked slot below its maximum gains exactly one level, raises
     * `OnAbilityPointSpent` once and, on reaching the maximum, `OnSkillMaxed`
     * once; any other slot is left as it was and raises nothing.
     */
    method TryUpgradeSkill(events: SkillEvents)
      modifies this, events
      ensures isUnlocked == old(isUnlocked)
      ensures old(isUnlocked && currentLevel < maxLevel) ==>
        && currentLevel == old(currentLevel) + 1
        && events.raised == old(events.raised) + [AbilityPointSpent(this)]
                            + (if currentLevel >= maxLevel then [SkillMaxed(this)] else [])
        && Shown()
      ensures !old(isUnlocked && currentLevel < maxLevel) ==>
        && currentLevel == old(currentLevel) && events.raised == old(events.raised)
        && levelText == old(levelText) && interactable == old(interactable)
      ensures old(currentLevel <= maxLevel) ==> currentLevel <= maxLevel
    {
      if isUnlocked && currentLevel < maxLevel {
        currentLevel := currentLevel + 1;
        events.raised := events.raised + [AbilityPointSpent(this)];
        if currentLevel >= maxLevel {
          events.raised := events.raised + [SkillMaxed(this)];
        }
        UpdateUI();
      }
    }

    /** True exactly when every prerequisite slot is unlocked and maxed; true when there are none. */
    method CanUnlockSkill() returns (can: bool)
      ensures can <==> forall i :: 0 <= i < |prerequisites| ==> prerequisites[i].Mastered()
      ensures prerequisites == [] ==> can
    {
      for i := 0 to |prerequisites|
        invariant forall j :: 0 <= j < i ==> prerequisites[j].Mastered()
      {
        var slot := prerequisites[i];
        if !slot.isUnlocked || slot.currentLevel < slot.maxLevel {
          return false;
        }
      }
      return true;
    }

    method Unlock()
      modifies this
      ensures isUnlocked && currentLevel == old(currentLevel)
      ensures Shown()
    {
      isUnlocked := true;
      UpdateUI();
    }
  }

  /** The player's stats that skill points raise, 32-bit integers as in C#. */
  class StatsManager {
    var damage: int32
    var speed: int32
    var maxHealth: int32
    var currentHealth: int32
    var healthText: string

    constructor(damage: int32, speed: int32, maxHealth: int32, currentHealth: int32)
      ensures this.damage == damage && this.speed == speed
      ensures this.maxHealth == maxHealth && this.currentHealth == currentHealth
    {
      this.damage, this.speed, this.maxHealth, this.currentHealth := damage, speed, maxHealth, currentHealth;
      healthText := "";
    }

    /** Raises the damage by `amount`, wrapping around modulo 2^32 past the 32-bit range. */
    method UpdateMaxDame(amount: int32)
      modifies this
      ensures Congruent(damage as int, old(damage) as int + amount as int)
      ensures MinValue <= old(damage) as int + amount as int <= MaxValue ==> damage as int == old(damage) as int + amount as int
      ensures speed == old(speed) && maxHealth == old(maxHealth) && currentHealth == old(currentHealth)
      ensures healthText == old(healthText)
    {
      damage := Wrap(damage as int + amount as int);
    }

    /** Raises the maximum health by `amount`, wrapping as above, and redraws the health text. */
    method UpdateMaxHealth(amount: int32)
      modifies this
      ensures Congruent(maxHealth as int, old(maxHealth) as int + amount as int)
      ensures MinValue <= old(maxHealth) as int + amount as int <= MaxValue ==>
        maxHealth as int == old(maxHealth) as int + amount as int
      ensures damage == old(damage) && speed == old(speed) && currentHealth == old(currentHealth)
      ensures healthText == "Hp: " + Decimal(currentHealth as int) + "/" + Decimal(maxHealth as int)
    {
      maxHealth := Wrap(maxHealth as int + amount as int);
      healthText := "Hp: " + Decimal(currentHealth as int) + "/" + Decimal(maxHealth as int);
    }

    /** Raises the speed by `amount`, wrapping as above. */
    method UpdateMaxSpeed(amount: int32)
      modifies this
      ensures Congruent(speed as int, old(speed) as int + amount as int)
      ensures MinValue <= old(speed) as int + amount as int <= MaxValue ==> speed as int == old(speed) as int + amount as int
      ensures damage == old(damage) && maxHealth == old(maxHealth) && currentHealth == old(currentHealth)
      ensures healthText == old(healthText)
    {
      speed := Wrap(speed as int + amount as int);
    }
  }

  /**
   * The `SkillManager` handler of `OnAbilityPointSpent`: each of the three
   * known skill names raises exactly one stat by one (in 32-bit arithmetic,
   * so the largest value goes round to the smallest); any other name changes
   * nothing. Only the maximum-health bump redraws the health text.
   */
  method HandleAbilityPointSpend(slot: SkillSlot, stats: StatsManager)
    modifies stats
    ensures stats.currentHealth == old(stats.currentHealth)
    ensures slot.skillName == "MaxHealthBoost" ==>
      && stats.maxHealth == Wrap(old(stats.maxHealth) as int + 1)
      && stats.damage == old(stats.damage) && stats.speed == old(stats.speed)
      && stats.healthText == "Hp: " + Decimal(stats.currentHealth as int) + "/" + Decimal(stats.maxHealth as int)
    ensures slot.skillName == "DameBoost" ==>
      && stats.damage == Wrap(old(stats.damage) as int + 1)
      && stats.maxHealth == old(stats.maxHealth) && stats.speed == old(stats.speed)
      && stats.healthText == old(stats.healthText)
    ensures slot.skillName == "MoveSpeed" ==>
      && stats.speed == Wrap(old(stats.speed) as int + 1)
      && stats.maxHealth == old(stats.maxHealth) && stats.damage == old(stats.damage)
      && stats.healthText == old(stats.healthText)
    ensures slot.skillName !in {"MaxHealthBoost", "DameBoost", "MoveSpeed"} ==>
      && stats.maxHealth == old(stats.maxHealth) && stats.damage == old(stats.damage)
      && stats.speed == old(stats.speed) && stats.healthText == old(stats.healthText)
  {
    var skillName := slot.skillName;
    if skillName == "MaxHealthBoost" {
      ghost var before := stats.maxHealth as int;
      stats.UpdateMaxHealth(1);
      WrapUnique(before + 1, stats.maxHealth);
    } else if skillName == "DameBoost" {
      ghost var before := stats.damage as int;
      stats.UpdateMaxDame(1);
      WrapUnique(before + 1, stats.damage);
    } else if skillName == "MoveSpeed" {
      ghost var before := stats.speed as int;
      stats.UpdateMaxSpeed(1);
      WrapUnique(before + 1, stats.speed);
    }
  }
}
