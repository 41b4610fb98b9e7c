/**
 * The player's health as the attack code changes it: a 32-bit integer that
 * is moved by the given amount with no clamping (wrapping around modulo 2^32
 * as C#'s unchecked `+=` does), shown as
 * `HP: <current> / <max>`, and which deactivates the player at zero or below.
 */
module Player {
  import opened DecimalText
  import opened Int32

  /** The health text: `HP: <current> / <max>`. */
  function HealthLabel(current: int, maxHealth: int): string {
    "HP: " + Decimal(current) + " / " + Decimal(maxHealth)
  }

  /** The health text gives back both the current and the maximum health. */
  lemma HealthLabelReadsBack(current1: int, max1: int, current2: int, max2: int)
    ensures HealthLabel(current1, max1) == HealthLabel(current2, max2) <==> current1 == current2 && max1 == max2
  {
    if HealthLabel(current1, max1) == HealthLabel(current2, max2) {
      PrefixedPairReadsBack("HP: ", Decimal(current1), Decimal(max1), Decimal(current2), Decimal(max2), " / ");
      DecimalInjective(current1, current2);
      DecimalInjective(max1, max2);
    }
  }

  class PlayerHealth {
    var currentHealth: int32
    var maxHealth: int32
    var healthText: string
    /** Whether the player's game object is active. */
    var active: bool
    /** The animations played on the health text, in order. */
    var textAnimations: seq<string>

    /** The inspector's values, then `Start`: the text shows them. */
    constructor(currentHealth: int32, maxHealth: int32)
      ensures this.currentHealth == currentHealth && this.maxHealth == maxHealth
      ensures active && textAnimations == []
      ensures healthText == HealthLabel(currentHealth as int, maxHealth as int)
    {
      this.currentHealth, this.maxHealth := currentHealth, maxHealth;
      active, textAnimations := true, [];
      healthText := HealthLabel(currentHealth as int, maxHealth as int);
    }

    /**
     * Adds `amount` to the current health with no clamp at either end: the
     * exact sum when it fits in 32 bits, and otherwise the 32-bit value that
     * agrees with it modulo 2^32. Replays the text animation, redraws the
     * text and deactivates the player when the new health is zero or below,
     * which a heal past the largest `int` brings about too.
     */
    method ChangeHealth(amount: int32)
      modifies this
      ensures Congruent(currentHealth as int, old(currentHealth) as int + amount as int)
      ensures MinValue <= old(currentHealth) as int + amount as int <= MaxValue ==>
        currentHealth as int == old(currentHealth) as int + amount as int
      ensures maxHealth == old(maxHealth)
      ensures textAnimations == old(textAnimations) + ["TextUpdate"]
      ensures healthText == HealthLabel(currentHealth as int, maxHealth as int)
      ensures active == (old(active) && currentHealth > 0)
      ensures amount > 0 && old(currentHealth) as int + amount as int > MaxValue ==> currentHealth < 0 && !active
    {
      if amount > 0 {
        PositiveAddOverflow(currentHealth, amount);
      }
      currentHealth := Wrap(currentHealth as int + amount as int);
      textAnimations := textAnimations + ["TextUpdate"];
      healthText := "HP: " + Decimal(currentHealth as int) + " / " + Decimal(maxHealth as int);
      if currentHealth <= 0 {
        active := false;
      }
    }
  }

  datatype KnockbackCall = KnockbackCall(source: object, force: real, stunTime: real)

  /** The player's movement, seen only through the knockbacks it is asked for. */
  class PlayerMovement {
    var knockbacks: seq<KnockbackCall>

    constructor()
      ensures knockbacks == []
    {
      knockbacks := [];
    }

    method Knockback(source: object, force: real, stunTime: real)
      modifies this
      ensures knockbacks == old(knockbacks) + [KnockbackCall(source, force, stunTime)]
    {
      knockbacks := knockbacks + [KnockbackCall(source, force, stunTime)];
    }
  }
}
