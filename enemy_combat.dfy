/**
 * An enemy's attack: of the colliders the physics query finds in range, only
 * the first is hit, losing exactly the enemy's damage (in 32-bit arithmetic)
 * and receiving one knockback from this enemy.
 */
module Combat {
  import opened Int32
  import opened Player

  /** A collider found by the overlap query, with the player components it carries. */
  class Collider2D {
    const health: PlayerHealth
    const movement: PlayerMovement

    constructor(health: PlayerHealth, movement: PlayerMovement)
      ensures this.health == health && this.movement == movement
    {
      this.health, this.movement := health, movement;
    }
  }

  class EnemyCombat {
    const damage: int32
    const knockbackForce: real
    const stunTime: real

    constructor(damage: int32, knockbackForce: real, stunTime: real)
      ensures this.damage == damage && this.knockbackForce == knockbackForce && this.stunTime == stunTime
    {
      this.damage, this.knockbackForce, this.stunTime := damage, knockbackForce, stunTime;
    }

    /**
     * `hits` is what the overlap query returned, in the order the query
     * returns them; the first is not necessarily the nearest. Nothing happens
     * when it is empty; otherwise only the first collider's health and
     * movement are touched: its health drops by the damage, negated and
     * added in 32-bit arithmetic, and it is knocked back once.
     */
    method Attack(hits: seq<Collider2D>)
      modifies if hits == [] then {} else {hits[0].health, hits[0].movement}
      ensures hits != [] ==>
        && Congruent(hits[0].health.currentHealth as int, old(hits[0].health.currentHealth) as int - damage as int)
        && (MinValue <= old(hits[0].health.currentHealth) as int - damage as int <= MaxValue ==>
              hits[0].health.currentHealth as int == old(hits[0].health.currentHealth) as int - damage as int)
        && hits[0].health.maxHealth == old(hits[0].health.maxHealth)
        && hits[0].health.active == (old(hits[0].health.active) && hits[0].health.currentHealth > 0)
        && hits[0].health.healthText == HealthLabel(hits[0].health.currentHealth as int, hits[0].health.maxHealth as int)
        && hits[0].health.textAnimations == old(hits[0].health.textAnimations) + ["TextUpdate"]
        && hits[0].movement.knockbacks == old(hits[0].movement.knockbacks) + [KnockbackCall(this, knockbackForce, stunTime)]
      ensures forall i :: 0 < i < |hits| && hits[i].health != hits[0].health ==>
        hits[i].health.currentHealth == old(hits[i].health.currentHealth)
      ensures forall i :: 0 < i < |hits| && hits[i].movement != hits[0].movement ==>
        hits[i].movement.knockbacks == old(hits[i].movement.knockbacks)
    {
      if |hits| > 0 {
        ghost var before := hits[0].health.currentHealth as int;
        var amount := Wrap(-(damage as int));
        hits[0].health.ChangeHealth(amount);
        WrapUnique(before + amount as int, hits[0].health.currentHealth);
        WrapInner(before, -(damage as int));
        hits[0].movement.Knockback(this, knockbackForce, stunTime);
      }
    }
  }
}
