/**
 * The arithmetic of the hero's health: the damage formula of
 * `HeroModel.CmdTakeDamage` and the clamped heal of `HeroModel.LocalHeal`,
 * as functions of the stats they read.
 */
module HeroStats {
  import opened CSharpInt

  /** `HeroModel.maxHealth`, a read-only field initialised to 100. */
  const MaxHealth: int := 100

  /** The largest magnitude up to which every whole number is an exact `float`. */
  const FloatExact: int := 0x100_0000

  /** Defence points per step of damage reduction. */
  const DefenceStep: int := 50

  /** `1 - (defence / 50)` with C#'s truncating `int` division. */
  function DamageMultiplier(defence: int32): (m: int)
    ensures -DefenceStep < defence as int < DefenceStep ==> m == 1
    ensures DefenceStep <= defence as int < 2 * DefenceStep ==> m == 0
    ensures defence as int >= 2 * DefenceStep ==> m < 0
    ensures defence as int <= -DefenceStep ==> m > 1
  {
    1 - TruncDiv(defence as int, DefenceStep)
  }

  /**
   * The damage product `amount * (1 - defence / 50)` is stored in a `float`.
   * Up to 2^24 in magnitude every whole number is an exact `float`; beyond
   * that not every one is. The model covers products within that bound,
   * which also rules out the 32-bit overflow of the product.
   */
  predicate DamageRepresentable(amount: int32, defence: int32)
  {
    -FloatExact <= amount as int * DamageMultiplier(defence) <= FloatExact
  }

  /** The damage actually taken: the product clamped to `[0, int.MaxValue]` and rounded. */
  function FinalDamage(amount: int32, defence: int32): (d: int)
    requires DamageRepresentable(amount, defence)
    ensures 0 <= d <= FloatExact
    ensures amount as int * DamageMultiplier(defence) <= 0 ==> d == 0
    ensures amount as int * DamageMultiplier(defence) > 0 ==> d == amount as int * DamageMultiplier(defence)
  {
    Clamp(amount as int * DamageMultiplier(defence), 0, Int32Max)
  }

  /** Health after `CmdTakeDamage(amount)` on a hero with the given health and defence. */
  function DamagedHealth(health: int, amount: int32, defence: int32): (h: int)
    requires 0 <= health <= MaxHealth
    requires DamageRepresentable(amount, defence)
    ensures 0 <= h <= health
    ensures amount as int * DamageMultiplier(defence) <= 0 ==> h == health
    ensures amount as int * DamageMultiplier(defence) > 0 ==>
              h == (if amount as int * DamageMultiplier(defence) < health
                    then health - amount as int * DamageMultiplier(defence) else 0)
  {
    Clamp(health - FinalDamage(amount, defence), 0, MaxHealth)
  }

  /** A hero whose defence is under 50 points, above or below zero, takes the full amount. */
  lemma LowDefenceTakesFullDamage(health: int, amount: int32, defence: int32)
    requires 0 <= health <= MaxHealth
    requires -DefenceStep < defence as int < DefenceStep
    requires 0 <= amount as int <= FloatExact
    ensures DamageRepresentable(amount, defence)
    ensures DamagedHealth(health, amount, defence) == if amount as int < health then health - amount as int else 0
  {
  }

  /** From 50 to 99 defence points a hero takes no damage at all. */
  lemma MidDefenceIsImmune(health: int, amount: int32, defence: int32)
    requires 0 <= health <= MaxHealth
    requires DefenceStep <= defence as int < 2 * DefenceStep
    ensures DamageRepresentable(amount, defence)
    ensures DamagedHealth(health, amount, defence) == health
  {
  }

  /** From 100 defence points a positive amount is turned into a negative product and ignored. */
  lemma HighDefenceIgnoresPositiveDamage(health: int, amount: int32, defence: int32)
    requires 0 <= health <= MaxHealth
    requires defence as int >= 2 * DefenceStep && amount >= 0
    requires DamageRepresentable(amount, defence)
    ensures DamagedHealth(health, amount, defence) == health
  {
  }

  /**
   * A negative amount is harmless only while the multiplier is positive:
   * against 100 defence points, an amount of -10 takes 10 health.
   */
  lemma NegativeAmountAgainstHighDefenceHurts()
    ensures DamageMultiplier(100) == -1
    ensures DamageRepresentable(-10, 100)
    ensures DamagedHealth(MaxHealth, -10, 100) == MaxHealth - 10
  {
  }

  /** With floor division, `-1 / 50` would be -1 and a defence of -1 would double the damage. */
  lemma TruncationKeepsSmallNegativeDefenceNeutral()
    ensures DamageMultiplier(-1) == 1
    ensures 1 - (-1) / DefenceStep == 2
  {
  }

  /** Health after `LocalHeal(amount)`: `health + amount` in unchecked `int` arithmetic, then clamped. */
  function HealedHealth(health: int32, amount: int32): (h: int)
    requires 0 <= health as int <= MaxHealth
    ensures 0 <= h <= MaxHealth
    ensures amount >= 0 && health as int + amount as int <= Int32Max ==>
              h == if health as int + amount as int < MaxHealth then health as int + amount as int else MaxHealth
    ensures amount < 0 ==> h == if health as int + amount as int > 0 then health as int + amount as int else 0
    ensures health as int + amount as int > Int32Max ==> h == 0
  {
    Clamp(Wrap32(health as int + amount as int) as int, 0, MaxHealth)
  }

  /** A heal never lowers health unless the sum overflows. */
  lemma HealNeverHurts(health: int32, amount: int32)
    requires 0 <= health as int <= MaxHealth
    requires amount >= 0 && health as int + amount as int <= Int32Max
    ensures HealedHealth(health, amount) >= health as int
  {
  }

  /** Healing a hero on 1 health by `int.MaxValue` wraps the sum negative and empties the health bar. */
  lemma HealByIntMaxEmptiesHealth()
    ensures HealedHealth(1, Int32Max as int32) == 0
  {
  }
}
