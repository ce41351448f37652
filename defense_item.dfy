/**
 * `DefenseItem`: a pickup whose `tempBuff` coroutine raises a hero's
 * defence by `buffAmount`, waits, puts the captured original back and
 * destroys the pickup. The wait splits the coroutine into a start phase
 * and an end phase, called in that order.
 */
module Items {
  import opened CSharpInt
  import opened Heroes
  import opened HeroStats

  /** The initial value of `buffAmount`. */
  const DefaultBuffAmount: int32 := 5

  /**
   * The default buff moves a defence of 45 to 49 points from full damage to
   * none, since the server computes damage from the buffed defence.
   */
  lemma DefaultBuffCanGrantImmunity(health: int, amount: int32, defence: int32)
    requires 0 <= health <= MaxHealth
    requires 45 <= defence as int < DefenceStep
    requires 0 <= amount as int <= FloatExact
    ensures DamageRepresentable(amount, defence) && DamageRepresentable(amount, Wrap32(defence as int + DefaultBuffAmount as int))
    ensures DamagedHealth(health, amount, defence) == if amount as int < health then health - amount as int else 0
    ensures DamagedHealth(health, amount, Wrap32(defence as int + DefaultBuffAmount as int)) == health
  {
  }

  /** How far the `tempBuff` coroutine has run, with what it captured at the start. */
  datatype BuffPhase = Ready | Buffing(hero: HeroModel, origStat: int32) | Finished

  class DefenseItem {
    var buffAmount: int32
    var phase: BuffPhase
    /** Whether the pickup object has been destroyed. */
    var destroyed: bool

    /** The pickup is destroyed exactly when the coroutine has finished. */
    ghost predicate Valid()
      reads this
    {
      destroyed <==> phase == Finished
    }

    constructor ()
      ensures Valid()
      ensures buffAmount == DefaultBuffAmount && phase == Ready && !destroyed
    {
      buffAmount := DefaultBuffAmount;
      phase := Ready;
      destroyed := false;
    }

    /** The start of `tempBuff`: capture the hero's defence and raise it by `buffAmount`. */
    method TempBuffStart(hero: HeroModel)
      requires Valid() && phase == Ready && hero.Valid()
      modifies this`phase, hero`defence, hero.server`defence
      ensures Valid() && hero.Valid() && !destroyed
      ensures phase == Buffing(hero, old(hero.defence))
      ensures hero.defence == if hero.hasAuthority then Wrap32(old(hero.defence) as int + buffAmount as int) else old(hero.defence)
      ensures hero.server.defence ==
                if hero.hasAuthority then Wrap32(old(hero.defence) as int + buffAmount as int) else old(hero.server.defence)
    {
      var origStat := hero.GetDefence();
      hero.SetDefence(Wrap32(origStat as int + buffAmount as int));
      phase := Buffing(hero, origStat);
    }

    /** The end of `tempBuff`: put the captured defence back, then destroy the pickup. */
    method TempBuffEnd()
      requires Valid() && phase.Buffing? && phase.hero.Valid()
      modifies this`phase, this`destroyed, phase.hero`defence, phase.hero.server`defence
      ensures Valid() && destroyed && phase == Finished
      ensures old(phase.hero).Valid()
      ensures old(phase.hero).defence ==
                if old(phase.hero).hasAuthority then old(phase.origStat) else old(phase.hero.defence)
      ensures old(phase.hero).server.defence ==
                if old(phase.hero).hasAuthority then old(phase.origStat) else old(phase.hero.server.defence)
    {
      var hero := phase.hero;
      hero.SetDefence(phase.origStat);
      phase := Finished;
      destroyed := true;
    }

    /**
     * The whole of `tempBuff` with nothing in between the phases: the hero's
     * defence ends where it started, and the server's copy ends at the
     * owner's original value.
     */
    method TempBuff(hero: HeroModel)
      requires Valid() && phase == Ready && hero.Valid()
      modifies this`phase, this`destroyed, hero`defence, hero.server`defence
      ensures Valid() && hero.Valid() && destroyed
      ensures hero.defence == old(hero.defence)
      ensures hero.server.defence == if hero.hasAuthority then old(hero.defence) else old(hero.server.defence)
    {
      TempBuffStart(hero);
      TempBuffEnd();
    }
  }
}
