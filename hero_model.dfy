/**
 * `HeroModel`: the replicated stats of one player's hero.
 *
 * Each `HeroModel` object is one machine's copy of the networked hero. The
 * field `server` is the copy on the server; on the server (the host) it is
 * the object itself. A `[Command]` method `CmdX` is the body the server runs,
 * so the owner calls it as `server.CmdX(..)`. A `[ClientRpc]` method runs on
 * a receiving client's copy.
 */
module Heroes {
  import opened CSharpInt
  import opened HeroStats

  /** The playable heroes, in child order: 0 = king, 1 = rogue, 2 = wizard. */
  datatype HeroType = King | Rogue | Wizard

  /** The kinds of damage `CmdTakeDamage` is told about (it currently ignores them). */
  datatype DamageType = Magical | Physical | Untyped

  /** The hero a player switches to: which child model of the hero object, and its type. */
  datatype Hero = Hero(childIndex: int32, heroType: HeroType)

  /** The child-active flags after deactivating child `oldIndex` and then activating child `newIndex`. */
  function SwitchModel(active: seq<bool>, oldIndex: int, newIndex: int): (r: seq<bool>)
    requires 0 <= oldIndex < |active| && 0 <= newIndex < |active|
    ensures |r| == |active|
    ensures r[newIndex]
    ensures oldIndex != newIndex ==> !r[oldIndex]
    ensures forall i :: 0 <= i < |r| && i != oldIndex && i != newIndex ==> r[i] == active[i]
  {
    active[oldIndex := false][newIndex := true]
  }

  /** Exactly the child `k` is active. */
  predicate OnlyActive(active: seq<bool>, k: int)
  {
    forall i :: 0 <= i < |active| ==> (active[i] <==> i == k)
  }

  /** Switching twice with the same arguments is the same as switching once. */
  lemma SwitchModelIdempotent(active: seq<bool>, oldIndex: int, newIndex: int)
    requires 0 <= oldIndex < |active| && 0 <= newIndex < |active|
    ensures SwitchModel(SwitchModel(active, oldIndex, newIndex), oldIndex, newIndex) == SwitchModel(active, oldIndex, newIndex)
  {
  }

  /** When only the old child was showing, only the new one shows afterwards. */
  lemma SwitchModelKeepsOneActive(active: seq<bool>, oldIndex: int, newIndex: int)
    requires 0 <= oldIndex < |active| && 0 <= newIndex < |active|
    requires OnlyActive(active, oldIndex)
    ensures OnlyActive(SwitchModel(active, oldIndex, newIndex), newIndex)
  {
  }

  class HeroModel {
    // Replicated stats ([SyncVar] fields)
    const maxHealth: int32 := 100
    var currentHealth: int32
    var baseMoveSpeed: int32
    var currentMoveSpeed: int32
    var defence: int32
    var attack: int32
    var playerId: int32
    var heroType: HeroType
    var isKnockedOut: bool
    var score: int32
    var heroIndex: int32

    // What the networking layer says about this copy
    const hasAuthority: bool
    const isServer: bool
    const isLocalPlayer: bool

    /** The active flags of the hero object's child models, as this machine shows them. */
    const childActive: array<bool>

    /** The speed last handed to this copy's movement component. */
    var forwardedSpeed: int32

    /** The server's copy of this hero; the object itself on the server. */
    var server: HeroModel?

    /** What holds of every copy: health within `[0, maxHealth]`, a shown child that exists. */
    ghost predicate Consistent()
      reads this
    {
      0 <= currentHealth <= maxHealth && 0 <= heroIndex as int < childActive.Length
    }

    /** This copy and its server copy are consistent and wired together. */
    ghost predicate Valid()
      reads this, server
    {
      Consistent() &&
      server != null && server.Consistent() &&
      server.isServer && server.server == server &&
      (isServer <==> server == this) &&
      (server != this ==> server.childActive != childActive) &&
      server.childActive.Length == childActive.Length
    }

    /**
     * A fresh copy of a hero with `children` child models: the server's own
     * copy when `host` is null, otherwise a client's copy of `host`'s hero.
     * Every stat starts at its C# default, except `maxHealth`, which is 100.
     * All child models start hidden.
     */
    constructor (hasAuthority: bool, isLocalPlayer: bool, children: nat, host: HeroModel?)
      requires children > 0
      requires host != null ==> host.Valid() && host.isServer && host.childActive.Length == children
      ensures Valid() && fresh(childActive)
      ensures this.hasAuthority == hasAuthority && this.isLocalPlayer == isLocalPlayer
      ensures isServer <==> host == null
      ensures host != null ==> server == host
      ensures childActive.Length == children && forall i :: 0 <= i < children ==> !childActive[i]
      ensures maxHealth == 100 && currentHealth == 0 && score == 0 && heroIndex == 0
      ensures baseMoveSpeed == 0 && currentMoveSpeed == 0 && defence == 0 && attack == 0
      ensures playerId == 0 && heroType == King && !isKnockedOut && forwardedSpeed == 0
    {
      this.hasAuthority := hasAuthority;
      this.isServer := host == null;
      this.isLocalPlayer := isLocalPlayer;
      childActive := new bool[children](_ => false);
      currentHealth, baseMoveSpeed, currentMoveSpeed, defence, attack := 0, 0, 0, 0, 0;
      playerId, heroType, isKnockedOut, score, heroIndex := 0, King, false, 0, 0;
      forwardedSpeed := 0;
      new;
      server := if host == null then this else host;
    }

    /** `Start`: on the owning copy, reset the local state and record the owning player's id. */
    method Start(localPlayerId: int32)
      requires Valid()
      modifies this`forwardedSpeed, this`score, this`isKnockedOut, this`heroIndex, this`playerId, server`playerId
      ensures Valid()
      ensures hasAuthority ==> forwardedSpeed == 0 && score == 0 && !isKnockedOut && heroIndex == 0
      ensures hasAuthority ==> playerId == localPlayerId && server.playerId == localPlayerId
      ensures !hasAuthority ==>
                forwardedSpeed == old(forwardedSpeed) && score == old(score) && isKnockedOut == old(isKnockedOut) &&
                heroIndex == old(heroIndex) && playerId == old(playerId) && server.playerId == old(server.playerId)
      ensures !isServer ==> server.score == old(server.score) && server.heroIndex == old(server.heroIndex) &&
                            server.isKnockedOut == old(server.isKnockedOut)
    {
      if !hasAuthority { return; }
      forwardedSpeed := 0;
      score := 0;
      isKnockedOut := false;
      heroIndex := 0;
      SetPlayerId(localPlayerId);
    }

    /** `CmdTakeDamage`, run on the server's copy: health drops by the final damage, within `[0, maxHealth]`. */
    method CmdTakeDamage(amount: int32, damageType: DamageType)
      requires Consistent()
      requires DamageRepresentable(amount, defence)
      modifies this`currentHealth
      ensures Consistent()
      ensures currentHealth as int == DamagedHealth(old(currentHealth) as int, amount, defence)
      ensures currentHealth <= old(currentHealth)
    {
      var finalDamage := amount as int * (1 - TruncDiv(defence as int, DefenceStep));
      finalDamage := Clamp(finalDamage, 0, Int32Max);
      var health := currentHealth as int - finalDamage;
      currentHealth := Clamp(health, 0, maxHealth as int) as int32;
    }

    /** `Heal`: the owner heals its copy and, from a client, the server's copy. */
    method Heal(amount: int32)
      requires Valid()
      modifies this`currentHealth, server`currentHealth
      ensures Valid()
      ensures currentHealth as int == if hasAuthority then HealedHealth(old(currentHealth), amount) else old(currentHealth) as int
      ensures server.currentHealth as int ==
                if hasAuthority then HealedHealth(old(server.currentHealth), amount) else old(server.currentHealth) as int
    {
      if !hasAuthority { return; }
      LocalHeal(amount);
      if !isServer {
        server.CmdHeal(amount);
      }
    }

    /** `LocalHeal`: add `amount` to this copy's health and clamp it to `[0, maxHealth]`. */
    method LocalHeal(amount: int32)
      requires Consistent()
      modifies this`currentHealth
      ensures Consistent()
      ensures currentHealth as int == HealedHealth(old(currentHealth), amount)
    {
      currentHealth := Wrap32(currentHealth as int + amount as int);
      currentHealth := Clamp(currentHealth as int, 0, maxHealth as int) as int32;
    }

    /** `CmdHeal`, run on the server's copy. */
    method CmdHeal(amount: int32)
      requires Consistent()
      modifies this`currentHealth
      ensures Consistent()
      ensures currentHealth as int == HealedHealth(old(currentHealth), amount)
    {
      LocalHeal(amount);
    }

    /** `SetPlayerId`: the owner sets the player id on its copy and the server's. */
    method SetPlayerId(id: int32)
      requires Valid()
      modifies this`playerId, server`playerId
      ensures Valid()
      ensures playerId == if hasAuthority then id else old(playerId)
      ensures server.playerId == if hasAuthority then id else old(server.playerId)
    {
      if !hasAuthority { return; }
      playerId := id;
      if !isServer {
        server.CmdSetPlayerId(id);
      }
    }

    method CmdSetPlayerId(id: int32)
      modifies this`playerId
      ensures playerId == id
    {
      playerId := id;
    }

    /** `SetHeroType`: the owner sets the hero type on its copy and the server's. */
    method SetHeroType(heroType: HeroType)
      requires Valid()
      modifies this`heroType, server`heroType
      ensures Valid()
      ensures this.heroType == if hasAuthority then heroType else old(this.heroType)
      ensures server.heroType == if hasAuthority then heroType else old(server.heroType)
    {
      if !hasAuthority { return; }
      this.heroType := heroType;
      if !isServer {
        server.CmdSetHeroType(heroType);
      }
    }

    method CmdSetHeroType(heroType: HeroType)
      modifies this`heroType
      ensures this.heroType == heroType
    {
      this.heroType := heroType;
    }

    /** `SetBaseMoveSpeed`: also hands the speed to the owner's movement component. */
    method SetBaseMoveSpeed(val: int32)
      requires Valid()
      modifies this`baseMoveSpeed, this`forwardedSpeed, server`baseMoveSpeed
      ensures Valid()
      ensures baseMoveSpeed == if hasAuthority then val else old(baseMoveSpeed)
      ensures forwardedSpeed == if hasAuthority then val else old(forwardedSpeed)
      ensures server.baseMoveSpeed == if hasAuthority then val else old(server.baseMoveSpeed)
    {
      if !hasAuthority { return; }
      baseMoveSpeed := val;
      forwardedSpeed := val;
      if !isServer {
        server.CmdSetBaseSpeed(val);
      }
    }

    method CmdSetBaseSpeed(val: int32)
      modifies this`baseMoveSpeed
      ensures baseMoveSpeed == val
    {
      baseMoveSpeed := val;
    }

    /** `SetCurrentMoveSpeed`: also hands the speed to the owner's movement component. */
    method SetCurrentMoveSpeed(val: int32)
      requires Valid()
      modifies this`currentMoveSpeed, this`forwardedSpeed, server`currentMoveSpeed
      ensures Valid()
      ensures currentMoveSpeed == if hasAuthority then val else old(currentMoveSpeed)
      ensures forwardedSpeed == if hasAuthority then val else old(forwardedSpeed)
      ensures server.currentMoveSpeed == if hasAuthority then val else old(server.currentMoveSpeed)
    {
      if !hasAuthority { return; }
      currentMoveSpeed := val;
      forwardedSpeed := val;
      if !isServer {
        server.CmdSetCurrentMoveSpeed(val);
      }
    }

    method CmdSetCurrentMoveSpeed(val: int32)
      modifies this`currentMoveSpeed
      ensures currentMoveSpeed == val
    {
      currentMoveSpeed := val;
    }

    /** `SetDefence`: the owner sets the defence on its copy and the server's. */
    method SetDefence(val: int32)
      requires Valid()
      modifies this`defence, server`defence
      ensures Valid()
      ensures defence == if hasAuthority then val else old(defence)
      ensures server.defence == if hasAuthority then val else old(server.defence)
    {
      if !hasAuthority { return; }
      defence := val;
      if !isServer {
        server.CmdSetDefence(val);
      }
    }

    method CmdSetDefence(val: int32)
      modifies this`defence
      ensures defence == val
    {
      defence := val;
    }

    /** `SetAttack`: the owner sets the attack on its copy and the server's. */
    method SetAttack(val: int32)
      requires Valid()
      modifies this`attack, server`attack
      ensures Valid()
      ensures attack == if hasAuthority then val else old(attack)
      ensures server.attack == if hasAuthority then val else old(server.attack)
    {
      if !hasAuthority { return; }
      attack := val;
      if !isServer {
        server.CmdSetAttack(val);
      }
    }

    method CmdSetAttack(val: int32)
      modifies this`attack
      ensures attack == val
    {
      attack := val;
    }

    /** `SetFullHealth`: the owner refills the health of its copy and the server's. */
    method SetFullHealth()
      requires Valid()
      modifies this`currentHealth, server`currentHealth
      ensures Valid()
      ensures currentHealth == if hasAuthority then maxHealth else old(currentHealth)
      ensures server.currentHealth == if hasAuthority then server.maxHealth else old(server.currentHealth)
    {
      if !hasAuthority { return; }
      currentHealth := maxHealth;
      if !isServer {
        server.CmdSetFullHealth();
      }
    }

    method CmdSetFullHealth()
      requires Consistent()
      modifies this`currentHealth
      ensures Consistent()
      ensures currentHealth == maxHealth
    {
      currentHealth := maxHealth;
    }

    /** `SetKnockedOut`: the owner sets the knocked-out flag on its copy and the server's. */
    method SetKnockedOut(isKnockedOut: bool)
      requires Valid()
      modifies this`isKnockedOut, server`isKnockedOut
      ensures Valid()
      ensures this.isKnockedOut == if hasAuthority then isKnockedOut else old(this.isKnockedOut)
      ensures server.isKnockedOut == if hasAuthority then isKnockedOut else old(server.isKnockedOut)
    {
      if !hasAuthority { return; }
      this.isKnockedOut := isKnockedOut;
      if !isServer {
        server.CmdSetKnockedOut(isKnockedOut);
      }
    }

    method CmdSetKnockedOut(isKnockedOut: bool)
      modifies this`isKnockedOut
      ensures this.isKnockedOut == isKnockedOut
    {
      this.isKnockedOut := isKnockedOut;
    }

    /**
     * `IncreaseScore`: each copy of the score gains `amount` exactly once
     * (unchecked `int` addition), also on the host where the two copies are one.
     */
    method IncreaseScore(amount: int32)
      requires Valid()
      modifies this`score, server`score
      ensures Valid()
      ensures score == if hasAuthority then Wrap32(old(score) as int + amount as int) else old(score)
      ensures server.score == if hasAuthority then Wrap32(old(server.score) as int + amount as int) else old(server.score)
    {
      if !hasAuthority { return; }
      score := Wrap32(score as int + amount as int);
      if !isServer {
        server.CmdIncreaseScore(amount);
      }
    }

    method CmdIncreaseScore(amount: int32)
      modifies this`score
      ensures score == Wrap32(old(score) as int + amount as int)
    {
      score := Wrap32(score as int + amount as int);
    }

    /**
     * `SetModel`: the owner switches its hero model. Both copies hide the
     * owner's previous child, show `myHero`'s child and take its index and type.
     */
    method SetModel(myHero: Hero)
      requires Valid()
      requires 0 <= myHero.childIndex as int < childActive.Length
      modifies this`heroIndex, this`heroType, childActive, server`heroIndex, server`heroType, server.childActive
      ensures Valid()
      ensures hasAuthority ==>
                heroIndex == myHero.childIndex && heroType == myHero.heroType &&
                childActive[..] == SwitchModel(old(childActive[..]), old(heroIndex) as int, myHero.childIndex as int)
      ensures hasAuthority ==>
                server.heroIndex == myHero.childIndex && server.heroType == myHero.heroType &&
                server.childActive[..] == SwitchModel(old(server.childActive[..]), old(heroIndex) as int, myHero.childIndex as int)
      ensures !hasAuthority ==>
                heroIndex == old(heroIndex) && heroType == old(heroType) && childActive[..] == old(childActive[..]) &&
                server.heroIndex == old(server.heroIndex) && server.heroType == old(server.heroType) &&
                server.childActive[..] == old(server.childActive[..])
    {
      if !hasAuthority { return; }
      var oldHeroIndex := heroIndex;
      ghost var before := childActive[..];
      LocalSetModel(myHero, oldHeroIndex);
      if isServer {
        RpcSetModel(myHero, oldHeroIndex);
        SwitchModelIdempotent(before, oldHeroIndex as int, myHero.childIndex as int);
      } else {
        server.CmdSetModel(this, myHero, oldHeroIndex);
        SwitchModelIdempotent(before, oldHeroIndex as int, myHero.childIndex as int);
      }
    }

    /**
     * `CmdSetModel`, run on the server's copy: switch the server's copy, then
     * broadcast the switch to the clients. Of the clients, the model has the
     * server's copy itself (the host's view) and the `owner`'s copy, which
     * stands for the `hero` object the command names.
     */
    method CmdSetModel(owner: HeroModel, myHero: Hero, oldHeroIndex: int32)
      requires Consistent() && owner.Consistent()
      requires owner != this && owner.childActive != childActive
      requires 0 <= oldHeroIndex as int < childActive.Length && 0 <= myHero.childIndex as int < childActive.Length
      requires owner.childActive.Length == childActive.Length
      modifies this`heroIndex, this`heroType, childActive, owner`heroIndex, owner`heroType, owner.childActive
      ensures Consistent() && owner.Consistent()
      ensures heroIndex == myHero.childIndex && heroType == myHero.heroType
      ensures childActive[..] == SwitchModel(old(childActive[..]), oldHeroIndex as int, myHero.childIndex as int)
      ensures owner.isLocalPlayer ==>
                owner.heroIndex == old(owner.heroIndex) && owner.heroType == old(owner.heroType) &&
                owner.childActive[..] == old(owner.childActive[..])
      ensures !owner.isLocalPlayer ==>
                owner.heroIndex == myHero.childIndex && owner.heroType == myHero.heroType &&
                owner.childActive[..] == SwitchModel(old(owner.childActive[..]), oldHeroIndex as int, myHero.childIndex as int)
    {
      ghost var before := childActive[..];
      LocalSetModel(myHero, oldHeroIndex);
      RpcSetModel(myHero, oldHeroIndex);
      SwitchModelIdempotent(before, oldHeroIndex as int, myHero.childIndex as int);
      owner.RpcSetModel(myHero, oldHeroIndex);
    }

    /** `RpcSetModel`, run on a client's copy: the switch is applied unless this is the local player's own copy. */
    method RpcSetModel(myHero: Hero, oldHeroIndex: int32)
      requires Consistent()
      requires 0 <= oldHeroIndex as int < childActive.Length && 0 <= myHero.childIndex as int < childActive.Length
      modifies this`heroIndex, this`heroType, childActive
      ensures Consistent()
      ensures isLocalPlayer ==>
                heroIndex == old(heroIndex) && heroType == old(heroType) && childActive[..] == old(childActive[..])
      ensures !isLocalPlayer ==>
                heroIndex == myHero.childIndex && heroType == myHero.heroType &&
                childActive[..] == SwitchModel(old(childActive[..]), oldHeroIndex as int, myHero.childIndex as int)
    {
      if isLocalPlayer { return; }
      LocalSetModel(myHero, oldHeroIndex);
    }

    /** `LocalSetModel`: hide child `oldHeroIndex`, take `myHero`'s index and type, show its child. */
    method LocalSetModel(myHero: Hero, oldHeroIndex: int32)
      requires Consistent()
      requires 0 <= oldHeroIndex as int < childActive.Length && 0 <= myHero.childIndex as int < childActive.Length
      modifies this`heroIndex, this`heroType, childActive
      ensures Consistent()
      ensures heroIndex == myHero.childIndex && heroType == myHero.heroType
      ensures childActive[..] == SwitchModel(old(childActive[..]), oldHeroIndex as int, myHero.childIndex as int)
    {
      childActive[oldHeroIndex] := false;
      heroIndex := myHero.childIndex;
      heroType := myHero.heroType;
      childActive[heroIndex] := true;
    }

    // Getters

    function GetHeroType(): HeroType reads this { heroType }

    function GetBaseMoveSpeed(): int32 reads this { baseMoveSpeed }

    function GetCurrentMoveSpeed(): int32 reads this { currentMoveSpeed }

    function GetDefence(): int32 reads this { defence }

    function GetAttack(): int32 reads this { attack }

    function GetPlayerId(): int32 reads this { playerId }

    /** The current health, which every operation keeps within `[0, maxHealth]`. */
    function GetCurrentHealth(): (h: int32)
      reads this
      requires Consistent()
      ensures 0 <= h <= GetMaxHealth()
    {
      currentHealth
    }

    function GetMaxHealth(): int32 { maxHealth }

    function IsKnockedOut(): bool reads this { isKnockedOut }

    function GetScore(): int32 reads this { score }

    function GetHeroIndex(): int32 reads this { heroIndex }
  }
}
