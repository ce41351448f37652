# TPK hero stats, dungeon spawner and defence buff, in Dafny

This project models three gameplay components of the TPK game and proves
properties of the model.

- **`HeroModel`** keeps a player's hero stats: health (at most `maxHealth = 100`),
  defence, attack, two move speeds, score, player id, hero type, the
  knocked-out flag and the index of the hero model on show. Only the copy that
  has authority (the owner) may change a stat. A client owner changes its own
  copy and then sends a `[Command]` that makes the same change on the server's
  copy. A host owner's copy *is* the server's copy. Model switches are
  broadcast back to clients with a `[ClientRpc]`, which the local player ignores.
- **`DungeonEnemyManager`** is the server's monster spawner. On every tick it
  spawns one monster, of a random kind and at a random spawn point, while the
  match runs and the counter is at most 10.
- **`DefenseItem`** is a pickup. Its `tempBuff` coroutine raises the hero's
  defence by `buffAmount` (5), waits, puts the captured original back and then
  destroys the pickup.

Layout, one module per file:

- `csharp_int.dfy` (`CSharpInt`): C# `int`. It has the `int32` type, unchecked
  wrap-around `Wrap32`, `/` truncating toward zero (`TruncDiv`) and
  `Mathf.Clamp` on whole numbers.
- `hero_stats.dfy` (`HeroStats`): the damage and heal formulas as functions,
  with lemmas about them.
- `hero_model.dfy` (`Heroes`): the class `HeroModel`.
- `dungeon_enemy_manager.dfy` (`DungeonEnemies`): the class
  `DungeonEnemyManager` and a function of the per-tick counter.
- `defense_item.dfy` (`Items`): the class `DefenseItem`.

How replication is modelled:

- Each `HeroModel` object is one machine's copy of the networked hero.
- Its field `server` is the server's copy. On the server that is the object
  itself, so when the owner is the host the two copies are one object.
- A `CmdX` method is the body the server runs, so the owner calls
  `server.CmdX(..)`.
- Every setter's `modifies` clause names exactly the fields it may change.
  The frame therefore proves that all other fields stay the same.
- `IncreaseScore` adds the amount exactly once to each copy. That holds even on
  the host, because the command is sent only when the owner is not the server.

Behaviour of the code as written that the proofs bring out:

- The damage multiplier is `1 - defence / 50` with C#'s truncating division.
  - Defence from -49 to 49 takes the full amount. Floor division would double
    the damage at defence -1. `TruncationKeepsSmallNegativeDefenceNeutral`
    illustrates this with that one value.
  - Defence from 50 to 99 takes nothing.
  - From 100 points the multiplier is negative. A positive amount is then
    clamped away, but a *negative* amount does damage: -10 against defence 100
    takes 10 health (`NegativeAmountAgainstHighDefenceHurts`). A negative amount
    is harmless only while the multiplier is not negative.
- `LocalHeal` adds in unchecked `int` arithmetic. A heal large enough to pass
  `int.MaxValue` wraps negative and clamps to 0 health
  (`HealedHealth`'s overflow clause; `HealByIntMaxEmptiesHealth` illustrates it
  with health 1 and `int.MaxValue`).
- The resets in `Start` (score, knocked-out flag, hero index) change only the
  owner's copy. Only the player id is sent to the server.
- The spawner's guard is `currentNumMonsters > 10`, so it stops after **11**
  spawns. The counter is never decreased, so the cap limits the total number of
  monsters spawned, not the number alive at once.

## Model

| member | source | states |
|---|---|---|
| `CSharpInt.TruncDiv` | TPK/Assets/Scripts/Attacker/Heroes/HeroModel.cs:62 | C# `int` division by a positive divisor. The remainder `a - q*b` has the sign of `a` and is smaller than `b` in magnitude, so the quotient rounds toward zero |
| `CSharpInt.Wrap32` | TPK/Assets/Scripts/Attacker/Heroes/HeroModel.cs:103 | unchecked `int` addition. The result is congruent to the exact sum modulo 2^32, equal to it when it fits in 32 bits, and 2^32 lower when it overflows by less than 2^32 |
| `CSharpInt.Clamp` | TPK/Assets/Scripts/Attacker/Heroes/HeroModel.cs:104 | `Mathf.Clamp`. The result lies in `[lo, hi]`, is `x` when `x` is already inside, and is the nearer bound otherwise |
| `HeroStats.DamageMultiplier` | TPK/Assets/Scripts/Attacker/Heroes/HeroModel.cs:62 | the multiplier is 1 for defence in (-50, 50), 0 for defence in [50, 100), negative from 100 and above 1 at -50 or below |
| `HeroStats.FinalDamage` | TPK/Assets/Scripts/Attacker/Heroes/HeroModel.cs:62-79 | the damage taken is never negative. It is 0 when the product `amount * multiplier` is not positive, and the product itself otherwise |
| `HeroStats.DamagedHealth` | TPK/Assets/Scripts/Attacker/Heroes/HeroModel.cs:78-80 | after damage, health is in `[0, old health]`. It is unchanged when the product is not positive, and otherwise lowered by the product, stopping at 0 |
| `HeroStats.LowDefenceTakesFullDamage` | TPK/Assets/Scripts/Attacker/Heroes/HeroModel.cs:62 | with defence from -49 to 49, the hero loses exactly the amount, down to 0 |
| `HeroStats.MidDefenceIsImmune` | TPK/Assets/Scripts/Attacker/Heroes/HeroModel.cs:62 | with defence from 50 to 99, health is unchanged whatever the amount |
| `HeroStats.HighDefenceIgnoresPositiveDamage` | TPK/Assets/Scripts/Attacker/Heroes/HeroModel.cs:62-78 | from 100 defence, a non-negative amount leaves health unchanged |
| `HeroStats.NegativeAmountAgainstHighDefenceHurts` | TPK/Assets/Scripts/Attacker/Heroes/HeroModel.cs:62-79 | an amount of -10 against 100 defence has multiplier -1 and takes 10 health from a full bar |
| `HeroStats.TruncationKeepsSmallNegativeDefenceNeutral` | TPK/Assets/Scripts/Attacker/Heroes/HeroModel.cs:62 | an illustration, not a new result: defence -1 gives multiplier 1 under C# division (one instance of `DamageMultiplier`'s first clause), where Dafny's floor division would give 2 |
| `HeroStats.HealedHealth` | TPK/Assets/Scripts/Attacker/Heroes/HeroModel.cs:101-105 | a heal leaves health in `[0, maxHealth]`. Without overflow it equals `min(health + amount, 100)` for a gain and `max(health + amount, 0)` for a loss. A sum past `int.MaxValue` gives 0 |
| `HeroStats.HealNeverHurts` | TPK/Assets/Scripts/Attacker/Heroes/HeroModel.cs:101-105 | a non-negative heal that does not overflow never lowers health |
| `HeroStats.HealByIntMaxEmptiesHealth` | TPK/Assets/Scripts/Attacker/Heroes/HeroModel.cs:103-104 | an illustration of `HealedHealth`'s overflow clause: healing 1 health by `int.MaxValue` wraps the sum and leaves 0 health |
| `Heroes.HeroModel.constructor` | TPK/Assets/Scripts/Attacker/Heroes/HeroModel.cs:13-29 | a fresh copy has `maxHealth` 100 and every other stat at its C# default (0, `King`, not knocked out, hero index 0). It has the given number of children, all hidden, and is wired to its server copy |
| `Heroes.HeroModel.Start` | TPK/Assets/Scripts/Attacker/Heroes/HeroModel.cs:34-44 | with authority: movement speed 0, score 0, not knocked out, hero index 0, player id set on both copies. Without authority nothing changes. On a client the server copy's score, index and flag stay as they were |
| `Heroes.HeroModel.CmdTakeDamage` | TPK/Assets/Scripts/Attacker/Heroes/HeroModel.cs:53-84 | on the copy that runs it, health becomes `DamagedHealth` of the old health, the amount and this copy's defence. It stays in `[0, maxHealth]` and never rises |
| `Heroes.HeroModel.Heal` | TPK/Assets/Scripts/Attacker/Heroes/HeroModel.cs:90-100 | with authority, both copies' health becomes `HealedHealth` of their own old health. Without authority neither copy changes. On the host the heal is applied once |
| `Heroes.HeroModel.LocalHeal` | TPK/Assets/Scripts/Attacker/Heroes/HeroModel.cs:101-105 | this copy's health becomes `HealedHealth(old health, amount)`. Nothing else changes |
| `Heroes.HeroModel.CmdHeal` | TPK/Assets/Scripts/Attacker/Heroes/HeroModel.cs:106-110 | the server copy applies the same heal |
| `Heroes.HeroModel.SetPlayerId` | TPK/Assets/Scripts/Attacker/Heroes/HeroModel.cs:124-134 | with authority, both copies hold `id`. Without authority nothing changes. No other field changes |
| `Heroes.HeroModel.CmdSetPlayerId` | TPK/Assets/Scripts/Attacker/Heroes/HeroModel.cs:135-139 | the server copy's player id becomes `id` |
| `Heroes.HeroModel.SetHeroType` | TPK/Assets/Scripts/Attacker/Heroes/HeroModel.cs:144-154 | with authority, both copies hold the new hero type. Without authority nothing changes. No other field changes |
| `Heroes.HeroModel.CmdSetHeroType` | TPK/Assets/Scripts/Attacker/Heroes/HeroModel.cs:155-159 | the server copy's hero type becomes the argument |
| `Heroes.HeroModel.SetBaseMoveSpeed` | TPK/Assets/Scripts/Attacker/Heroes/HeroModel.cs:164-175 | with authority, both copies hold `val` and the owner's movement component gets `val`. Without authority nothing changes |
| `Heroes.HeroModel.CmdSetBaseSpeed` | TPK/Assets/Scripts/Attacker/Heroes/HeroModel.cs:176-180 | the server copy's base speed becomes `val` |
| `Heroes.HeroModel.SetCurrentMoveSpeed` | TPK/Assets/Scripts/Attacker/Heroes/HeroModel.cs:185-196 | with authority, both copies hold `val` and the owner's movement component gets `val`. Without authority nothing changes |
| `Heroes.HeroModel.CmdSetCurrentMoveSpeed` | TPK/Assets/Scripts/Attacker/Heroes/HeroModel.cs:197-201 | the server copy's current speed becomes `val` |
| `Heroes.HeroModel.SetDefence` | TPK/Assets/Scripts/Attacker/Heroes/HeroModel.cs:206-216 | with authority, both copies hold `val`. Without authority nothing changes. No other field changes |
| `Heroes.HeroModel.CmdSetDefence` | TPK/Assets/Scripts/Attacker/Heroes/HeroModel.cs:217-221 | the server copy's defence becomes `val` |
| `Heroes.HeroModel.SetAttack` | TPK/Assets/Scripts/Attacker/Heroes/HeroModel.cs:226-236 | with authority, both copies hold `val`. Without authority nothing changes. No other field changes |
| `Heroes.HeroModel.CmdSetAttack` | TPK/Assets/Scripts/Attacker/Heroes/HeroModel.cs:237-241 | the server copy's attack becomes `val` |
| `Heroes.HeroModel.SetFullHealth` | TPK/Assets/Scripts/Attacker/Heroes/HeroModel.cs:246-256 | with authority, both copies' health equals `maxHealth`. Without authority nothing changes |
| `Heroes.HeroModel.CmdSetFullHealth` | TPK/Assets/Scripts/Attacker/Heroes/HeroModel.cs:257-261 | the server copy's health becomes `maxHealth` |
| `Heroes.HeroModel.SetKnockedOut` | TPK/Assets/Scripts/Attacker/Heroes/HeroModel.cs:266-276 | with authority, both copies hold the flag. Without authority nothing changes. No other field changes |
| `Heroes.HeroModel.CmdSetKnockedOut` | TPK/Assets/Scripts/Attacker/Heroes/HeroModel.cs:277-281 | the server copy's flag becomes the argument |
| `Heroes.HeroModel.IncreaseScore` | TPK/Assets/Scripts/Attacker/Heroes/HeroModel.cs:287-297 | with authority, each copy's score gains `amount` exactly once (unchecked addition), including on the host where the copies are one object. Without authority nothing changes |
| `Heroes.HeroModel.CmdIncreaseScore` | TPK/Assets/Scripts/Attacker/Heroes/HeroModel.cs:298-302 | the server copy's score gains `amount` once |
| `Heroes.HeroModel.SetModel` | TPK/Assets/Scripts/Attacker/Heroes/HeroModel.cs:309-331 | with authority, on both copies: the owner's previous child is hidden, `myHero`'s child is shown, and the index and type are taken from `myHero`. Sending the switch through command and broadcast leaves the same result as one switch. Without authority nothing changes |
| `Heroes.HeroModel.CmdSetModel` | TPK/Assets/Scripts/Attacker/Heroes/HeroModel.cs:339-344 | the server copy is switched exactly as by one `LocalSetModel`, even though the broadcast reaches it again. The owner's copy is switched unless it is the local player's |
| `Heroes.HeroModel.RpcSetModel` | TPK/Assets/Scripts/Attacker/Heroes/HeroModel.cs:352-357 | on the local player's copy nothing changes. On any other copy the switch of `LocalSetModel` is applied |
| `Heroes.HeroModel.LocalSetModel` | TPK/Assets/Scripts/Attacker/Heroes/HeroModel.cs:365-371 | the children become `SwitchModel(old, oldHeroIndex, myHero.childIndex)`, and the index and type come from `myHero` |
| `Heroes.SwitchModel` | TPK/Assets/Scripts/Attacker/Heroes/HeroModel.cs:367-370 | the new child is active, the old child is inactive unless it is the new one, and every other child keeps its flag |
| `Heroes.SwitchModelIdempotent` | TPK/Assets/Scripts/Attacker/Heroes/HeroModel.cs:342-356 | switching twice with the same arguments equals switching once. This is why the server copy's second application, from the broadcast, changes nothing |
| `Heroes.SwitchModelKeepsOneActive` | TPK/Assets/Scripts/Attacker/Heroes/HeroModel.cs:365-371 | if only the old child was showing, afterwards only the new child shows |
| `Heroes.HeroModel.GetCurrentHealth` | TPK/Assets/Scripts/Attacker/Heroes/HeroModel.cs:415-418 | the health read is always within `[0, GetMaxHealth()]` |
| `DungeonEnemies.GetMonsterType` | TPK/Assets/Scripts/Game-Management/DungeonEnemyManager.cs:104-118 | 1 gives medium and only 1 does, 2 gives heavy and only 2 does, and every other number gives light |
| `DungeonEnemies.MonsterTypesOfRangeAreDistinct` | TPK/Assets/Scripts/Game-Management/DungeonEnemyManager.cs:60-62 | the numbers 0, 1 and 2 that a tick draws map to three different kinds |
| `DungeonEnemies.SpawnTick` | TPK/Assets/Scripts/Game-Management/DungeonEnemyManager.cs:52-74 | a tick raises the counter by exactly 1 when on the server with the match running and at most 10 monsters spawned. Otherwise the counter is unchanged |
| `DungeonEnemies.RunTicksBounded` | TPK/Assets/Scripts/Game-Management/DungeonEnemyManager.cs:20-74 | over any run of ticks, a counter that starts at 11 or less never decreases and never passes 11 |
| `DungeonEnemies.RunTicksWhileMatchRuns` | TPK/Assets/Scripts/Game-Management/DungeonEnemyManager.cs:47-74 | on the server with the match running, `k` ticks from `c` reach `min(c + k, 11)`. From the initial 0 that is `min(k, 11)` |
| `DungeonEnemies.RunTicksOffServer` | TPK/Assets/Scripts/Game-Management/DungeonEnemyManager.cs:52 | off the server the counter never moves over any run of ticks; each step is the identity, so this spells out the guard rather than adding a result |
| `DungeonEnemies.DungeonEnemyManager.constructor` | TPK/Assets/Scripts/Game-Management/DungeonEnemyManager.cs:19-20 | the counter starts at 0, with nothing spawned and no spawn points |
| `DungeonEnemies.DungeonEnemyManager.StartSpawn` | TPK/Assets/Scripts/Game-Management/DungeonEnemyManager.cs:42-48 | off the server nothing changes. On the server the spawn points are collected as by `SetSpawnPoints` |
| `DungeonEnemies.DungeonEnemyManager.DungeonSpawnMonster` | TPK/Assets/Scripts/Game-Management/DungeonEnemyManager.cs:50-63 | the counter follows `SpawnTick`. When a spawn happens, exactly one monster of kind `GetMonsterType(randMonster)` is added at `spawnLocation[randLocation]`. Otherwise nothing is spawned. The counter stays at 11 or less |
| `DungeonEnemies.DungeonEnemyManager.SpawnMonster` | TPK/Assets/Scripts/Game-Management/DungeonEnemyManager.cs:66-75 | off the server or after the match ends nothing changes. Otherwise one monster is spawned at the location and the counter rises by exactly 1 |
| `DungeonEnemies.DungeonEnemyManager.SetSpawnPoints` | TPK/Assets/Scripts/Game-Management/DungeonEnemyManager.cs:80-89 | a new array of the same length as the spawn objects, with element `i` equal to object `i`'s position |
| `DungeonEnemies.DungeonEnemyManager.GetSpawnLocationOfMonster` | TPK/Assets/Scripts/Game-Management/DungeonEnemyManager.cs:95-98 | for an index inside the array, the result is one of the collected spawn points |
| `Items.DefaultBuffCanGrantImmunity` | TPK/Assets/Scripts/Items/DefenseItem.cs:11-26 | a hero with defence 45 to 49 takes full damage before the default buff and none while it lasts |
| `Items.DefenseItem.constructor` | TPK/Assets/Scripts/Items/DefenseItem.cs:11 | `buffAmount` starts at 5 and the pickup is not destroyed |
| `Items.DefenseItem.TempBuffStart` | TPK/Assets/Scripts/Items/DefenseItem.cs:14-26 | the original defence is captured. With authority, both copies hold original + `buffAmount` (unchecked). Without authority defence is unchanged. The pickup is not destroyed |
| `Items.DefenseItem.TempBuffEnd` | TPK/Assets/Scripts/Items/DefenseItem.cs:28-35 | with authority, both copies hold the captured defence again. Without authority defence is unchanged. Only then is the pickup destroyed |
| `Items.DefenseItem.TempBuff` | TPK/Assets/Scripts/Items/DefenseItem.cs:20-36 | run with no change in between, the whole buff leaves the hero's defence where it started and ends with the pickup destroyed |

## Left out

- The networking runtime (field sync, command and RPC transport, object spawning). Only the two-copy state above is modelled.
- `[SyncVar]` updates from the server copy back to the clients. Each copy changes only through the calls the code makes.
- Broadcast to other clients. An RPC reaches only the two modelled copies: the server's copy (the host's own view) and the owner's copy.
- Dedicated-server mode. The server is a host, so its copy also receives RPCs.
- `Heroes.HeroModel.CmdTakeDamage`: damage products `amount * (1 - defence / 50)` whose size is over 2^24 are excluded by a precondition. Beyond 2^24 not every whole number is an exact `float`, so the bound keeps float rounding out of the model. With health at most 100, a product between 2^24 and 2^31 would empty the health bar just as one at the bound does. The behaviour the bound really hides is the 32-bit wrap of the product itself. `HeroStats.FinalDamage` and `HeroStats.DamagedHealth` carry the same bound.
- The damage type switch is commented out, so `damageType` is accepted and ignored. `SetBasicAttack` has an empty body and is not modelled.
- `CharacterMovement` is not part of this model.
  - `SetSpeed` is recorded as the value handed over (`forwardedSpeed`).
  - `new CharacterMovement(0)` in `Start` is recorded as a handed-over speed of 0.
  - The null reference a setter would hit before `Start` is not modelled.
  - `GetCharacterMovement` is not modelled.
- Engine lookups become parameters:
  - `MatchManager.GetPlayerId()` is the `localPlayerId` argument of `Start`.
  - `HasMatchEnded()` is the `matchEnded` argument of the spawner ticks.
  - The hero object that `SetModel` fetches is taken to be this hero's own object, whose child flags are `childActive`.
- `Random.Range` draws become parameters, with the ranges the draws produce. The spawn index must be in range because the array read would otherwise throw.
- `InvokeRepeating` timing is not modelled; ticks are explicit calls. `DungeonEnemyManager.Start` (service set-up, `Resources.Load` of the prefabs) is not modelled; prefabs are the `MonsterKind` values. Instantiation plus network spawn is recorded as an append to `spawned`.
- Positions are opaque values.
- `WaitForSeconds(30)` splits `tempBuff` into its two phases. The item base class and its trigger handling are not part of this model; `ItemConsume`'s component lookup becomes the hero argument of `TempBuffStart`.
- The `HeroType` enumeration's source is not part of this model. Its members follow the comment on `heroIndex` (king, rogue, wizard).
- The initial active state of the hero object's children comes from the engine's prefab, which is not part of this model. A fresh copy starts with every child hidden.
- `GetChild` with an index outside the hero object's children throws. The model instead requires indices in range.
- The getters other than `GetCurrentHealth` are plain field reads without a contract.
- `Debug.Log` output.
