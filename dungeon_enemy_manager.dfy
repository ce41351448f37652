/**
 * `DungeonEnemyManager`: the server-side monster spawner. Each spawn tick
 * places one monster of a randomly chosen kind at a randomly chosen spawn
 * point, until more than ten monsters have been spawned.
 */
module DungeonEnemies {

  /** A world position, handled only as a value that is stored and passed on. */
  datatype Position = Position(token: int)

  /** The three monster prefabs the manager loads. */
  datatype MonsterKind = Light | Medium | Heavy

  /** One monster handed to the engine to instantiate and spawn on the network. */
  datatype Spawn = Spawn(kind: MonsterKind, at: Position)

  /** A tick spawns only while the counter is at most this value, so it stops at `MonsterCap + 1`. */
  const MonsterCap: int := 10

  /** `GetMonsterType`: 0 is light, 1 medium, 2 heavy, and every other number falls back to light. */
  function GetMonsterType(monsterType: int): (kind: MonsterKind)
    ensures kind == Medium <==> monsterType == 1
    ensures kind == Heavy <==> monsterType == 2
    ensures kind == Light <==> monsterType != 1 && monsterType != 2
  {
    match monsterType
    case 0 => Light
    case 1 => Medium
    case 2 => Heavy
    case _ => Light
  }

  /** The three numbers a tick draws name three different kinds, so every kind can be spawned. */
  lemma MonsterTypesOfRangeAreDistinct(i: int, j: int)
    requires 0 <= i < 3 && 0 <= j < 3
    ensures GetMonsterType(i) == GetMonsterType(j) <==> i == j
  {
  }

  /** The monster counter after one spawn tick. */
  function SpawnTick(count: int, isServer: bool, matchEnded: bool): (next: int)
    ensures next == count || next == count + 1
    ensures next == count + 1 <==> isServer && !matchEnded && count <= MonsterCap
  {
    if !isServer || matchEnded || count > MonsterCap then count else count + 1
  }

  /** The counter after a run of ticks; `ended[t]` says whether the match had ended at tick `t`. */
  function RunTicks(count: int, isServer: bool, ended: seq<bool>): int
    decreases |ended|
  {
    if ended == [] then count else RunTicks(SpawnTick(count, isServer, ended[0]), isServer, ended[1..])
  }

  /** Ticks never lower the counter, and from at most 11 they never take it past 11. */
  lemma {:induction false} RunTicksBounded(count: int, isServer: bool, ended: seq<bool>)
    requires count <= MonsterCap + 1
    ensures count <= RunTicks(count, isServer, ended) <= MonsterCap + 1
    decreases |ended|
  {
    if ended != [] {
      RunTicksBounded(SpawnTick(count, isServer, ended[0]), isServer, ended[1..]);
    }
  }

  /** On a server whose match is running, each tick spawns one monster until there are 11. */
  lemma {:induction false} RunTicksWhileMatchRuns(count: int, ended: seq<bool>)
    requires 0 <= count <= MonsterCap + 1
    requires forall t :: 0 <= t < |ended| ==> !ended[t]
    ensures RunTicks(count, true, ended) ==
              if count + |ended| <= MonsterCap + 1 then count + |ended| else MonsterCap + 1
    decreases |ended|
  {
    if ended != [] {
      assert !ended[0];
      RunTicksWhileMatchRuns(SpawnTick(count, true, ended[0]), ended[1..]);
    }
  }

  /** Off the server nothing is ever spawned. */
  lemma {:induction false} RunTicksOffServer(count: int, ended: seq<bool>)
    ensures RunTicks(count, false, ended) == count
    decreases |ended|
  {
    if ended != [] {
      RunTicksOffServer(count, ended[1..]);
    }
  }

  class DungeonEnemyManager {
    /** Whether this copy of the manager runs on the server. */
    const isServer: bool

    /** The spawn points, once `SetSpawnPoints` has collected them. */
    var spawnLocation: array?<Position>

    var currentNumMonsters: int

    /** The monsters handed to the engine so far, oldest first. */
    var spawned: seq<Spawn>

    /** Every increment of the counter comes with one spawned monster. */
    ghost predicate Tracked()
      reads this
    {
      currentNumMonsters == |spawned|
    }

    /** What the spawn ticks keep: the counter tracks the spawns and stops at `MonsterCap + 1`. */
    ghost predicate Valid()
      reads this
    {
      Tracked() && currentNumMonsters <= MonsterCap + 1
    }

    constructor (isServer: bool)
      ensures Valid()
      ensures this.isServer == isServer && spawnLocation == null && currentNumMonsters == 0 && spawned == []
    {
      this.isServer := isServer;
      spawnLocation := null;
      currentNumMonsters := 0;
      spawned := [];
    }

    /** `StartSpawn`: on the server, collect the spawn points (the repeating timer is not modelled). */
    method StartSpawn(spawnPoints: seq<Position>)
      modifies this`spawnLocation
      ensures !isServer ==> spawnLocation == old(spawnLocation)
      ensures isServer ==> spawnLocation != null && fresh(spawnLocation) && spawnLocation[..] == spawnPoints
    {
      if !isServer { return; }
      SetSpawnPoints(spawnPoints);
    }

    /** `DungeonSpawnMonster`, one tick of the spawn timer; the two random draws are parameters. */
    method DungeonSpawnMonster(matchEnded: bool, randLocation: int, randMonster: int)
      requires Valid()
      requires isServer && !matchEnded && currentNumMonsters <= MonsterCap ==>
                 spawnLocation != null && 0 <= randLocation < spawnLocation.Length
      requires 0 <= randMonster < 3
      modifies this`currentNumMonsters, this`spawned
      ensures Valid()
      ensures currentNumMonsters == SpawnTick(old(currentNumMonsters), isServer, matchEnded)
      ensures isServer && !matchEnded && old(currentNumMonsters) <= MonsterCap ==>
                spawnLocation != null && 0 <= randLocation < spawnLocation.Length &&
                spawned == old(spawned) + [Spawn(GetMonsterType(randMonster), spawnLocation[randLocation])]
      ensures !(isServer && !matchEnded && old(currentNumMonsters) <= MonsterCap) ==> spawned == old(spawned)
    {
      if !isServer || matchEnded { return; }
      if currentNumMonsters > MonsterCap {
        return;
      }
      SpawnMonster(matchEnded, GetSpawnLocationOfMonster(randLocation), GetMonsterType(randMonster));
    }

    /** `SpawnMonster`: on the server while the match runs, spawn one monster and count it. */
    method SpawnMonster(matchEnded: bool, location: Position, monsterType: MonsterKind)
      requires Tracked()
      modifies this`currentNumMonsters, this`spawned
      ensures Tracked()
      ensures isServer && !matchEnded ==>
                currentNumMonsters == old(currentNumMonsters) + 1 && spawned == old(spawned) + [Spawn(monsterType, location)]
      ensures !(isServer && !matchEnded) ==> currentNumMonsters == old(currentNumMonsters) && spawned == old(spawned)
    {
      if !isServer || matchEnded { return; }
      spawned := spawned + [Spawn(monsterType, location)];
      currentNumMonsters := currentNumMonsters + 1;
    }

    /** `SetSpawnPoints`: a new array holding the positions of the spawn-point objects, in order. */
    method SetSpawnPoints(spawnPoints: seq<Position>)
      modifies this`spawnLocation
      ensures spawnLocation != null && fresh(spawnLocation)
      ensures spawnLocation.Length == |spawnPoints|
      ensures forall i :: 0 <= i < |spawnPoints| ==> spawnLocation[i] == spawnPoints[i]
      ensures spawnLocation[..] == spawnPoints
    {
      var a := new Position[|spawnPoints|];
      spawnLocation := a;
      for i := 0 to a.Length
        invariant spawnLocation == a
        invariant forall j :: 0 <= j < i ==> a[j] == spawnPoints[j]
      {
        a[i] := spawnPoints[i];
      }
    }

    /** `GetSpawnLocationOfMonster`: the spawn point at an index the caller keeps in range. */
    function GetSpawnLocationOfMonster(spawnLocationAt: int): (p: Position)
      reads this, spawnLocation
      requires spawnLocation != null && 0 <= spawnLocationAt < spawnLocation.Length
      ensures p in spawnLocation[..]
    {
      spawnLocation[spawnLocationAt]
    }
  }
}
