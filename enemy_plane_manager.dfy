/**
 * The enemy-plane spawner. Its timer runs only once the obstacle difficulty has
 * reached the enemy threshold; enemies enter from the left, faster at higher
 * difficulty.
 */
module EnemyPlaneManagement {

  import opened Constants
  import opened PhaserMath
  import opened Chase
  import opened JsArray
  import opened EnemyPlaneEntity

  /** Enemies enter at this x, behind the airplane. */
  const ENEMY_ENTRY_X: real := -100.0
  /** Extra speed per difficulty level. */
  const ENEMY_SPEED_PER_LEVEL: real := 10.0

  function Live(es: seq<EnemyPlane>): set<EnemyPlane>
    reads set e | e in es
  {
    set e | e in es && !e.isDead
  }

  /** `forEach(e => e.update(delta, playerY))`: every enemy in the list runs its update once. */
  method UpdateAll(es: seq<EnemyPlane>, delta: real, playerY: real)
    requires Distinct(es)
    modifies set e | e in es
    ensures forall e :: e in es ==> e.x == old(e.x) && e.isDead == (old(e.isDead) || e.IsOffScreen())
    ensures forall e :: e in es && !old(e.isDead) ==>
      e.y == Clamp(Step(old(e.y), playerY, ChaseDistance(e.speed, delta), CHASE_DEAD_ZONE),
                   e.cfg.size / 2.0, GAME_HEIGHT - e.cfg.size / 2.0)
    ensures forall e :: e in es && old(e.isDead) ==> e.y == old(e.y)
  {
    for i := 0 to |es|
      invariant forall e :: e in es ==> e.x == old(e.x)
      invariant forall e :: e in es[..i] ==> e.isDead == (old(e.isDead) || e.IsOffScreen())
      invariant forall e :: e in es[..i] && !old(e.isDead) ==>
        e.y == Clamp(Step(old(e.y), playerY, ChaseDistance(e.speed, delta), CHASE_DEAD_ZONE),
                     e.cfg.size / 2.0, GAME_HEIGHT - e.cfg.size / 2.0)
      invariant forall e :: e in es[..i] && old(e.isDead) ==> e.y == old(e.y)
      invariant forall e :: e in es && e !in es[..i] ==> e.isDead == old(e.isDead) && e.y == old(e.y)
    {
      assert es[..i + 1] == es[..i] + [es[i]];
      assert es[i] !in es[..i];
      es[i].Update(delta, playerY);
    }
    assert es[..|es|] == es;
  }

  /** `forEach(e => e.destroy())`: every enemy in the list is dead. */
  method DestroyAll(es: seq<EnemyPlane>)
    modifies set e | e in es
    ensures forall e :: e in es ==> e.isDead
  {
    for i := 0 to |es|
      invariant forall e :: e in es[..i] ==> e.isDead
    {
      assert es[..i + 1] == es[..i] + [es[i]];
      es[i].Destroy();
    }
    assert es[..|es|] == es;
  }

  class EnemyPlaneManager {
    var enemies: seq<EnemyPlane>
    var spawnTimer: real
    var currentDifficulty: int
    /** The enemy-plane tuning values, which the constants file does not define. */
    const cfg: EnemyPlaneConstants

    ghost predicate Valid()
      reads this
    {
      Distinct(enemies) && cfg.Valid()
    }

    constructor (cfg: EnemyPlaneConstants)
      requires cfg.Valid()
      ensures Valid() && this.cfg == cfg
      ensures enemies == [] && spawnTimer == 0.0 && currentDifficulty == 0
    {
      enemies := [];
      spawnTimer := 0.0;
      currentDifficulty := 0;
      this.cfg := cfg;
    }

    /** The speed of an enemy spawned at the given difficulty. */
    function SpawnSpeed(difficulty: int): (speed: real)
      reads this
      ensures speed == cfg.speed + difficulty as real * ENEMY_SPEED_PER_LEVEL
      ensures difficulty >= 0 ==> speed >= cfg.speed
    {
      cfg.speed + difficulty as real * ENEMY_SPEED_PER_LEVEL
    }

    /**
     * update: remember the difficulty; at or above the threshold run the spawn timer and
     * spawn one enemy when it reaches the interval; below it the timer stands still.
     * Then update every enemy and drop the dead ones. `spawned` is the new enemy, if any.
     */
    method Update(delta: real, difficultyLevel: int, playerY: real, yDraw: real) returns (ghost spawned: seq<EnemyPlane>)
      requires Valid() && IsUniform(yDraw)
      modifies this, set e | e in enemies
      ensures Valid()
      ensures currentDifficulty == difficultyLevel
      ensures difficultyLevel < cfg.startDifficulty ==> spawned == [] && spawnTimer == old(spawnTimer)
      ensures difficultyLevel >= cfg.startDifficulty ==>
        && |spawned| == (if old(spawnTimer) + delta >= cfg.spawnInterval then 1 else 0)
        && spawnTimer == (if |spawned| == 1 then 0.0 else old(spawnTimer) + delta)
      ensures forall e :: e in spawned ==>
        && fresh(e) && e.x == ENEMY_ENTRY_X && e.cfg == cfg
        && e.speed == SpawnSpeed(difficultyLevel)
        && e.isDead == (cfg.size < 100.0)
      ensures forall e :: e in old(enemies) ==> e.x == old(e.x) && e.isDead == (old(e.isDead) || e.IsOffScreen())
      ensures forall e :: e in old(enemies) && !old(e.isDead) ==>
        e.y == Clamp(Step(old(e.y), playerY, ChaseDistance(e.speed, delta), CHASE_DEAD_ZONE),
                     e.cfg.size / 2.0, GAME_HEIGHT - e.cfg.size / 2.0)
      ensures forall e :: e in old(enemies) && old(e.isDead) ==> e.y == old(e.y)
      ensures enemies == Filter(old(enemies) + spawned, Live(old(enemies) + spawned))
      ensures forall e :: e in enemies ==> !e.isDead
    {
      currentDifficulty := difficultyLevel;
      spawned := [];
      if difficultyLevel >= cfg.startDifficulty {
        spawnTimer := spawnTimer + delta;
        if spawnTimer >= cfg.spawnInterval {
          var e := SpawnEnemyPlane(yDraw);
          spawned := [e];
          spawnTimer := 0.0;
        }
      }
      assert enemies == old(enemies) + spawned;
      var all := enemies;
      UpdateAll(all, delta, playerY);
      FilterDistinct(all, Live(all));
      enemies := Filter(all, Live(all));
    }

    /**
     * spawnEnemyPlane: one new enemy behind the airplane at a random height in
     * [50, height - 50], with a speed that grows with the current difficulty.
     */
    method SpawnEnemyPlane(yDraw: real) returns (e: EnemyPlane)
      requires Valid() && IsUniform(yDraw)
      modifies this
      ensures Valid()
      ensures fresh(e) && !e.isDead && e.cfg == cfg
      ensures e.x == ENEMY_ENTRY_X && 50.0 <= e.y <= GAME_HEIGHT - 50.0
      ensures e.speed == SpawnSpeed(currentDifficulty)
      ensures enemies == old(enemies) + [e]
      ensures spawnTimer == old(spawnTimer) && currentDifficulty == old(currentDifficulty)
    {
      BetweenWhole(50, 718, yDraw);
      var y := Between(50.0, GAME_HEIGHT - 50.0, yDraw);
      e := new EnemyPlane(ENEMY_ENTRY_X, y as real, cfg.speed + currentDifficulty as real * ENEMY_SPEED_PER_LEVEL, cfg);
      enemies := enemies + [e];
    }

    /** removeEnemy: drop the first occurrence; nothing happens if it is not listed. */
    method RemoveEnemy(e: EnemyPlane)
      requires Valid()
      modifies this
      ensures Valid()
      ensures enemies == RemoveFirst(old(enemies), e)
      ensures e !in enemies
      ensures spawnTimer == old(spawnTimer) && currentDifficulty == old(currentDifficulty)
    {
      RemoveFirstSubset(enemies, e);
      var index := IndexOf(enemies, e);
      if index != -1 {
        enemies := enemies[..index] + enemies[index + 1..];
      }
    }

    /** reset: destroy every enemy, empty the list and zero the timer; the difficulty stays. */
    method Reset()
      requires Valid()
      modifies this, set e | e in enemies
      ensures Valid()
      ensures enemies == [] && spawnTimer == 0.0
      ensures currentDifficulty == old(currentDifficulty)
      ensures forall e :: e in old(enemies) ==> e.isDead
    {
      DestroyAll(enemies);
      enemies := [];
      spawnTimer := 0.0;
    }
  }
}
