/**
 * The background-mountain spawner: a mountain every MOUNTAIN_SPAWN_INTERVAL
 * milliseconds, moving at 70% of the speed the caller passes in.
 */
module MountainManagement {

  import opened Constants
  import opened PhaserMath
  import opened JsArray
  import opened MountainEntity

  const MOUNTAIN_SPAWN_INTERVAL: real := 8000.0
  const MOUNTAIN_SPEED: real := 200.0
  /** Mountains enter this far right of the screen. */
  const MOUNTAIN_ENTRY_OFFSET: real := 150.0

  /** The mountains of a list that are still alive. */
  function Live(ms: seq<Mountain>): set<Mountain>
    reads set m | m in ms
  {
    set m | m in ms && !m.isDead
  }

  /** `forEach(m => m.update())`: every mountain in the list runs its update once. */
  method UpdateAll(ms: seq<Mountain>)
    modifies set m | m in ms
    ensures forall m :: m in ms ==> m.isDead == (old(m.isDead) || m.x < -(m.width as real)) && m.x == old(m.x)
  {
    for i := 0 to |ms|
      invariant forall m :: m in ms[..i] ==> m.isDead == (old(m.isDead) || m.x < -(m.width as real))
      invariant forall m :: m in ms && m !in ms[..i] ==> m.isDead == old(m.isDead)
      invariant forall m :: m in ms ==> m.x == old(m.x)
    {
      assert ms[..i + 1] == ms[..i] + [ms[i]];
      ms[i].Update();
    }
    assert ms[..|ms|] == ms;
  }

  /** `forEach(m => m.destroy())`: every mountain in the list is dead. */
  method DestroyAll(ms: seq<Mountain>)
    modifies set m | m in ms
    ensures forall m :: m in ms ==> m.isDead
  {
    for i := 0 to |ms|
      invariant forall m :: m in ms[..i] ==> m.isDead
    {
      assert ms[..i + 1] == ms[..i] + [ms[i]];
      ms[i].Destroy();
    }
    assert ms[..|ms|] == ms;
  }

  class MountainManager {
    var mountains: seq<Mountain>
    var spawnTimer: real
    var currentSpeed: real

    ghost predicate Valid()
      reads this
    {
      Distinct(mountains)
    }

    constructor ()
      ensures Valid()
      ensures mountains == [] && spawnTimer == 0.0 && currentSpeed == MOUNTAIN_SPEED
    {
      mountains := [];
      spawnTimer := 0.0;
      currentSpeed := MOUNTAIN_SPEED;
    }

    /**
     * update: take 70% of the given speed; when the timer reaches the interval spawn one
     * mountain and restart the timer; update every mountain and drop the dead ones.
     * `spawned` is the new mountain, if any.
     */
    method Update(delta: real, speed: real, widthDraw: real, heightDraw: real) returns (ghost spawned: seq<Mountain>)
      requires Valid()
      requires IsUniform(widthDraw) && IsUniform(heightDraw)
      modifies this, set m | m in mountains
      ensures Valid()
      ensures currentSpeed == speed * 0.7
      ensures |spawned| == (if old(spawnTimer) + delta >= MOUNTAIN_SPAWN_INTERVAL then 1 else 0)
      ensures spawnTimer == if |spawned| == 1 then 0.0 else old(spawnTimer) + delta
      ensures forall m :: m in spawned ==>
        fresh(m) && m.x == GAME_WIDTH + MOUNTAIN_ENTRY_OFFSET && m.vx == -currentSpeed && !m.isDead
      ensures forall m :: m in old(mountains) ==> m.isDead == (old(m.isDead) || m.x < -(m.width as real))
      ensures mountains == Filter(old(mountains) + spawned, Live(old(mountains) + spawned))
      ensures forall m :: m in mountains ==> !m.isDead
    {
      currentSpeed := speed * 0.7;
      spawnTimer := spawnTimer + delta;
      spawned := [];
      if spawnTimer >= MOUNTAIN_SPAWN_INTERVAL {
        var m := SpawnMountain(widthDraw, heightDraw);
        spawned := [m];
        spawnTimer := 0.0;
      }
      assert mountains == old(mountains) + spawned;
      var all := mountains;
      UpdateAll(all);
      FilterDistinct(all, Live(all));
      mountains := Filter(all, Live(all));
    }

    /** spawnMountain: one new mountain at the right edge, appended to the list. */
    method SpawnMountain(widthDraw: real, heightDraw: real) returns (m: Mountain)
      requires Valid()
      requires IsUniform(widthDraw) && IsUniform(heightDraw)
      modifies this
      ensures Valid()
      ensures fresh(m) && !m.isDead
      ensures m.x == GAME_WIDTH + MOUNTAIN_ENTRY_OFFSET && m.vx == -currentSpeed
      ensures 150 <= m.width <= 300 && 80 <= m.height <= 150
      ensures mountains == old(mountains) + [m]
      ensures spawnTimer == old(spawnTimer) && currentSpeed == old(currentSpeed)
    {
      m := new Mountain(GAME_WIDTH + MOUNTAIN_ENTRY_OFFSET, currentSpeed, widthDraw, heightDraw);
      mountains := mountains + [m];
    }

    /** removeMountain: drop the first occurrence; nothing happens if it is not listed. */
    method RemoveMountain(m: Mountain)
      requires Valid()
      modifies this
      ensures Valid()
      ensures mountains == RemoveFirst(old(mountains), m)
      ensures m !in mountains
      ensures spawnTimer == old(spawnTimer) && currentSpeed == old(currentSpeed)
    {
      RemoveFirstSubset(mountains, m);
      var index := IndexOf(mountains, m);
      if index != -1 {
        mountains := mountains[..index] + mountains[index + 1..];
      }
    }

    /** reset: destroy every mountain and restore the initial state. */
    method Reset()
      modifies this, set m | m in mountains
      ensures Valid()
      ensures mountains == [] && spawnTimer == 0.0 && currentSpeed == MOUNTAIN_SPEED
      ensures forall m :: m in old(mountains) ==> m.isDead
    {
      DestroyAll(mountains);
      mountains := [];
      spawnTimer := 0.0;
      currentSpeed := MOUNTAIN_SPEED;
    }
  }
}
