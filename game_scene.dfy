/**
 * The game scene: the frame loop that drives the airplane and the four managers, the
 * collision sweeps and their consequences, game over and restart.
 */
module Scene {

  import opened GameTypes
  import opened Constants
  import opened JsArray
  import opened Collision
  import opened EventBus
  import opened Score
  import opened PhaserMath
  import opened Chase
  import opened AirplaneEntity
  import opened ObstacleEntity
  import opened EnemyPlaneEntity
  import opened PowerUpEntities
  import opened ObstacleManagement
  import opened PowerUpManagement
  import opened EnemyPlaneManagement

  /** Projectiles are fired this far ahead of the airplane. */
  const MUZZLE_OFFSET: real := 30.0
  /** Metres travelled per second of play. */
  const METRES_PER_SECOND: real := 30.0

  /** The airplane's body box, centred on its position. */
  function AirplaneBounds(a: Airplane): (r: Rect)
    reads a
    ensures r.width == AIRPLANE_BODY_WIDTH && r.height == AIRPLANE_BODY_HEIGHT
    ensures r.x + r.width / 2.0 == a.x && r.y + r.height / 2.0 == a.y
  {
    GetBodyBounds(a.x, a.y, AIRPLANE_BODY_WIDTH, AIRPLANE_BODY_HEIGHT)
  }

  /** An obstacle the box collides with: alive and overlapping its body box. */
  predicate ObstacleHit(o: Obstacle, box: Rect)
    reads o
  {
    !o.isDead && RectanglesIntersect(box, GetBodyBounds(o.x, o.y, o.bodyWidth, o.bodyHeight))
  }

  predicate EnemyHit(e: EnemyPlane, box: Rect)
    reads e
  {
    !e.isDead && RectanglesIntersect(box, GetBodyBounds(e.x, e.y, e.BodyWidth(), e.BodyHeight()))
  }

  /** A pickup is checked with its display bounds, which are centred on its position. */
  predicate PickupHit(p: PowerUp, box: Rect)
    reads p
  {
    !p.isCollected && RectanglesIntersect(box, GetBodyBounds(p.x, p.y, p.boundsWidth, p.boundsHeight))
  }

  function ObstacleHits(os: seq<Obstacle>, box: Rect): set<Obstacle>
    reads set o | o in os
  {
    set o | o in os && ObstacleHit(o, box)
  }

  function EnemyHits(es: seq<EnemyPlane>, box: Rect): set<EnemyPlane>
    reads set e | e in es
  {
    set e | e in es && EnemyHit(e, box)
  }

  function PickupHits(ps: seq<PowerUp>, box: Rect): set<PowerUp>
    reads set p | p in ps
  {
    set p | p in ps && PickupHit(p, box)
  }

  /**
   * What n lost lives emit while the registrations are `events`, starting from
   * `lives`: one lives-update each, built from the back.
   */
  function LifeLossDispatches(events: map<string, seq<CallbackId>>, lives: int, n: nat): (ds: seq<Dispatch>)
    ensures |ds| == n
  {
    if n == 0 then [] else LifeLossDispatches(events, lives, n - 1) + [Sent(events, LIVES_UPDATE, LivesData(lives - n))]
  }

  /** The i-th lives-update gives the lives left after the (i + 1)-th loss and runs the lives-update callbacks. */
  lemma {:induction false} LifeLossDispatchesCountDown(events: map<string, seq<CallbackId>>, lives: int, n: nat)
    ensures forall i :: 0 <= i < n ==>
      LifeLossDispatches(events, lives, n)[i] == Dispatch(LIVES_UPDATE, LivesData(lives - 1 - i), Registered(events, LIVES_UPDATE))
  {
    if n > 0 {
      LifeLossDispatchesCountDown(events, lives, n - 1);
    }
  }

  /** One more lost life extends a trace that already holds the first n lives-updates. */
  lemma LifeLossDispatchesStep(log: seq<Dispatch>, events: map<string, seq<CallbackId>>, lives: int, n: nat)
    ensures (log + LifeLossDispatches(events, lives, n)) + [Sent(events, LIVES_UPDATE, LivesData(lives - 1 - n))]
      == log + LifeLossDispatches(events, lives, n + 1)
  {
    assert LifeLossDispatches(events, lives, n + 1)
      == LifeLossDispatches(events, lives, n) + [Sent(events, LIVES_UPDATE, LivesData(lives - (n + 1)))];
  }

  /** What collecting the given pickups emits, in order: one powerup-collected each, with its type. */
  function PickupDispatches(events: map<string, seq<CallbackId>>, ps: seq<PowerUp>): (ds: seq<Dispatch>)
    ensures |ds| == |ps|
  {
    if ps == [] then [] else [Sent(events, POWERUP_COLLECTED, PowerUpData(ps[0].kind))] + PickupDispatches(events, ps[1..])
  }

  /** Collecting a then b extends a trace as collecting a + b does. */
  lemma {:induction false} PickupDispatchesAppend(log: seq<Dispatch>, events: map<string, seq<CallbackId>>, a: seq<PowerUp>, b: seq<PowerUp>)
    decreases |a|
    ensures (log + PickupDispatches(events, a)) + PickupDispatches(events, b) == log + PickupDispatches(events, a + b)
  {
    if a == [] {
      assert a + b == b;
    } else {
      var d := [Sent(events, POWERUP_COLLECTED, PowerUpData(a[0].kind))];
      PickupDispatchesAppend(log + d, events, a[1..], b);
      assert PickupDispatches(events, a) == d + PickupDispatches(events, a[1..]);
      assert (a + b)[1..] == a[1..] + b;
      assert PickupDispatches(events, a + b) == d + PickupDispatches(events, a[1..] + b);
      assert log + PickupDispatches(events, a) == (log + d) + PickupDispatches(events, a[1..]);
      assert log + PickupDispatches(events, a + b) == (log + d) + PickupDispatches(events, a[1..] + b);
    }
  }

  /**
   * The active power-up after collecting the given pickups in order: unchanged when
   * there are none, otherwise the last one's type with a full duration and a fresh
   * fire timer.
   */
  function AfterPickups(s: ActiveState, ps: seq<PowerUp>): (r: ActiveState)
    ensures |ps| == 0 ==> r == s
    ensures |ps| > 0 ==> r == ActiveState(Some(ps[|ps| - 1].kind), POWERUP_DURATION, 0.0)
  {
    if |ps| == 0 then s else ActiveState(Some(ps[|ps| - 1].kind), POWERUP_DURATION, 0.0)
  }

  /** A projectile's display bounds, centred on its position. */
  function ShotBounds(p: Projectile): (r: Rect)
    reads p
    ensures r.width == p.width && r.height == p.height
    ensures r.x + r.width / 2.0 == p.x && r.y + r.height / 2.0 == p.y
  {
    GetBodyBounds(p.x, p.y, p.width, p.height)
  }

  /** The high score after the score rose monotonically to `score` from a high score `high`. */
  function HighAfter(high: int, score: int): (r: int)
    ensures r >= high && r >= score
    ensures r == high || r == score
  {
    if score > high then score else high
  }

  /** The high score after k crate passes from `score` and `high`: the passes only raise the score. */
  function HighAfterPasses(score: int, high: int, k: nat): (r: int)
    ensures k == 0 ==> r == high
    ensures k > 0 ==> r >= high && r >= score + k * SCORE_PER_OBSTACLE_PASSED
  {
    if k == 0 then high else HighAfter(high, score + k * SCORE_PER_OBSTACLE_PASSED)
  }

  /**
   * What n crate passes emit, starting from `score` and `high`: each pass announces
   * its new score, and a new high score when it beats the one before it.
   */
  function PassDispatches(events: map<string, seq<CallbackId>>, score: int, high: int, n: nat): (ds: seq<Dispatch>)
    ensures n <= |ds| <= 2 * n
  {
    if n == 0 then [] else
      PassDispatches(events, score, high, n - 1)
        + ScoreDispatches(events, score + n * SCORE_PER_OBSTACLE_PASSED, HighAfterPasses(score, high, n - 1))
  }

  /**
   * What kills may change in the scene: the active power-up, the score, the high
   * score, the lives, the time survived and the bus trace; the registrations are
   * carried along and stay the same.
   */
  datatype Standing = Standing(active: ActiveState, score: int, highScore: int, lives: int,
                               timeSurvived: real, events: map<string, seq<CallbackId>>, trace: seq<Dispatch>)

  /**
   * The standing after one more projectile kill: the destroy bonus is added, the high
   * score follows the score, and the score announcements and obstacle-destroyed are
   * appended.
   */
  function Kill(s: Standing): Standing
  {
    var score := s.score + SCORE_PER_OBSTACLE_DESTROYED;
    Standing(s.active, score, HighAfter(s.highScore, score), s.lives, s.timeSurvived, s.events,
             s.trace + ScoreDispatches(s.events, score, s.highScore) + [Sent(s.events, OBSTACLE_DESTROYED, NoData)])
  }

  /** The standing after n kills from s. */
  function AfterKills(s: Standing, n: nat): Standing
  {
    if n == 0 then s else Kill(AfterKills(s, n - 1))
  }

  /**
   * What n kills do to a standing: the active power-up, the lives and the time stay, the score
   * gains n destroy bonuses, the high score never drops and after a kill is at least
   * the score, and each kill appends two or three announcements.
   */
  lemma {:induction false} AfterKillsFacts(s: Standing, n: nat)
    ensures var r := AfterKills(s, n);
      && r.active == s.active && r.lives == s.lives && r.timeSurvived == s.timeSurvived
      && r.score == s.score + n * SCORE_PER_OBSTACLE_DESTROYED
      && r.highScore >= s.highScore && (n > 0 ==> r.highScore >= r.score)
      && (r.highScore == s.highScore || (n > 0 && r.highScore == r.score))
      && r.events == s.events
      && s.trace <= r.trace && |s.trace| + 2 * n <= |r.trace| <= |s.trace| + 3 * n
  {
    if n > 0 {
      AfterKillsFacts(s, n - 1);
    }
  }

  /** No kill changes nothing. */
  lemma AfterNoKills(s: Standing)
    ensures AfterKills(s, 0) == s
  {
  }

  /**
   * One more kill after n from s: the score gains the destroy bonus, the high score
   * follows it, and the score announcements and obstacle-destroyed are appended.
   */
  lemma AfterKillsStep(s: Standing, n: nat, pre: Standing, post: Standing)
    requires pre == AfterKills(s, n)
    requires post.active == pre.active && post.lives == pre.lives && post.timeSurvived == pre.timeSurvived
    requires post.score == pre.score + SCORE_PER_OBSTACLE_DESTROYED
    requires post.highScore == HighAfter(pre.highScore, post.score)
    requires post.events == pre.events
    requires post.trace == pre.trace + ScoreDispatches(pre.events, post.score, pre.highScore) + [Sent(pre.events, OBSTACLE_DESTROYED, NoData)]
    ensures post == AfterKills(s, n + 1)
  {
  }

  /** A projectile as its walks see it: the projectile list, whether it holds it, whether it is dead. */
  datatype ShotState = ShotState(projectiles: seq<Projectile>, holdsShot: bool, shotDead: bool)

  /**
   * The projectile p's state after n kills from t0: the first kill removes it from the
   * list and kills it, later ones change nothing.
   */
  function ShotAfterKills(t0: ShotState, p: Projectile, n: nat): (t: ShotState)
    ensures n == 0 ==> t == t0
    ensures n > 0 ==> t.projectiles == RemoveFirst(t0.projectiles, p)
    ensures n > 0 ==> !t.holdsShot && t.shotDead == (t0.shotDead || t0.holdsShot)
  {
    if n == 0 then t0 else ShotState(RemoveFirst(t0.projectiles, p), false, t0.shotDead || t0.holdsShot)
  }

  /** Kills add up: a kills and then b more leave the projectile as a + b kills do. */
  lemma ShotAfterKillsAdd(t0: ShotState, p: Projectile, a: nat, b: nat)
    requires Distinct(t0.projectiles)
    ensures ShotAfterKills(ShotAfterKills(t0, p, a), p, b) == ShotAfterKills(t0, p, a + b)
  {
    if a > 0 && b > 0 {
      RemoveFirstGone(t0.projectiles, p);
    }
  }

  class GameScene {
    var airplane: Airplane
    const obstacleManager: ObstacleManager
    const powerUpManager: PowerUpManager
    const scoreManager: ScoreManager
    const enemyPlaneManager: EnemyPlaneManager
    /** The application-wide event bus. */
    const bus: Bus
    var isPlaying: bool
    var distance: real

    /**
     * The managers keep their own invariants and the score manager announces on the
     * scene's bus. The scene never hands the obstacle manager a player height, so it
     * stays 0. The airplane only dies when the game is over.
     */
    ghost predicate Valid()
      reads this, airplane, obstacleManager, powerUpManager, scoreManager, enemyPlaneManager
    {
      && obstacleManager.Valid() && powerUpManager.Valid() && scoreManager.Valid() && enemyPlaneManager.Valid()
      && scoreManager.bus == bus
      && obstacleManager.playerY == 0.0
      && (airplane.isDead ==> scoreManager.IsGameOver())
    }

    /** Between frames, besides: while the game is playing it is not over. */
    ghost predicate Settled()
      reads this, airplane, obstacleManager, powerUpManager, scoreManager, enemyPlaneManager
    {
      Valid() && (isPlaying ==> !scoreManager.IsGameOver())
    }

    constructor (storedHighScore: int, cfg: EnemyPlaneConstants, crateWidth: real, crateHeight: real,
                 pickupWidth: real, pickupHeight: real, bus: Bus)
      requires cfg.Valid()
      modifies bus
      ensures Settled() && this.bus == bus
      ensures isPlaying && distance == 0.0
      ensures airplane.x == AIRPLANE_START_X && airplane.y == AIRPLANE_START_Y && !airplane.isDead
      ensures obstacleManager.Initial() && powerUpManager.Initial() && enemyPlaneManager.enemies == []
      ensures scoreManager.score == 0 && scoreManager.lives == STARTING_LIVES
      ensures scoreManager.highScore == storedHighScore
      ensures bus.events == old(bus.events)
      ensures bus.trace == old(bus.trace) + [Sent(bus.events, GAME_START, NoData), Sent(bus.events, CURRENT_SCENE_READY, NoData)]
    {
      var om := new ObstacleManager(crateWidth, crateHeight);
      var pm := new PowerUpManager(pickupWidth, pickupHeight);
      var sm := new ScoreManager(storedHighScore, bus);
      var em := new EnemyPlaneManager(cfg);
      var a := new Airplane(AIRPLANE_START_X, AIRPLANE_START_Y);
      obstacleManager := om;
      powerUpManager := pm;
      scoreManager := sm;
      enemyPlaneManager := em;
      this.bus := bus;
      airplane := a;
      distance := 0.0;
      isPlaying := true;
      new;
      bus.Emit(GAME_START, NoData);
      bus.Emit(CURRENT_SCENE_READY, NoData);
    }

    /**
     * handleAirplaneCollision: one life is lost; the airplane dies when that leaves
     * no lives.
     */
    method HandleAirplaneCollision()
      requires Valid()
      modifies scoreManager, bus, airplane
      ensures Valid()
      ensures scoreManager.lives == old(scoreManager.lives) - 1
      ensures airplane.isDead == (old(airplane.isDead) || scoreManager.IsGameOver())
      ensures airplane.y == old(airplane.y) && airplane.targetY == old(airplane.targetY)
      ensures scoreManager.score == old(scoreManager.score) && scoreManager.highScore == old(scoreManager.highScore)
      ensures scoreManager.persisted == old(scoreManager.persisted)
      ensures scoreManager.timeSurvived == old(scoreManager.timeSurvived)
      ensures bus.events == old(bus.events)
      ensures bus.trace == old(bus.trace) + [Sent(bus.events, LIVES_UPDATE, LivesData(scoreManager.lives))]
    {
      scoreManager.LoseLife();
      if scoreManager.IsGameOver() {
        airplane.Die();
      }
    }

    /**
     * The body of the obstacle sweep for a hit at index k: lose a life, explode the
     * crate, remove it. When n lives were already lost from lives0 in this sweep, with
     * their announcements after log0, n + 1 now are.
     */
    method CrashIntoObstacle(k: nat, ghost lives0: int, ghost events0: map<string, seq<CallbackId>>, ghost log0: seq<Dispatch>, ghost n: nat)
      returns (o: Obstacle, ghost n': nat)
      requires Valid() && k < |obstacleManager.obstacles|
      requires scoreManager.lives == lives0 - n
      requires bus.events == events0 && bus.trace == log0 + LifeLossDispatches(events0, lives0, n)
      modifies obstacleManager, scoreManager, bus, airplane, obstacleManager.obstacles[k]
      ensures Valid()
      ensures o == old(obstacleManager.obstacles[k]) && o.isDead
      ensures obstacleManager.obstacles == old(obstacleManager.obstacles[..k] + obstacleManager.obstacles[k + 1..])
      ensures n' == n + 1
      ensures scoreManager.lives == lives0 - n'
      ensures scoreManager.score == old(scoreManager.score) && scoreManager.highScore == old(scoreManager.highScore)
      ensures scoreManager.timeSurvived == old(scoreManager.timeSurvived)
      ensures airplane.isDead == (old(airplane.isDead) || scoreManager.IsGameOver())
      ensures bus.events == events0 && bus.trace == log0 + LifeLossDispatches(events0, lives0, n')
    {
      n' := n + 1;
      o := obstacleManager.obstacles[k];
      RemoveFirstDistinct(obstacleManager.obstacles, k);
      LifeLossDispatchesStep(log0, events0, lives0, n);
      HandleAirplaneCollision();
      o.Explode();
      obstacleManager.RemoveObstacle(o);
    }

    /**
     * The airplane against the obstacles. Every live obstacle overlapping the airplane
     * costs a life and is exploded and removed, but the removal shifts the next
     * obstacle into the visited slot, so the walk is SpliceSweep and skips it.
     */
    method SweepAirplaneObstacles(box: Rect) returns (ghost hits: seq<Obstacle>)
      requires Valid()
      modifies obstacleManager, scoreManager, bus, airplane, set o | o in obstacleManager.obstacles
      ensures Valid()
      ensures obstacleManager.obstacles
        == SpliceSweep(old(obstacleManager.obstacles), 0, old(ObstacleHits(obstacleManager.obstacles, box)))
      ensures hits == SpliceHits(old(obstacleManager.obstacles), 0, old(ObstacleHits(obstacleManager.obstacles, box)))
      ensures forall o :: o in hits ==> o.isDead
      ensures forall o :: o in obstacleManager.obstacles ==> o in old(obstacleManager.obstacles)
      ensures scoreManager.lives == old(scoreManager.lives) - |hits|
      ensures scoreManager.score == old(scoreManager.score) && scoreManager.highScore == old(scoreManager.highScore)
      ensures scoreManager.timeSurvived == old(scoreManager.timeSurvived)
      ensures airplane.isDead == (old(airplane.isDead) || (|hits| > 0 && scoreManager.IsGameOver()))
      ensures bus.events == old(bus.events)
      ensures bus.trace == old(bus.trace) + LifeLossDispatches(bus.events, old(scoreManager.lives), |hits|)
    {
      ghost var s0 := obstacleManager.obstacles;
      ghost var hit := ObstacleHits(s0, box);
      ghost var lives0, events0, log0 := scoreManager.lives, bus.events, bus.trace;
      var n := |obstacleManager.obstacles|;
      var k := 0;
      hits := [];
      ghost var lost := 0;
      while k < n
        invariant Valid()
        invariant |obstacleManager.obstacles| <= n
        invariant SpliceSweep(obstacleManager.obstacles, k, hit) == SpliceSweep(s0, 0, hit)
        invariant hits + SpliceHits(obstacleManager.obstacles, k, hit) == SpliceHits(s0, 0, hit)
        invariant forall o :: o in obstacleManager.obstacles ==> o in s0 && (o in hit <==> ObstacleHit(o, box))
        invariant forall o :: o in hits ==> o.isDead
        invariant lost == |hits|
        invariant scoreManager.lives == lives0 - lost
        invariant scoreManager.score == old(scoreManager.score) && scoreManager.highScore == old(scoreManager.highScore)
        invariant scoreManager.timeSurvived == old(scoreManager.timeSurvived)
        invariant airplane.isDead == (old(airplane.isDead) || (lost > 0 && scoreManager.IsGameOver()))
        invariant bus.events == events0 && bus.trace == log0 + LifeLossDispatches(events0, lives0, lost)
      {
        var os := obstacleManager.obstacles;
        if k < |os| && ObstacleHit(os[k], box) {
          SpliceVisitHit(os, k, hit, hits);
          var o;
          o, lost := CrashIntoObstacle(k, lives0, events0, log0, lost);
          hits := hits + [o];
        } else {
          SpliceVisitMiss(os, k, hit);
        }
        k := k + 1;
      }
    }

    /**
     * The body of the enemy sweep for a hit at index k: lose a life, explode the enemy,
     * remove it, counting the lost lives as for the obstacles.
     */
    method CrashIntoEnemy(k: nat, ghost lives0: int, ghost events0: map<string, seq<CallbackId>>, ghost log0: seq<Dispatch>, ghost n: nat)
      returns (e: EnemyPlane, ghost n': nat)
      requires Valid() && k < |enemyPlaneManager.enemies|
      requires scoreManager.lives == lives0 - n
      requires bus.events == events0 && bus.trace == log0 + LifeLossDispatches(events0, lives0, n)
      modifies enemyPlaneManager, scoreManager, bus, airplane, enemyPlaneManager.enemies[k]
      ensures Valid()
      ensures e == old(enemyPlaneManager.enemies[k]) && e.isDead
      ensures enemyPlaneManager.enemies == old(enemyPlaneManager.enemies[..k] + enemyPlaneManager.enemies[k + 1..])
      ensures n' == n + 1
      ensures scoreManager.lives == lives0 - n'
      ensures scoreManager.score == old(scoreManager.score) && scoreManager.highScore == old(scoreManager.highScore)
      ensures scoreManager.timeSurvived == old(scoreManager.timeSurvived)
      ensures airplane.isDead == (old(airplane.isDead) || scoreManager.IsGameOver())
      ensures bus.events == events0 && bus.trace == log0 + LifeLossDispatches(events0, lives0, n')
    {
      n' := n + 1;
      e := enemyPlaneManager.enemies[k];
      RemoveFirstDistinct(enemyPlaneManager.enemies, k);
      LifeLossDispatchesStep(log0, events0, lives0, n);
      HandleAirplaneCollision();
      e.Explode();
      enemyPlaneManager.RemoveEnemy(e);
    }

    /** The airplane against the enemy planes: the same walk as for the obstacles. */
    method SweepAirplaneEnemies(box: Rect) returns (ghost hits: seq<EnemyPlane>)
      requires Valid()
      modifies enemyPlaneManager, scoreManager, bus, airplane, set e | e in enemyPlaneManager.enemies
      ensures Valid()
      ensures enemyPlaneManager.enemies
        == SpliceSweep(old(enemyPlaneManager.enemies), 0, old(EnemyHits(enemyPlaneManager.enemies, box)))
      ensures hits == SpliceHits(old(enemyPlaneManager.enemies), 0, old(EnemyHits(enemyPlaneManager.enemies, box)))
      ensures forall e :: e in hits ==> e.isDead
      ensures forall e :: e in enemyPlaneManager.enemies ==> e in old(enemyPlaneManager.enemies)
      ensures scoreManager.lives == old(scoreManager.lives) - |hits|
      ensures scoreManager.score == old(scoreManager.score) && scoreManager.highScore == old(scoreManager.highScore)
      ensures scoreManager.timeSurvived == old(scoreManager.timeSurvived)
      ensures airplane.isDead == (old(airplane.isDead) || (|hits| > 0 && scoreManager.IsGameOver()))
      ensures bus.events == old(bus.events)
      ensures bus.trace == old(bus.trace) + LifeLossDispatches(bus.events, old(scoreManager.lives), |hits|)
    {
      ghost var s0 := enemyPlaneManager.enemies;
      ghost var hit := EnemyHits(s0, box);
      ghost var lives0, events0, log0 := scoreManager.lives, bus.events, bus.trace;
      var n := |enemyPlaneManager.enemies|;
      var k := 0;
      hits := [];
      ghost var lost := 0;
      while k < n
        invariant Valid()
        invariant |enemyPlaneManager.enemies| <= n
        invariant SpliceSweep(enemyPlaneManager.enemies, k, hit) == SpliceSweep(s0, 0, hit)
        invariant hits + SpliceHits(enemyPlaneManager.enemies, k, hit) == SpliceHits(s0, 0, hit)
        invariant forall e :: e in enemyPlaneManager.enemies ==> e in s0 && (e in hit <==> EnemyHit(e, box))
        invariant forall e :: e in hits ==> e.isDead
        invariant lost == |hits|
        invariant scoreManager.lives == lives0 - lost
        invariant scoreManager.score == old(scoreManager.score) && scoreManager.highScore == old(scoreManager.highScore)
        invariant scoreManager.timeSurvived == old(scoreManager.timeSurvived)
        invariant airplane.isDead == (old(airplane.isDead) || (lost > 0 && scoreManager.IsGameOver()))
        invariant bus.events == events0 && bus.trace == log0 + LifeLossDispatches(events0, lives0, lost)
      {
        var es := enemyPlaneManager.enemies;
        if k < |es| && EnemyHit(es[k], box) {
          SpliceVisitHit(es, k, hit, hits);
          var e;
          e, lost := CrashIntoEnemy(k, lives0, events0, log0, lost);
          hits := hits + [e];
        } else {
          SpliceVisitMiss(es, k, hit);
        }
        k := k + 1;
      }
    }

    /**
     * One step of the pickup sweep: when the airplane overlaps the pickup at index k,
     * collect it, activate its type and announce it. Starting from the active state s0
     * and the log log0, the state and the log then reflect the pickups collected among
     * the first k + 1.
     */
    method VisitPickup(ps: seq<PowerUp>, k: nat, box: Rect, ghost hit: set<PowerUp>,
                       ghost s0: ActiveState, ghost events0: map<string, seq<CallbackId>>, ghost log0: seq<Dispatch>)
      requires powerUpManager.Valid() && powerUpManager.powerUps == ps && k < |ps|
      requires ps[k] in hit <==> PickupHit(ps[k], box)
      requires powerUpManager.Active() == AfterPickups(s0, Filter(ps[..k], hit))
      requires bus.events == events0 && bus.trace == log0 + PickupDispatches(events0, Filter(ps[..k], hit))
      modifies powerUpManager, bus, ps[k]
      ensures powerUpManager.Valid() && powerUpManager.powerUps == ps
      ensures powerUpManager.projectiles == old(powerUpManager.projectiles)
      ensures ps[k].isCollected == (old(ps[k].isCollected) || ps[k] in hit)
      ensures powerUpManager.Active() == AfterPickups(s0, Filter(ps[..k + 1], hit))
      ensures bus.events == events0 && bus.trace == log0 + PickupDispatches(events0, Filter(ps[..k + 1], hit))
    {
      FilterSnoc(ps, k, hit);
      var p := ps[k];
      ghost var head: seq<PowerUp> := [];
      if PickupHit(p, box) {
        p.Collect();
        powerUpManager.ActivatePowerUp(p.kind);
        bus.Emit(POWERUP_COLLECTED, PowerUpData(p.kind));
        head := [p];
      }
      PickupDispatchesAppend(log0, events0, Filter(ps[..k], hit), head);
    }

    /**
     * The pickup sweep with the pickups the airplane overlaps at its start given as
     * `hit`: each pickup is visited once, in order.
     */
    method SweepPickupsOver(ps: seq<PowerUp>, box: Rect, ghost hit: set<PowerUp>) returns (ghost collected: seq<PowerUp>)
      requires powerUpManager.Valid() && powerUpManager.powerUps == ps
      requires forall i :: 0 <= i < |ps| ==> (ps[i] in hit <==> PickupHit(ps[i], box))
      modifies powerUpManager, bus, set p | p in ps
      ensures powerUpManager.Valid() && powerUpManager.powerUps == ps
      ensures powerUpManager.projectiles == old(powerUpManager.projectiles)
      ensures collected == Filter(ps, hit)
      ensures forall i :: 0 <= i < |ps| ==> ps[i].isCollected == (old(ps[i].isCollected) || ps[i] in hit)
      ensures powerUpManager.Active() == AfterPickups(old(powerUpManager.Active()), collected)
      ensures bus.events == old(bus.events)
      ensures bus.trace == old(bus.trace) + PickupDispatches(bus.events, collected)
    {
      ghost var s0 := powerUpManager.Active();
      ghost var events0, log0 := bus.events, bus.trace;
      var k := 0;
      assert ps[..0] == [];
      while k < |ps|
        invariant k <= |ps|
        invariant powerUpManager.Valid() && powerUpManager.powerUps == ps
        invariant powerUpManager.projectiles == old(powerUpManager.projectiles)
        invariant forall i :: 0 <= i < k ==> ps[i].isCollected == (old(ps[i].isCollected) || ps[i] in hit)
        invariant forall i :: k <= i < |ps| ==> (ps[i] in hit <==> PickupHit(ps[i], box))
        invariant forall i :: k <= i < |ps| ==> ps[i].isCollected == old(ps[i].isCollected)
        invariant powerUpManager.Active() == AfterPickups(s0, Filter(ps[..k], hit))
        invariant bus.events == events0 && bus.trace == log0 + PickupDispatches(events0, Filter(ps[..k], hit))
      {
        VisitPickup(ps, k, box, hit, s0, events0, log0);
        k := k + 1;
      }
      assert ps[..k] == ps;
      collected := Filter(ps, hit);
    }

    /**
     * The airplane against the pickups: every uncollected pickup it overlaps is
     * collected, its type is activated and powerup-collected is announced. Nothing is
     * removed, so the last pickup collected decides the active type.
     */
    method SweepPickups(box: Rect) returns (ghost collected: seq<PowerUp>)
      requires powerUpManager.Valid()
      modifies powerUpManager, bus, set p | p in powerUpManager.powerUps
      ensures powerUpManager.Valid()
      ensures powerUpManager.powerUps == old(powerUpManager.powerUps)
      ensures powerUpManager.projectiles == old(powerUpManager.projectiles)
      ensures collected == Filter(old(powerUpManager.powerUps), old(PickupHits(powerUpManager.powerUps, box)))
      ensures forall p :: p in old(powerUpManager.powerUps) ==>
        p.isCollected == (old(p.isCollected) || p in old(PickupHits(powerUpManager.powerUps, box)))
      ensures powerUpManager.Active() == AfterPickups(old(powerUpManager.Active()), collected)
      ensures bus.events == old(bus.events)
      ensures bus.trace == old(bus.trace) + PickupDispatches(bus.events, collected)
    {
      var ps := powerUpManager.powerUps;
      ghost var hit := PickupHits(ps, box);
      collected := SweepPickupsOver(ps, box, hit);
    }

    /** The scene's current standing. */
    ghost function CurrentStanding(): (s: Standing)
      reads this, powerUpManager, scoreManager, bus
      ensures s.score == scoreManager.score && s.highScore == scoreManager.highScore && s.lives == scoreManager.lives
      ensures s.timeSurvived == scoreManager.timeSurvived
    {
      Standing(powerUpManager.Active(), scoreManager.score, scoreManager.highScore, scoreManager.lives,
               scoreManager.timeSurvived, bus.events, bus.trace)
    }

    /** The projectile p's current state. */
    ghost function ShotOf(p: Projectile): (t: ShotState)
      reads this, powerUpManager, p
      ensures t.projectiles == powerUpManager.projectiles && t.holdsShot == (p in powerUpManager.projectiles)
      ensures t.shotDead == p.isDead
    {
      ShotState(powerUpManager.projectiles, p in powerUpManager.projectiles, p.isDead)
    }

    /**
     * What every projectile kill does after removing its target: remove the projectile
     * (nothing happens once it is gone) and add the destroy bonus. After n kills by p
     * from t0, and m kills in all from the standing s0, there are n + 1 and m + 1.
     */
    method CreditKill(p: Projectile, ghost t0: ShotState, ghost n: nat, ghost s0: Standing, ghost m: nat)
      requires Valid() && ShotOf(p) == ShotAfterKills(t0, p, n) && CurrentStanding() == AfterKills(s0, m)
      modifies powerUpManager, scoreManager, bus, p
      ensures Valid()
      ensures powerUpManager.powerUps == old(powerUpManager.powerUps)
      ensures ShotOf(p) == ShotAfterKills(t0, p, n + 1) && CurrentStanding() == AfterKills(s0, m + 1)
    {
      ghost var pre := CurrentStanding();
      powerUpManager.RemoveProjectile(p);
      scoreManager.ObstacleDestroyed();
      AfterKillsStep(s0, m, pre, CurrentStanding());
    }

    /**
     * The obstacle list has only shrunk from os0: what it holds comes from os0, and
     * every obstacle of os0 no longer in it is dead.
     */
    ghost predicate ObstaclesShrunk(os0: seq<Obstacle>)
      reads obstacleManager, set o | o in os0
    {
      && (forall o :: o in obstacleManager.obstacles ==> o in os0)
      && forall o :: o in os0 ==> o in obstacleManager.obstacles || o.isDead
    }

    /**
     * The enemy list has only shrunk from es0: what it holds comes from es0, and every
     * enemy plane of es0 no longer in it is dead.
     */
    ghost predicate EnemiesShrunk(es0: seq<EnemyPlane>)
      reads enemyPlaneManager, set e | e in es0
    {
      && (forall e :: e in enemyPlaneManager.enemies ==> e in es0)
      && forall e :: e in es0 ==> e in enemyPlaneManager.enemies || e.isDead
    }

    /**
     * The body of a projectile's obstacle sweep for a hit at index k: explode and
     * remove the crate, then credit the kill.
     */
    method ShootObstacle(p: Projectile, k: nat, ghost t0: ShotState, ghost n: nat, ghost s0: Standing, ghost m: nat)
      returns (o: Obstacle)
      requires Valid() && k < |obstacleManager.obstacles|
      requires ShotOf(p) == ShotAfterKills(t0, p, n) && CurrentStanding() == AfterKills(s0, m)
      modifies obstacleManager, powerUpManager, scoreManager, bus, p, obstacleManager.obstacles[k]
      ensures Valid()
      ensures o == old(obstacleManager.obstacles[k]) && o.isDead
      ensures obstacleManager.obstacles == old(obstacleManager.obstacles[..k] + obstacleManager.obstacles[k + 1..])
      ensures o !in obstacleManager.obstacles && forall x :: x in obstacleManager.obstacles ==> x in old(obstacleManager.obstacles)
      ensures powerUpManager.powerUps == old(powerUpManager.powerUps)
      ensures ShotOf(p) == ShotAfterKills(t0, p, n + 1) && CurrentStanding() == AfterKills(s0, m + 1)
    {
      o := obstacleManager.obstacles[k];
      RemoveFirstDistinct(obstacleManager.obstacles, k);
      o.Explode();
      obstacleManager.RemoveObstacle(o);
      CreditKill(p, t0, n, s0, m);
    }

    /**
     * Where a walk over the obstacles stands at index k: the list left, walked on from
     * k, ends as the walk over the starting list s0 does, with the kills so far in
     * front of the hits still to come; what is left is from s0 and still hit exactly
     * when it was.
     */
    ghost predicate ObstacleWalk(s0: seq<Obstacle>, hit: set<Obstacle>, box: Rect, k: nat, kills: seq<Obstacle>)
      reads this, obstacleManager, set o | o in obstacleManager.obstacles, set o | o in kills
    {
      && SpliceSweep(obstacleManager.obstacles, k, hit) == SpliceSweep(s0, 0, hit)
      && kills + SpliceHits(obstacleManager.obstacles, k, hit) == SpliceHits(s0, 0, hit)
      && (forall o :: o in obstacleManager.obstacles ==> o in s0 && (o in hit <==> ObstacleHit(o, box)))
      && (forall o :: o in kills ==> o.isDead)
    }

    /**
     * One visit of a projectile's obstacle walk, at index k, with the kills so far by
     * p counted from t0 and all kills so far from the standing s0 and m.
     */
    method ShotVisitObstacle(p: Projectile, box: Rect, k: nat, ghost s0: seq<Obstacle>, ghost hit: set<Obstacle>,
                             ghost kills: seq<Obstacle>, ghost t0: ShotState, ghost base: Standing, ghost c: nat)
      returns (ghost kills': seq<Obstacle>, ghost c': nat)
      requires Valid() && ObstacleWalk(s0, hit, box, k, kills)
      requires ShotOf(p) == ShotAfterKills(t0, p, |kills|) && CurrentStanding() == AfterKills(base, c)
      modifies obstacleManager, powerUpManager, scoreManager, bus, p, set o | o in obstacleManager.obstacles
      ensures Valid() && ObstacleWalk(s0, hit, box, k + 1, kills')
      ensures |obstacleManager.obstacles| <= old(|obstacleManager.obstacles|)
      ensures powerUpManager.powerUps == old(powerUpManager.powerUps)
      ensures ShotOf(p) == ShotAfterKills(t0, p, |kills'|)
      ensures c' == c + (|kills'| - |kills|) && CurrentStanding() == AfterKills(base, c')
    {
      var os := obstacleManager.obstacles;
      if k < |os| && ObstacleHit(os[k], box) {
        kills', c' := ShotHitObstacle(p, box, k, s0, hit, kills, t0, base, c);
      } else {
        SpliceVisitMiss(os, k, hit);
        kills', c' := kills, c;
      }
    }

    /** The hit branch of a visit: the obstacle at k is shot and counted as one more kill. */
    method ShotHitObstacle(p: Projectile, box: Rect, k: nat, ghost s0: seq<Obstacle>, ghost hit: set<Obstacle>,
                           ghost kills: seq<Obstacle>, ghost t0: ShotState, ghost base: Standing, ghost c: nat)
      returns (ghost kills': seq<Obstacle>, ghost c': nat)
      requires Valid() && ObstacleWalk(s0, hit, box, k, kills)
      requires k < |obstacleManager.obstacles| && ObstacleHit(obstacleManager.obstacles[k], box)
      requires ShotOf(p) == ShotAfterKills(t0, p, |kills|) && CurrentStanding() == AfterKills(base, c)
      modifies obstacleManager, powerUpManager, scoreManager, bus, p, obstacleManager.obstacles[k]
      ensures Valid() && ObstacleWalk(s0, hit, box, k + 1, kills')
      ensures |obstacleManager.obstacles| < old(|obstacleManager.obstacles|)
      ensures powerUpManager.powerUps == old(powerUpManager.powerUps)
      ensures |kills'| == |kills| + 1 && ShotOf(p) == ShotAfterKills(t0, p, |kills'|)
      ensures c' == c + 1 && CurrentStanding() == AfterKills(base, c')
    {
      var os := obstacleManager.obstacles;
      SpliceVisitHit(os, k, hit, kills);
      var o := ShootObstacle(p, k, t0, |kills|, base, c);
      c' := c + 1;
      kills' := kills + [o];
    }

    /**
     * One projectile against the obstacles, with its bounds `box` taken before the
     * walk: every live obstacle it overlaps is exploded and removed and earns the
     * destroy bonus, and the projectile is removed at the first hit. The walk does not
     * stop after a hit and skips like the airplane's. With m kills already counted
     * from the standing s0, m + |kills| are.
     */
    method ShotSweepObstacles(p: Projectile, box: Rect, ghost O0: seq<Obstacle>, ghost s0: Standing, ghost m: nat)
      returns (ghost kills: seq<Obstacle>, ghost m': nat)
      requires Valid() && ObstaclesShrunk(O0) && CurrentStanding() == AfterKills(s0, m)
      modifies obstacleManager, powerUpManager, scoreManager, bus, p, set o | o in obstacleManager.obstacles
      ensures Valid()
      ensures obstacleManager.obstacles
        == SpliceSweep(old(obstacleManager.obstacles), 0, old(ObstacleHits(obstacleManager.obstacles, box)))
      ensures kills == SpliceHits(old(obstacleManager.obstacles), 0, old(ObstacleHits(obstacleManager.obstacles, box)))
      ensures forall o :: o in kills ==> o.isDead
      ensures ObstaclesShrunk(O0)
      ensures |old(obstacleManager.obstacles)| == |obstacleManager.obstacles| + |kills|
      ensures powerUpManager.powerUps == old(powerUpManager.powerUps)
      ensures ShotOf(p) == ShotAfterKills(old(ShotOf(p)), p, |kills|)
      ensures m' == m + |kills| && CurrentStanding() == AfterKills(s0, m')
    {
      ghost var os0 := obstacleManager.obstacles;
      ghost var hit := ObstacleHits(os0, box);
      ghost var t0 := ShotOf(p);
      var n := |obstacleManager.obstacles|;
      var k := 0;
      kills, m' := [], m;
      while k < n
        invariant Valid() && ObstacleWalk(os0, hit, box, k, kills)
        invariant |obstacleManager.obstacles| <= n
        invariant powerUpManager.powerUps == old(powerUpManager.powerUps)
        invariant ShotOf(p) == ShotAfterKills(t0, p, |kills|) && CurrentStanding() == AfterKills(s0, m')
        invariant m' == m + |kills|
      {
        kills, m' := ShotVisitObstacle(p, box, k, os0, hit, kills, t0, s0, m');
        k := k + 1;
      }
      SpliceSweepMembers(os0, 0, hit);
    }

    /**
     * The body of a projectile's enemy sweep for a hit at index k: explode and remove
     * the enemy plane, then credit the kill.
     */
    method ShootEnemy(p: Projectile, k: nat, ghost t0: ShotState, ghost n: nat, ghost s0: Standing, ghost m: nat)
      returns (e: EnemyPlane)
      requires Valid() && k < |enemyPlaneManager.enemies|
      requires ShotOf(p) == ShotAfterKills(t0, p, n) && CurrentStanding() == AfterKills(s0, m)
      modifies enemyPlaneManager, powerUpManager, scoreManager, bus, p, enemyPlaneManager.enemies[k]
      ensures Valid()
      ensures e == old(enemyPlaneManager.enemies[k]) && e.isDead
      ensures enemyPlaneManager.enemies == old(enemyPlaneManager.enemies[..k] + enemyPlaneManager.enemies[k + 1..])
      ensures e !in enemyPlaneManager.enemies && forall x :: x in enemyPlaneManager.enemies ==> x in old(enemyPlaneManager.enemies)
      ensures powerUpManager.powerUps == old(powerUpManager.powerUps)
      ensures ShotOf(p) == ShotAfterKills(t0, p, n + 1) && CurrentStanding() == AfterKills(s0, m + 1)
    {
      e := enemyPlaneManager.enemies[k];
      RemoveFirstDistinct(enemyPlaneManager.enemies, k);
      e.Explode();
      enemyPlaneManager.RemoveEnemy(e);
      CreditKill(p, t0, n, s0, m);
    }

    /**
     * Where a walk over the enemy planes stands at index k, as for the obstacles.
     */
    ghost predicate EnemyWalk(s0: seq<EnemyPlane>, hit: set<EnemyPlane>, box: Rect, k: nat, kills: seq<EnemyPlane>)
      reads this, enemyPlaneManager, set e | e in enemyPlaneManager.enemies, set e | e in kills
    {
      && SpliceSweep(enemyPlaneManager.enemies, k, hit) == SpliceSweep(s0, 0, hit)
      && kills + SpliceHits(enemyPlaneManager.enemies, k, hit) == SpliceHits(s0, 0, hit)
      && (forall e :: e in enemyPlaneManager.enemies ==> e in s0 && (e in hit <==> EnemyHit(e, box)))
      && (forall e :: e in kills ==> e.isDead)
    }

    /**
     * One visit of a projectile's enemy walk, at index k, counting kills as for the
     * obstacles.
     */
    method ShotVisitEnemy(p: Projectile, box: Rect, k: nat, ghost s0: seq<EnemyPlane>, ghost hit: set<EnemyPlane>,
                             ghost kills: seq<EnemyPlane>, ghost t0: ShotState, ghost base: Standing, ghost c: nat)
      returns (ghost kills': seq<EnemyPlane>, ghost c': nat)
      requires Valid() && EnemyWalk(s0, hit, box, k, kills)
      requires ShotOf(p) == ShotAfterKills(t0, p, |kills|) && CurrentStanding() == AfterKills(base, c)
      modifies enemyPlaneManager, powerUpManager, scoreManager, bus, p, set e | e in enemyPlaneManager.enemies
      ensures Valid() && EnemyWalk(s0, hit, box, k + 1, kills')
      ensures |enemyPlaneManager.enemies| <= old(|enemyPlaneManager.enemies|)
      ensures powerUpManager.powerUps == old(powerUpManager.powerUps)
      ensures ShotOf(p) == ShotAfterKills(t0, p, |kills'|)
      ensures c' == c + (|kills'| - |kills|) && CurrentStanding() == AfterKills(base, c')
    {
      var es := enemyPlaneManager.enemies;
      if k < |es| && EnemyHit(es[k], box) {
        kills', c' := ShotHitEnemy(p, box, k, s0, hit, kills, t0, base, c);
      } else {
        SpliceVisitMiss(es, k, hit);
        kills', c' := kills, c;
      }
    }

    /** The hit branch of a visit: the enemy plane at k is shot and counted as one more kill. */
    method ShotHitEnemy(p: Projectile, box: Rect, k: nat, ghost s0: seq<EnemyPlane>, ghost hit: set<EnemyPlane>,
                        ghost kills: seq<EnemyPlane>, ghost t0: ShotState, ghost base: Standing, ghost c: nat)
      returns (ghost kills': seq<EnemyPlane>, ghost c': nat)
      requires Valid() && EnemyWalk(s0, hit, box, k, kills)
      requires k < |enemyPlaneManager.enemies| && EnemyHit(enemyPlaneManager.enemies[k], box)
      requires ShotOf(p) == ShotAfterKills(t0, p, |kills|) && CurrentStanding() == AfterKills(base, c)
      modifies enemyPlaneManager, powerUpManager, scoreManager, bus, p, enemyPlaneManager.enemies[k]
      ensures Valid() && EnemyWalk(s0, hit, box, k + 1, kills')
      ensures |enemyPlaneManager.enemies| < old(|enemyPlaneManager.enemies|)
      ensures powerUpManager.powerUps == old(powerUpManager.powerUps)
      ensures |kills'| == |kills| + 1 && ShotOf(p) == ShotAfterKills(t0, p, |kills'|)
      ensures c' == c + 1 && CurrentStanding() == AfterKills(base, c')
    {
      var es := enemyPlaneManager.enemies;
      SpliceVisitHit(es, k, hit, kills);
      var e := ShootEnemy(p, k, t0, |kills|, base, c);
      c' := c + 1;
      kills' := kills + [e];
    }

    /**
     * One projectile against the enemy planes: the same walk as against the obstacles.
     * It runs even when the obstacle walk already removed the projectile.
     */
    method ShotSweepEnemies(p: Projectile, box: Rect, ghost E0: seq<EnemyPlane>, ghost s0: Standing, ghost m: nat)
      returns (ghost kills: seq<EnemyPlane>, ghost m': nat)
      requires Valid() && EnemiesShrunk(E0) && CurrentStanding() == AfterKills(s0, m)
      modifies enemyPlaneManager, powerUpManager, scoreManager, bus, p, set e | e in enemyPlaneManager.enemies
      ensures Valid()
      ensures enemyPlaneManager.enemies
        == SpliceSweep(old(enemyPlaneManager.enemies), 0, old(EnemyHits(enemyPlaneManager.enemies, box)))
      ensures kills == SpliceHits(old(enemyPlaneManager.enemies), 0, old(EnemyHits(enemyPlaneManager.enemies, box)))
      ensures forall e :: e in kills ==> e.isDead
      ensures EnemiesShrunk(E0)
      ensures |old(enemyPlaneManager.enemies)| == |enemyPlaneManager.enemies| + |kills|
      ensures powerUpManager.powerUps == old(powerUpManager.powerUps)
      ensures ShotOf(p) == ShotAfterKills(old(ShotOf(p)), p, |kills|)
      ensures m' == m + |kills| && CurrentStanding() == AfterKills(s0, m')
    {
      ghost var es0 := enemyPlaneManager.enemies;
      ghost var hit := EnemyHits(es0, box);
      ghost var t0 := ShotOf(p);
      var n := |enemyPlaneManager.enemies|;
      var k := 0;
      kills, m' := [], m;
      while k < n
        invariant Valid() && EnemyWalk(es0, hit, box, k, kills)
        invariant |enemyPlaneManager.enemies| <= n
        invariant powerUpManager.powerUps == old(powerUpManager.powerUps)
        invariant ShotOf(p) == ShotAfterKills(t0, p, |kills|) && CurrentStanding() == AfterKills(s0, m')
        invariant m' == m + |kills|
      {
        kills, m' := ShotVisitEnemy(p, box, k, es0, hit, kills, t0, s0, m');
        k := k + 1;
      }
      SpliceSweepMembers(es0, 0, hit);
    }

    /**
     * A live projectile against the obstacles and then the enemy planes, both walks
     * with the projectile's bounds taken before them. It destroys kills1 and then
     * kills2: the target lists keep shrinking from O0 and E0, the projectile is
     * removed and dies once it destroyed anything, and with m kills counted from the
     * standing s0, m plus the new kills are.
     */
    method ShootProjectile(p: Projectile, ghost O0: seq<Obstacle>, ghost E0: seq<EnemyPlane>, ghost s0: Standing,
                           ghost m: nat)
      returns (ghost m': nat)
      requires Valid() && ObstaclesShrunk(O0) && EnemiesShrunk(E0) && CurrentStanding() == AfterKills(s0, m)
      requires (|O0| - |obstacleManager.obstacles|) + (|E0| - |enemyPlaneManager.enemies|) == m
      modifies obstacleManager, enemyPlaneManager, powerUpManager, scoreManager, bus, p
      modifies set o | o in obstacleManager.obstacles, set e | e in enemyPlaneManager.enemies
      ensures Valid() && ObstaclesShrunk(O0) && EnemiesShrunk(E0)
      ensures m' >= m && (|O0| - |obstacleManager.obstacles|) + (|E0| - |enemyPlaneManager.enemies|) == m'
      ensures ShotOf(p) == ShotAfterKills(old(ShotOf(p)), p, m' - m)
      ensures powerUpManager.powerUps == old(powerUpManager.powerUps)
      ensures CurrentStanding() == AfterKills(s0, m')
    {
      var box := ShotBounds(p);
      ghost var t0 := ShotOf(p);
      ghost var n1, n2, m1;
      n1, m1 := ShootObstaclesCounted(p, box, O0, E0, s0, m);
      n2, m' := ShootEnemiesCounted(p, box, O0, E0, s0, m1);
      ShotAfterKillsAdd(t0, p, n1, n2);
    }

    /** The obstacle half of a projectile's shot, as the kill count of the whole projectile walk sees it. */
    method ShootObstaclesCounted(p: Projectile, box: Rect, ghost O0: seq<Obstacle>, ghost E0: seq<EnemyPlane>,
                                 ghost s0: Standing, ghost m: nat)
      returns (ghost n: nat, ghost m': nat)
      requires Valid() && ObstaclesShrunk(O0) && EnemiesShrunk(E0) && CurrentStanding() == AfterKills(s0, m)
      requires (|O0| - |obstacleManager.obstacles|) + (|E0| - |enemyPlaneManager.enemies|) == m
      modifies obstacleManager, powerUpManager, scoreManager, bus, p, set o | o in obstacleManager.obstacles
      ensures Valid() && ObstaclesShrunk(O0) && EnemiesShrunk(E0)
      ensures m' == m + n && (|O0| - |obstacleManager.obstacles|) + (|E0| - |enemyPlaneManager.enemies|) == m'
      ensures ShotOf(p) == ShotAfterKills(old(ShotOf(p)), p, n)
      ensures powerUpManager.powerUps == old(powerUpManager.powerUps)
      ensures CurrentStanding() == AfterKills(s0, m')
    {
      ghost var kills;
      kills, m' := ShotSweepObstacles(p, box, O0, s0, m);
      n := |kills|;
    }

    /** The enemy half of a projectile's shot, counted the same way. */
    method ShootEnemiesCounted(p: Projectile, box: Rect, ghost O0: seq<Obstacle>, ghost E0: seq<EnemyPlane>,
                               ghost s0: Standing, ghost m: nat)
      returns (ghost n: nat, ghost m': nat)
      requires Valid() && ObstaclesShrunk(O0) && EnemiesShrunk(E0) && CurrentStanding() == AfterKills(s0, m)
      requires (|O0| - |obstacleManager.obstacles|) + (|E0| - |enemyPlaneManager.enemies|) == m
      modifies enemyPlaneManager, powerUpManager, scoreManager, bus, p, set e | e in enemyPlaneManager.enemies
      ensures Valid() && ObstaclesShrunk(O0) && EnemiesShrunk(E0)
      ensures m' == m + n && (|O0| - |obstacleManager.obstacles|) + (|E0| - |enemyPlaneManager.enemies|) == m'
      ensures ShotOf(p) == ShotAfterKills(old(ShotOf(p)), p, n)
      ensures powerUpManager.powerUps == old(powerUpManager.powerUps)
      ensures CurrentStanding() == AfterKills(s0, m')
    {
      ghost var kills;
      kills, m' := ShotSweepEnemies(p, box, E0, s0, m);
      n := |kills|;
    }

    /**
     * Where the walk over the projectiles stands at index k of the current list, having
     * started from the list P0 (alive0 the projectiles alive then), the obstacles O0,
     * the enemy planes E0 and the standing s0: the list is the walk so far with the
     * shooters removed, the shooters were alive and are dead, the projectiles not yet
     * visited are as they were, the target lists have only shrunk, and the killed
     * targets they lost all count as kills.
     */
    ghost predicate ProjectileWalk(P0: seq<Projectile>, alive0: set<Projectile>, k: nat, visited: set<Projectile>,
                                   shooters: set<Projectile>, O0: seq<Obstacle>, E0: seq<EnemyPlane>, s0: Standing,
                                   killed: nat)
      reads this, obstacleManager, enemyPlaneManager, powerUpManager, scoreManager, bus
      reads set x | x in P0, set o | o in O0, set e | e in E0
    {
      && WalkSoFar(P0, powerUpManager.projectiles, k, visited, shooters)
      && |powerUpManager.projectiles| <= |P0|
      && (forall x :: x in shooters ==> x in P0 && x in alive0 && x.isDead)
      && (forall x :: x in P0 && x !in visited ==> (x in alive0 <==> !x.isDead))
      && ObstaclesShrunk(O0) && EnemiesShrunk(E0)
      && (|O0| - |obstacleManager.obstacles|) + (|E0| - |enemyPlaneManager.enemies|) == killed
      && CurrentStanding() == AfterKills(s0, killed)
    }

    /**
     * The visit of a live projectile at index k: it shoots, and when it destroyed
     * anything it is removed, which leaves the walk one index further on the shorter
     * list.
     */
    method ShootLive(k: nat, ghost P0: seq<Projectile>, ghost alive0: set<Projectile>, ghost visited: set<Projectile>,
                     ghost shooters: set<Projectile>, ghost O0: seq<Obstacle>, ghost E0: seq<EnemyPlane>,
                     ghost s0: Standing, ghost killed: nat)
      returns (ghost shooters': set<Projectile>, ghost killed': nat)
      requires Valid() && ProjectileWalk(P0, alive0, k, visited, shooters, O0, E0, s0, killed)
      requires k < |powerUpManager.projectiles| && !powerUpManager.projectiles[k].isDead
      modifies obstacleManager, enemyPlaneManager, powerUpManager, scoreManager, bus, powerUpManager.projectiles[k]
      modifies set o | o in obstacleManager.obstacles, set e | e in enemyPlaneManager.enemies
      ensures Valid()
      ensures ProjectileWalk(P0, alive0, k + 1, visited + {old(powerUpManager.projectiles[k])}, shooters', O0, E0, s0,
                             killed')
      ensures powerUpManager.powerUps == old(powerUpManager.powerUps)
    {
      var ps := powerUpManager.projectiles;
      var p := ps[k];
      killed' := ShootProjectile(p, O0, E0, s0, killed);
      if killed' > killed {
        RemoveFirstDistinct(ps, k);
        WalkRemove(P0, ps, k, visited, shooters);
        shooters' := shooters + {p};
      } else {
        WalkKeep(P0, ps, k, visited, shooters);
        shooters' := shooters;
      }
    }

    /**
     * One visit of the walk over the projectiles, at index k: past the end nothing
     * happens, a dead projectile is passed over, a live one shoots.
     */
    method VisitProjectile(k: nat, ghost P0: seq<Projectile>, ghost alive0: set<Projectile>, ghost visited: set<Projectile>,
                           ghost shooters: set<Projectile>, ghost O0: seq<Obstacle>, ghost E0: seq<EnemyPlane>,
                           ghost s0: Standing, ghost killed: nat)
      returns (ghost visited': set<Projectile>, ghost shooters': set<Projectile>, ghost killed': nat)
      requires Valid() && ProjectileWalk(P0, alive0, k, visited, shooters, O0, E0, s0, killed)
      modifies obstacleManager, enemyPlaneManager, powerUpManager, scoreManager, bus
      modifies set x | x in powerUpManager.projectiles, set o | o in obstacleManager.obstacles
      modifies set e | e in enemyPlaneManager.enemies
      ensures Valid() && ProjectileWalk(P0, alive0, k + 1, visited', shooters', O0, E0, s0, killed')
      ensures powerUpManager.powerUps == old(powerUpManager.powerUps)
    {
      var ps := powerUpManager.projectiles;
      visited', shooters', killed' := visited, shooters, killed;
      if k >= |ps| {
        WalkPast(P0, ps, k, visited, shooters);
      } else if ps[k].isDead {
        visited' := visited + {ps[k]};
        WalkKeep(P0, ps, k, visited, shooters);
      } else {
        visited' := visited + {ps[k]};
        shooters', killed' := ShootLive(k, P0, alive0, visited, shooters, O0, E0, s0, killed);
      }
    }

    /**
     * The projectiles against the targets. Each live projectile, in list order, is
     * checked against every obstacle and then every enemy plane; one that destroys
     * anything is removed from the list, which shifts the next projectile into the
     * visited slot, so the walk over the projectiles is a SpliceSweep too and skips
     * it. Every destroyed target counts as a kill.
     */
    method SweepProjectiles() returns (ghost shooters: set<Projectile>, ghost killed: nat)
      requires Valid()
      modifies obstacleManager, enemyPlaneManager, powerUpManager, scoreManager, bus
      modifies set x | x in powerUpManager.projectiles, set o | o in obstacleManager.obstacles
      modifies set e | e in enemyPlaneManager.enemies
      ensures Valid()
      ensures powerUpManager.projectiles == SpliceSweep(old(powerUpManager.projectiles), 0, shooters)
      ensures forall x :: x in shooters ==> x in old(powerUpManager.projectiles) && !old(x.isDead) && x.isDead
      ensures ObstaclesShrunk(old(obstacleManager.obstacles)) && EnemiesShrunk(old(enemyPlaneManager.enemies))
      ensures killed == (old(|obstacleManager.obstacles|) - |obstacleManager.obstacles|)
        + (old(|enemyPlaneManager.enemies|) - |enemyPlaneManager.enemies|)
      ensures CurrentStanding() == AfterKills(old(CurrentStanding()), killed)
      ensures powerUpManager.powerUps == old(powerUpManager.powerUps)
    {
      ghost var P0 := powerUpManager.projectiles;
      ghost var alive0 := set x | x in P0 && !x.isDead;
      ghost var O0, E0, s0 := obstacleManager.obstacles, enemyPlaneManager.enemies, CurrentStanding();
      ghost var visited: set<Projectile> := {};
      shooters, killed := {}, 0;
      WalkStart(P0);
      AfterNoKills(s0);
      var n := |powerUpManager.projectiles|;
      var k := 0;
      while k < n
        invariant Valid() && ProjectileWalk(P0, alive0, k, visited, shooters, O0, E0, s0, killed)
        invariant powerUpManager.powerUps == old(powerUpManager.powerUps)
      {
        visited, shooters, killed := VisitProjectile(k, P0, alive0, visited, shooters, O0, E0, s0, killed);
        k := k + 1;
      }
      WalkEnd(P0, powerUpManager.projectiles, k, visited, shooters);
    }

    /**
     * The airplane's part of checkCollisions, with its box taken once: the obstacles, then
     * the pickups, then the enemy planes. Each crash costs a life; the lists only shrink.
     */
    method SweepAirplane(box: Rect) returns (ghost crashes: nat, ghost collected: seq<PowerUp>, ghost crateCrashes: nat)
      requires Valid()
      modifies airplane, obstacleManager, powerUpManager, scoreManager, enemyPlaneManager, bus
      modifies set o | o in obstacleManager.obstacles, set p | p in powerUpManager.powerUps
      modifies set e | e in enemyPlaneManager.enemies
      ensures Valid()
      ensures scoreManager.lives == old(scoreManager.lives) - crashes
      ensures airplane.isDead == (old(airplane.isDead) || (crashes > 0 && scoreManager.IsGameOver()))
      ensures scoreManager.score == old(scoreManager.score) && scoreManager.highScore == old(scoreManager.highScore)
      ensures scoreManager.timeSurvived == old(scoreManager.timeSurvived)
      ensures powerUpManager.powerUps == old(powerUpManager.powerUps)
      ensures powerUpManager.projectiles == old(powerUpManager.projectiles)
      ensures collected == Filter(old(powerUpManager.powerUps), old(PickupHits(powerUpManager.powerUps, box)))
      ensures powerUpManager.Active() == AfterPickups(old(powerUpManager.Active()), collected)
      ensures forall o :: o in obstacleManager.obstacles ==> o in old(obstacleManager.obstacles)
      ensures forall e :: e in enemyPlaneManager.enemies ==> e in old(enemyPlaneManager.enemies)
      ensures crateCrashes <= crashes && bus.events == old(bus.events)
      ensures bus.trace == old(bus.trace) + LifeLossDispatches(bus.events, old(scoreManager.lives), crateCrashes)
        + PickupDispatches(bus.events, collected)
        + LifeLossDispatches(bus.events, old(scoreManager.lives) - crateCrashes, crashes - crateCrashes)
    {
      var crashed1 := SweepAirplaneObstacles(box);
      ghost var planeCrashes;
      collected, planeCrashes := SweepPickupsThenEnemies(box);
      crashes, crateCrashes := |crashed1| + planeCrashes, |crashed1|;
    }

    /** The second half of SweepAirplane: the pickups, then the enemy planes. */
    method SweepPickupsThenEnemies(box: Rect) returns (ghost collected: seq<PowerUp>, ghost crashes: nat)
      requires Valid()
      modifies airplane, powerUpManager, scoreManager, enemyPlaneManager, bus
      modifies set p | p in powerUpManager.powerUps, set e | e in enemyPlaneManager.enemies
      ensures Valid()
      ensures scoreManager.lives == old(scoreManager.lives) - crashes
      ensures airplane.isDead == (old(airplane.isDead) || (crashes > 0 && scoreManager.IsGameOver()))
      ensures scoreManager.score == old(scoreManager.score) && scoreManager.highScore == old(scoreManager.highScore)
      ensures scoreManager.timeSurvived == old(scoreManager.timeSurvived)
      ensures powerUpManager.powerUps == old(powerUpManager.powerUps)
      ensures powerUpManager.projectiles == old(powerUpManager.projectiles)
      ensures collected == Filter(old(powerUpManager.powerUps), old(PickupHits(powerUpManager.powerUps, box)))
      ensures powerUpManager.Active() == AfterPickups(old(powerUpManager.Active()), collected)
      ensures forall e :: e in enemyPlaneManager.enemies ==> e in old(enemyPlaneManager.enemies)
      ensures bus.events == old(bus.events)
      ensures bus.trace == old(bus.trace) + PickupDispatches(bus.events, collected)
        + LifeLossDispatches(bus.events, old(scoreManager.lives), crashes)
    {
      collected := SweepPickups(box);
      var crashed := SweepAirplaneEnemies(box);
      crashes := |crashed|;
    }

    /**
     * checkCollisions: the airplane's box is taken once; then the airplane is swept
     * against the obstacles, the pickups and the enemy planes, and last the projectiles
     * against the obstacles and the enemy planes. The airplane loses `crashes` lives,
     * collects `collected`, and the projectiles shoot down `killed` targets.
     */
    method CheckCollisions() returns (ghost crashes: nat, ghost collected: seq<PowerUp>, ghost killed: nat)
      requires Valid()
      modifies airplane, obstacleManager, powerUpManager, scoreManager, enemyPlaneManager, bus
      modifies set o | o in obstacleManager.obstacles, set p | p in powerUpManager.powerUps
      modifies set x | x in powerUpManager.projectiles, set e | e in enemyPlaneManager.enemies
      ensures Valid()
      ensures scoreManager.lives == old(scoreManager.lives) - crashes
      ensures airplane.isDead == (old(airplane.isDead) || (crashes > 0 && scoreManager.IsGameOver()))
      ensures scoreManager.score == old(scoreManager.score) + killed * SCORE_PER_OBSTACLE_DESTROYED
      ensures scoreManager.highScore >= old(scoreManager.highScore)
      ensures scoreManager.highScore == old(scoreManager.highScore) || scoreManager.highScore == scoreManager.score
      ensures killed > 0 ==> scoreManager.highScore >= scoreManager.score
      ensures scoreManager.timeSurvived == old(scoreManager.timeSurvived)
      ensures powerUpManager.powerUps == old(powerUpManager.powerUps)
      ensures collected == Filter(old(powerUpManager.powerUps), old(PickupHits(powerUpManager.powerUps, AirplaneBounds(airplane))))
      ensures powerUpManager.Active() == AfterPickups(old(powerUpManager.Active()), collected)
    {
      var box := AirplaneBounds(airplane);
      ghost var crateCrashes;
      crashes, collected, crateCrashes := SweepAirplane(box);
      ghost var s1 := CurrentStanding();
      ghost var shooters;
      shooters, killed := SweepProjectiles();
      AfterKillsFacts(s1, killed);
    }

    /**
     * The first part of update: the airplane moves; the obstacle difficulty level is
     * read; the obstacle manager (given no player height), the power-up manager, the
     * score manager and the enemy manager run, the enemies with the level read before
     * the obstacle update and the airplane's new height. The lists gain only new
     * entities.
     */
    method UpdateEntities(delta: real, draws: FrameDraws, powerDraws: PowerUpDraws, enemyYDraw: real)
      requires Valid() && !airplane.isDead
      requires draws.Valid() && |draws.bounce| >= |obstacleManager.obstacles| + 2
      requires powerDraws.Valid() && IsUniform(enemyYDraw)
      modifies airplane, obstacleManager, powerUpManager, scoreManager, enemyPlaneManager, bus
      modifies set o | o in obstacleManager.obstacles, set p | p in powerUpManager.powerUps
      modifies set x | x in powerUpManager.projectiles, set e | e in enemyPlaneManager.enemies
      ensures Valid() && !airplane.isDead
      ensures airplane.y == Clamp(Step(old(airplane.y), airplane.targetY, FollowDistance(delta), FOLLOW_DEAD_ZONE),
                                  AIRPLANE_MIN_Y, AIRPLANE_MAX_Y)
      ensures airplane.targetY == old(airplane.targetY)
      ensures enemyPlaneManager.currentDifficulty == old(obstacleManager.difficultyLevel)
      ensures scoreManager.timeSurvived == old(scoreManager.timeSurvived) + delta
      ensures scoreManager.score == old(scoreManager.score) + TimeScore(delta)
      ensures scoreManager.lives == old(scoreManager.lives)
      ensures scoreManager.highScore >= old(scoreManager.highScore) && scoreManager.highScore >= scoreManager.score
      ensures forall o :: o in obstacleManager.obstacles ==> o in old(obstacleManager.obstacles) || fresh(o)
      ensures forall p :: p in powerUpManager.powerUps ==> p in old(powerUpManager.powerUps) || fresh(p)
      ensures forall x :: x in powerUpManager.projectiles ==> x in old(powerUpManager.projectiles)
      ensures forall e :: e in enemyPlaneManager.enemies ==> e in old(enemyPlaneManager.enemies) || fresh(e)
    {
      airplane.Update(delta);
      var level := obstacleManager.difficultyLevel;
      UpdateManagers(delta, level, draws, powerDraws, enemyYDraw);
    }

    /**
     * The manager updates of update, in order: obstacles (with no player height), power-ups,
     * score, enemy planes (with the level `level` and the airplane's height). The lists
     * gain only new entities.
     */
    method UpdateManagers(delta: real, level: int, draws: FrameDraws, powerDraws: PowerUpDraws, enemyYDraw: real)
      requires obstacleManager.Valid() && powerUpManager.Valid() && scoreManager.Valid() && enemyPlaneManager.Valid()
      requires scoreManager.bus == bus
      requires draws.Valid() && |draws.bounce| >= |obstacleManager.obstacles| + 2
      requires powerDraws.Valid() && IsUniform(enemyYDraw)
      modifies obstacleManager, powerUpManager, scoreManager, enemyPlaneManager, bus
      modifies set o | o in obstacleManager.obstacles, set p | p in powerUpManager.powerUps
      modifies set x | x in powerUpManager.projectiles, set e | e in enemyPlaneManager.enemies
      ensures obstacleManager.Valid() && powerUpManager.Valid() && scoreManager.Valid() && enemyPlaneManager.Valid()
      ensures obstacleManager.playerY == old(obstacleManager.playerY)
      ensures enemyPlaneManager.currentDifficulty == level
      ensures scoreManager.timeSurvived == old(scoreManager.timeSurvived) + delta
      ensures scoreManager.score == old(scoreManager.score) + TimeScore(delta)
      ensures scoreManager.lives == old(scoreManager.lives)
      ensures scoreManager.highScore >= old(scoreManager.highScore) && scoreManager.highScore >= scoreManager.score
      ensures forall o :: o in obstacleManager.obstacles ==> o in old(obstacleManager.obstacles) || fresh(o)
      ensures forall p :: p in powerUpManager.powerUps ==> p in old(powerUpManager.powerUps) || fresh(p)
      ensures forall x :: x in powerUpManager.projectiles ==> x in old(powerUpManager.projectiles)
      ensures forall e :: e in enemyPlaneManager.enemies ==> e in old(enemyPlaneManager.enemies) || fresh(e)
      ensures bus.events == old(bus.events)
      ensures bus.trace == old(bus.trace) + ScoreDispatches(bus.events, scoreManager.score, old(scoreManager.highScore))
    {
      UpdateObstacles(delta, draws);
      UpdatePowerUps(delta, powerDraws);
      scoreManager.Update(delta);
      UpdateEnemies(delta, level, enemyYDraw);
    }

    /** The obstacle manager's update, with no player height: the list gains only new crates. */
    method UpdateObstacles(delta: real, draws: FrameDraws)
      requires obstacleManager.Valid() && draws.Valid() && |draws.bounce| >= |obstacleManager.obstacles| + 2
      modifies obstacleManager, set o | o in obstacleManager.obstacles
      ensures obstacleManager.Valid() && obstacleManager.playerY == old(obstacleManager.playerY)
      ensures forall o :: o in obstacleManager.obstacles ==> o in old(obstacleManager.obstacles) || fresh(o)
    {
      ghost var os := obstacleManager.obstacles;
      var regular, aimed := obstacleManager.Update(delta, None, draws);
      FilterMembers(os + regular + aimed, ObstacleManagement.Live(os + regular + aimed));
    }

    /** The power-up manager's update: the pickup list gains only new pickups, the projectile list only shrinks. */
    method UpdatePowerUps(delta: real, powerDraws: PowerUpDraws)
      requires powerUpManager.Valid() && powerDraws.Valid()
      modifies powerUpManager, set p | p in powerUpManager.powerUps, set x | x in powerUpManager.projectiles
      ensures powerUpManager.Valid()
      ensures forall p :: p in powerUpManager.powerUps ==> p in old(powerUpManager.powerUps) || fresh(p)
      ensures forall x :: x in powerUpManager.projectiles ==> x in old(powerUpManager.projectiles)
    {
      ghost var ps, xs := powerUpManager.powerUps, powerUpManager.projectiles;
      var spawned := powerUpManager.Update(delta, powerDraws);
      FilterMembers(ps + spawned, LivePickups(ps + spawned));
      FilterMembers(xs, LiveProjectiles(xs));
    }

    /**
     * The enemy manager's update with the difficulty `level` and the airplane's height:
     * the manager takes the level, and the list gains only new enemies.
     */
    method UpdateEnemies(delta: real, level: int, enemyYDraw: real)
      requires enemyPlaneManager.Valid() && IsUniform(enemyYDraw)
      modifies enemyPlaneManager, set e | e in enemyPlaneManager.enemies
      ensures enemyPlaneManager.Valid() && enemyPlaneManager.currentDifficulty == level
      ensures forall e :: e in enemyPlaneManager.enemies ==> e in old(enemyPlaneManager.enemies) || fresh(e)
    {
      ghost var es := enemyPlaneManager.enemies;
      var arrived := enemyPlaneManager.Update(delta, level, airplane.y, enemyYDraw);
      FilterMembers(es + arrived, EnemyPlaneManagement.Live(es + arrived));
    }

    /**
     * The passed-obstacle part of update: one obstaclePass for every obstacle that
     * checkPassedObstacles returns, so each newly passed obstacle is worth
     * SCORE_PER_OBSTACLE_PASSED once.
     */
    method ScorePassedObstacles() returns (passed: seq<Obstacle>)
      requires Valid()
      modifies obstacleManager, scoreManager, bus
      ensures Valid()
      ensures passed == Filter(obstacleManager.obstacles,
                               NewlyPassed(obstacleManager.obstacles, old(obstacleManager.marked), airplane.x))
      ensures obstacleManager.marked
        == old(obstacleManager.marked) + NewlyPassed(obstacleManager.obstacles, old(obstacleManager.marked), airplane.x)
      ensures obstacleManager.obstacles == old(obstacleManager.obstacles)
      ensures scoreManager.score == old(scoreManager.score) + |passed| * SCORE_PER_OBSTACLE_PASSED
      ensures scoreManager.lives == old(scoreManager.lives)
      ensures scoreManager.timeSurvived == old(scoreManager.timeSurvived)
      ensures scoreManager.highScore >= old(scoreManager.highScore)
      ensures passed != [] ==> scoreManager.highScore >= scoreManager.score
      ensures scoreManager.highScore == HighAfterPasses(old(scoreManager.score), old(scoreManager.highScore), |passed|)
      ensures bus.events == old(bus.events)
      ensures bus.trace == old(bus.trace)
        + PassDispatches(bus.events, old(scoreManager.score), old(scoreManager.highScore), |passed|)
    {
      passed := obstacleManager.CheckPassedObstacles(airplane.x);
      AwardPasses(|passed|);
    }

    /** The awards of ScorePassedObstacles: obstaclePass once per passed crate. */
    method AwardPasses(n: nat)
      requires scoreManager.Valid() && scoreManager.bus == bus
      modifies scoreManager, bus
      ensures scoreManager.Valid()
      ensures scoreManager.score == old(scoreManager.score) + n * SCORE_PER_OBSTACLE_PASSED
      ensures scoreManager.lives == old(scoreManager.lives) && scoreManager.timeSurvived == old(scoreManager.timeSurvived)
      ensures scoreManager.highScore == HighAfterPasses(old(scoreManager.score), old(scoreManager.highScore), n)
      ensures bus.events == old(bus.events)
      ensures bus.trace == old(bus.trace) + PassDispatches(bus.events, old(scoreManager.score), old(scoreManager.highScore), n)
    {
      ghost var score0, high0, events0, trace0 := scoreManager.score, scoreManager.highScore, bus.events, bus.trace;
      for i := 0 to n
        invariant scoreManager.Valid()
        invariant scoreManager.score == score0 + i * SCORE_PER_OBSTACLE_PASSED
        invariant scoreManager.lives == old(scoreManager.lives) && scoreManager.timeSurvived == old(scoreManager.timeSurvived)
        invariant scoreManager.highScore == HighAfterPasses(score0, high0, i)
        invariant bus.events == events0 && bus.trace == trace0 + PassDispatches(events0, score0, high0, i)
      {
        scoreManager.ObstaclePass();
      }
    }

    /**
     * The auto-fire part of update: when the power-up manager can fire, one projectile
     * leaves MUZZLE_OFFSET ahead of the airplane at its height.
     */
    method AutoFire() returns (shot: Projectile?)
      requires Valid()
      modifies powerUpManager
      ensures Valid()
      ensures !old(powerUpManager.CanFire()) ==> shot == null && unchanged(powerUpManager)
      ensures old(powerUpManager.CanFire()) ==>
        && shot != null && fresh(shot) && powerUpManager.projectiles == old(powerUpManager.projectiles) + [shot]
        && shot.x == airplane.x + MUZZLE_OFFSET && shot.y == airplane.y
        && shot.kind == old(powerUpManager.currentPowerUp).value
    {
      shot := null;
      if powerUpManager.CanFire() {
        shot := powerUpManager.FireProjectile(airplane.x + MUZZLE_OFFSET, airplane.y);
      }
    }

    /** gameOver: play stops and game-over announces the score, the high score and the whole seconds survived. */
    method GameOver()
      requires Valid()
      modifies this, bus
      ensures Valid() && !isPlaying
      ensures airplane == old(airplane) && distance == old(distance)
      ensures bus.events == old(bus.events)
      ensures bus.trace == old(bus.trace)
        + [Sent(bus.events, GAME_OVER, GameOverData(scoreManager.score, scoreManager.highScore, scoreManager.GetTimeSurvived()))]
    {
      isPlaying := false;
      bus.Emit(GAME_OVER, GameOverData(scoreManager.score, scoreManager.highScore, scoreManager.GetTimeSurvived()));
    }

    /**
     * update: nothing happens while the game is not playing or the airplane is dead.
     * Otherwise the distance grows by METRES_PER_SECOND per second, the entities and
     * managers run, the collisions are checked, passed obstacles score, the power-up
     * fires when it can, and the game is over once no lives are left; game-over is
     * then the last announcement, and the guard keeps later frames from repeating it.
     * Of the frame's score, the time gives TimeScore(delta), each of the `killed`
     * targets the destroy bonus and each of the `passed` obstacles the pass bonus;
     * `crashes` lives are lost.
     */
    method Update(delta: real, draws: FrameDraws, powerDraws: PowerUpDraws, enemyYDraw: real)
      returns (ghost crashes: nat, ghost killed: nat, ghost passed: nat)
      requires Settled()
      requires draws.Valid() && |draws.bounce| >= |obstacleManager.obstacles| + 2
      requires powerDraws.Valid() && IsUniform(enemyYDraw)
      modifies this, airplane, obstacleManager, powerUpManager, scoreManager, enemyPlaneManager, bus
      modifies set o | o in obstacleManager.obstacles, set p | p in powerUpManager.powerUps
      modifies set x | x in powerUpManager.projectiles, set e | e in enemyPlaneManager.enemies
      ensures Settled() && airplane == old(airplane)
      ensures !old(isPlaying) || old(airplane.isDead) ==>
        && unchanged(this, airplane, obstacleManager, powerUpManager, scoreManager, enemyPlaneManager, bus)
        && unchanged(set o | o in obstacleManager.obstacles, set p | p in powerUpManager.powerUps)
        && unchanged(set x | x in powerUpManager.projectiles, set e | e in enemyPlaneManager.enemies)
      ensures old(isPlaying) && !old(airplane.isDead) ==>
        && distance == old(distance) + delta / 1000.0 * METRES_PER_SECOND
        && scoreManager.timeSurvived == old(scoreManager.timeSurvived) + delta
        && scoreManager.lives == old(scoreManager.lives) - crashes
        && scoreManager.score == old(scoreManager.score) + TimeScore(delta)
             + killed * SCORE_PER_OBSTACLE_DESTROYED + passed * SCORE_PER_OBSTACLE_PASSED
        && scoreManager.highScore >= old(scoreManager.highScore)
        && scoreManager.highScore >= scoreManager.score
        && isPlaying == !scoreManager.IsGameOver()
      ensures old(isPlaying) && !isPlaying ==>
        && |bus.trace| > 0
        && bus.trace[|bus.trace| - 1]
           == Sent(bus.events, GAME_OVER, GameOverData(scoreManager.score, scoreManager.highScore, scoreManager.GetTimeSurvived()))
    {
      if !isPlaying || airplane.isDead {
        crashes, killed, passed := 0, 0, 0;
        return;
      }
      distance := distance + delta / 1000.0 * METRES_PER_SECOND;
      UpdateEntities(delta, draws, powerDraws, enemyYDraw);
      ghost var collected;
      crashes, collected, killed := CheckCollisions();
      var passedObstacles := ScorePassedObstacles();
      passed := |passedObstacles|;
      var shot := AutoFire();
      if scoreManager.IsGameOver() {
        GameOver();
      }
    }

    /**
     * The resets of restartGame, in order: obstacles, power-ups, score, enemy planes.
     * The managers are back in their initial state, except that the score manager keeps
     * the high score and the enemy manager keeps its difficulty.
     */
    method ResetManagers()
      requires Valid()
      modifies obstacleManager, powerUpManager, scoreManager, enemyPlaneManager, bus
      modifies set o | o in obstacleManager.obstacles, set p | p in powerUpManager.powerUps
      modifies set x | x in powerUpManager.projectiles, set e | e in enemyPlaneManager.enemies
      ensures obstacleManager.Valid() && obstacleManager.Initial()
      ensures powerUpManager.Valid() && powerUpManager.Initial()
      ensures scoreManager.Valid() && enemyPlaneManager.Valid()
      ensures enemyPlaneManager.enemies == [] && enemyPlaneManager.spawnTimer == 0.0
      ensures enemyPlaneManager.currentDifficulty == old(enemyPlaneManager.currentDifficulty)
      ensures scoreManager.score == 0 && scoreManager.lives == STARTING_LIVES && scoreManager.timeSurvived == 0.0
      ensures scoreManager.highScore == old(scoreManager.highScore) && scoreManager.persisted == old(scoreManager.persisted)
      ensures bus.events == old(bus.events)
      ensures bus.trace == old(bus.trace)
        + [Sent(bus.events, SCORE_UPDATE, ScoreData(0)), Sent(bus.events, LIVES_UPDATE, LivesData(STARTING_LIVES))]
    {
      obstacleManager.Reset();
      powerUpManager.Reset();
      scoreManager.Reset();
      enemyPlaneManager.Reset();
    }

    /**
     * restartGame: every manager is reset, the distance returns to 0, a new airplane
     * stands at the start position, play resumes and game-start is announced. The high
     * score survives the restart.
     */
    method RestartGame()
      requires Valid()
      modifies this, obstacleManager, powerUpManager, scoreManager, enemyPlaneManager, bus
      modifies set o | o in obstacleManager.obstacles, set p | p in powerUpManager.powerUps
      modifies set x | x in powerUpManager.projectiles, set e | e in enemyPlaneManager.enemies
      ensures Settled() && isPlaying && distance == 0.0
      ensures fresh(airplane) && airplane.x == AIRPLANE_START_X && airplane.y == AIRPLANE_START_Y && !airplane.isDead
      ensures obstacleManager.Initial() && powerUpManager.Initial()
      ensures enemyPlaneManager.enemies == [] && enemyPlaneManager.spawnTimer == 0.0
      ensures scoreManager.score == 0 && scoreManager.lives == STARTING_LIVES && scoreManager.timeSurvived == 0.0
      ensures scoreManager.highScore == old(scoreManager.highScore)
      ensures bus.events == old(bus.events)
      ensures bus.trace == old(bus.trace) + [Sent(bus.events, SCORE_UPDATE, ScoreData(0)),
        Sent(bus.events, LIVES_UPDATE, LivesData(STARTING_LIVES)), Sent(bus.events, GAME_START, NoData)]
    {
      ResetManagers();
      distance := 0.0;
      airplane := new Airplane(AIRPLANE_START_X, AIRPLANE_START_Y);
      isPlaying := true;
      bus.Emit(GAME_START, NoData);
    }

    /**
     * The pointermove and pointerdown handlers: while the game is playing and the
     * airplane is alive, the cursor's height becomes the airplane's target; otherwise
     * nothing changes.
     */
    method PointerInput(pointerY: real)
      requires Settled()
      modifies airplane
      ensures Settled()
      ensures isPlaying && !airplane.isDead ==> airplane.targetY == pointerY
      ensures !(isPlaying && !airplane.isDead) ==> unchanged(airplane)
      ensures airplane.y == old(airplane.y) && airplane.isDead == old(airplane.isDead)
    {
      if isPlaying && !airplane.isDead {
        airplane.SetTargetY(pointerY);
      }
    }
  }
}
