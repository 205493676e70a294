/**
 * Score, lives, high score and time survived. Every score change is announced on the
 * bus; a new high score is also written to storage (the `persisted` log) and announced.
 */
module Score {

  import opened Constants
  import opened EventBus

  /**
   * The time score of one frame: SCORE_PER_SECOND points per second of `delta`
   * milliseconds, rounded down when it is added. A frame shorter than 100 ms
   * therefore earns nothing.
   */
  function TimeScore(delta: real): (points: int)
    ensures points as real <= delta * (SCORE_PER_SECOND as real) / 1000.0 < points as real + 1.0
    ensures 0.0 <= delta < 100.0 ==> points == 0
    ensures delta >= 0.0 ==> points >= 0
  {
    (delta / 1000.0 * SCORE_PER_SECOND as real).Floor
  }

  /**
   * What one addScore call emits, given the registrations, the new score and the high
   * score before it: the score, then, on a new high score, the high score.
   */
  function ScoreDispatches(events: map<string, seq<CallbackId>>, score: int, oldHigh: int): (ds: seq<Dispatch>)
    ensures |ds| == (if score > oldHigh then 2 else 1)
    ensures ds[0] == Sent(events, SCORE_UPDATE, ScoreData(score))
    ensures score > oldHigh ==> ds[1] == Sent(events, HIGH_SCORE_UPDATE, HighScoreData(score))
  {
    if score > oldHigh then [Sent(events, SCORE_UPDATE, ScoreData(score)), Sent(events, HIGH_SCORE_UPDATE, HighScoreData(score))]
    else [Sent(events, SCORE_UPDATE, ScoreData(score))]
  }

  class ScoreManager {
    var score: int
    var lives: int
    var highScore: int
    /** Milliseconds survived in this round. */
    var timeSurvived: real
    /** Every high score written to storage, in order. */
    var persisted: seq<int>
    const bus: Bus

    /** Storage holds the last high score written, and lives never exceed the start value. */
    ghost predicate Valid()
      reads this
    {
      (persisted != [] ==> persisted[|persisted| - 1] == highScore) &&
      lives <= STARTING_LIVES
    }

    /** The high score starts from the value read from storage. */
    constructor (storedHighScore: int, bus: Bus)
      ensures Valid()
      ensures score == 0 && lives == STARTING_LIVES && timeSurvived == 0.0
      ensures highScore == storedHighScore && persisted == []
      ensures this.bus == bus
    {
      score := 0;
      lives := STARTING_LIVES;
      highScore := storedHighScore;
      timeSurvived := 0.0;
      persisted := [];
      this.bus := bus;
    }

    /**
     * addScore: add the points rounded down, announce the score; when the score beats
     * the high score, the high score becomes the score, is stored and is announced.
     */
    method AddScore(points: real)
      requires Valid()
      modifies this, bus
      ensures Valid()
      ensures score == old(score) + points.Floor
      ensures highScore == if score > old(highScore) then score else old(highScore)
      ensures highScore >= score && highScore >= old(highScore)
      ensures persisted == old(persisted) + (if score > old(highScore) then [score] else [])
      ensures lives == old(lives) && timeSurvived == old(timeSurvived)
      ensures bus.events == old(bus.events)
      ensures bus.trace == old(bus.trace) + ScoreDispatches(bus.events, score, old(highScore))
    {
      score := score + points.Floor;
      bus.Emit(SCORE_UPDATE, ScoreData(score));
      if score > highScore {
        highScore := score;
        persisted := persisted + [highScore];
        bus.Emit(HIGH_SCORE_UPDATE, HighScoreData(highScore));
        assert bus.trace == old(bus.trace) + ScoreDispatches(bus.events, score, old(highScore));
      }
    }

    /** update: accumulate the frame time and add its time score. */
    method Update(delta: real)
      requires Valid()
      modifies this, bus
      ensures Valid()
      ensures timeSurvived == old(timeSurvived) + delta
      ensures score == old(score) + TimeScore(delta)
      ensures highScore == if score > old(highScore) then score else old(highScore)
      ensures persisted == old(persisted) + (if score > old(highScore) then [score] else [])
      ensures lives == old(lives)
      ensures bus.events == old(bus.events)
      ensures bus.trace == old(bus.trace) + ScoreDispatches(bus.events, score, old(highScore))
    {
      timeSurvived := timeSurvived + delta;
      var timeScore := delta / 1000.0 * SCORE_PER_SECOND as real;
      AddScore(timeScore);
    }

    /** obstaclePass: an obstacle got past the airplane. */
    method ObstaclePass()
      requires Valid()
      modifies this, bus
      ensures Valid()
      ensures score == old(score) + SCORE_PER_OBSTACLE_PASSED
      ensures highScore == if score > old(highScore) then score else old(highScore)
      ensures persisted == old(persisted) + (if score > old(highScore) then [score] else [])
      ensures lives == old(lives) && timeSurvived == old(timeSurvived)
      ensures bus.events == old(bus.events)
      ensures bus.trace == old(bus.trace) + ScoreDispatches(bus.events, score, old(highScore))
    {
      AddScore(SCORE_PER_OBSTACLE_PASSED as real);
    }

    /** obstacleDestroyed: a projectile destroyed an obstacle or an enemy plane. */
    method ObstacleDestroyed()
      requires Valid()
      modifies this, bus
      ensures Valid()
      ensures score == old(score) + SCORE_PER_OBSTACLE_DESTROYED
      ensures highScore == if score > old(highScore) then score else old(highScore)
      ensures persisted == old(persisted) + (if score > old(highScore) then [score] else [])
      ensures lives == old(lives) && timeSurvived == old(timeSurvived)
      ensures bus.events == old(bus.events)
      ensures bus.trace == old(bus.trace) + ScoreDispatches(bus.events, score, old(highScore))
        + [Sent(bus.events, OBSTACLE_DESTROYED, NoData)]
    {
      AddScore(SCORE_PER_OBSTACLE_DESTROYED as real);
      bus.Emit(OBSTACLE_DESTROYED, NoData);
    }

    /** loseLife: one life less, announced; lives may go below zero. */
    method LoseLife()
      requires Valid()
      modifies this, bus
      ensures Valid()
      ensures lives == old(lives) - 1
      ensures score == old(score) && highScore == old(highScore) && persisted == old(persisted)
      ensures timeSurvived == old(timeSurvived)
      ensures bus.events == old(bus.events)
      ensures bus.trace == old(bus.trace) + [Sent(bus.events, LIVES_UPDATE, LivesData(lives))]
    {
      lives := lives - 1;
      bus.Emit(LIVES_UPDATE, LivesData(lives));
    }

    /** getTimeSurvived: whole seconds survived. */
    function GetTimeSurvived(): (seconds: int)
      reads this
      ensures seconds as real * 1000.0 <= timeSurvived < (seconds + 1) as real * 1000.0
    {
      (timeSurvived / 1000.0).Floor
    }

    /** isGameOver: no lives left. */
    predicate IsGameOver()
      reads this
    {
      lives <= 0
    }

    /** reset: a new round; the high score and the storage are kept. */
    method Reset()
      requires Valid()
      modifies this, bus
      ensures Valid()
      ensures score == 0 && lives == STARTING_LIVES && timeSurvived == 0.0
      ensures highScore == old(highScore) && persisted == old(persisted)
      ensures !IsGameOver()
      ensures bus.events == old(bus.events)
      ensures bus.trace == old(bus.trace)
        + [Sent(bus.events, SCORE_UPDATE, ScoreData(0)), Sent(bus.events, LIVES_UPDATE, LivesData(STARTING_LIVES))]
    {
      score := 0;
      lives := STARTING_LIVES;
      timeSurvived := 0.0;
      bus.Emit(SCORE_UPDATE, ScoreData(score));
      bus.Emit(LIVES_UPDATE, LivesData(lives));
    }
  }

  /**
   * A fresh manager is not over; after two lost lives it still is not; after the
   * third it is.
   */
  method ThreeLivesEndTheGame(storedHighScore: int) returns (overAtStart: bool, overAfterTwo: bool, overAfterThree: bool)
    ensures !overAtStart && !overAfterTwo && overAfterThree
  {
    var bus := new Bus();
    var sm := new ScoreManager(storedHighScore, bus);
    overAtStart := sm.IsGameOver();
    sm.LoseLife();
    sm.LoseLife();
    overAfterTwo := sm.IsGameOver();
    sm.LoseLife();
    overAfterThree := sm.IsGameOver();
  }

  /**
   * Adding 5000 points to a fresh manager gives a score of 5000, and when the stored
   * high score was lower the high score follows the score and is written to storage.
   */
  method AddScoreRaisesHighScore(storedHighScore: int) returns (score: int, highScore: int, stored: seq<int>)
    ensures score == 5000
    ensures storedHighScore < 5000 ==> highScore == score && stored == [5000]
    ensures storedHighScore >= 5000 ==> highScore == storedHighScore && stored == []
  {
    var bus := new Bus();
    var sm := new ScoreManager(storedHighScore, bus);
    sm.AddScore(5000.0);
    score, highScore, stored := sm.score, sm.highScore, sm.persisted;
  }

  /** Frames of 16 ms, as at 60 frames per second, never add time score. */
  method ShortFramesEarnNothing(frames: nat) returns (score: int, survived: real)
    ensures score == 0
    ensures survived == frames as real * 16.0
  {
    var bus := new Bus();
    var sm := new ScoreManager(0, bus);
    for i := 0 to frames
      invariant sm.Valid() && sm.score == 0 && sm.highScore == 0
      invariant sm.timeSurvived == i as real * 16.0
    {
      sm.Update(16.0);
    }
    score, survived := sm.score, sm.timeSurvived;
  }
  /**
   * With one listener on score-update and one on high-score-update, adding 5000
   * points runs the first with the new score, and the second, with the same value,
   * only when that beats the stored high score.
   */
  method ScoreListenersScenario(storedHighScore: int) returns (ran: seq<Dispatch>)
    ensures storedHighScore >= 5000 ==> ran == [Dispatch(SCORE_UPDATE, ScoreData(5000), [1])]
    ensures storedHighScore < 5000 ==>
      ran == [Dispatch(SCORE_UPDATE, ScoreData(5000), [1]), Dispatch(HIGH_SCORE_UPDATE, HighScoreData(5000), [2])]
  {
    var bus := new Bus();
    bus.On(SCORE_UPDATE, 1);
    bus.On(HIGH_SCORE_UPDATE, 2);
    assert Registered(bus.events, SCORE_UPDATE) == [1] && Registered(bus.events, HIGH_SCORE_UPDATE) == [2] by {
      assert SCORE_UPDATE != HIGH_SCORE_UPDATE by { assert SCORE_UPDATE[0] != HIGH_SCORE_UPDATE[0]; }
    }
    var sm := new ScoreManager(storedHighScore, bus);
    sm.AddScore(5000.0);
    ran := bus.trace;
  }
}
