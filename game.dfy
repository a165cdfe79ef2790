/** GameManager: the level and score counters, kept in the player-preferences store, and the
    set-up of each level. */
module Game {
  import opened Wrappers
  import opened Vectors
  import opened Trajectory
  import opened Flight
  import opened Hole

  const LevelKey: string := "PLAYERPREFS_LEVEL"
  const ScoreKey: string := "PLAYERPREFS_SCORE"
  const BestScoreKey: string := "PLAYERPREFS_SCORE_BEST"

  /** PlayerPrefs.GetInt(key, defaultValue): the stored value, or the default when the key is
      absent. */
  function GetInt(prefs: map<string, int>, key: string, defaultValue: int): int {
    if key in prefs then prefs[key] else defaultValue
  }

  /** Mathf.Max on two integers. */
  function Max(a: int, b: int): (m: int)
    ensures a <= m && b <= m
    ensures m == a || m == b
  {
    if a < b then b else a
  }

  /** The oscillation period InitLevel hands to the preview: two seconds at level 1, a
      twentieth of a second shorter per level, and never below three quarters of a second. */
  function OscillationPeriod(level: int): (p: real)
    ensures 1 <= level ==> 0.75 <= p <= 2.0
    ensures level <= 26 ==> p == 2.0 - (level - 1) as real * 0.05
    ensures 26 <= level ==> p == 0.75
  {
    var shortening := (level - 1) as real * 0.05;
    2.0 - (if shortening < 1.25 then shortening else 1.25)
  }

  /** Later levels never oscillate more slowly. */
  lemma {:induction false} PeriodNonIncreasing(level: int, later: int)
    requires level <= later
    ensures OscillationPeriod(later) <= OscillationPeriod(level)
  {
    if later <= 26 {
      assert (level - 1) as real * 0.05 <= (later - 1) as real * 0.05;
    }
  }

  /** A call of a level-result callback: onLevelSuccess(score) or onLevelFail(score, best). */
  datatype LevelResult = Success(callback: nat, score: int) | Fail(callback: nat, score: int, best: int)

  class GameManager {
    const hole: HoleBody
    const ball: TrajectoryBody
    const ballTrajectory: BodyTrajectory
    /** The PlayerPrefs store, as far as the game uses it. */
    var prefs: map<string, int>
    var score: int
    var level: int
    /** onLevelSuccess and onLevelFail, identified by a number; None for null. */
    var onLevelSuccess: Option<nat>
    var onLevelFail: Option<nat>
    /** Every level-result callback invoked so far, in order. */
    var results: seq<LevelResult>
    /** Every onEnd action of a level-result check invoked so far, in order. */
    var ended: seq<nat>
    /** The period the last InitLevel started the preview's angle oscillation with. */
    var period: real

    /** Awake: level and score come from the store, 1 and 0 when they were never stored. */
    constructor(hole: HoleBody, ball: TrajectoryBody, ballTrajectory: BodyTrajectory, prefs: map<string, int>)
      ensures this.hole == hole && this.ball == ball && this.ballTrajectory == ballTrajectory
      ensures this.prefs == prefs
      ensures LevelKey in prefs ==> level == prefs[LevelKey]
      ensures LevelKey !in prefs ==> level == 1
      ensures ScoreKey in prefs ==> score == prefs[ScoreKey]
      ensures ScoreKey !in prefs ==> score == 0
      ensures onLevelSuccess == None && onLevelFail == None && results == [] && ended == []
    {
      this.hole := hole;
      this.ball := ball;
      this.ballTrajectory := ballTrajectory;
      this.prefs := prefs;
      score := 0;
      level := 1;
      onLevelSuccess := None;
      onLevelFail := None;
      results := [];
      ended := [];
      period := 0.0;
      new;
      level := GetInt(prefs, LevelKey, level);
      score := GetInt(prefs, ScoreKey, score);
    }

    /** The stored best score is at least the current score. */
    ghost predicate BestCoversScore()
      reads this
    {
      score <= GetInt(prefs, BestScoreKey, 0)
    }

    method SetLevelResultCallbacks(onSuccess: Option<nat>, onFail: Option<nat>)
      modifies this
      ensures onLevelSuccess == onSuccess && onLevelFail == onFail
      ensures prefs == old(prefs) && score == old(score) && level == old(level)
      ensures results == old(results) && ended == old(ended) && period == old(period)
    {
      onLevelSuccess := onSuccess;
      onLevelFail := onFail;
    }

    /** The action StartLevelResultCheckRoutine runs once its delay is over. A ball inside the
        hole scores: the score goes up by one and is stored, the stored best becomes the larger
        of itself and the new score, and onLevelSuccess hears the new score. Otherwise nothing
        is stored and onLevelFail hears the score and the stored best. onEnd runs after either. */
    method CheckLevelResult(onEnd: Option<nat>) returns (hit: bool)
      modifies this
      ensures hit <==> hole.ContainsBody(ball)
      ensures hit ==> && score == old(score) + 1
                      && prefs == old(prefs)[ScoreKey := score][BestScoreKey := Max(GetInt(old(prefs), BestScoreKey, 0), score)]
                      && BestCoversScore()
                      && results == old(results) + (if onLevelSuccess.Some? then [Success(onLevelSuccess.value, score)] else [])
      ensures !hit ==> && score == old(score) && prefs == old(prefs)
                       && results == old(results) + (if onLevelFail.Some? then [Fail(onLevelFail.value, score, GetInt(prefs, BestScoreKey, 0))] else [])
      ensures ended == old(ended) + Invocation(onEnd)
      ensures level == old(level) && period == old(period)
      ensures onLevelSuccess == old(onLevelSuccess) && onLevelFail == old(onLevelFail)
      ensures old(BestCoversScore()) ==> BestCoversScore()
    {
      hit := hole.ContainsBody(ball);
      if hit {
        score := score + 1;
        prefs := prefs[ScoreKey := score];
        prefs := prefs[BestScoreKey := Max(GetInt(prefs, BestScoreKey, 0), score)];
        if onLevelSuccess.Some? {
          results := results + [Success(onLevelSuccess.value, score)];
        }
      } else {
        if onLevelFail.Some? {
          results := results + [Fail(onLevelFail.value, score, GetInt(prefs, BestScoreKey, 0))];
        }
      }
      if onEnd.Some? {
        ended := ended + [onEnd.value];
      }
    }

    /** The hole and the ball are distinct objects of the scene. */
    predicate Separate()
      reads this
    {
      hole.transform != ball.transform
    }

    /** What setting up a level does to the scene between two states. The hole keeps its y and
        moves as SetRandomPosition moves it: by the offset when that stays inside its band,
        otherwise to the reflection about its initial x. The ball is back at its launch position,
        which is unchanged, at rest under physics. The ball's flight state (launch velocity,
        routine handle, live coroutine, onEnd and log) is unchanged. */
    twostate predicate LevelSetUp(signDraw: int, magnitudeDraw: real)
      requires signDraw == 0 || signDraw == 1
      reads hole.transform, ball, ball.transform
    {
      var x, d := old(hole.transform.position.x), DeltaX(signDraw, magnitudeDraw);
      && hole.transform.position.y == old(hole.transform.position.y)
      && (InBand(x + d, hole.initialPosition.x, hole.MaxDeltaX()) ==> hole.transform.position.x == x + d)
      && (!InBand(x + d, hole.initialPosition.x, hole.MaxDeltaX()) ==> hole.transform.position.x == hole.initialPosition.x - d)
      && (0.0 <= hole.MaxDeltaX() ==> InBand(hole.transform.position.x, hole.initialPosition.x, hole.MaxDeltaX()))
      && ball.simulated && ball.velocity == Zero && ball.transform.position == ball.initialPosition
      && ball.initialPosition == old(ball.initialPosition) && ball.initialVelocity == old(ball.initialVelocity)
      && ball.updatePositionRoutine == old(ball.updatePositionRoutine) && ball.routineAlive == old(ball.routineAlive)
      && ball.onEnd == old(ball.onEnd) && ball.invoked == old(ball.invoked)
    }

    /** InitLevel: the hole moves to a new random place in its band, the ball returns to its
        launch position at rest, and the preview's angle starts oscillating with the level's
        period. */
    method InitLevel(signDraw: int, magnitudeDraw: real)
      requires Separate()
      requires signDraw == 0 || signDraw == 1
      requires Between(hole.MaxDeltaX() * 0.25, hole.MaxDeltaX(), magnitudeDraw)
      modifies this, hole.transform, ball, ball.transform
      ensures period == OscillationPeriod(level)
      ensures LevelSetUp(signDraw, magnitudeDraw)
      ensures prefs == old(prefs) && score == old(score) && level == old(level)
      ensures results == old(results) && ended == old(ended)
      ensures onLevelSuccess == old(onLevelSuccess) && onLevelFail == old(onLevelFail)
    {
      hole.SetRandomPosition(signDraw, magnitudeDraw);
      ball.ResetBody();
      period := OscillationPeriod(level);
    }

    /** ResetGame: back to level 1 with no score, both stored, then a new level. */
    method ResetGame(signDraw: int, magnitudeDraw: real)
      requires Separate()
      requires signDraw == 0 || signDraw == 1
      requires Between(hole.MaxDeltaX() * 0.25, hole.MaxDeltaX(), magnitudeDraw)
      modifies this, hole.transform, ball, ball.transform
      ensures level == 1 && score == 0
      ensures prefs == old(prefs)[LevelKey := 1][ScoreKey := 0]
      ensures period == 2.0
      ensures results == old(results) && ended == old(ended)
      ensures onLevelSuccess == old(onLevelSuccess) && onLevelFail == old(onLevelFail)
      ensures LevelSetUp(signDraw, magnitudeDraw)
      ensures 0 <= GetInt(prefs, BestScoreKey, 0) ==> BestCoversScore()
    {
      level := 1;
      prefs := prefs[LevelKey := level];
      score := 0;
      prefs := prefs[ScoreKey := score];
      InitLevel(signDraw, magnitudeDraw);
    }

    /** StartNextLevel: one level up, stored, then a new level; the score carries over. */
    method StartNextLevel(signDraw: int, magnitudeDraw: real)
      requires Separate()
      requires signDraw == 0 || signDraw == 1
      requires Between(hole.MaxDeltaX() * 0.25, hole.MaxDeltaX(), magnitudeDraw)
      modifies this, hole.transform, ball, ball.transform
      ensures level == old(level) + 1 && score == old(score)
      ensures prefs == old(prefs)[LevelKey := level]
      ensures period == OscillationPeriod(level) && period <= old(OscillationPeriod(level))
      ensures results == old(results) && ended == old(ended)
      ensures onLevelSuccess == old(onLevelSuccess) && onLevelFail == old(onLevelFail)
      ensures LevelSetUp(signDraw, magnitudeDraw)
      ensures old(BestCoversScore()) ==> BestCoversScore()
    {
      level := level + 1;
      prefs := prefs[LevelKey := level];
      InitLevel(signDraw, magnitudeDraw);
      PeriodNonIncreasing(level - 1, level);
    }
  }
}
