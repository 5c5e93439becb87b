/**
 * The engine and the session wired together the way the app wires them:
 * the engine's score events go to UpdateScore and its ball-lost report to
 * OnBallLost, and the session's running flag decides how the next engine
 * instance is built.
 */
module Scenario {
  import opened Constants
  import opened Common
  import opened Table
  import opened Engine
  import opened GameSession

  /** Feeds one batch of collisions through a running engine into the session. */
  method ScoreBatch(engine: PinballEngine, session: GameState, pairs: seq<Pair>) returns (next: GameState)
    ensures next == session.(score := session.score + session.multiplier * Sum(Emissions(pairs)))
  {
    var scores := engine.OnCollisions(pairs);
    AddPointsTotal(session, scores);
    next := AddPoints(session, scores);
  }

  /** The ball hits two bumpers and then a target, one contact per physics step: 700 points. */
  method BumpersThenTarget(engine: PinballEngine, session: GameState) returns (next: GameState)
    requires session.multiplier == 1
    ensures next == session.(score := session.score + 700)
  {
    var ball := BallBody();
    var first := Pair(ball, BumperBody(Vec(165, 200)));
    var second := Pair(BumperBody(Vec(285, 200)), ball);
    var third := Pair(ball, StaticBody(Target, Rect(30, 10), Vec(40, 400), 0.25));
    HitPoints(first);
    HitPoints(second);
    HitPoints(third);
    next := ScoreBatch(engine, session, [first]);
    next := ScoreBatch(engine, next, [second]);
    next := ScoreBatch(engine, next, [third]);
  }

  /** The points one contact scores on its own. */
  lemma HitPoints(p: Pair)
    ensures Sum(Emissions([p])) ==
      (if HasRole(p, Bumper) then BUMPER_POINTS else 0) + (if HasRole(p, Target) then TARGET_POINTS else 0)
  {
    EmissionsOne(p);
    PairPoints(p);
  }

  /**
   * A fresh round: the ball hits two bumpers and then a target, and then
   * falls into the drain. The score is 700, one ball is gone, the loss was
   * reported once, the round goes on, and the tick after the drain reports
   * no further loss.
   */
  method FirstBallDrains(storedHighScore: int) returns (session: GameState, losses: nat, lostAfter: bool)
    ensures session.score == 700 && session.balls == 2 && session.isPlaying && !session.isGameOver
    ensures session.highScore == storedHighScore
    ensures losses == 1
    ensures !lostAfter
  {
    session := StartGame(Initial(storedHighScore));
    var engine := new PinballEngine(session.isPlaying);
    session := BumpersThenTarget(engine, session);

    losses := 0;
    engine.Integrate(BallPos(200.0, 851.0), 0.3, -0.2);
    var lost := engine.Tick();
    if lost {
      session := OnBallLost(session);
      losses := losses + 1;
    }
    // The slot is empty now: the next step reports nothing more.
    lostAfter := engine.Tick();
  }

  /**
   * The last ball drains: the session ends with the score of that moment as
   * a candidate high score, and the engine rebuilt for the stopped session
   * has no ball and ignores every key.
   */
  method LastBallDrains(session: GameState, key: Key) returns (over: GameState, fx: KeyEffect, lost: bool)
    requires session.balls == 1 && session.isPlaying
    ensures over.isGameOver && !over.isPlaying && over.balls == 0
    ensures over.score == session.score && over.highScore == Max(session.highScore, session.score)
    ensures fx == NoEffect && !lost
  {
    over := OnBallLost(session);
    var engine := new PinballEngine(over.isPlaying);
    fx := engine.KeyDown(key);
    lost := engine.Tick();
  }
}
