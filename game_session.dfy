/**
 * The game-session controller: the record of score, balls left, score
 * multiplier, round flags and high score, and the four updates that are the
 * only way it changes. Each update is a pure record-to-record function; the
 * callbacks the engine fires (score, ball lost) are events applied in order.
 */
module GameSession {
  import opened Constants
  import opened Common

  /** Balls granted at the start of each round. */
  const START_BALLS: int := 3

  datatype GameState = GameState(
    score: int,
    balls: int,
    multiplier: int,
    isGameOver: bool,
    isPlaying: bool,
    highScore: int)

  /**
   * What every reachable state satisfies: the ball count stays in 0..3, the
   * multiplier is never changed from 1, the score (fed only non-negative
   * points) never goes below zero, a round is never both running and over,
   * and a running round has a ball left.
   */
  predicate Inv(s: GameState) {
    0 <= s.balls <= START_BALLS &&
    s.multiplier == 1 &&
    s.score >= 0 &&
    !(s.isPlaying && s.isGameOver) &&
    (s.isPlaying ==> s.balls >= 1)
  }

  /** The state at start-up; the stored high score is an input (it is read from storage). */
  function Initial(storedHighScore: int): (s: GameState)
    ensures s.score == 0 && s.balls == START_BALLS && s.multiplier == 1
    ensures !s.isGameOver && !s.isPlaying
    ensures s.highScore == storedHighScore
    ensures Inv(s)
  {
    GameState(0, START_BALLS, 1, false, false, storedHighScore)
  }

  /** Begins a round: everything but the high score is reset. */
  function StartGame(s: GameState): (r: GameState)
    ensures r.score == 0 && r.balls == START_BALLS && r.multiplier == 1
    ensures !r.isGameOver && r.isPlaying
    ensures r.highScore == s.highScore
    ensures Inv(r)
  {
    s.(score := 0, balls := START_BALLS, multiplier := 1, isGameOver := false, isPlaying := true)
  }

  /** Ends a round with the given final score; the high score keeps the larger of the two. */
  function HandleGameOver(s: GameState, finalScore: int): (r: GameState)
    ensures r.highScore >= s.highScore && r.highScore >= finalScore
    ensures r.highScore == s.highScore || r.highScore == finalScore
    ensures !r.isPlaying && r.isGameOver
    ensures r.score == s.score && r.balls == s.balls && r.multiplier == s.multiplier
    ensures Inv(s) ==> Inv(r)
  {
    s.(isPlaying := false, isGameOver := true, highScore := Max(s.highScore, finalScore))
  }

  /** Adds the engine's points, scaled by the current multiplier. */
  function UpdateScore(s: GameState, points: int): (r: GameState)
    ensures r.score - s.score == points * s.multiplier
    ensures r.balls == s.balls && r.multiplier == s.multiplier && r.highScore == s.highScore
    ensures r.isGameOver == s.isGameOver && r.isPlaying == s.isPlaying
    ensures Inv(s) && points >= 0 ==> Inv(r)
  {
    s.(score := s.score + points * s.multiplier)
  }

  /**
   * The update made when a ball is lost, together with the game-over request
   * that update issues: on the last ball (or none) it asks for game over with
   * the score at that moment.
   */
  datatype LossOutcome = LossOutcome(state: GameState, gameOver: Option<int>)

  function LoseBall(s: GameState): (r: LossOutcome)
    ensures s.balls > 1 ==> r.state.balls == s.balls - 1 && r.gameOver == None
    ensures s.balls <= 1 ==> r.state.balls == 0 && r.gameOver == Some(s.score)
    ensures r.state.score == s.score && r.state.multiplier == s.multiplier
    ensures r.state.highScore == s.highScore
    ensures r.state.isGameOver == s.isGameOver && r.state.isPlaying == s.isPlaying
  {
    if s.balls <= 1 then LossOutcome(s.(balls := 0), Some(s.score))
    else LossOutcome(s.(balls := s.balls - 1), None)
  }

  /** Losing a ball followed by the game over it may request, applied in that order. */
  function OnBallLost(s: GameState): (r: GameState)
    ensures s.balls > 1 ==> r == s.(balls := s.balls - 1)
    ensures s.balls <= 1 ==>
      r.balls == 0 && r.isGameOver && !r.isPlaying &&
      r.highScore == Max(s.highScore, s.score) &&
      r.score == s.score && r.multiplier == s.multiplier
    ensures r.highScore >= s.highScore
    ensures Inv(s) ==> Inv(r)
  {
    var o := LoseBall(s);
    match o.gameOver
    case None => o.state
    case Some(finalScore) => HandleGameOver(o.state, finalScore)
  }

  /** The things that reach the session: the start button and the engine's two callbacks. */
  datatype Event = Start | Score(points: int) | BallLost

  function Step(s: GameState, e: Event): GameState {
    match e
    case Start => StartGame(s)
    case Score(p) => UpdateScore(s, p)
    case BallLost => OnBallLost(s)
  }

  /** Applies the events in order. */
  function Run(s: GameState, es: seq<Event>): GameState
    decreases |es|
  {
    if es == [] then s else Run(Step(s, es[0]), es[1..])
  }

  /** The engine only ever reports non-negative points. */
  predicate NonNegativeScores(es: seq<Event>) {
    forall i :: 0 <= i < |es| && es[i].Score? ==> es[i].points >= 0
  }

  lemma {:induction false} RunPreservesInv(s: GameState, es: seq<Event>)
    requires Inv(s) && NonNegativeScores(es)
    ensures Inv(Run(s, es))
    decreases |es|
  {
    if es != [] {
      assert NonNegativeScores(es[1..]) by {
        forall i | 0 <= i < |es[1..]| && es[1..][i].Score?
          ensures es[1..][i].points >= 0
        {
          assert es[1..][i] == es[i + 1];
        }
      }
      RunPreservesInv(Step(s, es[0]), es[1..]);
    }
  }

  /** No sequence of events lowers the high score. */
  lemma {:induction false} HighScoreNeverDecreases(s: GameState, es: seq<Event>)
    ensures Run(s, es).highScore >= s.highScore
    decreases |es|
  {
    if es != [] {
      HighScoreNeverDecreases(Step(s, es[0]), es[1..]);
    }
  }

  /** Starting with 0..3 balls, no sequence of events takes the ball count out of 0..3. */
  lemma {:induction false} BallsStayInRange(s: GameState, es: seq<Event>)
    requires 0 <= s.balls <= START_BALLS
    ensures 0 <= Run(s, es).balls <= START_BALLS
    decreases |es|
  {
    if es != [] {
      BallsStayInRange(Step(s, es[0]), es[1..]);
    }
  }

  /** Loses n balls in a row. */
  function LoseBalls(s: GameState, n: nat): GameState
    decreases n
  {
    if n == 0 then s else LoseBalls(OnBallLost(s), n - 1)
  }

  lemma {:induction false} LoseBallsCount(s: GameState, n: nat)
    requires s.balls >= 0
    ensures LoseBalls(s, n).balls == Max(0, s.balls - n)
    ensures LoseBalls(s, n).score == s.score
    decreases n
  {
    if n > 0 {
      LoseBallsCount(OnBallLost(s), n - 1);
    }
  }

  /** Feeds a sequence of point values through UpdateScore. */
  function AddPoints(s: GameState, ps: seq<int>): GameState
    decreases |ps|
  {
    if ps == [] then s else AddPoints(UpdateScore(s, ps[0]), ps[1..])
  }

  /** The score grows by the multiplier times the points reported; nothing else changes. */
  lemma {:induction false} AddPointsTotal(s: GameState, ps: seq<int>)
    ensures AddPoints(s, ps) == s.(score := s.score + s.multiplier * Sum(ps))
    decreases |ps|
  {
    if ps != [] {
      AddPointsTotal(UpdateScore(s, ps[0]), ps[1..]);
    }
  }
}
