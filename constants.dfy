/**
 * The fixed numbers of the pinball table: the size of the play field, the
 * physics tuning of the ball and flippers, and the point value of each
 * scoring feature.
 */
module Constants {

  /** Width and height of the play field, in world units. */
  const GAME_WIDTH: int := 450
  const GAME_HEIGHT: int := 800

  /** Physics tuning shared by the ball and the flippers. */
  const GRAVITY: int := 1
  const RESTITUTION: real := 0.5
  const FRICTION: real := 0.005
  const FLIPPER_STRENGTH: real := 0.15
  const BALL_RADIUS: int := 10

  /** Point values. Only the bumper and target values are wired to a collision. */
  const BUMPER_POINTS: int := 100
  const WALL_POINTS: int := 10
  const TARGET_POINTS: int := 500
  const RAMP_POINTS: int := 1000
}
