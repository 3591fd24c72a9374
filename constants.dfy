/** Game constants, with the values of constants.js. Times are milliseconds,
    distances and speeds are pixels and pixels per tick. */
module Constants {
  const GRAVITY: real := 0.5
  const JUMP_FORCE: real := -12.0
  const MOVE_SPEED: real := 5.0
  const IMMUNITY_TIME: int := 1000

  const DASH_COOLDOWN: int := 1000
  const DASH_DURATION: int := 200
  const TELEPORT_COOLDOWN: int := 2000
  const DOUBLE_JUMP_COOLDOWN: int := 800
}
