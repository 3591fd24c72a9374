/** The player (player.js): its constant profile, its mutable state, and the
    constructor's skill-derived flags. The per-tick integrator is in module Movement,
    the collision geometry in module Collision, the skills in their own modules. */
module Actors {
  import opened Constants

  datatype Skill = NoSkill | Dash | Teleport | DoubleJump

  /** The control intents a keyboard or a bot writes, plus the integrator's latch for `up`. */
  datatype Controls = Controls(left: bool, right: bool, up: bool, dash: bool, wasUpPressed: bool)

  const NO_INPUT: Controls := Controls(false, false, false, false, false)

  const PLAYER_WIDTH: real := 35.0
  const PLAYER_HEIGHT: real := 40.0
  const DASH_SPEED: real := 15.0

  /** What the constructor fixes for the whole match. */
  datatype Abilities = Abilities(width: real, height: real, maxJumps: int, canDoubleJump: bool,
                                 canDash: bool, canTeleport: bool, dashSpeed: real)

  /** The flags `new Player(..., skill)` derives from its skill. */
  function AbilitiesFor(skill: Skill): (a: Abilities)
    ensures a.maxJumps == (if skill == DoubleJump then 2 else 1)
    ensures a.canDoubleJump <==> skill == DoubleJump
    ensures a.canDash <==> skill == Dash
    ensures a.canTeleport <==> skill == Teleport
    ensures !(a.canDash && a.canTeleport)
  {
    Abilities(PLAYER_WIDTH, PLAYER_HEIGHT, if skill == DoubleJump then 2 else 1,
              skill == DoubleJump, skill == Dash, skill == Teleport, DASH_SPEED)
  }

  /** Everything about a player that the integrator and the skills change. */
  datatype ActorState = ActorState(x: real, y: real, vx: real, vy: real,
                                   isOnGround: bool, jumpCount: int, isDashing: bool,
                                   lastDashTime: int, lastTeleportTime: int, lastDoubleJumpTime: int,
                                   controls: Controls)

  /** The jump bookkeeping every operation keeps: the count stays within the profile's
      allowance, and a grounded player has used no jumps. */
  predicate JumpInvariant(a: Abilities, s: ActorState) {
    0 <= s.jumpCount <= a.maxJumps && (s.isOnGround ==> s.jumpCount == 0)
  }

  class Player {
    var x: real
    var y: real
    const width: real
    const height: real
    var vx: real
    var vy: real
    var isOnGround: bool
    var isIt: bool
    var lastTagged: int
    const skill: Skill
    var jumpCount: int
    const maxJumps: int
    const canDoubleJump: bool
    var isDashing: bool
    const canDash: bool
    const canTeleport: bool
    const dashSpeed: real
    var lastDashTime: int
    var lastTeleportTime: int
    var lastDoubleJumpTime: int
    const speed: real
    var controls: Controls

    function State(): ActorState
      reads this
    {
      ActorState(x, y, vx, vy, isOnGround, jumpCount, isDashing,
                 lastDashTime, lastTeleportTime, lastDoubleJumpTime, controls)
    }

    function Profile(): Abilities {
      Abilities(width, height, maxJumps, canDoubleJump, canDash, canTeleport, dashSpeed)
    }

    /** `new Player(x, y, color, controls, skill)`; the colour is drawing-only and left out. */
    constructor (x0: real, y0: real, controls0: Controls, skill0: Skill)
      ensures State() == ActorState(x0, y0, 0.0, 0.0, false, 0, false, 0, 0, 0, controls0)
      ensures Profile() == AbilitiesFor(skill0) && skill == skill0 && speed == MOVE_SPEED
      ensures !isIt && lastTagged == 0
      ensures JumpInvariant(Profile(), State())
    {
      x, y := x0, y0;
      width, height := PLAYER_WIDTH, PLAYER_HEIGHT;
      controls := controls0;
      vx, vy := 0.0, 0.0;
      isOnGround := false;
      isIt := false;
      lastTagged := 0;
      skill := skill0;
      jumpCount := 0;
      maxJumps := if skill0 == DoubleJump then 2 else 1;
      canDoubleJump := skill0 == DoubleJump;
      isDashing := false;
      canDash := skill0 == Dash;
      canTeleport := skill0 == Teleport;
      dashSpeed := DASH_SPEED;
      lastDashTime := 0;
      lastTeleportTime := 0;
      lastDoubleJumpTime := 0;
      speed := MOVE_SPEED;
    }
  }
}
