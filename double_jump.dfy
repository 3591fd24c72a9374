/** The double-jump skill (src/skills/doubleJump.js): a grounded press is an ordinary jump
    with a stronger impulse; an airborne press is an extra jump, allowed while jumps remain
    and its own cooldown has elapsed. */
module DoubleJumpSkill {
  import opened Constants
  import opened Actors

  const DOUBLE_JUMP_IMPULSE: real := -15.0

  /** The guard of the airborne branch. */
  predicate AirJumpAllowed(a: Abilities, s: ActorState, now: int) {
    a.canDoubleJump && s.jumpCount < a.maxJumps &&
    now - s.lastDoubleJumpTime >= DOUBLE_JUMP_COOLDOWN
  }

  /** The state `handleDoubleJump(player)` leaves behind. */
  function DoubleJumpSpec(a: Abilities, s: ActorState, now: int): ActorState {
    if s.isOnGround then
      s.(vy := DOUBLE_JUMP_IMPULSE, isOnGround := false, jumpCount := 1)
    else if AirJumpAllowed(a, s, now) then
      s.(vy := DOUBLE_JUMP_IMPULSE, jumpCount := s.jumpCount + 1, lastDoubleJumpTime := now)
    else
      s
  }

  method HandleDoubleJump(p: Player, now: int)
    modifies p`vy, p`isOnGround, p`jumpCount, p`lastDoubleJumpTime
    ensures p.State() == DoubleJumpSpec(p.Profile(), old(p.State()), now)
  {
    if p.isOnGround {
      p.vy := DOUBLE_JUMP_IMPULSE;
      p.isOnGround := false;
      p.jumpCount := 1;
    } else if p.canDoubleJump && p.jumpCount < p.maxJumps &&
              now - p.lastDoubleJumpTime >= DOUBLE_JUMP_COOLDOWN {
      p.vy := DOUBLE_JUMP_IMPULSE;
      p.jumpCount := p.jumpCount + 1;
      p.lastDoubleJumpTime := now;
    }
  }

  /** A grounded press jumps without any cooldown check and leaves the cooldown stamp alone. */
  lemma GroundPressJumps(a: Abilities, s: ActorState, now: int)
    requires s.isOnGround
    ensures DoubleJumpSpec(a, s, now) == s.(vy := DOUBLE_JUMP_IMPULSE, isOnGround := false, jumpCount := 1)
  {
  }

  /** An airborne press succeeds exactly when the skill, the remaining jumps and the cooldown
      all allow it; success adds one jump and stamps the time, failure changes nothing. */
  lemma AirPressOutcome(a: Abilities, s: ActorState, now: int)
    requires !s.isOnGround
    ensures var r := DoubleJumpSpec(a, s, now);
      (AirJumpAllowed(a, s, now) ==>
         r == s.(vy := DOUBLE_JUMP_IMPULSE, jumpCount := s.jumpCount + 1, lastDoubleJumpTime := now)) &&
      (!AirJumpAllowed(a, s, now) ==> r == s)
  {
  }

  /** The jump bookkeeping is preserved for a profile that allows at least one jump. */
  lemma DoubleJumpKeepsJumpInvariant(a: Abilities, s: ActorState, now: int)
    requires 1 <= a.maxJumps && JumpInvariant(a, s)
    ensures JumpInvariant(a, DoubleJumpSpec(a, s, now))
  {
  }

  /** With two jumps, after a ground jump at most one airborne jump succeeds before landing:
      whatever the times of the next two airborne presses, the second is refused if the first
      was granted, and the count never exceeds two. */
  lemma OneAirJumpAfterGroundJump(a: Abilities, s: ActorState, t0: int, t1: int, t2: int)
    requires a.maxJumps == 2 && s.isOnGround
    ensures var s1 := DoubleJumpSpec(a, s, t0);
      var s2 := DoubleJumpSpec(a, s1, t1);
      var s3 := DoubleJumpSpec(a, s2, t2);
      s1.jumpCount == 1 && !s1.isOnGround &&
      s3.jumpCount <= 2 && (s2 != s1 ==> s3 == s2)
  {
  }
}
