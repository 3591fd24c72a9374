/** The dash skill (src/skills/dash.js): a cooldown-gated burst of velocity along one of
    three directions. The source clears the dashing flag with a `setTimeout`; here that
    deferred write is the explicit method `ClearDash`, which the environment runs
    `DASH_DURATION` ms after an activation. */
module DashSkill {
  import opened Constants
  import opened Actors

  datatype Direction = Left | Right | Up

  /** The guard of `handleDash`: the player has the skill, is not already dashing,
      and the cooldown has elapsed. */
  predicate Accepted(a: Abilities, s: ActorState, now: int) {
    a.canDash && !s.isDashing && now - s.lastDashTime >= DASH_COOLDOWN
  }

  /** `player.dashSpeed || 15`. */
  function EffectiveSpeed(a: Abilities): real {
    if a.dashSpeed != 0.0 then a.dashSpeed else 15.0
  }

  /** The state `handleDash(player, direction)` leaves behind. */
  function DashSpec(a: Abilities, s: ActorState, dir: Direction, now: int): ActorState {
    if !Accepted(a, s, now) then s
    else
      var sp := EffectiveSpeed(a);
      var s1 := s.(isDashing := true, lastDashTime := now);
      match dir
      case Left => s1.(vx := -sp, vy := 0.0)
      case Right => s1.(vx := sp, vy := 0.0)
      case Up => s1.(vy := -sp, vx := 0.0)
  }

  method HandleDash(p: Player, dir: Direction, now: int)
    modifies p`isDashing, p`lastDashTime, p`vx, p`vy
    ensures p.State() == DashSpec(p.Profile(), old(p.State()), dir, now)
  {
    if !p.canDash || p.isDashing || now - p.lastDashTime < DASH_COOLDOWN {
      return;
    }
    p.isDashing := true;
    p.lastDashTime := now;
    var sp := if p.dashSpeed != 0.0 then p.dashSpeed else 15.0;
    match dir {
      case Left =>
        p.vx := -sp;
        p.vy := 0.0;
      case Right =>
        p.vx := sp;
        p.vy := 0.0;
      case Up =>
        p.vy := -sp;
        p.vx := 0.0;
    }
  }

  /** The `setTimeout` callback: it writes the dashing flag and nothing else. */
  method ClearDash(p: Player)
    modifies p`isDashing
    ensures p.State() == old(p.State()).(isDashing := false)
  {
    p.isDashing := false;
  }

  /** A rejected attempt changes nothing. */
  lemma RejectedDashChangesNothing(a: Abilities, s: ActorState, dir: Direction, now: int)
    requires !a.canDash || s.isDashing || now - s.lastDashTime < DASH_COOLDOWN
    ensures DashSpec(a, s, dir, now) == s
  {
  }

  /** An accepted attempt starts the dash, stamps the time and sets the dash velocity;
      position, jump state and the other skills' timestamps are untouched. */
  lemma AcceptedDash(a: Abilities, s: ActorState, dir: Direction, now: int)
    requires Accepted(a, s, now)
    ensures var r := DashSpec(a, s, dir, now);
      r.isDashing && r.lastDashTime == now &&
      (dir == Left ==> r.vx == -EffectiveSpeed(a) && r.vy == 0.0) &&
      (dir == Right ==> r.vx == EffectiveSpeed(a) && r.vy == 0.0) &&
      (dir == Up ==> r.vx == 0.0 && r.vy == -EffectiveSpeed(a)) &&
      r == s.(isDashing := true, lastDashTime := now, vx := r.vx, vy := r.vy)
  {
  }

  /** The dash timestamp moves exactly on activation. */
  lemma DashTimestampOnlyOnActivation(a: Abilities, s: ActorState, dir: Direction, now: int)
    ensures DashSpec(a, s, dir, now).lastDashTime != s.lastDashTime <==> Accepted(a, s, now)
  {
  }

  /** Cooldown: after an activation at `t1`, no state that still carries that activation's
      timestamp can dash again before `t1 + DASH_COOLDOWN`, whatever happened in between. */
  lemma AtMostOneDashPerCooldown(a: Abilities, s: ActorState, d1: Direction, t1: int,
                                 later: ActorState, d2: Direction, t2: int)
    requires Accepted(a, s, t1)
    requires later.lastDashTime == DashSpec(a, s, d1, t1).lastDashTime
    requires t2 - t1 < DASH_COOLDOWN
    ensures DashSpec(a, later, d2, t2) == later
  {
  }

  /** Any earlier dash's deferred clear is already due when a new dash is accepted
      (the cooldown outlasts the duration), so a stale clear never cuts a dash short. */
  lemma EarlierClearDueBeforeNextDash(a: Abilities, s: ActorState, now: int)
    requires Accepted(a, s, now)
    ensures s.lastDashTime + DASH_DURATION < now
  {
  }
}
