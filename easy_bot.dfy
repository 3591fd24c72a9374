/** The easy bot (easyBot.js): a four-state wanderer that re-rolls its state every two
    seconds from role-dependent weights and, every 800 ms, turns that state into control
    intents with deliberate inaccuracy. Each `Math.random()` call site reads its own field
    of `EasyDraws`; `Date.now()` is `now`; `Math.sqrt` comes from the `MathLib`. */
module EasyBotEngine {
  import opened Common
  import opened Platforms
  import opened Actors
  import opened BotKit

  const EASY_DECISION_INTERVAL: int := 800
  const EASY_SKILL_COOLDOWN: int := 2000
  const EASY_JUMP_COOLDOWN: int := 1000
  const EASY_STATE_PERIOD: int := 2000
  const EDGE_MARGIN: real := 20.0
  const DASH_RANGE: real := 150.0

  datatype MovementState = Idle | Wander | Chase | Retreat

  /** `states` of `updateMovementState`, in order. */
  const MOVEMENT_STATES: seq<MovementState> := [Idle, Wander, Chase, Retreat]

  function EasyWeights(isIt: bool): seq<real> {
    if isIt then [0.1, 0.2, 0.7, 0.0] else [0.2, 0.3, 0.0, 0.5]
  }

  /** One draw per `Math.random()` call site of easyBot.js. */
  datatype EasyDraws = EasyDraws(pick: real, direction: real, idleMove: real, idleSide: real,
                                 chaseAim: real, chaseSide: real, retreatAim: real,
                                 jumpAbove: real, jumpEdge: real, jumpRandom: real, skill: real)

  /** `Math.random() < 0.5 ? 'left' : 'right'`. */
  function CoinSide(r: real): Side {
    if r < 0.5 then ToLeft else ToRight
  }

  /** `weights[0] + ... + weights[n - 1]`. */
  function PrefixSum(ws: seq<real>, n: nat): real
    requires n <= |ws|
  {
    if n == 0 then 0.0 else PrefixSum(ws, n - 1) + ws[n - 1]
  }

  /** The running sum once weight `j` has been added. */
  function Through(ws: seq<real>, j: nat): real
    requires j < |ws|
  {
    PrefixSum(ws, j + 1)
  }

  /** The index where the running-sum loop breaks, scanning from `i`: the first `k` whose
      running sum reaches the draw. */
  function PickFrom(ws: seq<real>, r: real, i: nat): (k: Option<nat>)
    requires i <= |ws|
    decreases |ws| - i
    ensures k.Some? ==> i <= k.value < |ws| && r <= Through(ws, k.value)
    ensures k.Some? ==> forall j :: i <= j < k.value ==> r > Through(ws, j)
    ensures k.None? ==> forall j :: i <= j < |ws| ==> r > Through(ws, j)
  {
    if i == |ws| then None
    else if r <= Through(ws, i) then Some(i)
    else PickFrom(ws, r, i + 1)
  }

  /** The state `updateMovementState` picks, if any. */
  function PickedState(isIt: bool, r: real): Option<MovementState> {
    match PickFrom(EasyWeights(isIt), r, 0)
    case Some(k) => if k < |MOVEMENT_STATES| then Some(MOVEMENT_STATES[k]) else None
    case None => None
  }

  /** A draw in [0, 1) always picks a state, never 'retreat' while "it" and never 'chase' otherwise. */
  lemma PickRespectsRole(isIt: bool, r: real)
    requires 0.0 <= r < 1.0
    ensures PickedState(isIt, r).Some?
    ensures isIt ==> PickedState(isIt, r) != Some(Retreat)
    ensures !isIt ==> PickedState(isIt, r) != Some(Chase)
  {
    var ws := EasyWeights(isIt);
    assert PrefixSum(ws, 0) == 0.0;
    assert Through(ws, 0) == ws[0];
    assert Through(ws, 1) == ws[0] + ws[1];
    assert Through(ws, 2) == ws[0] + ws[1] + ws[2];
    assert Through(ws, 3) == 1.0;
  }

  /** `onPlatform && nearEdge` of `isNearPlatformEdge` for one platform. */
  predicate AtPlatformEdge(x: real, y: real, height: real, p: Platform) {
    y + height >= p.y - 5.0 && y + height <= p.y + 5.0 &&
    (Abs(x - p.x) < EDGE_MARGIN || Abs(x - (p.x + p.width)) < EDGE_MARGIN)
  }

  /** `isNearPlatformEdge(platforms)` for the bot's own player at (x, y). */
  function NearPlatformEdge(x: real, y: real, height: real, ps: seq<Platform>): (r: bool)
    ensures r <==> exists i :: 0 <= i < |ps| && AtPlatformEdge(x, y, height, ps[i])
  {
    AnyPlatform(ps, p => AtPlatformEdge(x, y, height, p))
  }

  /** `shouldJump(platforms, target)`. */
  predicate EasyShouldJump(self: Body, height: real, target: Body, ps: seq<Platform>, d: EasyDraws) {
    (target.y < self.y - 50.0 && d.jumpAbove < 0.4) ||
    (NearPlatformEdge(self.x, self.y, height, ps) && d.jumpEdge < 0.5) ||
    d.jumpRandom < 0.1
  }

  /** The movement keys the state's `switch` presses on cleared controls, and the new preferred direction. */
  datatype Steering = Steering(controls: Controls, preferred: Side)

  function EasySteer(state: MovementState, c: Controls, preferred: Side, dx: real,
                     nearEdge: bool, d: EasyDraws): (r: Steering)
    ensures r.controls == c.(left := r.controls.left, right := r.controls.right)
    ensures !c.left && !c.right ==> !(r.controls.left && r.controls.right)
  {
    match state
    case Idle =>
      if d.idleMove < 0.3 then Steering(Press(c, CoinSide(d.idleSide)), preferred) else Steering(c, preferred)
    case Wander =>
      Steering(Press(c, preferred), if nearEdge then Opposite(preferred) else preferred)
    case Chase =>
      if d.chaseAim < 0.8 then Steering(Press(c, Toward(dx)), preferred)
      else Steering(Press(c, CoinSide(d.chaseSide)), preferred)
    case Retreat =>
      if d.retreatAim < 0.7 then Steering(Press(c, AwayFrom(dx)), preferred) else Steering(c, preferred)
  }

  /** Everything `makeDecision` writes. */
  datatype EasyChoice = EasyChoice(controls: Controls, preferred: Side, lastJump: int, lastSkillUse: int)

  predicate EasyJumpDue(self: Body, height: real, target: Body, ps: seq<Platform>, lastJump: int,
                        now: int, d: EasyDraws) {
    now - lastJump > EASY_JUMP_COOLDOWN && EasyShouldJump(self, height, target, ps, d)
  }

  predicate EasyDashDue(m: MathLib, skill: Skill, self: Body, target: Body, lastSkillUse: int,
                        now: int, d: EasyDraws) {
    now - lastSkillUse > EASY_SKILL_COOLDOWN && d.skill < 0.3 &&
    skill == Dash && Dist(m, target.x - self.x, target.y - self.y) < DASH_RANGE
  }

  /** `makeDecision(target, platforms)`. */
  function EasyDecide(m: MathLib, state: MovementState, preferred: Side, skill: Skill, self: Body,
                      height: real, controls: Controls, target: Body, ps: seq<Platform>,
                      lastJump: int, lastSkillUse: int, now: int, d: EasyDraws): EasyChoice {
    var st := EasySteer(state, Cleared(controls), preferred, target.x - self.x,
                        NearPlatformEdge(self.x, self.y, height, ps), d);
    var jump := EasyJumpDue(self, height, target, ps, lastJump, now, d);
    var dash := EasyDashDue(m, skill, self, target, lastSkillUse, now, d);
    EasyChoice(st.controls.(up := jump, dash := dash), st.preferred,
               if jump then now else lastJump, if dash then now else lastSkillUse)
  }

  /** The bot's own timers and state. */
  datatype EasyMemory = EasyMemory(lastDecision: int, lastSkillUse: int, lastJump: int,
                                   movementState: MovementState, stateTimer: int, preferred: Side)

  class EasyBot {
    const player: Player
    var lastDecision: int
    var lastSkillUse: int
    var lastJump: int
    var movementState: MovementState
    var stateTimer: int
    var preferredDirection: Side

    function Memory(): EasyMemory
      reads this
    {
      EasyMemory(lastDecision, lastSkillUse, lastJump, movementState, stateTimer, preferredDirection)
    }

    /** `new EasyBot(player)`; `r` is the constructor's coin for the preferred direction. */
    constructor (player: Player, r: real)
      ensures this.player == player
      ensures Memory() == EasyMemory(0, 0, 0, Idle, 0, CoinSide(r))
    {
      this.player := player;
      lastDecision, lastSkillUse, lastJump := 0, 0, 0;
      movementState := Idle;
      stateTimer := 0;
      preferredDirection := CoinSide(r);
    }

    /** `updateMovementState()`: the weighted pick by running sum. */
    method UpdateMovementState(pick: real, direction: real)
      modifies this`movementState, this`preferredDirection
      ensures PickedState(player.isIt, pick).Some? ==>
        movementState == PickedState(player.isIt, pick).value && preferredDirection == CoinSide(direction)
      ensures PickedState(player.isIt, pick).None? ==>
        movementState == old(movementState) && preferredDirection == old(preferredDirection)
    {
      var weights := EasyWeights(player.isIt);
      var sum := 0.0;
      var i := 0;
      while i < |MOVEMENT_STATES|
        invariant 0 <= i <= |MOVEMENT_STATES|
        invariant sum == PrefixSum(weights, i)
        invariant forall j :: 0 <= j < i ==> pick > Through(weights, j)
        invariant movementState == old(movementState) && preferredDirection == old(preferredDirection)
      {
        sum := sum + weights[i];
        if pick <= sum {
          assert PickFrom(weights, pick, 0) == PickFrom(weights, pick, i) by {
            PickSkipsMisses(weights, pick, i);
          }
          movementState := MOVEMENT_STATES[i];
          preferredDirection := CoinSide(direction);
          return;
        }
        i := i + 1;
      }
      PickSkipsMisses(weights, pick, i);
    }

    /** The `switch (this.movementState)` of `makeDecision`. */
    method SteerByState(dx: real, platforms: seq<Platform>, d: EasyDraws, ghost self: Body)
      requires BodyOf(player) == self
      modifies this`preferredDirection, player`controls
      ensures BodyOf(player) == self
      ensures var st := EasySteer(movementState, old(player.controls), old(preferredDirection), dx,
                                  NearPlatformEdge(self.x, self.y, player.height, platforms), d);
        player.controls == st.controls && preferredDirection == st.preferred
    {
      match movementState {
        case Idle =>
          if d.idleMove < 0.3 {
            player.controls := Press(player.controls, CoinSide(d.idleSide));
          }
        case Wander =>
          player.controls := Press(player.controls, preferredDirection);
          if NearPlatformEdge(player.x, player.y, player.height, platforms) {
            preferredDirection := Opposite(preferredDirection);
          }
        case Chase =>
          if d.chaseAim < 0.8 {
            if dx > 0.0 {
              player.controls := player.controls.(right := true);
            } else {
              player.controls := player.controls.(left := true);
            }
          } else {
            player.controls := Press(player.controls, CoinSide(d.chaseSide));
          }
        case Retreat =>
          if d.retreatAim < 0.7 {
            if dx > 0.0 {
              player.controls := player.controls.(left := true);
            } else {
              player.controls := player.controls.(right := true);
            }
          }
      }
    }

    /** `makeDecision(target, platforms)`. */
    method MakeDecision(m: MathLib, target: Player, platforms: seq<Platform>, now: int, d: EasyDraws)
      modifies this`preferredDirection, this`lastJump, this`lastSkillUse, player`controls
      ensures var ch := EasyDecide(m, movementState, old(preferredDirection), player.skill,
                                   BodyOf(player), player.height, old(player.controls), BodyOf(target),
                                   platforms, old(lastJump), old(lastSkillUse), now, d);
        player.controls == ch.controls && preferredDirection == ch.preferred &&
        lastJump == ch.lastJump && lastSkillUse == ch.lastSkillUse
    {
      var dx := target.x - player.x;
      var dy := target.y - player.y;
      var distance := Dist(m, dx, dy);
      var self, seen := BodyOf(player), BodyOf(target);
      ghost var c0, pref0 := player.controls, preferredDirection;
      ghost var lastJump0, lastSkillUse0 := lastJump, lastSkillUse;
      player.controls := Cleared(player.controls);
      SteerByState(dx, platforms, d, self);
      var steered := player.controls;
      var jump := now - lastJump > EASY_JUMP_COOLDOWN && EasyShouldJump(self, player.height, seen, platforms, d);
      if jump {
        lastJump := now;
      }
      var dash := now - lastSkillUse > EASY_SKILL_COOLDOWN && d.skill < 0.3 &&
                  player.skill == Dash && distance < DASH_RANGE;
      if dash {
        lastSkillUse := now;
      }
      player.controls := steered.(up := steered.up || jump, dash := steered.dash || dash);
      assert BodyOf(player) == self && BodyOf(target) == seen;
    }

    /** `update(target, platforms)`: the state re-roll and the decision, each behind its own timer. */
    method Update(m: MathLib, target: Player, platforms: seq<Platform>, now: int, d: EasyDraws)
      modifies this, player`controls
      ensures var mem1 := EasyReroll(old(Memory()), player.isIt, now, d);
        var (mem2, c) := EasyTick(m, mem1, player.skill, BodyOf(player), player.height,
                                  old(player.controls), BodyOf(target), platforms, now, d);
        Memory() == mem2 && player.controls == c
    {
      if now - stateTimer > EASY_STATE_PERIOD {
        stateTimer := now;
        UpdateMovementState(d.pick, d.direction);
      }
      if now - lastDecision > EASY_DECISION_INTERVAL {
        MakeDecision(m, target, platforms, now, d);
        lastDecision := now;
      }
    }
  }

  lemma {:induction false} PickSkipsMisses(ws: seq<real>, r: real, i: nat)
    requires i <= |ws|
    requires forall j :: 0 <= j < i ==> r > Through(ws, j)
    ensures PickFrom(ws, r, 0) == PickFrom(ws, r, i)
    decreases i
  {
    if i > 0 {
      PickSkipsMisses(ws, r, i - 1);
    }
  }

  /** The first timer of `update`: after 2000 ms the state and direction are re-rolled. */
  function EasyReroll(mem: EasyMemory, isIt: bool, now: int, d: EasyDraws): EasyMemory {
    if now - mem.stateTimer > EASY_STATE_PERIOD then
      match PickedState(isIt, d.pick)
      case Some(st) => mem.(stateTimer := now, movementState := st, preferred := CoinSide(d.direction))
      case None => mem.(stateTimer := now)
    else mem
  }

  /** The second timer of `update`: after 800 ms a decision is made. */
  function EasyTick(m: MathLib, mem: EasyMemory, skill: Skill, self: Body, height: real,
                    controls: Controls, target: Body, ps: seq<Platform>, now: int,
                    d: EasyDraws): (EasyMemory, Controls) {
    if now - mem.lastDecision > EASY_DECISION_INTERVAL then
      var ch := EasyDecide(m, mem.movementState, mem.preferred, skill, self, height, controls,
                           target, ps, mem.lastJump, mem.lastSkillUse, now, d);
      (mem.(lastDecision := now, preferred := ch.preferred, lastJump := ch.lastJump,
            lastSkillUse := ch.lastSkillUse), ch.controls)
    else (mem, controls)
  }

  // ----- properties -----

  /** Between decisions nothing a decision writes changes; a decision stamps its time. */
  lemma DecisionTimerGates(m: MathLib, mem: EasyMemory, skill: Skill, self: Body, height: real,
                           controls: Controls, target: Body, ps: seq<Platform>, now: int, d: EasyDraws)
    ensures var (mem2, c) := EasyTick(m, mem, skill, self, height, controls, target, ps, now, d);
      (now - mem.lastDecision <= EASY_DECISION_INTERVAL ==> mem2 == mem && c == controls) &&
      (now - mem.lastDecision > EASY_DECISION_INTERVAL ==>
         mem2.lastDecision == now && mem2.movementState == mem.movementState &&
         mem2.stateTimer == mem.stateTimer)
  {
  }

  /** The state is re-rolled only after 2000 ms, and then the timer restarts. */
  lemma RerollTimerGates(mem: EasyMemory, isIt: bool, now: int, d: EasyDraws)
    ensures var r := EasyReroll(mem, isIt, now, d);
      (now - mem.stateTimer <= EASY_STATE_PERIOD ==> r == mem) &&
      (now - mem.stateTimer > EASY_STATE_PERIOD ==>
         r.stateTimer == now && r.lastDecision == mem.lastDecision && r.lastJump == mem.lastJump)
  {
  }

  /** A decision never presses both left and right, and keeps the integrator's latch. */
  lemma DecisionPressesOneSide(m: MathLib, state: MovementState, preferred: Side, skill: Skill,
                               self: Body, height: real, controls: Controls, target: Body,
                               ps: seq<Platform>, lastJump: int, lastSkillUse: int, now: int, d: EasyDraws)
    ensures var c := EasyDecide(m, state, preferred, skill, self, height, controls, target, ps,
                                lastJump, lastSkillUse, now, d).controls;
      !(c.left && c.right) && c.wasUpPressed == controls.wasUpPressed
  {
  }

  /** 'wander' presses the old preferred direction and flips it exactly when near a platform edge. */
  lemma WanderPressesOldDirection(m: MathLib, preferred: Side, skill: Skill, self: Body, height: real,
                                  controls: Controls, target: Body, ps: seq<Platform>,
                                  lastJump: int, lastSkillUse: int, now: int, d: EasyDraws)
    ensures var ch := EasyDecide(m, Wander, preferred, skill, self, height, controls, target, ps,
                                 lastJump, lastSkillUse, now, d);
      (preferred == ToLeft ==> ch.controls.left && !ch.controls.right) &&
      (preferred == ToRight ==> ch.controls.right && !ch.controls.left) &&
      (ch.preferred != preferred <==>
         exists i :: 0 <= i < |ps| && AtPlatformEdge(self.x, self.y, height, ps[i]))
  {
  }

  /** 'chase' with an accurate draw heads toward the target, 'retreat' with one heads away. */
  lemma ChaseAndRetreatAim(m: MathLib, preferred: Side, skill: Skill, self: Body, height: real,
                           controls: Controls, target: Body, ps: seq<Platform>,
                           lastJump: int, lastSkillUse: int, now: int, d: EasyDraws)
    ensures var c := EasyDecide(m, Chase, preferred, skill, self, height, controls, target, ps,
                                lastJump, lastSkillUse, now, d).controls;
      d.chaseAim < 0.8 ==> (c.right <==> target.x > self.x) && (c.left <==> target.x <= self.x)
    ensures var c := EasyDecide(m, Retreat, preferred, skill, self, height, controls, target, ps,
                                lastJump, lastSkillUse, now, d).controls;
      (d.retreatAim < 0.7 ==> (c.left <==> target.x > self.x) && (c.right <==> target.x <= self.x)) &&
      (d.retreatAim >= 0.7 ==> !c.left && !c.right)
  {
  }

  /** `up` is set exactly when the jump cooldown has passed and `shouldJump` holds, and `lastJump`
      moves exactly then; `dash` likewise needs the dash skill, range, cooldown and the draw. */
  lemma JumpAndDashExactlyWhenDue(m: MathLib, state: MovementState, preferred: Side, skill: Skill,
                                  self: Body, height: real, controls: Controls, target: Body,
                                  ps: seq<Platform>, lastJump: int, lastSkillUse: int, now: int, d: EasyDraws)
    ensures var ch := EasyDecide(m, state, preferred, skill, self, height, controls, target, ps,
                                 lastJump, lastSkillUse, now, d);
      (ch.controls.up <==> now - lastJump > EASY_JUMP_COOLDOWN && EasyShouldJump(self, height, target, ps, d)) &&
      (ch.lastJump != lastJump <==> ch.controls.up) &&
      (ch.controls.dash <==> skill == Dash && Dist(m, target.x - self.x, target.y - self.y) < DASH_RANGE &&
                             now - lastSkillUse > EASY_SKILL_COOLDOWN && d.skill < 0.3) &&
      (ch.lastSkillUse != lastSkillUse <==> ch.controls.dash)
  {
  }

  /** A player without the dash skill never gets the dash intent from this bot. */
  lemma OnlyDashPlayersDash(m: MathLib, state: MovementState, preferred: Side, skill: Skill,
                            self: Body, height: real, controls: Controls, target: Body,
                            ps: seq<Platform>, lastJump: int, lastSkillUse: int, now: int, d: EasyDraws)
    requires skill != Dash
    ensures !EasyDecide(m, state, preferred, skill, self, height, controls, target, ps,
                        lastJump, lastSkillUse, now, d).controls.dash
  {
  }
}
