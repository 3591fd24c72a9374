/** The medium bot (mediumBot.js): keeps a 20-entry history of the target, picks one of
    three parameter sets every three seconds, predicts where the target is heading, and every
    500 ms chases, escapes, jumps or dashes by those parameters, breaking out when stuck.
    Each `Math.random()` call site reads its own field of `MediumDraws`; the draw inside the
    per-platform `some` of `shouldJumpForPlatform` is indexed by platform. */
module MediumBotEngine {
  import opened Common
  import opened Platforms
  import opened Actors
  import opened BotKit

  const MEDIUM_DECISION_INTERVAL: int := 500
  const MEDIUM_SKILL_COOLDOWN: int := 2000
  const MEDIUM_JUMP_COOLDOWN: int := 800
  const MEDIUM_HISTORY_CAP: nat := 20
  const MEDIUM_STRATEGY_PERIOD: int := 3000
  const MEDIUM_STUCK_LIMIT: int := 1500
  const PREDICTION_WINDOW: nat := 5
  const CORNER_MARGIN: real := 30.0

  /** One of the three parameter sets of `selectStrategy`. */
  datatype Strategy = Strategy(chaseThreshold: real, retreatThreshold: real,
                               jumpFrequency: real, dashThreshold: real)

  const AGGRESSIVE: Strategy := Strategy(150.0, 100.0, 0.6, 120.0)
  const DEFENSIVE: Strategy := Strategy(200.0, 150.0, 0.4, 100.0)
  const BALANCED: Strategy := Strategy(180.0, 120.0, 0.5, 110.0)

  /** One draw per `Math.random()` call site of mediumBot.js. */
  datatype MediumDraws = MediumDraws(strategy: real, chaseAim: real, jumpAbove: real,
                                     jumpCorner: real, platformJump: nat -> real)

  /** `selectStrategy()`: 70% the role's own set, else the balanced one. */
  function SelectStrategy(isIt: bool, r: real): (s: Strategy)
    ensures isIt ==> (s == AGGRESSIVE <==> r < 0.7) && (s == BALANCED <==> r >= 0.7)
    ensures !isIt ==> (s == DEFENSIVE <==> r < 0.7) && (s == BALANCED <==> r >= 0.7)
  {
    if isIt then (if r < 0.7 then AGGRESSIVE else BALANCED)
    else (if r < 0.7 then DEFENSIVE else BALANCED)
  }

  /** `predictTargetMovement(target)`: with five samples or more, the target extrapolated by ten
      times the mean velocity of the last five samples plus the acceleration term of the last
      two. A zero time step makes that term non-finite in the source; `degenerate` stands for it. */
  function Predict(history: seq<Sample>, target: Body, degenerate: Point): Point {
    if |history| < PREDICTION_WINDOW then Point(target.x, target.y)
    else
      var recent := Last(history, PREDICTION_WINDOW);
      var avgVx := SumVx(recent) / 5.0;
      var avgVy := SumVy(recent) / 5.0;
      var a, b := recent[3], recent[4];
      var dt := b.timestamp - a.timestamp;
      if dt == 0 then degenerate
      else
        Point(target.x + avgVx * 10.0 + 0.5 * ((b.vx - a.vx) / (dt as real)) * 100.0,
              target.y + avgVy * 10.0 + 0.5 * ((b.vy - a.vy) / (dt as real)) * 100.0)
  }

  /** `isInCorner(platforms)`: some platform edge within 30 of the bot's x. */
  predicate NearSomeEdge(x: real, p: Platform) {
    Abs(x - p.x) < CORNER_MARGIN || Abs(x - (p.x + p.width)) < CORNER_MARGIN
  }

  function InCorner(x: real, ps: seq<Platform>): (r: bool)
    ensures r <==> exists i :: 0 <= i < |ps| && NearSomeEdge(x, ps[i])
  {
    AnyPlatform(ps, p => NearSomeEdge(x, p))
  }

  /** The score `findSafePlatform` minimises: distance to the platform's top centre, 50 less for
      a platform above the bot and 50 more otherwise. */
  function SafetyScore(m: MathLib, self: Body, p: Platform): real {
    Dist(m, p.x + p.width / 2.0 - self.x, p.y - self.y) + (if p.y < self.y then -50.0 else 50.0)
  }

  function SafetyScores(m: MathLib, self: Body, ps: seq<Platform>): (r: seq<real>)
    ensures |r| == |ps| && forall i :: 0 <= i < |ps| ==> r[i] == SafetyScore(m, self, ps[i])
  {
    seq(|ps|, i requires 0 <= i < |ps| => SafetyScore(m, self, ps[i]))
  }

  /** `findSafePlatform(platforms)`: the first platform of least score; none for an empty list. */
  function FindSafePlatform(m: MathLib, self: Body, ps: seq<Platform>): (r: Option<Platform>)
    ensures r.None? <==> |ps| == 0
    ensures r.Some? ==> exists k :: (0 <= k < |ps| && r.value == ps[k] &&
      (forall j :: 0 <= j < |ps| ==> SafetyScore(m, self, ps[k]) <= SafetyScore(m, self, ps[j])) &&
      (forall j :: 0 <= j < k ==> SafetyScore(m, self, ps[k]) < SafetyScore(m, self, ps[j])))
  {
    var keys := SafetyScores(m, self, ps);
    match FirstMin(keys)
    case Some(k) => Some(ps[k])
    case None => None
  }

  /** `handleChasing(predictedDx, distance)`. */
  function Chasing(c: Controls, predictedDx: real, distance: real, s: Strategy, d: MediumDraws): Controls {
    if distance < s.chaseThreshold && d.chaseAim < 0.9 then Press(c, Toward(predictedDx)) else c
  }

  /** `handleEscaping(dx, distance, platforms)`. */
  function Escaping(m: MathLib, c: Controls, self: Body, dx: real, distance: real, s: Strategy,
                    ps: seq<Platform>): Controls {
    if distance < s.retreatThreshold then
      match FindSafePlatform(m, self, ps)
      case Some(p) => Press(c, Toward(p.x + p.width / 2.0 - self.x))
      case None => Press(c, AwayFrom(dx))
    else c
  }

  /** One platform of `shouldJumpForPlatform`, without its draw: a platform top between the
      bot's top and one and a half heights below it, spanning the point 50 ahead. */
  predicate PlatformAhead(self: Body, height: real, right: bool, p: Platform) {
    var futureX := self.x + (if right then 50.0 else -50.0);
    p.y < self.y + height * 1.5 && p.y > self.y && futureX > p.x && futureX < p.x + p.width
  }

  predicate JumpForPlatform(self: Body, height: real, right: bool, ps: seq<Platform>, draw: nat -> real) {
    exists i :: 0 <= i < |ps| && PlatformAhead(self, height, right, ps[i]) && draw(i) < 0.6
  }

  /** `shouldJump(prediction, platforms)`, with the controls as steering left them. */
  predicate MediumShouldJump(prediction: Point, self: Body, height: real, c: Controls,
                             ps: seq<Platform>, s: Strategy, d: MediumDraws) {
    (prediction.y < self.y - 30.0 && d.jumpAbove < s.jumpFrequency) ||
    (InCorner(self.x, ps) && d.jumpCorner < 0.8) ||
    JumpForPlatform(self, height, c.right, ps, d.platformJump)
  }

  /** `shouldUseDash(distance)`. */
  predicate MediumShouldDash(isIt: bool, distance: real, s: Strategy) {
    if isIt then distance < s.dashThreshold && distance > 50.0 else distance < s.dashThreshold * 0.8
  }

  /** Everything `makeDecision` writes. */
  datatype MediumChoice = MediumChoice(controls: Controls, stuckTimer: int, lastJump: int, lastSkillUse: int)

  /** The role-dependent steering of `makeDecision`. */
  function MediumSteer(m: MathLib, isIt: bool, c: Controls, self: Body, target: Body, prediction: Point,
                       s: Strategy, ps: seq<Platform>, d: MediumDraws): (r: Controls)
    ensures r == c.(left := r.left, right := r.right)
  {
    var dx := target.x - self.x;
    var distance := Dist(m, dx, target.y - self.y);
    if isIt then Chasing(c, prediction.x - self.x, distance, s, d)
    else Escaping(m, c, self, dx, distance, s, ps)
  }

  /** `makeDecision(target, platforms)`. */
  function MediumDecide(m: MathLib, isIt: bool, self: Body, height: real, controls: Controls,
                        target: Body, history: seq<Sample>, degenerate: Point, s: Strategy,
                        ps: seq<Platform>, stuckTimer: int, lastJump: int, lastSkillUse: int,
                        now: int, d: MediumDraws): MediumChoice {
    var c0 := Cleared(controls);
    if stuckTimer > MEDIUM_STUCK_LIMIT then
      MediumChoice(Unstick(c0, InCorner(self.x, ps)), 0, lastJump, lastSkillUse)
    else
      var distance := Dist(m, target.x - self.x, target.y - self.y);
      var prediction := Predict(history, target, degenerate);
      var c1 := MediumSteer(m, isIt, c0, self, target, prediction, s, ps, d);
      var jump := now - lastJump > MEDIUM_JUMP_COOLDOWN &&
                  MediumShouldJump(prediction, self, height, c1, ps, s, d);
      var dash := now - lastSkillUse > MEDIUM_SKILL_COOLDOWN && MediumShouldDash(isIt, distance, s);
      MediumChoice(c1.(up := jump, dash := dash), stuckTimer,
                   if jump then now else lastJump, if dash then now else lastSkillUse)
  }

  /** The bot's own state. */
  datatype MediumMemory = MediumMemory(lastDecision: int, lastSkillUse: int, lastJump: int,
                                       history: seq<Sample>, lastPosition: Point, stuckTimer: int,
                                       strategy: Strategy, strategyTimer: int)

  /** The first steps of `update`: record the target, and re-select the strategy when its
      timer has run out. */
  function Recorded(mem: MediumMemory, isIt: bool, target: Body, now: int, d: MediumDraws): MediumMemory {
    var h := Pushed(mem.history, SampleOf(target, now), MEDIUM_HISTORY_CAP);
    if now - mem.strategyTimer > MEDIUM_STRATEGY_PERIOD then
      mem.(history := h, strategy := SelectStrategy(isIt, d.strategy), strategyTimer := now)
    else mem.(history := h)
  }

  /** One call of `update(target, platforms)`: record, maybe re-select, maybe decide. */
  function MediumTick(m: MathLib, mem: MediumMemory, isIt: bool, self: Body, height: real,
                      controls: Controls, target: Body, degenerate: Point, ps: seq<Platform>,
                      now: int, d: MediumDraws): (MediumMemory, Controls) {
    var mem1 := Recorded(mem, isIt, target, now, d);
    if now - mem1.lastDecision > MEDIUM_DECISION_INTERVAL then
      var ch := MediumDecide(m, isIt, self, height, controls, target, mem1.history, degenerate,
                             mem1.strategy, ps, mem1.stuckTimer, mem1.lastJump, mem1.lastSkillUse, now, d);
      var here := Point(self.x, self.y);
      (mem1.(lastDecision := now, lastJump := ch.lastJump, lastSkillUse := ch.lastSkillUse,
             stuckTimer := StuckStep(ch.stuckTimer, mem1.lastPosition, here, MEDIUM_DECISION_INTERVAL),
             lastPosition := here),
       ch.controls)
    else (mem1, controls)
  }

  class MediumBot {
    const player: Player
    var lastDecision: int
    var lastSkillUse: int
    var lastJump: int
    var movementHistory: seq<Sample>
    var lastPosition: Point
    var stuckTimer: int
    var strategy: Strategy
    var strategyTimer: int

    function Memory(): MediumMemory
      reads this
    {
      MediumMemory(lastDecision, lastSkillUse, lastJump, movementHistory, lastPosition,
                   stuckTimer, strategy, strategyTimer)
    }

    /** `new MediumBot(player)`; `r` is the draw of the constructor's `selectStrategy()`. */
    constructor (player: Player, r: real)
      ensures this.player == player
      ensures Memory() == MediumMemory(0, 0, 0, [], Point(player.x, player.y), 0,
                                       SelectStrategy(player.isIt, r), 0)
    {
      this.player := player;
      lastDecision, lastSkillUse, lastJump := 0, 0, 0;
      movementHistory := [];
      lastPosition := Point(player.x, player.y);
      stuckTimer := 0;
      strategy := SelectStrategy(player.isIt, r);
      strategyTimer := 0;
    }

    /** `updateMovementHistory(target)`. */
    method UpdateMovementHistory(target: Player, now: int)
      modifies this`movementHistory
      ensures movementHistory == Pushed(old(movementHistory), SampleOf(BodyOf(target), now), MEDIUM_HISTORY_CAP)
    {
      movementHistory := movementHistory + [Sample(target.x, target.y, target.vx, target.vy, now)];
      if |movementHistory| > MEDIUM_HISTORY_CAP {
        movementHistory := movementHistory[1..];
      }
    }

    /** `handleStuckSituation(platforms)`. */
    method HandleStuckSituation(platforms: seq<Platform>)
      modifies this`stuckTimer, player`controls
      ensures player.controls == Unstick(old(player.controls), InCorner(player.x, platforms))
      ensures stuckTimer == 0
    {
      player.controls := player.controls.(up := true);
      if InCorner(player.x, platforms) {
        player.controls := player.controls.(left := !player.controls.left, right := !player.controls.right);
      }
      stuckTimer := 0;
    }

    /** `handleChasing` or `handleEscaping`, by role. */
    method SteerByRole(m: MathLib, target: Player, prediction: Point, platforms: seq<Platform>, d: MediumDraws,
                       self: Body, seen: Body)
      requires BodyOf(player) == self && BodyOf(target) == seen
      modifies player`controls
      ensures BodyOf(player) == self && BodyOf(target) == seen
      ensures player.controls == MediumSteer(m, player.isIt, old(player.controls), self, seen, prediction,
                                             strategy, platforms, d)
    {
      var c := player.controls;
      var dx := seen.x - self.x;
      var distance := Dist(m, dx, seen.y - self.y);
      if player.isIt {
        if distance < strategy.chaseThreshold && d.chaseAim < 0.9 {
          if prediction.x - self.x > 0.0 {
            c := c.(right := true);
          } else {
            c := c.(left := true);
          }
        }
        assert c == Chasing(old(player.controls), prediction.x - self.x, distance, strategy, d);
      } else {
        if distance < strategy.retreatThreshold {
          var safe := FindSafePlatform(m, self, platforms);
          if safe.Some? {
            if safe.value.x + safe.value.width / 2.0 - self.x > 0.0 {
              c := c.(right := true);
            } else {
              c := c.(left := true);
            }
          } else if dx > 0.0 {
            c := c.(left := true);
          } else {
            c := c.(right := true);
          }
        }
        assert c == Escaping(m, old(player.controls), self, dx, distance, strategy, platforms);
      }
      player.controls := c;
      assert BodyOf(player) == self && BodyOf(target) == seen;
    }

    /** The part of `makeDecision` after the stuck check, on cleared controls. */
    method Pursue(m: MathLib, target: Player, platforms: seq<Platform>, degenerate: Point,
                  now: int, d: MediumDraws)
      requires !player.controls.up && !player.controls.dash
      modifies this`lastJump, this`lastSkillUse, player`controls
      ensures var self, seen := BodyOf(player), BodyOf(target);
        var distance := Dist(m, seen.x - self.x, seen.y - self.y);
        var prediction := Predict(movementHistory, seen, degenerate);
        var c1 := MediumSteer(m, player.isIt, old(player.controls), self, seen, prediction, strategy, platforms, d);
        var jump := now - old(lastJump) > MEDIUM_JUMP_COOLDOWN &&
                    MediumShouldJump(prediction, self, player.height, c1, platforms, strategy, d);
        var dash := now - old(lastSkillUse) > MEDIUM_SKILL_COOLDOWN && MediumShouldDash(player.isIt, distance, strategy);
        player.controls == c1.(up := jump, dash := dash) &&
        lastJump == (if jump then now else old(lastJump)) &&
        lastSkillUse == (if dash then now else old(lastSkillUse))
    {
      var self, seen := BodyOf(player), BodyOf(target);
      var distance := Dist(m, seen.x - self.x, seen.y - self.y);
      var prediction := Predict(movementHistory, seen, degenerate);
      SteerByRole(m, target, prediction, platforms, d, self, seen);
      var steered := player.controls;
      var jump := now - lastJump > MEDIUM_JUMP_COOLDOWN &&
                  MediumShouldJump(prediction, self, player.height, steered, platforms, strategy, d);
      if jump {
        lastJump := now;
      }
      var dash := now - lastSkillUse > MEDIUM_SKILL_COOLDOWN && MediumShouldDash(player.isIt, distance, strategy);
      if dash {
        lastSkillUse := now;
      }
      player.controls := steered.(up := jump, dash := dash);
      assert BodyOf(player) == self && BodyOf(target) == seen;
      assert Predict(movementHistory, BodyOf(target), degenerate) == prediction;
    }

    /** `makeDecision(target, platforms)`; the history already holds this call's sample. */
    method MakeDecision(m: MathLib, target: Player, platforms: seq<Platform>, degenerate: Point,
                        now: int, d: MediumDraws)
      modifies this`stuckTimer, this`lastJump, this`lastSkillUse, player`controls
      ensures var ch := MediumDecide(m, player.isIt, BodyOf(player), player.height, old(player.controls),
                                     BodyOf(target), movementHistory, degenerate, strategy, platforms,
                                     old(stuckTimer), old(lastJump), old(lastSkillUse), now, d);
        player.controls == ch.controls && stuckTimer == ch.stuckTimer &&
        lastJump == ch.lastJump && lastSkillUse == ch.lastSkillUse
    {
      player.controls := Cleared(player.controls);
      if stuckTimer > MEDIUM_STUCK_LIMIT {
        HandleStuckSituation(platforms);
        return;
      }
      Pursue(m, target, platforms, degenerate, now, d);
    }

    /** `update(target, platforms)`. */
    method Update(m: MathLib, target: Player, platforms: seq<Platform>, degenerate: Point,
                  now: int, d: MediumDraws)
      modifies this, player`controls
      ensures var (mem, c) := MediumTick(m, old(Memory()), player.isIt, BodyOf(player), player.height,
                                         old(player.controls), BodyOf(target), degenerate, platforms, now, d);
        Memory() == mem && player.controls == c
    {
      ghost var mem0, self, seen, c0 := Memory(), BodyOf(player), BodyOf(target), player.controls;
      ghost var mem1 := Recorded(mem0, player.isIt, seen, now, d);
      UpdateMovementHistory(target, now);
      if now - strategyTimer > MEDIUM_STRATEGY_PERIOD {
        strategy := SelectStrategy(player.isIt, d.strategy);
        strategyTimer := now;
      }
      assert Memory() == mem1;
      if now - lastDecision > MEDIUM_DECISION_INTERVAL {
        ghost var ch := MediumDecide(m, player.isIt, self, player.height, c0, seen, mem1.history, degenerate,
                                     mem1.strategy, platforms, mem1.stuckTimer, mem1.lastJump, mem1.lastSkillUse,
                                     now, d);
        MakeDecision(m, target, platforms, degenerate, now, d);
        assert BodyOf(player) == self && BodyOf(target) == seen;
        assert player.controls == ch.controls && stuckTimer == ch.stuckTimer &&
               lastJump == ch.lastJump && lastSkillUse == ch.lastSkillUse;
        lastDecision := now;
        stuckTimer := StuckStep(stuckTimer, lastPosition, Point(player.x, player.y), MEDIUM_DECISION_INTERVAL);
        lastPosition := Point(player.x, player.y);
      }
    }
  }

  // ----- properties -----

  /** With fewer than five samples the prediction is the target's own position. */
  lemma FewSamplesPredictTarget(history: seq<Sample>, target: Body, degenerate: Point)
    requires |history| < PREDICTION_WINDOW
    ensures Predict(history, target, degenerate) == Point(target.x, target.y)
  {
  }

  /** A target whose last five samples share one velocity (with distinct last two timestamps) is
      predicted ten velocity steps ahead: the mean is that velocity and the acceleration is zero. */
  lemma SteadyTargetPrediction(history: seq<Sample>, target: Body, degenerate: Point, vx: real, vy: real)
    requires |history| >= PREDICTION_WINDOW
    requires forall i :: |history| - 5 <= i < |history| ==> history[i].vx == vx && history[i].vy == vy
    requires history[|history| - 1].timestamp != history[|history| - 2].timestamp
    ensures Predict(history, target, degenerate) == Point(target.x + vx * 10.0, target.y + vy * 10.0)
  {
    var recent := Last(history, PREDICTION_WINDOW);
    assert forall i :: 0 <= i < 5 ==> recent[i] == history[|history| - 5 + i];
    SteadySums(recent, vx, vy);
  }

  /** A stuck bot only jumps, pressing both sides exactly when in a corner and neither otherwise;
      it resets the stuck timer and skips the jump and dash steps (no dash, timestamps kept). */
  lemma StuckBotJumpsOut(m: MathLib, isIt: bool, self: Body, height: real, controls: Controls,
                         target: Body, history: seq<Sample>, degenerate: Point, s: Strategy,
                         ps: seq<Platform>, stuckTimer: int, lastJump: int, lastSkillUse: int,
                         now: int, d: MediumDraws)
    requires stuckTimer > MEDIUM_STUCK_LIMIT
    ensures var ch := MediumDecide(m, isIt, self, height, controls, target, history, degenerate, s, ps,
                                   stuckTimer, lastJump, lastSkillUse, now, d);
      ch.controls.up && !ch.controls.dash && ch.stuckTimer == 0 &&
      ch.lastJump == lastJump && ch.lastSkillUse == lastSkillUse &&
      ch.controls.left == ch.controls.right &&
      (ch.controls.left <==> exists i :: 0 <= i < |ps| && NearSomeEdge(self.x, ps[i]))
  {
  }

  /** A chaser presses a side only within its strategy's chase range, toward the prediction. */
  lemma ChaserPressesOnlyInRange(m: MathLib, c: Controls, self: Body, target: Body, prediction: Point,
                                 s: Strategy, ps: seq<Platform>, d: MediumDraws)
    requires !c.left && !c.right
    ensures var r := MediumSteer(m, true, c, self, target, prediction, s, ps, d);
      var distance := Dist(m, target.x - self.x, target.y - self.y);
      ((r.left || r.right) <==> distance < s.chaseThreshold && d.chaseAim < 0.9) &&
      (r.right ==> prediction.x > self.x) && (r.left ==> prediction.x <= self.x)
  {
  }

  /** An escaper presses a side exactly within its retreat range: toward the safest platform's
      centre when there are platforms, directly away from the target when there are none. */
  lemma EscaperHeadsForSafety(m: MathLib, c: Controls, self: Body, target: Body, prediction: Point,
                              s: Strategy, ps: seq<Platform>, d: MediumDraws)
    requires !c.left && !c.right
    ensures var r := MediumSteer(m, false, c, self, target, prediction, s, ps, d);
      var distance := Dist(m, target.x - self.x, target.y - self.y);
      ((r.left || r.right) <==> distance < s.retreatThreshold) && !(r.left && r.right) &&
      (distance < s.retreatThreshold && |ps| == 0 ==>
         (r.left <==> target.x > self.x)) &&
      (distance < s.retreatThreshold && |ps| > 0 ==>
         var p := FindSafePlatform(m, self, ps).value;
         (r.right <==> p.x + p.width / 2.0 > self.x))
  {
  }

  /** Outside the stuck case, `up` and `dash` are set exactly when their cooldown has passed and
      their test holds, and their timestamps move exactly then. */
  lemma JumpAndDashExactlyWhenDue(m: MathLib, isIt: bool, self: Body, height: real, controls: Controls,
                                  target: Body, history: seq<Sample>, degenerate: Point, s: Strategy,
                                  ps: seq<Platform>, stuckTimer: int, lastJump: int, lastSkillUse: int,
                                  now: int, d: MediumDraws)
    requires stuckTimer <= MEDIUM_STUCK_LIMIT
    ensures var ch := MediumDecide(m, isIt, self, height, controls, target, history, degenerate, s, ps,
                                   stuckTimer, lastJump, lastSkillUse, now, d);
      var distance := Dist(m, target.x - self.x, target.y - self.y);
      var prediction := Predict(history, target, degenerate);
      var steered := MediumSteer(m, isIt, Cleared(controls), self, target, prediction, s, ps, d);
      (ch.controls.dash <==> now - lastSkillUse > MEDIUM_SKILL_COOLDOWN && MediumShouldDash(isIt, distance, s)) &&
      (ch.lastSkillUse != lastSkillUse <==> ch.controls.dash) &&
      (ch.controls.up <==> now - lastJump > MEDIUM_JUMP_COOLDOWN &&
                           MediumShouldJump(prediction, self, height, steered, ps, s, d)) &&
      (ch.lastJump != lastJump <==> ch.controls.up) &&
      (ch.controls.up ==> now - lastJump > MEDIUM_JUMP_COOLDOWN) &&
      ch.stuckTimer == stuckTimer
  {
  }

  /** Every call records one sample and keeps at most 20; the strategy changes only when its
      three-second timer has run out, and then to one fitting the role. */
  lemma TickRecordsAndReselects(m: MathLib, mem: MediumMemory, isIt: bool, self: Body, height: real,
                                controls: Controls, target: Body, degenerate: Point, ps: seq<Platform>,
                                now: int, d: MediumDraws)
    requires |mem.history| <= MEDIUM_HISTORY_CAP
    ensures var (mem2, c) := MediumTick(m, mem, isIt, self, height, controls, target, degenerate, ps, now, d);
      |mem2.history| <= MEDIUM_HISTORY_CAP && mem2.history[|mem2.history| - 1] == SampleOf(target, now) &&
      (now - mem.strategyTimer <= MEDIUM_STRATEGY_PERIOD ==> mem2.strategy == mem.strategy) &&
      (now - mem.strategyTimer > MEDIUM_STRATEGY_PERIOD ==>
         mem2.strategyTimer == now && (if isIt then mem2.strategy != DEFENSIVE else mem2.strategy != AGGRESSIVE))
  {
    PushedIsBoundedFifo(mem.history, SampleOf(target, now), MEDIUM_HISTORY_CAP);
    var mem1 := Recorded(mem, isIt, target, now, d);
    var mem2 := MediumTick(m, mem, isIt, self, height, controls, target, degenerate, ps, now, d).0;
    assert mem2.history == mem1.history && mem2.strategy == mem1.strategy &&
           mem2.strategyTimer == mem1.strategyTimer;
  }

  /** Between decisions (at most 500 ms since the last) the controls and the stuck timer are
      left as they are. */
  lemma TickWaitsBetweenDecisions(m: MathLib, mem: MediumMemory, isIt: bool, self: Body, height: real,
                                  controls: Controls, target: Body, degenerate: Point, ps: seq<Platform>,
                                  now: int, d: MediumDraws)
    requires now - mem.lastDecision <= MEDIUM_DECISION_INTERVAL
    ensures var (mem2, c) := MediumTick(m, mem, isIt, self, height, controls, target, degenerate, ps, now, d);
      c == controls && mem2.stuckTimer == mem.stuckTimer && mem2.lastDecision == mem.lastDecision
  {
  }
}
