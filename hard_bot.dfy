/** The hard bot (hardBot.js): every 300 ms it records the target, re-picks one of six
    strategies by role and distance every two seconds, steers by that strategy (direct,
    predictive or intercepting chase; emergency, platform or positional escape), and jumps
    and dashes on their own cooldowns, breaking out when stuck. Its single `Math.random()`
    (in `handleStuckSituation`) is the parameter `toggle`. */
module HardBotEngine {
  import opened Common
  import opened Constants
  import opened Platforms
  import opened Actors
  import opened BotKit

  const HARD_DECISION_INTERVAL: int := 300
  const HARD_SKILL_COOLDOWN: int := 2000
  const HARD_JUMP_COOLDOWN: int := 500
  const HARD_HISTORY_CAP: nat := 10
  const HARD_STRATEGY_PERIOD: int := 2000
  const HARD_STUCK_LIMIT: int := 1000
  /** `evaluateEscapeSpace` probes every 50 px up to 300 px: six probes. */
  const ESCAPE_STEP: int := 50
  const ESCAPE_PROBES: nat := 6
  const REACH_LIMIT: real := 300.0

  /** The strategy strings `'direct'`, `'predict'`, `'intercept'`, `'emergency_escape'`,
      `'platform_escape'` and `'position'`. */
  datatype HardStrategy = Direct | Predict | Intercept | EmergencyEscape | PlatformEscape | Position

  predicate ChaseLabel(s: HardStrategy) {
    s.Direct? || s.Predict? || s.Intercept?
  }

  /** `updateStrategy`'s choice once its timer has run out. */
  function ChooseStrategy(isIt: bool, distance: real): (r: HardStrategy)
    ensures isIt ==> ChaseLabel(r)
    ensures isIt ==> (r == Intercept <==> distance > 300.0) && (r == Direct <==> distance < 100.0) &&
                     (r == Predict <==> 100.0 <= distance <= 300.0)
    ensures !isIt ==> !ChaseLabel(r)
    ensures !isIt ==> (r == EmergencyEscape <==> distance < 150.0) &&
                      (r == PlatformEscape <==> 150.0 <= distance < 300.0) &&
                      (r == Position <==> 300.0 <= distance)
  {
    if isIt then
      if distance > 300.0 then Intercept else if distance < 100.0 then Direct else Predict
    else
      if distance < 150.0 then EmergencyEscape else if distance < 300.0 then PlatformEscape else Position
  }

  /** `predictTargetPosition(target)`: with two samples or more, the target moved five times the
      mean velocity of the last (up to) three samples. */
  function PredictPosition(h: seq<Sample>, target: Body): Point {
    if |h| < 2 then Point(target.x, target.y)
    else
      var recent := Last(h, 3);
      var n := |recent| as real;
      Point(target.x + SumVx(recent) / n * 5.0, target.y + SumVy(recent) / n * 5.0)
  }

  /** `calculateInterceptionPoint(target)`: the prediction moved on by the target's velocity for
      as long as the bot needs to reach it at `player.speed`, which the constructor sets to
      `MOVE_SPEED`. */
  function InterceptionPoint(m: MathLib, self: Body, h: seq<Sample>, target: Body): Point {
    var pred := PredictPosition(h, target);
    var t := Dist(m, pred.x - self.x, pred.y - self.y) / MOVE_SPEED;
    Point(pred.x + target.vx * t, pred.y + target.vy * t)
  }

  // ----- escape space -----

  /** `direction * step` for the directions -1 and 1. */
  function StepOf(side: Side): real {
    if side == ToLeft then -ESCAPE_STEP as real else ESCAPE_STEP as real
  }

  /** The probe position after `k` steps from `x0`. */
  function ProbeX(x0: real, step: real, k: nat): real {
    if k == 0 then x0 else ProbeX(x0, step, k - 1) + step
  }

  /** The test inside `evaluateEscapeSpace`'s `some`. */
  predicate Supports(x: real, y: real, p: Platform) {
    x >= p.x && x <= p.x + p.width && Abs(p.y - y) < 100.0
  }

  function HasPlatformAt(x: real, y: real, ps: seq<Platform>): (r: bool)
    ensures r <==> exists i :: 0 <= i < |ps| && Supports(x, y, ps[i])
  {
    AnyPlatform(ps, p => Supports(x, y, p))
  }

  /** The space counted by the first `k` probes. */
  function SpaceOver(x0: real, y: real, step: real, ps: seq<Platform>, k: nat): int {
    if k == 0 then 0
    else SpaceOver(x0, y, step, ps, k - 1) + (if HasPlatformAt(ProbeX(x0, step, k), y, ps) then ESCAPE_STEP else 0)
  }

  /** `evaluateEscapeSpace(direction, platforms)` from the bot at (x0, y). */
  function EscapeSpace(x0: real, y: real, side: Side, ps: seq<Platform>): int {
    SpaceOver(x0, y, StepOf(side), ps, ESCAPE_PROBES)
  }

  /** `findEmergencyEscapeDirection`: away from the target unless that side has at most half
      the other side's space. */
  function EscapeDirection(dx: real, leftSpace: int, rightSpace: int): Side {
    if dx > 0.0 then (if leftSpace as real > rightSpace as real / 2.0 then ToLeft else ToRight)
    else (if rightSpace as real > leftSpace as real / 2.0 then ToRight else ToLeft)
  }

  // ----- platform and position scoring -----

  /** `findSafestPlatform`'s score: far from the target, counting half the distance from the bot against it. */
  function EscapeScore(m: MathLib, self: Body, target: Body, p: Platform): real {
    Dist(m, p.x + p.width / 2.0 - target.x, p.y - target.y) -
    Dist(m, p.x + p.width / 2.0 - self.x, p.y - self.y) / 2.0
  }

  function EscapeScores(m: MathLib, self: Body, target: Body, ps: seq<Platform>): (r: seq<real>)
    ensures |r| == |ps| && forall i :: 0 <= i < |ps| ==> r[i] == EscapeScore(m, self, target, ps[i])
  {
    seq(|ps|, i requires 0 <= i < |ps| => EscapeScore(m, self, target, ps[i]))
  }

  /** `findSafestPlatform(platforms, target)`: element 0 of the stable sort by descending score,
      that is the first platform of greatest score; none for an empty list. */
  function FindSafestPlatform(m: MathLib, self: Body, target: Body, ps: seq<Platform>): (r: Option<Platform>)
    ensures r.None? <==> |ps| == 0
    ensures r.Some? ==> exists k :: (0 <= k < |ps| && r.value == ps[k] &&
      (forall j :: 0 <= j < |ps| ==> EscapeScore(m, self, target, ps[j]) <= EscapeScore(m, self, target, ps[k])) &&
      (forall j :: 0 <= j < k ==> EscapeScore(m, self, target, ps[j]) < EscapeScore(m, self, target, ps[k])))
  {
    match FirstMax(EscapeScores(m, self, target, ps))
    case Some(k) => Some(ps[k])
    case None => None
  }

  /** `evaluatePosition(platform, target)`. */
  function PositionScore(m: MathLib, target: Body, p: Platform): real {
    Dist(m, p.x + p.width / 2.0 - target.x, p.y - target.y) * 0.5 + (target.y - p.y) * 0.3 + p.width * 0.2
  }

  function PositionScores(m: MathLib, target: Body, ps: seq<Platform>): (r: seq<real>)
    ensures |r| == |ps| && forall i :: 0 <= i < |ps| ==> r[i] == PositionScore(m, target, ps[i])
  {
    seq(|ps|, i requires 0 <= i < |ps| => PositionScore(m, target, ps[i]))
  }

  /** `findStrategicPosition(platforms, target)`: the top centre of the first platform of
      greatest position score; none for an empty list. */
  function FindStrategicPosition(m: MathLib, target: Body, ps: seq<Platform>): (r: Option<Point>)
    ensures r.None? <==> |ps| == 0
    ensures r.Some? ==> exists k :: (0 <= k < |ps| && r.value == Point(ps[k].x + ps[k].width / 2.0, ps[k].y) &&
      (forall j :: 0 <= j < |ps| ==> PositionScore(m, target, ps[j]) <= PositionScore(m, target, ps[k])) &&
      (forall j :: 0 <= j < k ==> PositionScore(m, target, ps[j]) < PositionScore(m, target, ps[k])))
  {
    match FirstMax(PositionScores(m, target, ps))
    case Some(k) => Some(Point(ps[k].x + ps[k].width / 2.0, ps[k].y))
    case None => None
  }

  // ----- path finding -----

  /** Both endpoints of a segment strictly beyond the same side of a rectangle. */
  predicate OneOuterSide(x1: real, y1: real, x2: real, y2: real, rx: real, ry: real, rw: real, rh: real) {
    (x1 < rx && x2 < rx) || (x1 > rx + rw && x2 > rx + rw) ||
    (y1 < ry && y2 < ry) || (y1 > ry + rh && y2 > ry + rh)
  }

  /** `lineIntersectsRectangle`: every segment not wholly beyond one side counts as blocked,
      whether or not an endpoint lies inside. */
  function LineIntersectsRectangle(x1: real, y1: real, x2: real, y2: real,
                                   rx: real, ry: real, rw: real, rh: real): (r: bool)
    ensures !r <==> OneOuterSide(x1, y1, x2, y2, rx, ry, rw, rh)
  {
    var left, right, top, bottom := rx, rx + rw, ry, ry + rh;
    if x1 < left && x2 < left then false
    else if x1 > right && x2 > right then false
    else if y1 < top && y2 < top then false
    else if y1 > bottom && y2 > bottom then false
    else if x1 >= left && x1 <= right && y1 >= top && y1 <= bottom then true
    else if x2 >= left && x2 <= right && y2 >= top && y2 <= bottom then true
    else true
  }

  predicate Blocks(from: Point, to: Point, p: Platform) {
    LineIntersectsRectangle(from.x, from.y, to.x, to.y, p.x, p.y, p.width, p.height)
  }

  /** `isReachable(from, to, platforms)`: within 300 and blocked by no platform. */
  predicate IsReachable(m: MathLib, from: Point, to: Point, ps: seq<Platform>) {
    !(Dist(m, to.x - from.x, to.y - from.y) > REACH_LIMIT) && !AnyPlatform(ps, p => Blocks(from, to, p))
  }

  function TopLeft(p: Platform): Point {
    Point(p.x, p.y)
  }

  function TopRight(p: Platform): Point {
    Point(p.x + p.width, p.y)
  }

  /** `platforms.map(p => [top-left, top-right]).flat()`. */
  function Corners(ps: seq<Platform>): (r: seq<Point>)
    decreases |ps|
    ensures |r| == 2 * |ps|
    ensures forall q :: q in r ==> exists i :: 0 <= i < |ps| && (q == TopLeft(ps[i]) || q == TopRight(ps[i]))
  {
    if |ps| == 0 then []
    else
      var front := ps[..|ps| - 1];
      var pre := Corners(front);
      assert forall i :: 0 <= i < |front| ==> front[i] == ps[i];
      pre + [TopLeft(ps[|ps| - 1]), TopRight(ps[|ps| - 1])]
  }

  /** `points.filter(p => this.isReachable(start, p, platforms))`. */
  function ReachableFrom(m: MathLib, from: Point, pts: seq<Point>, ps: seq<Platform>): (r: seq<Point>)
    decreases |pts|
    ensures forall q :: q in r <==> q in pts && IsReachable(m, from, q, ps)
  {
    if |pts| == 0 then []
    else (if IsReachable(m, from, pts[0], ps) then [pts[0]] else []) + ReachableFrom(m, from, pts[1..], ps)
  }

  /** `getDistance` of a point from the bot, the sort key of `findBestPath`. */
  function PathKey(m: MathLib, from: Point, q: Point): real {
    Dist(m, q.x - from.x, q.y - from.y)
  }

  /** The comparator `(a, b) => key(a) - key(b)` of `findBestPath`'s sort, with `key` given as a
      function so that the sorting proofs do not depend on what the key computes. */
  predicate SortedBy(key: Point -> real, s: seq<Point>) {
    forall i, j :: 0 <= i < j < |s| ==> key(s[i]) <= key(s[j])
  }

  /** Inserting before the first element that is at least as far keeps equal keys in
      their original order. */
  function InsertBy(key: Point -> real, q: Point, s: seq<Point>): (r: seq<Point>)
    decreases |s|
    ensures multiset(r) == multiset(s) + multiset{q}
  {
    if |s| == 0 then [q]
    else if key(q) <= key(s[0]) then [q] + s
    else
      assert s == [s[0]] + s[1..];
      [s[0]] + InsertBy(key, q, s[1..])
  }

  /** The stable sort of `Array.prototype.sort` by ascending key. */
  function SortBy(key: Point -> real, s: seq<Point>): (r: seq<Point>)
    decreases |s|
    ensures multiset(r) == multiset(s)
  {
    if |s| == 0 then []
    else
      assert s == [s[0]] + s[1..];
      InsertBy(key, s[0], SortBy(key, s[1..]))
  }

  /** `findBestPath(start, end, platforms)`: the reachable platform corners and the goal,
      nearest first. */
  function FindBestPath(m: MathLib, start: Point, end: Point, ps: seq<Platform>): (r: seq<Point>)
    ensures forall q :: q in r <==> q in Corners(ps) + [end] && IsReachable(m, start, q, ps)
  {
    var found := ReachableFrom(m, start, Corners(ps) + [end], ps);
    var r := SortBy(q => PathKey(m, start, q), found);
    assert forall q :: q in r <==> q in multiset(r);
    assert forall q :: q in found <==> q in multiset(found);
    r
  }

  // ----- jumping and dashing -----

  predicate LeftBlocking(self: Body, p: Platform) {
    p.x > self.x - 50.0 && p.x < self.x && Abs(p.y - self.y) < 50.0
  }

  predicate RightBlocking(self: Body, p: Platform) {
    p.x + p.width > self.x && p.x + p.width < self.x + 50.0 && Abs(p.y - self.y) < 50.0
  }

  /** `isInCorner(platforms)`: a platform's left edge just left of the bot, or its right edge
      just right of it, at about the bot's height. */
  function HardInCorner(self: Body, ps: seq<Platform>): (r: bool)
    ensures r <==> exists i :: 0 <= i < |ps| && (LeftBlocking(self, ps[i]) || RightBlocking(self, ps[i]))
  {
    AnyPlatform(ps, p => LeftBlocking(self, p)) || AnyPlatform(ps, p => RightBlocking(self, p))
  }

  /** One platform of `isObstacleAhead`: a platform top within one and a half heights below
      the bot's top, spanning the point 100 ahead in the direction the controls now point. */
  predicate ObstacleAt(self: Body, height: real, right: bool, p: Platform) {
    var futureX := self.x + (if right then 100.0 else -100.0);
    p.y < self.y + height * 1.5 && p.y > self.y && futureX > p.x && futureX < p.x + p.width
  }

  function IsObstacleAhead(self: Body, height: real, right: bool, ps: seq<Platform>): (r: bool)
    ensures r <==> exists i :: 0 <= i < |ps| && ObstacleAt(self, height, right, ps[i])
  {
    AnyPlatform(ps, p => ObstacleAt(self, height, right, p))
  }

  /** `shouldJump(target, platforms)`, with the controls as the strategy left them. */
  predicate HardShouldJump(isIt: bool, prediction: Point, self: Body, height: real, c: Controls,
                           ps: seq<Platform>) {
    (isIt && prediction.y < self.y - 30.0) || (!isIt && HardInCorner(self, ps)) ||
    IsObstacleAhead(self, height, c.right, ps)
  }

  /** `shouldUseDash(target)`. */
  predicate HardShouldDash(isIt: bool, distance: real) {
    if isIt then distance < 200.0 && distance > 50.0 else distance < 100.0
  }

  // ----- the decision -----

  /** The chaser's half of `makeDecision`'s switch: `executeDirectChase`,
      `executePredictiveChase`, `executeInterception`; an escape label does nothing. */
  function ChaseSteer(m: MathLib, s: HardStrategy, c: Controls, self: Body, target: Body,
                      h: seq<Sample>, ps: seq<Platform>): (r: Controls)
    ensures r == c.(left := r.left, right := r.right)
  {
    match s
    case Direct => Press(c, Toward(target.x - self.x))
    case Predict => Press(c, Toward(PredictPosition(h, target).x - self.x))
    case Intercept =>
      var path := FindBestPath(m, Point(self.x, self.y), InterceptionPoint(m, self, h, target), ps);
      if |path| > 0 then Press(c, Toward(path[0].x - self.x)) else c
    case _ => c
  }

  /** `executeEmergencyEscape(target, platforms)`: the escape direction's side, and `up` when the
      safest platform is more than 50 above the bot. */
  function EmergencySteer(m: MathLib, c: Controls, self: Body, target: Body, ps: seq<Platform>): (r: Controls)
    ensures r == c.(left := r.left, right := r.right, up := r.up)
  {
    var side := EscapeDirection(target.x - self.x, EscapeSpace(self.x, self.y, ToLeft, ps),
                                EscapeSpace(self.x, self.y, ToRight, ps));
    var c1 := Press(c, side);
    var nearest := FindSafestPlatform(m, self, target, ps);
    if nearest.Some? && nearest.value.y < self.y - 50.0 then c1.(up := true) else c1
  }

  /** The escaper's half of the switch: `executeEmergencyEscape`, `executePlatformEscape`,
      `executePositioning`; a chase label does nothing. */
  function EscapeSteer(m: MathLib, s: HardStrategy, c: Controls, self: Body, target: Body,
                       ps: seq<Platform>): (r: Controls)
    ensures r == c.(left := r.left, right := r.right, up := r.up)
    ensures r.up != c.up ==> s == EmergencyEscape
  {
    match s
    case EmergencyEscape => EmergencySteer(m, c, self, target, ps)
    case PlatformEscape =>
      (match FindSafestPlatform(m, self, target, ps)
       case Some(p) => Press(c, Toward(p.x + p.width / 2.0 - self.x))
       case None => c)
    case Position =>
      (match FindStrategicPosition(m, target, ps)
       case Some(q) => Press(c, Toward(q.x - self.x))
       case None => c)
    case _ => c
  }

  /** The `switch (this.currentStrategy)` of `makeDecision`, by role. Only the emergency
      escape may press `up`. */
  function HardSteer(m: MathLib, isIt: bool, s: HardStrategy, c: Controls, self: Body, target: Body,
                     h: seq<Sample>, ps: seq<Platform>): (r: Controls)
    ensures r == c.(left := r.left, right := r.right, up := r.up)
    ensures r.up != c.up ==> !isIt && s == EmergencyEscape
  {
    if isIt then ChaseSteer(m, s, c, self, target, h, ps) else EscapeSteer(m, s, c, self, target, ps)
  }

  /** Everything `makeDecision` writes. */
  datatype HardChoice = HardChoice(controls: Controls, stuckTimer: int, lastJump: int, lastSkillUse: int)

  /** `makeDecision` past the stuck check, from the cleared controls `c0`: steer by strategy,
      then jump and dash when due. */
  function HardPursuit(m: MathLib, isIt: bool, s: HardStrategy, self: Body, height: real, c0: Controls,
                       target: Body, h: seq<Sample>, ps: seq<Platform>, stuckTimer: int, lastJump: int,
                       lastSkillUse: int, now: int): HardChoice {
    var c1 := HardSteer(m, isIt, s, c0, self, target, h, ps);
    var distance := Dist(m, target.x - self.x, target.y - self.y);
    var jump := now - lastJump > HARD_JUMP_COOLDOWN &&
                HardShouldJump(isIt, PredictPosition(h, target), self, height, c1, ps);
    var dash := now - lastSkillUse > HARD_SKILL_COOLDOWN && HardShouldDash(isIt, distance);
    HardChoice(c1.(up := c1.up || jump, dash := dash), stuckTimer,
               if jump then now else lastJump, if dash then now else lastSkillUse)
  }

  /** `makeDecision(target, platforms)`. */
  function HardDecide(m: MathLib, isIt: bool, s: HardStrategy, self: Body, height: real, controls: Controls,
                      target: Body, h: seq<Sample>, ps: seq<Platform>, stuckTimer: int, lastJump: int,
                      lastSkillUse: int, now: int, toggle: real): HardChoice {
    var c0 := Cleared(controls);
    if stuckTimer > HARD_STUCK_LIMIT then
      HardChoice(Unstick(c0, toggle > 0.5), 0, lastJump, lastSkillUse)
    else HardPursuit(m, isIt, s, self, height, c0, target, h, ps, stuckTimer, lastJump, lastSkillUse, now)
  }

  /** The bot's own state. */
  datatype HardMemory = HardMemory(lastDecision: int, lastSkillUse: int, lastJump: int,
                                   predictions: seq<Sample>, strategyTimer: int, strategy: HardStrategy,
                                   lastPosition: Point, stuckTimer: int)

  /** The first steps of a decision: record the target, and re-pick the strategy when its
      timer has run out. */
  function HardRecorded(m: MathLib, mem: HardMemory, isIt: bool, self: Body, target: Body, now: int): HardMemory {
    var h := Pushed(mem.predictions, SampleOf(target, now), HARD_HISTORY_CAP);
    var distance := Dist(m, target.x - self.x, target.y - self.y);
    if now - mem.strategyTimer > HARD_STRATEGY_PERIOD then
      mem.(predictions := h, strategyTimer := now, strategy := ChooseStrategy(isIt, distance))
    else mem.(predictions := h)
  }

  /** One call of `update(target, platforms)`: nothing happens between decisions; a decision
      records the target, maybe re-picks the strategy, decides and updates stuck detection. */
  function HardTick(m: MathLib, mem: HardMemory, isIt: bool, self: Body, height: real, controls: Controls,
                    target: Body, ps: seq<Platform>, now: int, toggle: real): (HardMemory, Controls) {
    if now - mem.lastDecision > HARD_DECISION_INTERVAL then
      var mem1 := HardRecorded(m, mem, isIt, self, target, now);
      var ch := HardDecide(m, isIt, mem1.strategy, self, height, controls, target, mem1.predictions, ps,
                           mem1.stuckTimer, mem1.lastJump, mem1.lastSkillUse, now, toggle);
      var here := Point(self.x, self.y);
      (mem1.(lastDecision := now, lastJump := ch.lastJump, lastSkillUse := ch.lastSkillUse,
             stuckTimer := StuckStep(ch.stuckTimer, mem1.lastPosition, here, HARD_DECISION_INTERVAL),
             lastPosition := here),
       ch.controls)
    else (mem, controls)
  }

  class HardBot {
    const player: Player
    var lastDecision: int
    var lastSkillUse: int
    var lastJump: int
    var targetPredictions: seq<Sample>
    var strategyTimer: int
    var currentStrategy: HardStrategy
    var lastPosition: Point
    var stuckTimer: int

    function Memory(): HardMemory
      reads this
    {
      HardMemory(lastDecision, lastSkillUse, lastJump, targetPredictions, strategyTimer,
                 currentStrategy, lastPosition, stuckTimer)
    }

    /** `new HardBot(player)`. */
    constructor (player: Player)
      ensures this.player == player
      ensures Memory() == HardMemory(0, 0, 0, [], 0, Direct, Point(player.x, player.y), 0)
    {
      this.player := player;
      lastDecision, lastSkillUse, lastJump := 0, 0, 0;
      targetPredictions := [];
      strategyTimer := 0;
      currentStrategy := Direct;
      lastPosition := Point(player.x, player.y);
      stuckTimer := 0;
    }

    /** `updateTargetPredictions(target)`. */
    method UpdateTargetPredictions(target: Player, now: int)
      modifies this`targetPredictions
      ensures targetPredictions == Pushed(old(targetPredictions), SampleOf(BodyOf(target), now), HARD_HISTORY_CAP)
    {
      targetPredictions := targetPredictions + [Sample(target.x, target.y, target.vx, target.vy, now)];
      if |targetPredictions| > HARD_HISTORY_CAP {
        targetPredictions := targetPredictions[1..];
      }
    }

    /** `updateStrategy(target, platforms)`. */
    method UpdateStrategy(m: MathLib, target: Player, now: int)
      modifies this`strategyTimer, this`currentStrategy
      ensures old(now - strategyTimer > HARD_STRATEGY_PERIOD) ==>
        strategyTimer == now &&
        currentStrategy == ChooseStrategy(player.isIt, Dist(m, target.x - player.x, target.y - player.y))
      ensures old(now - strategyTimer <= HARD_STRATEGY_PERIOD) ==>
        strategyTimer == old(strategyTimer) && currentStrategy == old(currentStrategy)
    {
      if now - strategyTimer > HARD_STRATEGY_PERIOD {
        strategyTimer := now;
        var distance := Dist(m, target.x - player.x, target.y - player.y);
        if player.isIt {
          if distance > 300.0 {
            currentStrategy := Intercept;
          } else if distance < 100.0 {
            currentStrategy := Direct;
          } else {
            currentStrategy := Predict;
          }
        } else {
          if distance < 150.0 {
            currentStrategy := EmergencyEscape;
          } else if distance < 300.0 {
            currentStrategy := PlatformEscape;
          } else {
            currentStrategy := Position;
          }
        }
      }
    }

    /** `evaluateEscapeSpace(direction, platforms)`: 50 for each of the six probes that finds
        a platform near the bot's height. */
    method EvaluateEscapeSpace(direction: Side, platforms: seq<Platform>) returns (space: int)
      ensures space == EscapeSpace(player.x, player.y, direction, platforms)
    {
      var step := StepOf(direction);
      var y := player.y;
      space := 0;
      var x := player.x;
      var i := 0;
      ghost var k: nat := 0;
      while i < ESCAPE_PROBES * ESCAPE_STEP
        invariant i == ESCAPE_STEP * k && k <= ESCAPE_PROBES
        invariant x == ProbeX(player.x, step, k)
        invariant space == SpaceOver(player.x, y, step, platforms, k)
      {
        x := x + step;
        k := k + 1;
        if HasPlatformAt(x, y, platforms) {
          space := space + ESCAPE_STEP;
        }
        i := i + ESCAPE_STEP;
      }
    }

    /** `findEmergencyEscapeDirection(target, platforms)`. */
    method FindEmergencyEscapeDirection(target: Player, platforms: seq<Platform>) returns (side: Side)
      ensures side == EscapeDirection(target.x - player.x, EscapeSpace(player.x, player.y, ToLeft, platforms),
                                      EscapeSpace(player.x, player.y, ToRight, platforms))
    {
      var dx := target.x - player.x;
      var leftSpace := EvaluateEscapeSpace(ToLeft, platforms);
      var rightSpace := EvaluateEscapeSpace(ToRight, platforms);
      if dx > 0.0 {
        side := if leftSpace as real > rightSpace as real / 2.0 then ToLeft else ToRight;
      } else {
        side := if rightSpace as real > leftSpace as real / 2.0 then ToRight else ToLeft;
      }
    }

    /** `executeEmergencyEscape(target, platforms)`. */
    method ExecuteEmergencyEscape(m: MathLib, target: Player, platforms: seq<Platform>)
      modifies player`controls
      ensures player.controls == EmergencySteer(m, old(player.controls), BodyOf(player), BodyOf(target), platforms)
    {
      ghost var self, seen, c0 := BodyOf(player), BodyOf(target), player.controls;
      var side := FindEmergencyEscapeDirection(target, platforms);
      var nearest := FindSafestPlatform(m, BodyOf(player), BodyOf(target), platforms);
      var c := player.controls;
      if side == ToLeft {
        c := c.(left := true);
      } else {
        c := c.(right := true);
      }
      if nearest.Some? && nearest.value.y < player.y - 50.0 {
        c := c.(up := true);
      }
      assert c == (var c1 := Press(c0, side); if nearest.Some? && nearest.value.y < self.y - 50.0 then c1.(up := true) else c1);
      assert EmergencySteer(m, c0, self, seen, platforms) == c;
      player.controls := c;
      assert BodyOf(player) == self && BodyOf(target) == seen;
    }

    /** The chaser's strategies. */
    method ExecuteChase(m: MathLib, target: Player, platforms: seq<Platform>)
      modifies player`controls
      ensures player.controls == ChaseSteer(m, currentStrategy, old(player.controls), BodyOf(player),
                                            BodyOf(target), targetPredictions, platforms)
    {
      var self, seen := BodyOf(player), BodyOf(target);
      if currentStrategy == Direct {
        player.controls := Press(player.controls, Toward(target.x - player.x));
      } else if currentStrategy == Predict {
        var prediction := PredictPosition(targetPredictions, seen);
        player.controls := Press(player.controls, Toward(prediction.x - player.x));
      } else if currentStrategy == Intercept {
        var goal := InterceptionPoint(m, self, targetPredictions, seen);
        var bestPath := FindBestPath(m, Point(player.x, player.y), goal, platforms);
        if |bestPath| > 0 {
          player.controls := Press(player.controls, Toward(bestPath[0].x - player.x));
        }
      }
    }

    /** The escaper's strategies. */
    method ExecuteEscape(m: MathLib, target: Player, platforms: seq<Platform>)
      modifies player`controls
      ensures player.controls == EscapeSteer(m, currentStrategy, old(player.controls), BodyOf(player),
                                             BodyOf(target), platforms)
    {
      var self, seen := BodyOf(player), BodyOf(target);
      if currentStrategy == EmergencyEscape {
        ExecuteEmergencyEscape(m, target, platforms);
      } else if currentStrategy == PlatformEscape {
        var safe := FindSafestPlatform(m, self, seen, platforms);
        if safe.Some? {
          player.controls := Press(player.controls, Toward(safe.value.x + safe.value.width / 2.0 - player.x));
        }
      } else if currentStrategy == Position {
        var best := FindStrategicPosition(m, seen, platforms);
        if best.Some? {
          player.controls := Press(player.controls, Toward(best.value.x - player.x));
        }
      }
    }

    /** `makeDecision`'s switch. */
    method SteerByStrategy(m: MathLib, target: Player, platforms: seq<Platform>, ghost self: Body, ghost seen: Body)
      requires BodyOf(player) == self && BodyOf(target) == seen
      modifies player`controls
      ensures BodyOf(player) == self && BodyOf(target) == seen
      ensures player.controls == HardSteer(m, player.isIt, currentStrategy, old(player.controls), self, seen,
                                           targetPredictions, platforms)
    {
      if player.isIt {
        ExecuteChase(m, target, platforms);
      } else {
        ExecuteEscape(m, target, platforms);
      }
    }

    /** `handleStuckSituation(platforms)`; `toggle` is its `Math.random()`. */
    method HandleStuckSituation(toggle: real)
      modifies this`stuckTimer, player`controls
      ensures player.controls == Unstick(old(player.controls), toggle > 0.5)
      ensures stuckTimer == 0
    {
      player.controls := player.controls.(up := true);
      if toggle > 0.5 {
        player.controls := player.controls.(left := !player.controls.left, right := !player.controls.right);
      }
      stuckTimer := 0;
    }

    /** The part of `makeDecision` after the stuck check, on controls without `dash`. */
    method Pursue(m: MathLib, target: Player, platforms: seq<Platform>, now: int)
      modifies this`lastJump, this`lastSkillUse, player`controls
      ensures HardChoice(player.controls, stuckTimer, lastJump, lastSkillUse) ==
        HardPursuit(m, player.isIt, currentStrategy, BodyOf(player), player.height, old(player.controls),
                    BodyOf(target), targetPredictions, platforms, stuckTimer, old(lastJump), old(lastSkillUse), now)
    {
      var self, seen := BodyOf(player), BodyOf(target);
      ghost var c0, lastJump0, lastSkillUse0 := player.controls, lastJump, lastSkillUse;
      SteerByStrategy(m, target, platforms, self, seen);
      var steered := player.controls;
      var distance := Dist(m, seen.x - self.x, seen.y - self.y);
      var prediction := PredictPosition(targetPredictions, seen);
      var jump := now - lastJump > HARD_JUMP_COOLDOWN &&
                  HardShouldJump(player.isIt, prediction, self, player.height, steered, platforms);
      if jump {
        lastJump := now;
      }
      var dash := now - lastSkillUse > HARD_SKILL_COOLDOWN && HardShouldDash(player.isIt, distance);
      if dash {
        lastSkillUse := now;
      }
      player.controls := steered.(up := steered.up || jump, dash := dash);
      assert BodyOf(player) == self && BodyOf(target) == seen;
      assert HardChoice(player.controls, stuckTimer, lastJump, lastSkillUse) ==
        HardPursuit(m, player.isIt, currentStrategy, self, player.height, c0, seen, targetPredictions, platforms,
                    stuckTimer, lastJump0, lastSkillUse0, now);
    }

    /** `makeDecision(target, platforms)`; the history already holds this call's sample. */
    method MakeDecision(m: MathLib, target: Player, platforms: seq<Platform>, now: int, toggle: real)
      modifies this`stuckTimer, this`lastJump, this`lastSkillUse, player`controls
      ensures var ch := HardDecide(m, player.isIt, currentStrategy, BodyOf(player), player.height,
                                   old(player.controls), BodyOf(target), targetPredictions, platforms,
                                   old(stuckTimer), old(lastJump), old(lastSkillUse), now, toggle);
        player.controls == ch.controls && stuckTimer == ch.stuckTimer &&
        lastJump == ch.lastJump && lastSkillUse == ch.lastSkillUse
    {
      player.controls := Cleared(player.controls);
      if stuckTimer > HARD_STUCK_LIMIT {
        HandleStuckSituation(toggle);
        return;
      }
      Pursue(m, target, platforms, now);
    }

    /** `update(target, platforms)`. */
    method Update(m: MathLib, target: Player, platforms: seq<Platform>, now: int, toggle: real)
      modifies this, player`controls
      ensures var (mem, c) := HardTick(m, old(Memory()), player.isIt, BodyOf(player), player.height,
                                       old(player.controls), BodyOf(target), platforms, now, toggle);
        Memory() == mem && player.controls == c
    {
      ghost var mem0, self, seen, c0 := Memory(), BodyOf(player), BodyOf(target), player.controls;
      if now - lastDecision > HARD_DECISION_INTERVAL {
        ghost var mem1 := HardRecorded(m, mem0, player.isIt, self, seen, now);
        UpdateTargetPredictions(target, now);
        UpdateStrategy(m, target, now);
        assert Memory() == mem1;
        ghost var ch := HardDecide(m, player.isIt, mem1.strategy, self, player.height, c0, seen, mem1.predictions,
                                   platforms, mem1.stuckTimer, mem1.lastJump, mem1.lastSkillUse, now, toggle);
        MakeDecision(m, target, platforms, now, toggle);
        assert BodyOf(player) == self && BodyOf(target) == seen;
        assert player.controls == ch.controls && stuckTimer == ch.stuckTimer &&
               lastJump == ch.lastJump && lastSkillUse == ch.lastSkillUse;
        lastDecision := now;
        stuckTimer := StuckStep(stuckTimer, lastPosition, Point(player.x, player.y), HARD_DECISION_INTERVAL);
        lastPosition := Point(player.x, player.y);
      }
    }
  }

  // ----- properties -----

  /** The strategy the timer picks always fits the role, so between re-picks only a role
      change can leave the bot holding a label of the other role; such a label steers nothing. */
  lemma OffRoleLabelSteersNothing(m: MathLib, isIt: bool, s: HardStrategy, c: Controls, self: Body,
                                  target: Body, h: seq<Sample>, ps: seq<Platform>)
    requires isIt != ChaseLabel(s)
    ensures HardSteer(m, isIt, s, c, self, target, h, ps) == c
  {
  }

  /** With fewer than two samples the prediction is the target's own position. */
  lemma FewSamplesPredictTarget(h: seq<Sample>, target: Body)
    requires |h| < 2
    ensures PredictPosition(h, target) == Point(target.x, target.y)
  {
  }

  /** A target whose last (up to) three samples share one velocity is predicted five velocity
      steps ahead. */
  lemma SteadyTargetPrediction(h: seq<Sample>, target: Body, vx: real, vy: real)
    requires 2 <= |h|
    requires forall i :: 0 <= i < |h| && |h| - 3 <= i ==> h[i].vx == vx && h[i].vy == vy
    ensures PredictPosition(h, target) == Point(target.x + vx * 5.0, target.y + vy * 5.0)
  {
    var recent := Last(h, 3);
    var n := |recent| as real;
    assert forall i :: 0 <= i < |recent| ==> recent[i] == h[|h| - |recent| + i];
    SteadySums(recent, vx, vy);
    if |recent| == 2 {
      assert n == 2.0;
    } else {
      assert n == 3.0;
    }
  }

  /** A target that stands still now is intercepted at its prediction, whatever the history;
      seen for the first time, that is where it stands. */
  lemma StillTargetInterceptedInPlace(m: MathLib, self: Body, h: seq<Sample>, target: Body)
    requires target.vx == 0.0 && target.vy == 0.0
    ensures InterceptionPoint(m, self, h, target) == PredictPosition(h, target)
    ensures |h| < 2 ==> InterceptionPoint(m, self, h, target) == Point(target.x, target.y)
  {
  }

  /** Under a lawful square root the interception point leads the prediction along the target's
      velocity (parallel to it and in its direction), by a lead whose squared length is the
      target's squared speed times the squared time the bot needs, at `MOVE_SPEED`, to cover its
      distance to the prediction. */
  lemma InterceptionLeadsPrediction(m: MathLib, self: Body, h: seq<Sample>, target: Body)
    requires SqrtLawful(m)
    ensures var p := PredictPosition(h, target);
      var q := InterceptionPoint(m, self, h, target);
      var lx, ly := q.x - p.x, q.y - p.y;
      var dx, dy := p.x - self.x, p.y - self.y;
      lx * target.vy == ly * target.vx &&
      0.0 <= lx * target.vx + ly * target.vy &&
      (lx * lx + ly * ly) * (MOVE_SPEED * MOVE_SPEED) ==
        (target.vx * target.vx + target.vy * target.vy) * (dx * dx + dy * dy)
  {
    var p := PredictPosition(h, target);
    var dx, dy := p.x - self.x, p.y - self.y;
    var d := Dist(m, dx, dy);
    assert 0.0 <= dx * dx + dy * dy;
    assert 0.0 <= d && d * d == dx * dx + dy * dy;
    var t := d / MOVE_SPEED;
    assert 0.0 <= t;
    assert t * MOVE_SPEED == d;
    var vx, vy := target.vx, target.vy;
    var q := InterceptionPoint(m, self, h, target);
    assert q.x - p.x == vx * t && q.y - p.y == vy * t;
    var sp := vx * vx + vy * vy;
    var lx, ly := q.x - p.x, q.y - p.y;
    assert lx * lx + ly * ly == sp * (t * t);
    assert (t * t) * (MOVE_SPEED * MOVE_SPEED) == (t * MOVE_SPEED) * (t * MOVE_SPEED);
    assert (lx * lx + ly * ly) * (MOVE_SPEED * MOVE_SPEED) == sp * ((t * t) * (MOVE_SPEED * MOVE_SPEED));
    assert lx * vx + ly * vy == sp * t;
    assert 0.0 <= sp * t;
    assert lx * vy == ly * vx;
  }

  /** The k-th probe of `evaluateEscapeSpace` lies k steps from the start. */
  lemma {:induction false} ProbeXAt(x0: real, step: real, k: nat)
    ensures ProbeX(x0, step, k) == x0 + (k as real) * step
  {
    if k > 0 {
      ProbeXAt(x0, step, k - 1);
      assert ((k - 1) as real) * step + step == (k as real) * step;
    }
  }

  /** Space is counted in whole steps, at most one per probe, and none without platforms. */
  lemma {:induction false} SpaceOverInSteps(x0: real, y: real, step: real, ps: seq<Platform>, k: nat)
    ensures var s := SpaceOver(x0, y, step, ps, k);
      0 <= s <= ESCAPE_STEP * k && s % ESCAPE_STEP == 0 && (|ps| == 0 ==> s == 0)
  {
    if k > 0 {
      SpaceOverInSteps(x0, y, step, ps, k - 1);
    }
  }

  /** `evaluateEscapeSpace` returns a multiple of 50 between 0 and 300, and 0 without platforms. */
  lemma EscapeSpaceBounds(x0: real, y: real, side: Side, ps: seq<Platform>)
    ensures var s := EscapeSpace(x0, y, side, ps);
      0 <= s <= 300 && s % 50 == 0 && (|ps| == 0 ==> s == 0)
  {
    SpaceOverInSteps(x0, y, StepOf(side), ps, ESCAPE_PROBES);
  }

  /** The emergency escape runs away from the target whenever that side has at least as much
      room as the other and some room at all, and toward it when the far side has none. */
  lemma EscapeDirectionPrefersRoomAway(dx: real, leftSpace: int, rightSpace: int)
    requires 0 <= leftSpace && 0 <= rightSpace
    ensures var r := EscapeDirection(dx, leftSpace, rightSpace);
      (dx > 0.0 && leftSpace >= rightSpace && leftSpace > 0 ==> r == ToLeft) &&
      (dx <= 0.0 && rightSpace >= leftSpace && rightSpace > 0 ==> r == ToRight) &&
      (dx > 0.0 && leftSpace == 0 ==> r == ToRight) &&
      (dx <= 0.0 && rightSpace == 0 ==> r == ToLeft)
  {
  }

  predicate InClosedRect(x: real, y: real, rx: real, ry: real, rw: real, rh: real) {
    rx <= x <= rx + rw && ry <= y <= ry + rh
  }

  /** A point of a segment lies between its endpoints on each axis. */
  lemma BetweenEnds(a: real, b: real, t: real)
    requires 0.0 <= t <= 1.0
    ensures Min(a, b) <= a + Scale(t, b - a) <= Max(a, b)
  {
    var d := b - a;
    if 0.0 <= d {
      assert 0.0 <= t * d;
      assert 0.0 <= (1.0 - t) * d;
      assert t * d == d - (1.0 - t) * d;
    } else {
      assert t * d <= 0.0;
      assert (1.0 - t) * d <= 0.0;
      assert t * d == d - (1.0 - t) * d;
    }
  }

  /** When `lineIntersectsRectangle` reports no intersection, no point of the segment touches
      the closed rectangle. */
  lemma SeparatedSegmentMissesRectangle(x1: real, y1: real, x2: real, y2: real,
                                        rx: real, ry: real, rw: real, rh: real, t: real)
    requires 0.0 <= t <= 1.0 && !LineIntersectsRectangle(x1, y1, x2, y2, rx, ry, rw, rh)
    ensures !InClosedRect(x1 + Scale(t, x2 - x1), y1 + Scale(t, y2 - y1), rx, ry, rw, rh)
  {
    BetweenEnds(x1, x2, t);
    BetweenEnds(y1, y2, t);
  }

  /** A platform of non-negative size. */
  predicate Sized(p: Platform) {
    0.0 <= p.width && 0.0 <= p.height
  }

  /** A top corner lies on its own platform's rectangle, so every segment to it is blocked. */
  lemma OwnCornersBlocked(from: Point, p: Platform)
    requires Sized(p)
    ensures Blocks(from, TopLeft(p), p) && Blocks(from, TopRight(p), p)
  {
  }

  lemma {:induction false} NoneReachable(m: MathLib, from: Point, pts: seq<Point>, ps: seq<Platform>)
    requires forall q :: q in pts ==> !IsReachable(m, from, q, ps)
    ensures ReachableFrom(m, from, pts, ps) == []
    decreases |pts|
  {
    if |pts| > 0 {
      assert pts[0] in pts;
      assert forall q :: q in pts[1..] ==> q in pts;
      NoneReachable(m, from, pts[1..], ps);
    }
  }

  lemma {:induction false} ReachableFromAppend(m: MathLib, from: Point, a: seq<Point>, b: seq<Point>,
                                               ps: seq<Platform>)
    ensures ReachableFrom(m, from, a + b, ps) == ReachableFrom(m, from, a, ps) + ReachableFrom(m, from, b, ps)
    decreases |a|
  {
    if |a| == 0 {
      assert a + b == b;
    } else {
      assert (a + b)[0] == a[0];
      assert (a + b)[1..] == a[1..] + b;
      ReachableFromAppend(m, from, a[1..], b, ps);
    }
  }

  /** On platforms of non-negative size no platform corner is reachable. */
  lemma CornersUnreachable(m: MathLib, start: Point, ps: seq<Platform>)
    requires forall i :: 0 <= i < |ps| ==> Sized(ps[i])
    ensures ReachableFrom(m, start, Corners(ps), ps) == []
  {
    var corners := Corners(ps);
    forall q | q in corners
      ensures !IsReachable(m, start, q, ps)
    {
      var i :| 0 <= i < |ps| && (q == TopLeft(ps[i]) || q == TopRight(ps[i]));
      OwnCornersBlocked(start, ps[i]);
      assert Blocks(start, q, ps[i]);
    }
    NoneReachable(m, start, corners, ps);
  }

  /** Hence on such platforms `findBestPath` is the goal alone when the goal is reachable and
      empty otherwise. */
  lemma BestPathIsAtMostTheGoal(m: MathLib, start: Point, end: Point, ps: seq<Platform>)
    requires forall i :: 0 <= i < |ps| ==> Sized(ps[i])
    ensures FindBestPath(m, start, end, ps) == (if IsReachable(m, start, end, ps) then [end] else [])
  {
    CornersUnreachable(m, start, ps);
    ReachableFromAppend(m, start, Corners(ps), [end], ps);
    var found := ReachableFrom(m, start, [end], ps);
    assert [end][1..] == [];
    assert found == (if IsReachable(m, start, end, ps) then [end] else []);
    assert ReachableFrom(m, start, Corners(ps) + [end], ps) == found;
  }

  /** Inserting a point of key at least `b` into points of key at least `b` gives points of
      key at least `b`. */
  lemma InsertStaysAbove(key: Point -> real, b: real, q: Point, s: seq<Point>)
    requires b <= key(q) && forall k :: 0 <= k < |s| ==> b <= key(s[k])
    ensures forall k :: 0 <= k < |InsertBy(key, q, s)| ==> b <= key(InsertBy(key, q, s)[k])
  {
    var r := InsertBy(key, q, s);
    forall k | 0 <= k < |r|
      ensures b <= key(r[k])
    {
      assert r[k] in multiset(r);
      if r[k] != q {
        assert r[k] in multiset(s);
        var j :| 0 <= j < |s| && s[j] == r[k];
      }
    }
  }

  lemma {:induction false} InsertKeepsSorted(key: Point -> real, q: Point, s: seq<Point>)
    requires SortedBy(key, s)
    ensures SortedBy(key, InsertBy(key, q, s))
    decreases |s|
  {
    var r := InsertBy(key, q, s);
    if |s| > 0 && key(q) > key(s[0]) {
      var tail := s[1..];
      assert forall k :: 0 <= k < |tail| ==> tail[k] == s[k + 1];
      InsertKeepsSorted(key, q, tail);
      InsertStaysAbove(key, key(s[0]), q, tail);
      var t := InsertBy(key, q, tail);
      assert r == [s[0]] + t;
      forall i, j | 0 <= i < j < |r|
        ensures key(r[i]) <= key(r[j])
      {
        assert r[j] == t[j - 1];
        if i > 0 {
          assert r[i] == t[i - 1];
        } else {
          assert r[i] == s[0] && key(s[0]) <= key(t[j - 1]);
        }
      }
    } else if |s| > 0 {
      assert r == [q] + s;
      forall i, j | 0 <= i < j < |r|
        ensures key(r[i]) <= key(r[j])
      {
        assert r[j] == s[j - 1];
        if i > 0 {
          assert r[i] == s[i - 1];
        }
      }
    }
  }

  lemma {:induction false} SortKeepsSorted(key: Point -> real, s: seq<Point>)
    ensures SortedBy(key, SortBy(key, s))
    decreases |s|
  {
    if |s| > 0 {
      SortKeepsSorted(key, s[1..]);
      InsertKeepsSorted(key, s[0], SortBy(key, s[1..]));
    }
  }

  /** The path lists the reachable candidates nearest first, each exactly as often as it is
      a candidate. */
  lemma BestPathNearestFirst(m: MathLib, start: Point, end: Point, ps: seq<Platform>)
    ensures var r := FindBestPath(m, start, end, ps);
      (forall i, j :: 0 <= i < j < |r| ==> PathKey(m, start, r[i]) <= PathKey(m, start, r[j])) &&
      multiset(r) == multiset(ReachableFrom(m, start, Corners(ps) + [end], ps))
  {
    SortKeepsSorted(q => PathKey(m, start, q), ReachableFrom(m, start, Corners(ps) + [end], ps));
  }

  /** The direct and predictive chases press exactly one side, toward the target or its
      prediction, and never `up`. */
  lemma DirectChasesAim(m: MathLib, s: HardStrategy, c: Controls, self: Body, target: Body,
                        h: seq<Sample>, ps: seq<Platform>)
    requires !c.left && !c.right && (s == Direct || s == Predict)
    ensures var r := HardSteer(m, true, s, c, self, target, h, ps);
      var aim := if s == Direct then target.x else PredictPosition(h, target).x;
      r.up == c.up && (r.right <==> aim > self.x) && (r.left <==> aim <= self.x)
  {
  }

  /** On platforms of non-negative size the interception presses a side exactly when the
      interception point is reachable, toward that point, and never `up`. */
  lemma InterceptionHeadsForReachableGoal(m: MathLib, c: Controls, self: Body, target: Body,
                                          h: seq<Sample>, ps: seq<Platform>)
    requires !c.left && !c.right
    requires forall i :: 0 <= i < |ps| ==> Sized(ps[i])
    ensures var r := HardSteer(m, true, Intercept, c, self, target, h, ps);
      var goal := InterceptionPoint(m, self, h, target);
      var reach := IsReachable(m, Point(self.x, self.y), goal, ps);
      r.up == c.up && (r.right <==> reach && goal.x > self.x) && (r.left <==> reach && goal.x <= self.x)
  {
    BestPathIsAtMostTheGoal(m, Point(self.x, self.y), InterceptionPoint(m, self, h, target), ps);
  }

  /** The emergency escape presses exactly one side and jumps only toward a platform more than
      50 above; the platform escape and the positioning press one side exactly when there are
      platforms, and never jump. */
  lemma EscaperSteers(m: MathLib, s: HardStrategy, c: Controls, self: Body, target: Body,
                      h: seq<Sample>, ps: seq<Platform>)
    requires !c.left && !c.right && !c.up && !ChaseLabel(s)
    ensures var r := HardSteer(m, false, s, c, self, target, h, ps);
      (s == EmergencyEscape ==>
         r.left != r.right && (r.up ==> exists i :: 0 <= i < |ps| && ps[i].y < self.y - 50.0)) &&
      (s != EmergencyEscape ==> !r.up && !(r.left && r.right) && ((r.left || r.right) <==> 0 < |ps|))
  {
  }

  /** A stuck bot only jumps, pressing both sides or neither by its one random draw; it resets
      the stuck timer and skips the jump and dash steps (no dash, timestamps kept). */
  lemma StuckBotJumpsOut(m: MathLib, isIt: bool, s: HardStrategy, self: Body, height: real, controls: Controls,
                         target: Body, h: seq<Sample>, ps: seq<Platform>, stuckTimer: int, lastJump: int,
                         lastSkillUse: int, now: int, toggle: real)
    requires stuckTimer > HARD_STUCK_LIMIT
    ensures var ch := HardDecide(m, isIt, s, self, height, controls, target, h, ps, stuckTimer, lastJump,
                                 lastSkillUse, now, toggle);
      ch.controls.up && !ch.controls.dash && ch.stuckTimer == 0 &&
      ch.lastJump == lastJump && ch.lastSkillUse == lastSkillUse &&
      ch.controls.left == ch.controls.right && (ch.controls.left <==> toggle > 0.5)
  {
  }

  /** Outside the stuck case, `dash` is set exactly when its cooldown has passed and its test
      holds; its timestamp moves exactly then. The jump is due exactly when its cooldown has
      passed and `shouldJump` holds on the steered controls: then the jump timestamp moves, and
      `up` is set exactly when the jump is due or the steering pressed it. `up` without a new
      timestamp comes only from the emergency escape. */
  lemma JumpAndDashExactlyWhenDue(m: MathLib, isIt: bool, s: HardStrategy, self: Body, height: real,
                                  controls: Controls, target: Body, h: seq<Sample>, ps: seq<Platform>,
                                  stuckTimer: int, lastJump: int, lastSkillUse: int, now: int, toggle: real)
    requires stuckTimer <= HARD_STUCK_LIMIT
    ensures var ch := HardDecide(m, isIt, s, self, height, controls, target, h, ps, stuckTimer, lastJump,
                                 lastSkillUse, now, toggle);
      var distance := Dist(m, target.x - self.x, target.y - self.y);
      var steered := HardSteer(m, isIt, s, Cleared(controls), self, target, h, ps);
      var jump := now - lastJump > HARD_JUMP_COOLDOWN &&
                  HardShouldJump(isIt, PredictPosition(h, target), self, height, steered, ps);
      (ch.controls.dash <==> now - lastSkillUse > HARD_SKILL_COOLDOWN && HardShouldDash(isIt, distance)) &&
      (ch.lastSkillUse != lastSkillUse <==> ch.controls.dash) &&
      ch.lastJump == (if jump then now else lastJump) &&
      (ch.controls.up <==> steered.up || jump) &&
      (ch.lastJump != lastJump ==> ch.controls.up && ch.lastJump == now && now - lastJump > HARD_JUMP_COOLDOWN) &&
      (ch.controls.up && ch.lastJump == lastJump ==> !isIt && s == EmergencyEscape) &&
      ch.stuckTimer == stuckTimer
  {
  }

  /** Between decisions `update` changes nothing, not even the history. */
  lemma TickWaitsBetweenDecisions(m: MathLib, mem: HardMemory, isIt: bool, self: Body, height: real,
                                  controls: Controls, target: Body, ps: seq<Platform>, now: int, toggle: real)
    requires now - mem.lastDecision <= HARD_DECISION_INTERVAL
    ensures HardTick(m, mem, isIt, self, height, controls, target, ps, now, toggle) == (mem, controls)
  {
  }

  /** A decision records one sample and keeps at most ten, stamps the decision time and
      position, and re-picks the strategy only when its two-second timer has run out, then to
      one fitting the role. */
  lemma DecisionRecordsAndRepicks(m: MathLib, mem: HardMemory, isIt: bool, self: Body, height: real,
                                  controls: Controls, target: Body, ps: seq<Platform>, now: int, toggle: real)
    requires |mem.predictions| <= HARD_HISTORY_CAP && now - mem.lastDecision > HARD_DECISION_INTERVAL
    ensures var mem2 := HardTick(m, mem, isIt, self, height, controls, target, ps, now, toggle).0;
      mem2.lastDecision == now && mem2.lastPosition == Point(self.x, self.y) &&
      |mem2.predictions| <= HARD_HISTORY_CAP &&
      mem2.predictions[|mem2.predictions| - 1] == SampleOf(target, now) &&
      (now - mem.strategyTimer <= HARD_STRATEGY_PERIOD ==>
         mem2.strategy == mem.strategy && mem2.strategyTimer == mem.strategyTimer) &&
      (now - mem.strategyTimer > HARD_STRATEGY_PERIOD ==>
         mem2.strategyTimer == now && ChaseLabel(mem2.strategy) == isIt)
  {
    PushedIsBoundedFifo(mem.predictions, SampleOf(target, now), HARD_HISTORY_CAP);
  }
}
