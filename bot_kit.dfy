/** What the three bot engines (easyBot.js, mediumBot.js, hardBot.js) share: the view of a
    player they read, how they write control intents, the bounded target-sample history,
    stuck detection, and first-best selection over a scored list. */
module BotKit {
  import opened Common
  import opened Platforms
  import opened Actors

  /** The string `'left'` / `'right'` the bots use for directions. */
  datatype Side = ToLeft | ToRight

  function Opposite(s: Side): Side {
    match s
    case ToLeft => ToRight
    case ToRight => ToLeft
  }

  /** The parts of a player a bot reads: position and velocity. */
  datatype Body = Body(x: real, y: real, vx: real, vy: real)

  function BodyOf(p: Player): Body
    reads p`x, p`y, p`vx, p`vy
  {
    Body(p.x, p.y, p.vx, p.vy)
  }

  /** `player.controls.left = player.controls.right = player.controls.up = player.controls.dash = false`;
      the integrator's `wasUpPressed` latch is not a bot's to touch. */
  function Cleared(c: Controls): (r: Controls)
    ensures !r.left && !r.right && !r.up && !r.dash && r.wasUpPressed == c.wasUpPressed
  {
    c.(left := false, right := false, up := false, dash := false)
  }

  /** `player.controls[side] = true`. */
  function Press(c: Controls, side: Side): (r: Controls)
    ensures side == ToLeft ==> r == c.(left := true)
    ensures side == ToRight ==> r == c.(right := true)
  {
    match side
    case ToLeft => c.(left := true)
    case ToRight => c.(right := true)
  }

  /** `dx > 0 ? 'right' : 'left'`: a zero difference heads left. */
  function Toward(dx: real): Side {
    if dx > 0.0 then ToRight else ToLeft
  }

  /** `dx > 0 ? 'left' : 'right'`. */
  function AwayFrom(dx: real): (r: Side)
    ensures r == Opposite(Toward(dx))
  {
    if dx > 0.0 then ToLeft else ToRight
  }

  /** A history entry: the target's position and velocity and the time it was taken. */
  datatype Sample = Sample(x: real, y: real, vx: real, vy: real, timestamp: int)

  function SampleOf(b: Body, now: int): Sample {
    Sample(b.x, b.y, b.vx, b.vy, now)
  }

  /** `history.push(s); if (history.length > cap) history.shift()`. */
  function Pushed(h: seq<Sample>, s: Sample, cap: nat): seq<Sample> {
    var h1 := h + [s];
    if |h1| > cap then h1[1..] else h1
  }

  /** From a history within its bound, a push keeps the bound, ends with the new sample, and
      keeps exactly the newest `min(|h| + 1, cap)` entries of `h + [s]`, dropping the oldest first. */
  lemma PushedIsBoundedFifo(h: seq<Sample>, s: Sample, cap: nat)
    requires 1 <= cap && |h| <= cap
    ensures var r := Pushed(h, s, cap);
      |r| == (if |h| + 1 < cap then |h| + 1 else cap) && r[|r| - 1] == s &&
      r == (h + [s])[|h| + 1 - |r|..] &&
      (|h| < cap ==> r == h + [s]) &&
      (|h| == cap ==> r == h[1..] + [s])
  {
    var r := Pushed(h, s, cap);
    if |h| == cap {
      assert r == (h + [s])[1..];
      assert (h + [s])[1..] == h[1..] + [s];
    }
  }

  /** After the decision: `stuckTimer += interval` if moved less than 5 on both axes, else reset. */
  function StuckStep(stuck: int, last: Point, now: Point, interval: int): int {
    if Abs(now.x - last.x) < 5.0 && Abs(now.y - last.y) < 5.0 then stuck + interval else 0
  }

  /** The stuck timer counts consecutive near-still decisions: it is a whole number of intervals
      that grows by one interval while still and drops to zero on any real move. */
  lemma StuckCountsStillDecisions(k: nat, last: Point, now: Point, interval: int)
    ensures var r := StuckStep(k * interval, last, now, interval);
      (Abs(now.x - last.x) < 5.0 && Abs(now.y - last.y) < 5.0 ==> r == (k + 1) * interval) &&
      (!(Abs(now.x - last.x) < 5.0 && Abs(now.y - last.y) < 5.0) ==> r == 0)
  {
  }

  /** Sum of the horizontal / vertical velocities of the samples. */
  function SumVx(h: seq<Sample>): real
    decreases |h|
  {
    if |h| == 0 then 0.0 else SumVx(h[..|h| - 1]) + h[|h| - 1].vx
  }

  function SumVy(h: seq<Sample>): real
    decreases |h|
  {
    if |h| == 0 then 0.0 else SumVy(h[..|h| - 1]) + h[|h| - 1].vy
  }

  /** `arr.slice(-n)`: the last `min(n, |h|)` entries. */
  function Last(h: seq<Sample>, n: nat): (r: seq<Sample>)
    ensures |r| == (if n < |h| then n else |h|) && r == h[|h| - |r|..]
  {
    if |h| <= n then h else h[|h| - n..]
  }

  /** Samples that all share one velocity sum to that velocity times their number. */
  lemma {:induction false} SteadySums(h: seq<Sample>, vx: real, vy: real)
    requires forall i :: 0 <= i < |h| ==> h[i].vx == vx && h[i].vy == vy
    ensures SumVx(h) == (|h| as real) * vx && SumVy(h) == (|h| as real) * vy
    decreases |h|
  {
    if |h| > 0 {
      SteadySums(h[..|h| - 1], vx, vy);
    }
  }

  /** The `handleStuckSituation` of the medium and hard bots: jump, and when `toggle` holds
      flip both sides (on cleared controls that presses both). */
  function Unstick(c: Controls, toggle: bool): (r: Controls)
    ensures r.up && r.dash == c.dash && r.wasUpPressed == c.wasUpPressed
    ensures r.left == (c.left != toggle) && r.right == (c.right != toggle)
  {
    var c1 := c.(up := true);
    if toggle then c1.(left := !c1.left, right := !c1.right) else c1
  }

  /** The index the left fold `(best, x) => (!best || key(x) < best.key) ? x : best` settles on:
      the first index of minimal key. */
  function FirstMin(keys: seq<real>): (r: Option<nat>)
    decreases |keys|
    ensures r.None? <==> |keys| == 0
    ensures r.Some? ==> r.value < |keys|
    ensures r.Some? ==> forall j :: 0 <= j < |keys| ==> keys[r.value] <= keys[j]
    ensures r.Some? ==> forall j :: 0 <= j < r.value ==> keys[r.value] < keys[j]
  {
    if |keys| == 0 then None
    else
      var b := FirstMin(keys[..|keys| - 1]);
      if b.None? || keys[|keys| - 1] < keys[b.value] then Some(|keys| - 1) else b
  }

  /** Element 0 of a stable sort by descending key: the first index of maximal key. */
  function FirstMax(keys: seq<real>): (r: Option<nat>)
    decreases |keys|
    ensures r.None? <==> |keys| == 0
    ensures r.Some? ==> r.value < |keys|
    ensures r.Some? ==> forall j :: 0 <= j < |keys| ==> keys[j] <= keys[r.value]
    ensures r.Some? ==> forall j :: 0 <= j < r.value ==> keys[j] < keys[r.value]
  {
    if |keys| == 0 then None
    else
      var b := FirstMax(keys[..|keys| - 1]);
      if b.None? || keys[|keys| - 1] > keys[b.value] then Some(|keys| - 1) else b
  }

  /** `platforms.some(f)`, scanning in list order. */
  function AnyPlatform(ps: seq<Platform>, f: Platform -> bool): (r: bool)
    decreases |ps|
    ensures r <==> exists i :: 0 <= i < |ps| && f(ps[i])
  {
    if |ps| == 0 then false
    else if f(ps[0]) then true
    else
      assert forall i :: 1 <= i < |ps| ==> ps[i] == ps[1..][i - 1];
      AnyPlatform(ps[1..], f)
  }
}
