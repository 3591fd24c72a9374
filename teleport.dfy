/** The teleport skill (src/skills/teleport.js): after its cooldown, draw random
    candidate positions until one rests on a platform or the attempt budget runs out,
    and move there only if the search stopped early. `Math.random()` is the stream
    `rand`: candidate k uses draws 2k (x) and 2k + 1 (y), the order of the source's calls. */
module TeleportSkill {
  import opened Common
  import opened Constants
  import opened Platforms
  import opened Actors

  const MAX_ATTEMPTS: nat := 50
  /** How far below a platform's top the player's bottom may be and still count as resting on it. */
  const REST_TOLERANCE: real := 10.0
  /** Candidates are drawn no lower than this distance above the floor. */
  const FLOOR_MARGIN: real := 100.0

  /** The candidate's box overlaps `p` horizontally and its bottom lies in `[p.y, p.y + 10]`. */
  predicate RestsOn(a: Abilities, x: real, y: real, p: Platform) {
    x < p.x + p.width && x + a.width > p.x &&
    y + a.height >= p.y && y + a.height <= p.y + REST_TOLERANCE
  }

  /** `isSafePosition`: some platform supports the candidate (the platform angle plays no part). */
  predicate IsSafePosition(a: Abilities, x: real, y: real, platforms: seq<Platform>) {
    exists i :: 0 <= i < |platforms| && RestsOn(a, x, y, platforms[i])
  }

  /** The k-th candidate drawn by the search (0-based). */
  function Candidate(a: Abilities, canvas: Canvas, camera: Camera, rand: nat -> real, k: nat): Point {
    Point(camera.x + Scale(rand(2 * k), canvas.width - a.width),
          Scale(rand(2 * k + 1), canvas.height - a.height - FLOOR_MARGIN))
  }

  predicate SafeCandidate(a: Abilities, platforms: seq<Platform>, canvas: Canvas, camera: Camera,
                          rand: nat -> real, k: nat) {
    var c := Candidate(a, canvas, camera, rand, k);
    IsSafePosition(a, c.x, c.y, platforms)
  }

  /** The index of the first safe candidate among draws `k .. MAX_ATTEMPTS - 1`, if any:
      where the do-while loop exits. */
  function FirstSafeFrom(a: Abilities, platforms: seq<Platform>, canvas: Canvas, camera: Camera,
                         rand: nat -> real, k: nat): (r: Option<nat>)
    decreases MAX_ATTEMPTS - k
    ensures r.Some? ==> k <= r.value < MAX_ATTEMPTS &&
                        SafeCandidate(a, platforms, canvas, camera, rand, r.value) &&
                        forall j :: k <= j < r.value ==> !SafeCandidate(a, platforms, canvas, camera, rand, j)
    ensures r.None? ==> forall j :: k <= j < MAX_ATTEMPTS ==> !SafeCandidate(a, platforms, canvas, camera, rand, j)
  {
    if k >= MAX_ATTEMPTS then None
    else if SafeCandidate(a, platforms, canvas, camera, rand, k) then Some(k)
    else FirstSafeFrom(a, platforms, canvas, camera, rand, k + 1)
  }

  /** Where the teleport lands, if it commits: the loop stopped on a safe candidate with
      `attempts < maxAttempts`, so a safe candidate found on the last draw is not used. */
  function Destination(a: Abilities, platforms: seq<Platform>, canvas: Canvas, camera: Camera,
                       rand: nat -> real): Option<Point> {
    match FirstSafeFrom(a, platforms, canvas, camera, rand, 0)
    case Some(k) => if k + 1 < MAX_ATTEMPTS then Some(Candidate(a, canvas, camera, rand, k)) else None
    case None => None
  }

  /** The state `handleTeleport` leaves behind. */
  function TeleportSpec(a: Abilities, s: ActorState, platforms: seq<Platform>, canvas: Canvas,
                        camera: Camera, now: int, rand: nat -> real): ActorState {
    if now - s.lastTeleportTime < TELEPORT_COOLDOWN then s
    else match Destination(a, platforms, canvas, camera, rand)
      case None => s
      case Some(c) => s.(x := c.x, y := c.y, vx := 0.0, vy := 0.0, lastTeleportTime := now)
  }

  /** The do-while search of `handleTeleport`: the spot it commits to, if any. */
  method Search(a: Abilities, platforms: seq<Platform>, canvas: Canvas, camera: Camera, rand: nat -> real)
    returns (spot: Option<Point>)
    ensures spot == Destination(a, platforms, canvas, camera, rand)
  {
    // the do-while loop's first pass draws candidate 0
    var c := Candidate(a, canvas, camera, rand, 0);
    var attempts: nat := 1;
    while !IsSafePosition(a, c.x, c.y, platforms) && attempts < MAX_ATTEMPTS
      invariant 1 <= attempts <= MAX_ATTEMPTS
      invariant c == Candidate(a, canvas, camera, rand, attempts - 1)
      invariant FirstSafeFrom(a, platforms, canvas, camera, rand, 0) ==
                FirstSafeFrom(a, platforms, canvas, camera, rand, attempts - 1)
      decreases MAX_ATTEMPTS - attempts
    {
      c := Candidate(a, canvas, camera, rand, attempts);
      attempts := attempts + 1;
    }
    if attempts < MAX_ATTEMPTS {
      spot := Some(c);
    } else {
      assert FirstSafeFrom(a, platforms, canvas, camera, rand, MAX_ATTEMPTS) == None;
      spot := None;
    }
  }

  method HandleTeleport(p: Player, platforms: seq<Platform>, canvas: Canvas, camera: Camera,
                        now: int, rand: nat -> real)
    modifies p`x, p`y, p`vx, p`vy, p`lastTeleportTime
    ensures p.State() == TeleportSpec(p.Profile(), old(p.State()), platforms, canvas, camera, now, rand)
  {
    if now - p.lastTeleportTime < TELEPORT_COOLDOWN {
      return;
    }
    var spot := Search(p.Profile(), platforms, canvas, camera, rand);
    if spot.Some? {
      p.x := spot.value.x;
      p.y := spot.value.y;
      p.vx := 0.0;
      p.vy := 0.0;
      p.lastTeleportTime := now;
    }
  }

  /** While the cooldown runs nothing changes, the timestamp included. */
  lemma TeleportOnCooldownChangesNothing(a: Abilities, s: ActorState, platforms: seq<Platform>,
                                         canvas: Canvas, camera: Camera, now: int, rand: nat -> real)
    requires now - s.lastTeleportTime < TELEPORT_COOLDOWN
    ensures TeleportSpec(a, s, platforms, canvas, camera, now, rand) == s
  {
  }

  /** A committed teleport lands on one of the first 49 candidates, on a safe spot, with zero
      velocity and the timestamp set; otherwise the state, timestamp included, is unchanged. */
  lemma TeleportOutcome(a: Abilities, s: ActorState, platforms: seq<Platform>,
                        canvas: Canvas, camera: Camera, now: int, rand: nat -> real)
    ensures var r := TeleportSpec(a, s, platforms, canvas, camera, now, rand);
      r != s ==>
        (exists k :: 0 <= k < MAX_ATTEMPTS - 1 &&
           Point(r.x, r.y) == Candidate(a, canvas, camera, rand, k)) &&
        IsSafePosition(a, r.x, r.y, platforms) &&
        r == s.(x := r.x, y := r.y, vx := 0.0, vy := 0.0, lastTeleportTime := now) &&
        now - s.lastTeleportTime >= TELEPORT_COOLDOWN
  {
    var r := TeleportSpec(a, s, platforms, canvas, camera, now, rand);
    if r != s {
      var k := FirstSafeFrom(a, platforms, canvas, camera, rand, 0).value;
      assert Point(r.x, r.y) == Candidate(a, canvas, camera, rand, k);
    }
  }

  /** A safe candidate found only on the 50th draw is discarded: the teleport does not happen. */
  lemma SafeOnlyOnLastDrawIsDiscarded(a: Abilities, s: ActorState, platforms: seq<Platform>,
                                      canvas: Canvas, camera: Camera, now: int, rand: nat -> real)
    requires forall j :: 0 <= j < MAX_ATTEMPTS - 1 ==> !SafeCandidate(a, platforms, canvas, camera, rand, j)
    ensures TeleportSpec(a, s, platforms, canvas, camera, now, rand) == s
  {
  }

  /** For draws in [0, 1), every candidate lies in `[camera.x, camera.x + canvas.width - width)`
      horizontally and in `[0, canvas.height - height - 100)` vertically. */
  lemma CandidateInBounds(a: Abilities, canvas: Canvas, camera: Camera, rand: nat -> real, k: nat)
    requires 0.0 <= rand(2 * k) < 1.0 && 0.0 <= rand(2 * k + 1) < 1.0
    requires a.width < canvas.width && a.height + FLOOR_MARGIN < canvas.height
    ensures var c := Candidate(a, canvas, camera, rand, k);
      camera.x <= c.x < camera.x + canvas.width - a.width &&
      0.0 <= c.y < canvas.height - a.height - FLOOR_MARGIN
  {
    ScaledDrawBelow(rand(2 * k), canvas.width - a.width);
    ScaledDrawBelow(rand(2 * k + 1), canvas.height - a.height - FLOOR_MARGIN);
  }
}
