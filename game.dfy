/** The parts of the match orchestrator (game.js) that decide the game: tag transfer between
    touching players under an immunity window, the camera's horizontal follow and clamp, the
    spawn loop of `init` with its single "it" assignment, and the target each bot is given. */
module Match {
  import opened Common
  import opened Constants
  import opened Platforms
  import opened Actors

  /** What tag detection reads and writes of one player. */
  datatype Tagger = Tagger(x: real, y: real, width: real, height: real, isIt: bool, lastTagged: int)

  datatype Score = Score(tagCount: int, lastTagTime: int)

  /** The players seen by tag detection, in list order, and the game's tag bookkeeping. */
  datatype TagState = TagState(players: seq<Tagger>, score: Score)

  /** The strict box overlap of `checkCollisions`. */
  predicate Touching(a: Tagger, b: Tagger) {
    a.x < b.x + b.width && a.x + a.width > b.x && a.y < b.y + b.height && a.y + a.height > b.y
  }

  /** How many players are "it". */
  function CountIt(ts: seq<Tagger>): nat
    decreases |ts|
  {
    if |ts| == 0 then 0 else CountIt(ts[..|ts| - 1]) + (if ts[|ts| - 1].isIt then 1 else 0)
  }

  /** The body of the inner loop for the pair (i, j). */
  function PairStep(f: TagState, i: nat, j: nat, now: int): (r: TagState)
    requires i < j < |f.players|
    ensures |r.players| == |f.players|
  {
    var p1, p2 := f.players[i], f.players[j];
    if Touching(p1, p2) && now - f.score.lastTagTime >= IMMUNITY_TIME then
      var ps :=
        if p1.isIt then f.players[i := p1.(isIt := false)][j := p2.(isIt := true, lastTagged := now)]
        else if p2.isIt then f.players[j := p2.(isIt := false)][i := p1.(isIt := true, lastTagged := now)]
        else f.players;
      TagState(ps, Score(f.score.tagCount + 1, now))
    else f
  }

  /** The pairs (i, i+1), ..., (i, k-1) of row i, in loop order. */
  function Row(f: TagState, i: nat, k: nat, now: int): (r: TagState)
    requires i < |f.players| && k <= |f.players|
    ensures |r.players| == |f.players|
    decreases k
  {
    if k <= i + 1 then f else PairStep(Row(f, i, k - 1, now), i, k - 1, now)
  }

  /** Rows 0, ..., r-1. */
  function Rows(f: TagState, r: nat, now: int): (g: TagState)
    requires r <= |f.players|
    ensures |g.players| == |f.players|
    decreases r
  {
    if r == 0 then f else Row(Rows(f, r - 1, now), r - 1, |f.players|, now)
  }

  /** `checkCollisions()` with one clock reading `now` for the whole call. */
  function CheckCollisionsSpec(f: TagState, now: int): (g: TagState)
    ensures |g.players| == |f.players|
  {
    Rows(f, |f.players|, now)
  }

  /** Some pair of distinct players touches. */
  predicate SomeTouch(ts: seq<Tagger>) {
    exists i, j :: 0 <= i < j < |ts| && Touching(ts[i], ts[j])
  }

  // ----- the "it" count -----

  lemma {:induction false} CountItUpdate(ts: seq<Tagger>, k: nat, v: Tagger)
    requires k < |ts|
    ensures CountIt(ts[k := v]) + (if ts[k].isIt then 1 else 0) == CountIt(ts) + (if v.isIt then 1 else 0)
    decreases |ts|
  {
    var n := |ts|;
    var u := ts[k := v];
    assert u[..n - 1] == if k < n - 1 then ts[..n - 1][k := v] else ts[..n - 1];
    if k < n - 1 {
      CountItUpdate(ts[..n - 1], k, v);
    }
  }

  lemma CountItAtLeastTwo(ts: seq<Tagger>, i: nat, j: nat)
    requires i < j < |ts| && ts[i].isIt && ts[j].isIt
    ensures 2 <= CountIt(ts)
  {
    var off := ts[i].(isIt := false);
    CountItUpdate(ts, i, off);
    var u := ts[i := off];
    CountItUpdate(u, j, u[j].(isIt := false));
  }

  /** A single pair step either changes nothing or is one tag event: the score goes up by one
      and stamps `now`, the positions stay, and the "it" count does not grow (it stays the same
      unless both players of the pair were "it"). */
  predicate OneTagAfter(f: TagState, g: TagState, now: int) {
    |g.players| == |f.players| &&
    (forall k :: 0 <= k < |f.players| ==>
       g.players[k].x == f.players[k].x && g.players[k].y == f.players[k].y &&
       g.players[k].width == f.players[k].width && g.players[k].height == f.players[k].height) &&
    (g == f ||
     (g.score == Score(f.score.tagCount + 1, now) && CountIt(g.players) <= CountIt(f.players) &&
      (CountIt(f.players) <= 1 ==> CountIt(g.players) == CountIt(f.players))))
  }

  lemma PairStepIsOneTag(f: TagState, i: nat, j: nat, now: int)
    requires i < j < |f.players|
    ensures OneTagAfter(f, PairStep(f, i, j, now), now)
  {
    var p1, p2 := f.players[i], f.players[j];
    if Touching(p1, p2) && now - f.score.lastTagTime >= IMMUNITY_TIME {
      var ts := f.players;
      if p1.isIt {
        var u := ts[i := p1.(isIt := false)];
        CountItUpdate(ts, i, p1.(isIt := false));
        CountItUpdate(u, j, p2.(isIt := true, lastTagged := now));
        if p2.isIt {
          CountItAtLeastTwo(ts, i, j);
        }
      } else if p2.isIt {
        var u := ts[j := p2.(isIt := false)];
        CountItUpdate(ts, j, p2.(isIt := false));
        CountItUpdate(u, i, p1.(isIt := true, lastTagged := now));
      }
    }
  }

  /** Once a tag has stamped `now`, the immunity window makes every later pair a no-op. */
  lemma StampedRowChangesNothing(g: TagState, i: nat, k: nat, now: int)
    requires i < |g.players| && k <= |g.players| && g.score.lastTagTime == now
    ensures Row(g, i, k, now) == g
    decreases k
  {
    if k > i + 1 {
      StampedRowChangesNothing(g, i, k - 1, now);
    }
  }

  lemma {:induction false} RowIsOneTag(f: TagState, g: TagState, i: nat, k: nat, now: int)
    requires OneTagAfter(f, g, now) && i < |g.players| && k <= |g.players|
    ensures OneTagAfter(f, Row(g, i, k, now), now)
    decreases k
  {
    if k > i + 1 {
      RowIsOneTag(f, g, i, k - 1, now);
      var h := Row(g, i, k - 1, now);
      if h == f {
        PairStepIsOneTag(f, i, k - 1, now);
      } else {
        assert h.score.lastTagTime == now;
        StampedRowChangesNothing(h, i, k, now);
        assert PairStep(h, i, k - 1, now) == h;
      }
    }
  }

  lemma {:induction false} RowsAreOneTag(f: TagState, r: nat, now: int)
    requires r <= |f.players|
    ensures OneTagAfter(f, Rows(f, r, now), now)
    decreases r
  {
    if r > 0 {
      RowsAreOneTag(f, r - 1, now);
      RowIsOneTag(f, Rows(f, r - 1, now), r - 1, |f.players|, now);
    }
  }

  /** Some touching pair with first index i and second index below k. */
  predicate RowTouch(ts: seq<Tagger>, i: nat, k: nat) {
    exists j :: i < j < k && j < |ts| && i < |ts| && Touching(ts[i], ts[j])
  }

  predicate RowsTouch(ts: seq<Tagger>, r: nat) {
    exists i, j :: 0 <= i < r && i < j < |ts| && Touching(ts[i], ts[j])
  }

  lemma {:induction false} RowUnchangedIffUntouched(f: TagState, i: nat, k: nat, now: int)
    requires i < |f.players| && k <= |f.players| && now - f.score.lastTagTime >= IMMUNITY_TIME
    ensures Row(f, i, k, now) == f <==> !RowTouch(f.players, i, k)
    decreases k
  {
    if k > i + 1 {
      RowUnchangedIffUntouched(f, i, k - 1, now);
      var h := Row(f, i, k - 1, now);
      RowIsOneTag(f, f, i, k - 1, now);
      if h == f {
        assert Touching(f.players[i], f.players[k - 1]) ==> PairStep(f, i, k - 1, now).score != f.score;
      } else {
        StampedRowChangesNothing(h, i, k, now);
        assert PairStep(h, i, k - 1, now) == h;
        var j :| i < j < k - 1 && j < |f.players| && Touching(f.players[i], f.players[j]);
        assert RowTouch(f.players, i, k);
      }
    }
  }

  /** A touching pair among rows 0..r-1 lies in rows 0..r-2 or in row r-1. */
  lemma RowsTouchSplit(ts: seq<Tagger>, r: nat)
    requires 0 < r <= |ts|
    ensures RowsTouch(ts, r) <==> RowsTouch(ts, r - 1) || RowTouch(ts, r - 1, |ts|)
  {
    if RowTouch(ts, r - 1, |ts|) {
      var j :| r - 1 < j < |ts| && Touching(ts[r - 1], ts[j]);
      assert RowsTouch(ts, r);
    }
    if RowsTouch(ts, r) && !RowsTouch(ts, r - 1) {
      var i, j :| 0 <= i < r && i < j < |ts| && Touching(ts[i], ts[j]);
      assert i == r - 1;
    }
  }

  lemma {:induction false} RowsUnchangedIffUntouched(f: TagState, r: nat, now: int)
    requires r <= |f.players| && now - f.score.lastTagTime >= IMMUNITY_TIME
    ensures Rows(f, r, now) == f <==> !RowsTouch(f.players, r)
    decreases r
  {
    if r > 0 {
      RowsUnchangedIffUntouched(f, r - 1, now);
      RowsTouchSplit(f.players, r);
      var g := Rows(f, r - 1, now);
      if g == f {
        RowUnchangedIffUntouched(f, r - 1, |f.players|, now);
      } else {
        RowsAreOneTag(f, r - 1, now);
        StampedRowChangesNothing(g, r - 1, |f.players|, now);
      }
    }
  }

  lemma {:induction false} ImmuneRowsChangeNothing(f: TagState, r: nat, now: int)
    requires r <= |f.players| && now - f.score.lastTagTime < IMMUNITY_TIME
    ensures Rows(f, r, now) == f
    decreases r
  {
    if r > 0 {
      ImmuneRowsChangeNothing(f, r - 1, now);
      ImmuneRowChangesNothing(f, r - 1, |f.players|, now);
    }
  }

  lemma {:induction false} ImmuneRowChangesNothing(f: TagState, i: nat, k: nat, now: int)
    requires i < |f.players| && k <= |f.players| && now - f.score.lastTagTime < IMMUNITY_TIME
    ensures Row(f, i, k, now) == f
    decreases k
  {
    if k > i + 1 {
      ImmuneRowChangesNothing(f, i, k - 1, now);
    }
  }

  /** The pair (i, j) is the first touching pair in the loop order of `checkCollisions`:
      no earlier row, and no earlier partner in row i, touches. */
  predicate FirstTouch(ts: seq<Tagger>, i: nat, j: nat) {
    i < j < |ts| && Touching(ts[i], ts[j]) && !RowsTouch(ts, i) && !RowTouch(ts, i, j)
  }

  /** There is at most one first touching pair. */
  lemma FirstTouchUnique(ts: seq<Tagger>, i: nat, j: nat, a: nat, b: nat)
    requires FirstTouch(ts, i, j) && FirstTouch(ts, a, b)
    ensures i == a && j == b
  {
  }

  /** Outside the immunity window a row that changes anything is the pair step of its first
      touching pair. */
  lemma {:induction false} RowFirstTag(f: TagState, i: nat, k: nat, now: int)
    requires i < |f.players| && k <= |f.players| && now - f.score.lastTagTime >= IMMUNITY_TIME
    ensures Row(f, i, k, now) != f ==>
      exists j :: i < j < k && Touching(f.players[i], f.players[j]) && !RowTouch(f.players, i, j) &&
                  Row(f, i, k, now) == PairStep(f, i, j, now)
    decreases k
  {
    if k > i + 1 {
      var h := Row(f, i, k - 1, now);
      assert Row(f, i, k, now) == PairStep(h, i, k - 1, now);
      if h == f {
        RowUnchangedIffUntouched(f, i, k - 1, now);
        if PairStep(f, i, k - 1, now) != f {
          assert Touching(f.players[i], f.players[k - 1]) && !RowTouch(f.players, i, k - 1);
        }
      } else {
        RowFirstTag(f, i, k - 1, now);
        RowIsOneTag(f, f, i, k - 1, now);
        assert h.score.lastTagTime == now;
        assert PairStep(h, i, k - 1, now) == h;
      }
    }
  }

  /** Outside the immunity window, rows 0..r-1 that change anything are the pair step of the
      first touching pair. */
  lemma {:induction false} RowsFirstTag(f: TagState, r: nat, now: int)
    requires r <= |f.players| && now - f.score.lastTagTime >= IMMUNITY_TIME
    ensures Rows(f, r, now) != f ==>
      exists i: nat, j: nat :: i < r && FirstTouch(f.players, i, j) && Rows(f, r, now) == PairStep(f, i, j, now)
    decreases r
  {
    if r > 0 {
      RowsFirstTag(f, r - 1, now);
      var g := Rows(f, r - 1, now);
      if g == f {
        RowsUnchangedIffUntouched(f, r - 1, now);
        RowFirstTag(f, r - 1, |f.players|, now);
        if Row(f, r - 1, |f.players|, now) != f {
          var j :| r - 1 < j < |f.players| && Touching(f.players[r - 1], f.players[j]) &&
                   !RowTouch(f.players, r - 1, j) &&
                   Row(f, r - 1, |f.players|, now) == PairStep(f, r - 1, j, now);
          assert FirstTouch(f.players, r - 1, j);
        }
      } else {
        RowsAreOneTag(f, r - 1, now);
        StampedRowChangesNothing(g, r - 1, |f.players|, now);
      }
    }
  }

  /** What one call of `checkCollisions` can do. Within the immunity window nothing changes.
      Outside it, something changes exactly when some pair of players touches, and then the
      call is the pair step of the first touching pair in loop order (every later pair is
      blocked by the window that tag restarts): the tag count goes up by exactly one,
      `lastTagTime` becomes `now`, nobody moves, and the number of "it" players never grows
      and stays the same when at most one player was "it". */
  lemma CheckCollisionsOutcome(f: TagState, now: int)
    ensures var g := CheckCollisionsSpec(f, now);
      (now - f.score.lastTagTime < IMMUNITY_TIME ==> g == f) &&
      (now - f.score.lastTagTime >= IMMUNITY_TIME ==> (g != f <==> SomeTouch(f.players))) &&
      (g != f ==> exists i: nat, j: nat :: FirstTouch(f.players, i, j) && g == PairStep(f, i, j, now)) &&
      OneTagAfter(f, g, now)
  {
    var n := |f.players|;
    RowsAreOneTag(f, n, now);
    if now - f.score.lastTagTime < IMMUNITY_TIME {
      ImmuneRowsChangeNothing(f, n, now);
    } else {
      RowsUnchangedIffUntouched(f, n, now);
      assert RowsTouch(f.players, n) <==> SomeTouch(f.players);
      RowsFirstTag(f, n, now);
    }
  }

  /** Outside the immunity window, when (i, j) is the first touching pair and exactly one of
      them is "it", the call passes the role from the holder to the other, stamps the other's
      `lastTagged` and the game's `lastTagTime` with `now`, counts one tag, and changes no other
      player. */
  lemma CheckCollisionsPassesTag(f: TagState, i: nat, j: nat, now: int)
    requires FirstTouch(f.players, i, j) && now - f.score.lastTagTime >= IMMUNITY_TIME
    requires f.players[i].isIt != f.players[j].isIt
    ensures var g := CheckCollisionsSpec(f, now);
      var (holder, other) := if f.players[i].isIt then (i, j) else (j, i);
      g.players == f.players[holder := f.players[holder].(isIt := false)]
                            [other := f.players[other].(isIt := true, lastTagged := now)] &&
      g.score == Score(f.score.tagCount + 1, now)
  {
    CheckCollisionsOutcome(f, now);
    assert SomeTouch(f.players);
    var a, b :| FirstTouch(f.players, a, b) && CheckCollisionsSpec(f, now) == PairStep(f, a, b, now);
    FirstTouchUnique(f.players, i, j, a, b);
    TagTransfers(f, i, j, now);
  }

  /** With exactly one player "it", a call leaves exactly one player "it". */
  lemma CheckCollisionsKeepsOneIt(f: TagState, now: int)
    requires CountIt(f.players) == 1
    ensures CountIt(CheckCollisionsSpec(f, now).players) == 1
  {
    CheckCollisionsOutcome(f, now);
  }

  /** A tag event between an "it" player and another clears the holder, makes the other "it"
      and stamps its `lastTagged`; nobody else changes. */
  lemma TagTransfers(f: TagState, i: nat, j: nat, now: int)
    requires i < j < |f.players| && Touching(f.players[i], f.players[j])
    requires now - f.score.lastTagTime >= IMMUNITY_TIME && f.players[i].isIt != f.players[j].isIt
    ensures var g := PairStep(f, i, j, now);
      var (holder, other) := if f.players[i].isIt then (i, j) else (j, i);
      g.players == f.players[holder := f.players[holder].(isIt := false)]
                            [other := f.players[other].(isIt := true, lastTagged := now)] &&
      g.score == Score(f.score.tagCount + 1, now)
  {
  }

  /** Two touching players neither of whom is "it" still count as a tag: the score advances
      and the immunity window restarts, though no flag moves. */
  lemma UntaggedTouchStillScores(f: TagState, i: nat, j: nat, now: int)
    requires i < j < |f.players| && Touching(f.players[i], f.players[j])
    requires now - f.score.lastTagTime >= IMMUNITY_TIME && !f.players[i].isIt && !f.players[j].isIt
    ensures PairStep(f, i, j, now) == TagState(f.players, Score(f.score.tagCount + 1, now))
  {
  }

  // ----- camera -----

  /** `updateCamera`'s new `camera.x`: a tenth of the way toward centring the player, clamped
      to [0, camera.width - canvas.width]. */
  function CameraX(camX: real, playerX: real, viewWidth: real, worldWidth: real): real {
    var targetX := playerX - viewWidth / 2.0;
    var eased := camX + (targetX - camX) * 0.1;
    Max(0.0, Min(worldWidth - viewWidth, eased))
  }

  /** The camera stays within the world when the world is at least as wide as the view, and
      sits at 0 when it is narrower. */
  lemma CameraStaysInWorld(camX: real, playerX: real, viewWidth: real, worldWidth: real)
    ensures var r := CameraX(camX, playerX, viewWidth, worldWidth);
      (viewWidth <= worldWidth ==> 0.0 <= r <= worldWidth - viewWidth) &&
      (worldWidth < viewWidth ==> r == 0.0)
  {
  }

  /** Away from the clamps the camera closes a tenth of its distance to the centring position
      on every call, never overshooting it. */
  lemma CameraEasesTowardPlayer(camX: real, playerX: real, viewWidth: real, worldWidth: real)
    requires var t := playerX - viewWidth / 2.0; 0.0 <= camX <= worldWidth - viewWidth && 0.0 <= t <= worldWidth - viewWidth
    ensures var r := CameraX(camX, playerX, viewWidth, worldWidth);
      var t := playerX - viewWidth / 2.0;
      r - camX == (t - camX) * 0.1 && Abs(t - r) <= Abs(t - camX)
  {
  }

  // ----- spawning and targets -----

  /** Where `init` puts the player of a configured slot: one of `slots.length + 1` equal gaps
      across the canvas, 100 above its bottom. */
  datatype Spawn = Spawn(x: real, y: real, skill: Skill)

  /** `spacing * (i + 1)` for the slot at index `i = slot - 1`, with
      `spacing = canvas.width / (playerCount + 1)`. */
  function SpawnX(width: real, count: nat, slot: nat): real {
    width / ((count + 1) as real) * (slot as real)
  }

  /** The spawns of the first k slots; an unconfigured slot (`continue`) spawns nobody but
      keeps its gap. */
  function SpawnsUpTo(slots: seq<Option<Skill>>, canvas: Canvas, k: nat): (r: seq<Spawn>)
    requires k <= |slots|
    ensures |r| <= k
    decreases k
  {
    if k == 0 then []
    else
      SpawnsUpTo(slots, canvas, k - 1) +
      (if slots[k - 1].Some? then [Spawn(SpawnX(canvas.width, |slots|, k), canvas.height - 100.0, slots[k - 1].value)] else [])
  }

  /** The number of configured slots. */
  function Configured(slots: seq<Option<Skill>>): nat
    decreases |slots|
  {
    if |slots| == 0 then 0 else Configured(slots[..|slots| - 1]) + (if slots[|slots| - 1].Some? then 1 else 0)
  }

  lemma {:induction false} SpawnCount(slots: seq<Option<Skill>>, canvas: Canvas, k: nat)
    requires k <= |slots|
    ensures |SpawnsUpTo(slots, canvas, k)| == Configured(slots[..k])
    decreases k
  {
    if k > 0 {
      SpawnCount(slots, canvas, k - 1);
      assert slots[..k][..k - 1] == slots[..k - 1];
    }
  }

  /** Only the first player is "it": then exactly one is. */
  lemma {:induction false} FirstOnlyIt(ts: seq<Tagger>)
    requires 0 < |ts| && ts[0].isIt && forall k :: 0 < k < |ts| ==> !ts[k].isIt
    ensures CountIt(ts) == 1
    decreases |ts|
  {
    if |ts| > 1 {
      FirstOnlyIt(ts[..|ts| - 1]);
    }
  }

  /** The list `init()` builds, where only the first player is "it", has exactly one "it". */
  lemma RosterHasOneIt(ps: seq<Player>)
    requires 0 < |ps| && forall k :: 0 <= k < |ps| ==> (ps[k].isIt <==> k == 0)
    ensures CountIt(TaggersOf(ps)) == 1
  {
    FirstOnlyIt(TaggersOf(ps));
  }

  function TaggerOf(p: Player): Tagger
    reads p`x, p`y, p`isIt, p`lastTagged
  {
    Tagger(p.x, p.y, p.width, p.height, p.isIt, p.lastTagged)
  }

  function TaggersOf(ps: seq<Player>): (r: seq<Tagger>)
    reads ps
    ensures |r| == |ps|
  {
    seq(|ps|, k reads ps requires 0 <= k < |ps| => TaggerOf(ps[k]))
  }

  /** `players.find(p => p !== bot.player && p.isIt)`. */
  function FindTarget(ps: seq<Player>, self: Player): (r: Option<Player>)
    reads ps
    decreases |ps|
    ensures r.None? <==> forall k :: 0 <= k < |ps| ==> ps[k] == self || !ps[k].isIt
    ensures r.Some? ==> exists k :: (0 <= k < |ps| && ps[k] == r.value && r.value != self && r.value.isIt &&
      forall l :: 0 <= l < k ==> ps[l] == self || !ps[l].isIt)
  {
    if |ps| == 0 then None
    else if ps[0] != self && ps[0].isIt then Some(ps[0])
    else
      var r := FindTarget(ps[1..], self);
      assert forall k :: 1 <= k < |ps| ==> ps[k] == ps[1..][k - 1];
      r
  }

  /** With exactly one player "it" (at index h), the bot of that player gets no target and is
      not updated, and every other bot is given that player. */
  lemma OnlyTheItIsTargeted(ps: seq<Player>, h: nat, self: Player)
    requires h < |ps| && ps[h].isIt && forall k :: 0 <= k < |ps| && k != h ==> !ps[k].isIt
    ensures FindTarget(ps, self) == if self == ps[h] then None else Some(ps[h])
  {
    var r := FindTarget(ps, self);
    if self != ps[h] {
      var k :| 0 <= k < |ps| && ps[k] == r.value && r.value != self && r.value.isIt &&
               forall l :: 0 <= l < k ==> ps[l] == self || !ps[l].isIt;
      assert k == h;
    }
  }

  /** The game object's state that the modelled operations use. */
  class Game {
    var players: seq<Player>
    var platforms: seq<Platform>
    var tagCount: int
    var lastTagTime: int
    var activePlayerId: int
    var camera: Camera

    /** Every player object appears once in the list; `init` builds it from fresh players. */
    predicate Distinct()
      reads this`players
    {
      forall i, j :: 0 <= i < j < |players| ==> players[i] != players[j]
    }

    function Tags(): TagState
      reads this`players, this`tagCount, this`lastTagTime, players
    {
      TagState(TaggersOf(players), Score(tagCount, lastTagTime))
    }

    /** The inner loop's body for the pair (i, j). */
    method TagPair(i: nat, j: nat, now: int)
      requires Distinct() && i < j < |players|
      modifies this`tagCount, this`lastTagTime, players`isIt, players`lastTagged
      ensures Tags() == PairStep(old(Tags()), i, j, now)
    {
      ghost var f := Tags();
      var p1, p2 := players[i], players[j];
      if p1.x < p2.x + p2.width && p1.x + p1.width > p2.x &&
         p1.y < p2.y + p2.height && p1.y + p1.height > p2.y {
        if now - lastTagTime >= IMMUNITY_TIME {
          if p1.isIt {
            p1.isIt := false;
            p2.isIt := true;
            p2.lastTagged := now;
          } else if p2.isIt {
            p2.isIt := false;
            p1.isIt := true;
            p1.lastTagged := now;
          }
          lastTagTime := now;
          tagCount := tagCount + 1;
        }
      }
      ghost var g := PairStep(f, i, j, now);
      forall k | 0 <= k < |players|
        ensures TaggerOf(players[k]) == g.players[k]
      {
        if k != i && k != j {
          assert players[k] != p1 && players[k] != p2;
        }
      }
    }

    /** The inner loop of `checkCollisions()` for the row of player i. */
    method TagRow(i: nat, now: int)
      requires Distinct() && i < |players|
      modifies this`tagCount, this`lastTagTime, players`isIt, players`lastTagged
      ensures Tags() == Row(old(Tags()), i, |players|, now)
    {
      ghost var f := Tags();
      var j := i + 1;
      while j < |players|
        invariant i + 1 <= j <= |players|
        invariant Tags() == Row(f, i, j, now)
      {
        ghost var before := Tags();
        TagPair(i, j, now);
        assert Tags() == PairStep(before, i, j, now) == Row(f, i, j + 1, now);
        j := j + 1;
      }
    }

    /** `checkCollisions()`: every pair i < j in list order. */
    method CheckCollisions(now: int)
      requires Distinct()
      modifies this`tagCount, this`lastTagTime, players`isIt, players`lastTagged
      ensures Tags() == CheckCollisionsSpec(old(Tags()), now)
    {
      ghost var f := Tags();
      var i := 0;
      while i < |players|
        invariant 0 <= i <= |players|
        invariant Tags() == Rows(f, i, now)
      {
        ghost var before := Tags();
        TagRow(i, now);
        assert |f.players| == |players|;
        assert Tags() == Row(before, i, |players|, now) == Rows(f, i + 1, now);
        i := i + 1;
      }
    }

    /** `updateCamera()`: nothing when `activePlayerId` names no player. */
    method UpdateCamera(canvas: Canvas)
      modifies this`camera
      ensures 0 <= activePlayerId < |players| ==>
        camera == old(camera).(x := CameraX(old(camera).x, players[activePlayerId].x, canvas.width, camera.width))
      ensures !(0 <= activePlayerId < |players|) ==> camera == old(camera)
    {
      if !(0 <= activePlayerId < |players|) {
        return;
      }
      var activePlayer := players[activePlayerId];
      var targetX := activePlayer.x - canvas.width / 2.0;
      var minCamX := 0.0;
      var maxCamX := camera.width - canvas.width;
      var smoothing := 0.1;
      var x := camera.x + (targetX - camera.x) * smoothing;
      x := Max(minCamX, Min(maxCamX, x));
      camera := camera.(x := x);
    }

    /** `init()`'s player list: one fresh player per configured slot, at its spawn, with
        cleared controls; then the first player is made "it". The selected map's platforms
        are given as `layout`; the tag count restarts, `lastTagTime` is kept. */
    method Init(slots: seq<Option<Skill>>, canvas: Canvas, layout: seq<Platform>)
      modifies this`players, this`platforms, this`tagCount
      ensures Distinct() && platforms == layout && tagCount == 0
      ensures lastTagTime == old(lastTagTime) && camera == old(camera) && activePlayerId == old(activePlayerId)
      ensures |players| == |SpawnsUpTo(slots, canvas, |slots|)| == Configured(slots)
      ensures forall k :: 0 <= k < |players| ==> fresh(players[k])
      ensures forall k :: 0 <= k < |players| ==>
        StartsAt(players[k], SpawnsUpTo(slots, canvas, |slots|)[k]) && (players[k].isIt <==> k == 0)
    {
      var ps := SpawnPlayers(slots, canvas);
      players := ps;
      platforms := layout;
      tagCount := 0;
    }
  }

  /** `this.players[0].isIt = true` on a freshly spawned list. */
  method CrownFirst(ps: seq<Player>, ghost sp: seq<Spawn>)
    requires 0 < |ps| == |sp| && forall i, j :: 0 <= i < j < |ps| ==> ps[i] != ps[j]
    requires forall k :: 0 <= k < |ps| ==> StartsAt(ps[k], sp[k]) && !ps[k].isIt
    modifies ps`isIt
    ensures forall k :: 0 <= k < |ps| ==> StartsAt(ps[k], sp[k]) && (ps[k].isIt <==> k == 0)
  {
    ps[0].isIt := true;
    forall k | 0 < k < |ps|
      ensures StartsAt(ps[k], sp[k]) && !ps[k].isIt
    {
      assert ps[k] != ps[0];
    }
  }

  /** A player in the state `new Player(s.x, s.y, color, controls, s.skill)` leaves it, with
      all controls released. */
  predicate StartsAt(p: Player, s: Spawn)
    reads p`x, p`y, p`vx, p`vy, p`isOnGround, p`jumpCount, p`isDashing, p`lastDashTime,
          p`lastTeleportTime, p`lastDoubleJumpTime, p`controls, p`lastTagged
  {
    p.x == s.x && p.y == s.y && p.vx == 0.0 && p.vy == 0.0 && !p.isOnGround && p.jumpCount == 0 &&
    !p.isDashing && p.lastDashTime == 0 && p.lastTeleportTime == 0 && p.lastDoubleJumpTime == 0 &&
    p.controls == NO_INPUT && p.lastTagged == 0 &&
    p.skill == s.skill && p.Profile() == AbilitiesFor(s.skill)
  }

  /** The spawn loop of `init()`, where slots without a configuration are skipped, and
      then the first player spawned is made "it". */
  method SpawnPlayers(slots: seq<Option<Skill>>, canvas: Canvas) returns (ps: seq<Player>)
    ensures |ps| == |SpawnsUpTo(slots, canvas, |slots|)| == Configured(slots)
    ensures forall i, j :: 0 <= i < j < |ps| ==> ps[i] != ps[j]
    ensures forall k :: 0 <= k < |ps| ==>
      fresh(ps[k]) && StartsAt(ps[k], SpawnsUpTo(slots, canvas, |slots|)[k]) && (ps[k].isIt <==> k == 0)
  {
    ps := [];
    var i := 0;
    while i < |slots|
      invariant 0 <= i <= |slots|
      invariant |ps| == |SpawnsUpTo(slots, canvas, i)|
      invariant forall a, b :: 0 <= a < b < |ps| ==> ps[a] != ps[b]
      invariant forall k :: 0 <= k < |ps| ==>
        fresh(ps[k]) && !ps[k].isIt && StartsAt(ps[k], SpawnsUpTo(slots, canvas, i)[k])
    {
      if slots[i].Some? {
        var p := new Player(SpawnX(canvas.width, |slots|, i + 1), canvas.height - 100.0, NO_INPUT, slots[i].value);
        ps := ps + [p];
      }
      i := i + 1;
    }
    SpawnCount(slots, canvas, |slots|);
    assert slots[..|slots|] == slots;
    if |ps| > 0 {
      CrownFirst(ps, SpawnsUpTo(slots, canvas, |slots|));
    }
  }
}
