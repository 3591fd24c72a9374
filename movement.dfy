/** The per-tick integrator `Player.update(platforms, canvas, camera)` (player.js):
    skills, horizontal input, gravity, edge-triggered jumps, the platform collision pass
    and the view clamps, in that order. Each phase is a function on `ActorState`; `Tick`
    composes them and `Update` is proved to compute it. */
module Movement {
  import opened Common
  import opened Constants
  import opened Platforms
  import opened Actors
  import opened Collision
  import opened DashSkill
  import opened TeleportSkill
  import opened DoubleJumpSkill

  /** Up beats sideways; sideways follows the sign of the current velocity, `left` when it is not positive. */
  function DashDirection(s: ActorState): Direction {
    if s.controls.up then Up else if s.vx > 0.0 then Right else Left
  }

  /** The dash key fires the dash when the player has it, else the teleport when the player has that. */
  function SkillStep(a: Abilities, s: ActorState, platforms: seq<Platform>, canvas: Canvas,
                     camera: Camera, now: int, rand: nat -> real): ActorState {
    if !s.controls.dash then s
    else if a.canDash then DashSpec(a, s, DashDirection(s), now)
    else if a.canTeleport then TeleportSpec(a, s, platforms, canvas, camera, now, rand)
    else s
  }

  /** Horizontal input, ignored while dashing; with no usable input the velocity decays by 0.8. */
  function InputStep(a: Abilities, s: ActorState, canvas: Canvas, camera: Camera): ActorState {
    if s.isDashing then s
    else if s.controls.left && s.x > camera.x then s.(vx := -MOVE_SPEED)
    else if s.controls.right && s.x < camera.x + canvas.width - a.width then s.(vx := MOVE_SPEED)
    else s.(vx := s.vx * 0.8)
  }

  function GravityStep(s: ActorState): ActorState {
    s.(vy := s.vy + GRAVITY)
  }

  /** A jump only on the press edge (`up` now, not on the previous tick); then latch `up`. */
  function JumpStep(a: Abilities, s: ActorState, now: int): ActorState {
    var s1 :=
      if s.controls.up && !s.controls.wasUpPressed then
        if a.canDoubleJump then DoubleJumpSpec(a, s, now)
        else if s.isOnGround then s.(vy := JUMP_FORCE, isOnGround := false)
        else s
      else s;
    s1.(controls := s1.controls.(wasUpPressed := s1.controls.up))
  }

  /** The state threaded through the `platforms.forEach` pass and whether any platform was hit. */
  datatype Resolution = Resolution(s: ActorState, collided: bool)

  /** One platform of the pass: the target point stays fixed, while the response uses the
      velocity left by earlier hits. */
  function ApplyPlatform(m: MathLib, a: Abilities, nextX: real, nextY: real,
                         r: Resolution, pl: Platform): Resolution {
    if WouldCollideWith(m, a.width, a.height, nextX, nextY, pl) then
      var c := CollisionResponse(m, a.width, a.height, r.s.vx, r.s.vy, nextX, nextY, pl);
      Resolution(r.s.(x := c.x, y := c.y, vx := c.vx, vy := c.vy, isOnGround := c.isOnGround,
                      jumpCount := if c.isOnGround then 0 else r.s.jumpCount), true)
    else r
  }

  /** The pass over `ps` in order. */
  function Resolve(m: MathLib, a: Abilities, nextX: real, nextY: real,
                   init: Resolution, ps: seq<Platform>): Resolution
    decreases |ps|
  {
    if |ps| == 0 then init
    else ApplyPlatform(m, a, nextX, nextY, Resolve(m, a, nextX, nextY, init, ps[..|ps| - 1]), ps[|ps| - 1])
  }

  /** Move to the target point unless some platform was hit. */
  function CollideStep(m: MathLib, a: Abilities, s: ActorState, platforms: seq<Platform>): ActorState {
    var nextX := s.x + s.vx;
    var nextY := s.y + s.vy;
    var r := Resolve(m, a, nextX, nextY, Resolution(s, false), platforms);
    if r.collided then r.s else s.(x := nextX, y := nextY)
  }

  /** Keep the player inside the camera's horizontal span and above the floor; the floor grounds. */
  function ClampStep(a: Abilities, s: ActorState, canvas: Canvas, camera: Camera): ActorState {
    var right := camera.x + canvas.width - a.width;
    var x1 := if s.x < camera.x then camera.x else s.x;
    var x2 := if x1 > right then right else x1;
    if s.y > canvas.height - a.height then
      s.(x := x2, y := canvas.height - a.height, vy := 0.0, isOnGround := true, jumpCount := 0)
    else s.(x := x2)
  }

  /** One call of `update`. */
  function Tick(a: Abilities, s: ActorState, platforms: seq<Platform>, canvas: Canvas, camera: Camera,
                m: MathLib, now: int, rand: nat -> real): ActorState {
    var s1 := SkillStep(a, s, platforms, canvas, camera, now, rand);
    var s2 := InputStep(a, s1, canvas, camera);
    var s3 := GravityStep(s2);
    var s4 := JumpStep(a, s3, now);
    var s5 := CollideStep(m, a, s4, platforms);
    ClampStep(a, s5, canvas, camera)
  }

  /** The skill phase of `update`. */
  method UseSkill(p: Player, platforms: seq<Platform>, canvas: Canvas, camera: Camera,
                  now: int, rand: nat -> real)
    modifies p`x, p`y, p`vx, p`vy, p`isDashing, p`lastDashTime, p`lastTeleportTime
    ensures p.State() == SkillStep(p.Profile(), old(p.State()), platforms, canvas, camera, now, rand)
  {
    if p.controls.dash {
      if p.canDash {
        var dir := if p.controls.up then Up else if p.vx > 0.0 then Right else Left;
        HandleDash(p, dir, now);
      } else if p.canTeleport {
        HandleTeleport(p, platforms, canvas, camera, now, rand);
      }
    }
  }

  /** The input and gravity phases of `update`. */
  method ApplyInput(p: Player, canvas: Canvas, camera: Camera)
    modifies p`vx, p`vy
    ensures p.State() == GravityStep(InputStep(p.Profile(), old(p.State()), canvas, camera))
  {
    if !p.isDashing {
      if p.controls.left && p.x > camera.x {
        p.vx := -MOVE_SPEED;
      } else if p.controls.right && p.x < camera.x + canvas.width - p.width {
        p.vx := MOVE_SPEED;
      } else {
        p.vx := p.vx * 0.8;
      }
    }
    p.vy := p.vy + GRAVITY;
  }

  /** The jump phase of `update`: a jump on the press edge of `up`, then the latch. */
  method Jump(p: Player, now: int)
    modifies p`vy, p`isOnGround, p`jumpCount, p`lastDoubleJumpTime, p`controls
    ensures p.State() == JumpStep(p.Profile(), old(p.State()), now)
  {
    if p.controls.up && !p.controls.wasUpPressed {
      if p.canDoubleJump {
        HandleDoubleJump(p, now);
      } else if p.isOnGround {
        p.vy := JUMP_FORCE;
        p.isOnGround := false;
      }
    }
    p.controls := p.controls.(wasUpPressed := p.controls.up);
  }

  /** The input, gravity and jump phases of `update`. */
  method Steer(p: Player, canvas: Canvas, camera: Camera, now: int)
    modifies p`vx, p`vy, p`isOnGround, p`jumpCount, p`lastDoubleJumpTime, p`controls
    ensures p.State() == JumpStep(p.Profile(), GravityStep(InputStep(p.Profile(), old(p.State()), canvas, camera)), now)
  {
    ApplyInput(p, canvas, camera);
    Jump(p, now);
  }

  /** The body of the `forEach` callback for one platform; reports whether it was hit. */
  method HitPlatform(p: Player, m: MathLib, nextX: real, nextY: real, pl: Platform, validMove: bool)
    returns (stillValid: bool)
    modifies p`x, p`y, p`vx, p`vy, p`isOnGround, p`jumpCount
    ensures Resolution(p.State(), !stillValid) ==
            ApplyPlatform(m, p.Profile(), nextX, nextY, Resolution(old(p.State()), !validMove), pl)
  {
    stillValid := validMove;
    if WouldCollideWith(m, p.width, p.height, nextX, nextY, pl) {
      var c := CollisionResponse(m, p.width, p.height, p.vx, p.vy, nextX, nextY, pl);
      p.x := c.x;
      p.y := c.y;
      p.vx := c.vx;
      p.vy := c.vy;
      p.isOnGround := c.isOnGround;
      if p.isOnGround {
        p.jumpCount := 0;
      }
      stillValid := false;
    }
  }

  /** The `platforms.forEach` pass and the move to the target point when nothing was hit. */
  method Collide(p: Player, platforms: seq<Platform>, m: MathLib)
    modifies p`x, p`y, p`vx, p`vy, p`isOnGround, p`jumpCount
    ensures p.State() == CollideStep(m, p.Profile(), old(p.State()), platforms)
  {
    ghost var s4 := p.State();
    var nextX := p.x + p.vx;
    var nextY := p.y + p.vy;
    var validMove := true;
    var i := 0;
    while i < |platforms|
      invariant 0 <= i <= |platforms|
      invariant Resolution(p.State(), !validMove) ==
                Resolve(m, p.Profile(), nextX, nextY, Resolution(s4, false), platforms[..i])
    {
      validMove := HitPlatform(p, m, nextX, nextY, platforms[i], validMove);
      assert platforms[..i + 1][..i] == platforms[..i];
      i := i + 1;
    }
    assert platforms[..i] == platforms;
    NoHitNoChange(m, p.Profile(), nextX, nextY, Resolution(s4, false), platforms);
    if validMove {
      p.x := nextX;
      p.y := nextY;
    }
  }

  /** The view clamps at the end of `update`. */
  method Clamp(p: Player, canvas: Canvas, camera: Camera)
    modifies p`x, p`y, p`vy, p`isOnGround, p`jumpCount
    ensures p.State() == ClampStep(p.Profile(), old(p.State()), canvas, camera)
  {
    if p.x < camera.x {
      p.x := camera.x;
    }
    if p.x > camera.x + canvas.width - p.width {
      p.x := camera.x + canvas.width - p.width;
    }
    if p.y > canvas.height - p.height {
      p.y := canvas.height - p.height;
      p.vy := 0.0;
      p.isOnGround := true;
      p.jumpCount := 0;
    }
  }

  /** `update(platforms, canvas, camera)`; `Date.now()` is `now` and `Math.random()` is `rand`. */
  method Update(p: Player, platforms: seq<Platform>, canvas: Canvas, camera: Camera,
                m: MathLib, now: int, rand: nat -> real)
    modifies p`x, p`y, p`vx, p`vy, p`isOnGround, p`jumpCount, p`isDashing,
             p`lastDashTime, p`lastTeleportTime, p`lastDoubleJumpTime, p`controls
    ensures p.State() == Tick(p.Profile(), old(p.State()), platforms, canvas, camera, m, now, rand)
  {
    UseSkill(p, platforms, canvas, camera, now, rand);
    Steer(p, canvas, camera, now);
    Collide(p, platforms, m);
    Clamp(p, canvas, camera);
  }

  // ----- the collision pass -----

  /** A pass that hits nothing leaves the state alone and reports no hit. */
  lemma {:induction false} MissedPassChangesNothing(m: MathLib, a: Abilities, nextX: real, nextY: real,
                                                    init: Resolution, ps: seq<Platform>)
    requires forall i :: 0 <= i < |ps| ==> !WouldCollideWith(m, a.width, a.height, nextX, nextY, ps[i])
    ensures Resolve(m, a, nextX, nextY, init, ps) == init
    decreases |ps|
  {
    if |ps| > 0 {
      MissedPassChangesNothing(m, a, nextX, nextY, init, ps[..|ps| - 1]);
    }
  }

  /** A pass that reports no hit (from no hit) has left the state alone. */
  lemma {:induction false} NoHitNoChange(m: MathLib, a: Abilities, nextX: real, nextY: real,
                                         init: Resolution, ps: seq<Platform>)
    ensures !Resolve(m, a, nextX, nextY, init, ps).collided ==> Resolve(m, a, nextX, nextY, init, ps) == init
    decreases |ps|
  {
    if |ps| > 0 {
      NoHitNoChange(m, a, nextX, nextY, init, ps[..|ps| - 1]);
    }
  }

  /** Some platform is hit exactly when the pass reports a hit (starting from no hit). */
  lemma {:induction false} CollidedIffSomeHit(m: MathLib, a: Abilities, nextX: real, nextY: real,
                                              s: ActorState, ps: seq<Platform>)
    ensures Resolve(m, a, nextX, nextY, Resolution(s, false), ps).collided <==>
            exists i :: 0 <= i < |ps| && WouldCollideWith(m, a.width, a.height, nextX, nextY, ps[i])
    decreases |ps|
  {
    if |ps| > 0 {
      var pre := ps[..|ps| - 1];
      CollidedIffSomeHit(m, a, nextX, nextY, s, pre);
      if exists i :: 0 <= i < |pre| && WouldCollideWith(m, a.width, a.height, nextX, nextY, pre[i]) {
        var i :| 0 <= i < |pre| && WouldCollideWith(m, a.width, a.height, nextX, nextY, pre[i]);
        assert ps[i] == pre[i];
      }
      if exists i :: 0 <= i < |ps| && WouldCollideWith(m, a.width, a.height, nextX, nextY, ps[i]) {
        var i :| 0 <= i < |ps| && WouldCollideWith(m, a.width, a.height, nextX, nextY, ps[i]);
        if i < |pre| {
          assert pre[i] == ps[i];
        }
      }
    }
  }

  /** With no platform hit, the player moves by exactly one velocity step. */
  lemma FreeMove(m: MathLib, a: Abilities, s: ActorState, ps: seq<Platform>)
    requires forall i :: 0 <= i < |ps| ==>
               !WouldCollideWith(m, a.width, a.height, s.x + s.vx, s.y + s.vy, ps[i])
    ensures CollideStep(m, a, s, ps) == s.(x := s.x + s.vx, y := s.y + s.vy)
  {
    MissedPassChangesNothing(m, a, s.x + s.vx, s.y + s.vy, Resolution(s, false), ps);
  }

  /** When several platforms are hit, the last one in list order decides the position: it is
      that platform's response to the shared target point, whatever velocity the earlier hits left. */
  lemma {:induction false} LastHitDecidesPosition(m: MathLib, a: Abilities, nextX: real, nextY: real,
                                                  init: Resolution, ps: seq<Platform>, k: nat)
    requires k < |ps| && WouldCollideWith(m, a.width, a.height, nextX, nextY, ps[k])
    requires forall j :: k < j < |ps| ==> !WouldCollideWith(m, a.width, a.height, nextX, nextY, ps[j])
    ensures var r := Resolve(m, a, nextX, nextY, init, ps);
      var c := CollisionResponse(m, a.width, a.height, 0.0, 0.0, nextX, nextY, ps[k]);
      r.collided && r.s.x == c.x && r.s.y == c.y && (r.s.isOnGround <==> c.isOnGround)
    decreases |ps|
  {
    var pre := ps[..|ps| - 1];
    if k == |ps| - 1 {
      var prev := Resolve(m, a, nextX, nextY, init, pre);
      ResponsePositionIgnoresVelocity(m, a.width, a.height, prev.s.vx, prev.s.vy, 0.0, 0.0, nextX, nextY, ps[k]);
    } else {
      assert forall j :: k < j < |pre| ==> pre[j] == ps[j];
      LastHitDecidesPosition(m, a, nextX, nextY, init, pre, k);
    }
  }

  /** The pass keeps the jump bookkeeping: a landing resets the count, any other hit keeps it. */
  lemma {:induction false} ResolveKeepsJumpInvariant(m: MathLib, a: Abilities, nextX: real, nextY: real,
                                                     init: Resolution, ps: seq<Platform>)
    requires JumpInvariant(a, init.s) && 0 <= a.maxJumps
    ensures JumpInvariant(a, Resolve(m, a, nextX, nextY, init, ps).s)
    decreases |ps|
  {
    if |ps| > 0 {
      ResolveKeepsJumpInvariant(m, a, nextX, nextY, init, ps[..|ps| - 1]);
    }
  }

  // ----- the whole tick -----

  /** Every tick keeps the jump bookkeeping for a profile that allows at least one jump
      (every profile the constructor builds). */
  lemma TickKeepsJumpInvariant(a: Abilities, s: ActorState, platforms: seq<Platform>, canvas: Canvas,
                               camera: Camera, m: MathLib, now: int, rand: nat -> real)
    requires 1 <= a.maxJumps && JumpInvariant(a, s)
    ensures JumpInvariant(a, Tick(a, s, platforms, canvas, camera, m, now, rand))
  {
    var s1 := SkillStep(a, s, platforms, canvas, camera, now, rand);
    var s3 := GravityStep(InputStep(a, s1, canvas, camera));
    DoubleJumpKeepsJumpInvariant(a, s3, now);
    var s4 := JumpStep(a, s3, now);
    ResolveKeepsJumpInvariant(m, a, s4.x + s4.vx, s4.y + s4.vy, Resolution(s4, false), platforms);
  }

  /** After a tick the player is inside the camera's horizontal span and not below the floor,
      provided the view is at least one player wide. */
  lemma TickStaysInView(a: Abilities, s: ActorState, platforms: seq<Platform>, canvas: Canvas,
                        camera: Camera, m: MathLib, now: int, rand: nat -> real)
    requires a.width <= canvas.width
    ensures var r := Tick(a, s, platforms, canvas, camera, m, now, rand);
      camera.x <= r.x <= camera.x + canvas.width - a.width && r.y <= canvas.height - a.height
  {
  }

  /** Reaching below the floor lands the player on it: grounded, no vertical speed, no jumps used. */
  lemma FloorGrounds(a: Abilities, s: ActorState, canvas: Canvas, camera: Camera)
    requires s.y > canvas.height - a.height
    ensures var r := ClampStep(a, s, canvas, camera);
      r.y == canvas.height - a.height && r.vy == 0.0 && r.isOnGround && r.jumpCount == 0
  {
  }

  /** A tick latches `up` into `wasUpPressed` and changes no other control. */
  lemma TickLatchesUp(a: Abilities, s: ActorState, platforms: seq<Platform>, canvas: Canvas,
                      camera: Camera, m: MathLib, now: int, rand: nat -> real)
    ensures Tick(a, s, platforms, canvas, camera, m, now, rand).controls ==
            s.controls.(wasUpPressed := s.controls.up)
  {
    var s1 := SkillStep(a, s, platforms, canvas, camera, now, rand);
    assert s1.controls == s.controls;
    var s3 := GravityStep(InputStep(a, s1, canvas, camera));
    assert s3.controls == s.controls;
    var s4 := JumpStep(a, s3, now);
    assert s4.controls == s.controls.(wasUpPressed := s.controls.up);
    ResolveKeepsControls(m, a, s4.x + s4.vx, s4.y + s4.vy, Resolution(s4, false), platforms);
    var s5 := CollideStep(m, a, s4, platforms);
    assert s5.controls == s4.controls;
  }

  lemma {:induction false} ResolveKeepsControls(m: MathLib, a: Abilities, nextX: real, nextY: real,
                                                init: Resolution, ps: seq<Platform>)
    ensures Resolve(m, a, nextX, nextY, init, ps).s.controls == init.s.controls
    decreases |ps|
  {
    if |ps| > 0 {
      ResolveKeepsControls(m, a, nextX, nextY, init, ps[..|ps| - 1]);
    }
  }

  /** Holding `up` does not jump again: without a fresh press the jump phase only latches. */
  lemma HeldUpDoesNotJump(a: Abilities, s: ActorState, now: int)
    requires s.controls.wasUpPressed
    ensures JumpStep(a, s, now) == s.(controls := s.controls.(wasUpPressed := s.controls.up))
  {
  }

  /** So of two consecutive ticks with `up` held, the second one's jump phase does nothing. */
  lemma SecondTickOfHeldUpDoesNotJump(a: Abilities, s: ActorState, platforms: seq<Platform>,
                                      canvas: Canvas, camera: Camera, m: MathLib, now: int,
                                      rand: nat -> real, s3: ActorState)
    requires s3.controls == Tick(a, s, platforms, canvas, camera, m, now, rand).controls
    requires s.controls.up && s3.controls.up == s.controls.up
    ensures JumpStep(a, s3, now) == s3
  {
    TickLatchesUp(a, s, platforms, canvas, camera, m, now, rand);
  }

  /** A press without the double-jump skill jumps only from the ground, with the plain impulse,
      and never touches the jump count. */
  lemma PlainJump(a: Abilities, s: ActorState, now: int)
    requires !a.canDoubleJump && s.controls.up && !s.controls.wasUpPressed
    ensures var r := JumpStep(a, s, now);
      r.jumpCount == s.jumpCount &&
      (s.isOnGround ==> r.vy == JUMP_FORCE && !r.isOnGround) &&
      (!s.isOnGround ==> r.vy == s.vy && !r.isOnGround)
  {
  }

  /** Without a usable direction key and while not dashing, horizontal speed decays to 80%. */
  lemma Damping(a: Abilities, s: ActorState, canvas: Canvas, camera: Camera)
    requires !s.isDashing
    requires !(s.controls.left && s.x > camera.x)
    requires !(s.controls.right && s.x < camera.x + canvas.width - a.width)
    ensures InputStep(a, s, canvas, camera).vx == 0.8 * s.vx
  {
  }

  /** An accepted dash is not overridden by the direction keys in the same tick: the dash
      velocity survives the input phase. */
  lemma DashOverridesInput(a: Abilities, s: ActorState, platforms: seq<Platform>, canvas: Canvas,
                           camera: Camera, now: int, rand: nat -> real)
    requires s.controls.dash && a.canDash && Accepted(a, s, now)
    ensures var s1 := SkillStep(a, s, platforms, canvas, camera, now, rand);
      var s2 := InputStep(a, s1, canvas, camera);
      s2.vx == DashSpec(a, s, DashDirection(s), now).vx &&
      (s.controls.up ==> s2.vx == 0.0 && s2.vy == -EffectiveSpeed(a)) &&
      (!s.controls.up && s.vx > 0.0 ==> s2.vx == EffectiveSpeed(a)) &&
      (!s.controls.up && s.vx <= 0.0 ==> s2.vx == -EffectiveSpeed(a))
  {
  }

  /** The dash key on a dash player never teleports, and on a player with neither skill does nothing. */
  lemma SkillKeyDispatch(a: Abilities, s: ActorState, platforms: seq<Platform>, canvas: Canvas,
                         camera: Camera, now: int, rand: nat -> real)
    ensures var r := SkillStep(a, s, platforms, canvas, camera, now, rand);
      (!s.controls.dash ==> r == s) &&
      (a.canDash ==> r.x == s.x && r.y == s.y && r.lastTeleportTime == s.lastTeleportTime) &&
      (!a.canDash && !a.canTeleport ==> r == s)
  {
  }

  /** Gravity adds 0.5 to the vertical speed every tick. */
  lemma GravityAccelerates(s: ActorState)
    ensures GravityStep(s).vy - s.vy == GRAVITY && GravityStep(s).vx == s.vx
  {
  }
}
