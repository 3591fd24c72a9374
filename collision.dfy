/** Collision geometry of player.js (`wouldCollideWith`, `getCollisionResponse`): the
    player's prospective box is rotated into the platform's frame, tested for overlap,
    and pushed out along the axis of smaller penetration. */
module Collision {
  import opened Common
  import opened Platforms

  /** `platform.angle * Math.PI / 180`. */
  function Radians(m: MathLib, degrees: real): real {
    degrees * m.pi / 180.0
  }

  function CentreX(p: Platform): real { p.x + p.width / 2.0 }
  function CentreY(p: Platform): real { p.y + p.height / 2.0 }

  /** The prospective top-left corner rotated by minus the platform angle about its centre. */
  function LocalX(m: MathLib, nextX: real, nextY: real, p: Platform): real {
    var a := Radians(m, p.angle);
    (nextX - CentreX(p)) * m.cos(-a) - (nextY - CentreY(p)) * m.sin(-a) + CentreX(p)
  }

  function LocalY(m: MathLib, nextX: real, nextY: real, p: Platform): real {
    var a := Radians(m, p.angle);
    (nextX - CentreX(p)) * m.sin(-a) + (nextY - CentreY(p)) * m.cos(-a) + CentreY(p)
  }

  /** Strict overlap of two axis-aligned boxes given by corner and size. */
  predicate BoxesOverlap(ax: real, ay: real, aw: real, ah: real,
                         bx: real, by_: real, bw: real, bh: real) {
    ax < bx + bw && ax + aw > bx && ay < by_ + bh && ay + ah > by_
  }

  /** `wouldCollideWith(nextX, nextY, platform)` for a player box of size w × h. */
  predicate WouldCollideWith(m: MathLib, w: real, h: real, nextX: real, nextY: real, p: Platform) {
    BoxesOverlap(LocalX(m, nextX, nextY, p), LocalY(m, nextX, nextY, p), w, h,
                 p.x, p.y, p.width, p.height)
  }

  /** Signed penetration along the local X axis: negative pushes left, positive right. */
  function OverlapX(m: MathLib, w: real, nextX: real, nextY: real, p: Platform): real {
    var rx := LocalX(m, nextX, nextY, p);
    if rx + w / 2.0 < CentreX(p) then p.x - (rx + w) else p.x + p.width - rx
  }

  /** Signed penetration along the local Y axis: negative pushes up, positive down. */
  function OverlapY(m: MathLib, h: real, nextX: real, nextY: real, p: Platform): real {
    var ry := LocalY(m, nextX, nextY, p);
    if ry + h / 2.0 < CentreY(p) then p.y - (ry + h) else p.y + p.height - ry
  }

  datatype Response = Response(x: real, y: real, vx: real, vy: real, isOnGround: bool)

  /** The response resolves on X exactly when the X penetration is strictly smaller. */
  predicate ResolvesOnX(m: MathLib, w: real, h: real, nextX: real, nextY: real, p: Platform) {
    Abs(OverlapX(m, w, nextX, nextY, p)) < Abs(OverlapY(m, h, nextX, nextY, p))
  }

  /** `getCollisionResponse(nextX, nextY, platform)` with the player's current velocity (vx, vy). */
  function CollisionResponse(m: MathLib, w: real, h: real, vx: real, vy: real,
                             nextX: real, nextY: real, p: Platform): (r: Response)
    ensures ResolvesOnX(m, w, h, nextX, nextY, p) ==> r.vx == 0.0 && r.vy == vy && !r.isOnGround
    ensures !ResolvesOnX(m, w, h, nextX, nextY, p) ==>
      r.vx == vx && r.vy == 0.0 && (r.isOnGround <==> OverlapY(m, h, nextX, nextY, p) < 0.0)
  {
    var a := Radians(m, p.angle);
    var ox := OverlapX(m, w, nextX, nextY, p);
    var oy := OverlapY(m, h, nextX, nextY, p);
    if Abs(ox) < Abs(oy) then
      Response(nextX + ox * m.cos(a), nextY + ox * m.sin(a), 0.0, vy, false)
    else
      Response(nextX - oy * m.sin(a), nextY + oy * m.cos(a), vx, 0.0, oy < 0.0)
  }

  /** The resolved position does not depend on the velocity passed in. */
  lemma ResponsePositionIgnoresVelocity(m: MathLib, w: real, h: real, vx1: real, vy1: real,
                                        vx2: real, vy2: real, nextX: real, nextY: real, p: Platform)
    ensures CollisionResponse(m, w, h, vx1, vy1, nextX, nextY, p).x ==
            CollisionResponse(m, w, h, vx2, vy2, nextX, nextY, p).x
    ensures CollisionResponse(m, w, h, vx1, vy1, nextX, nextY, p).y ==
            CollisionResponse(m, w, h, vx2, vy2, nextX, nextY, p).y
  {
  }

  /** With a flat platform the rotation into the platform frame is the identity. */
  lemma FlatFrameIsIdentity(m: MathLib, nextX: real, nextY: real, p: Platform)
    requires TrigAtZero(m) && p.angle == 0.0
    ensures LocalX(m, nextX, nextY, p) == nextX && LocalY(m, nextX, nextY, p) == nextY
    ensures m.cos(Radians(m, p.angle)) == 1.0 && m.sin(Radians(m, p.angle)) == 0.0
  {
    assert Radians(m, p.angle) == 0.0;
    assert -Radians(m, p.angle) == 0.0;
  }

  /** At angle 0, `wouldCollideWith` is the strict axis-aligned overlap test. */
  lemma FlatCollisionIsBoxOverlap(m: MathLib, w: real, h: real, nextX: real, nextY: real, p: Platform)
    requires TrigAtZero(m) && p.angle == 0.0
    ensures WouldCollideWith(m, w, h, nextX, nextY, p) <==>
            BoxesOverlap(nextX, nextY, w, h, p.x, p.y, p.width, p.height)
  {
    FlatFrameIsIdentity(m, nextX, nextY, p);
  }

  /** At angle 0, a Y resolution of a box whose centre is above the platform's centre puts the
      box's bottom exactly on the platform's top, stops vertical motion and grounds the player. */
  lemma FlatLandingOnTop(m: MathLib, w: real, h: real, vx: real, vy: real,
                         nextX: real, nextY: real, p: Platform)
    requires TrigAtZero(m) && p.angle == 0.0
    requires BoxesOverlap(nextX, nextY, w, h, p.x, p.y, p.width, p.height)
    requires !ResolvesOnX(m, w, h, nextX, nextY, p)
    requires nextY + h / 2.0 < CentreY(p)
    ensures var r := CollisionResponse(m, w, h, vx, vy, nextX, nextY, p);
      r.x == nextX && r.y + h == p.y && r.vx == vx && r.vy == 0.0 && r.isOnGround
  {
    FlatFrameIsIdentity(m, nextX, nextY, p);
    assert OverlapY(m, h, nextX, nextY, p) == p.y - (nextY + h);
  }

  /** At angle 0, an X resolution moves the box only horizontally, flush against the side it
      hit, stops horizontal motion, keeps vertical motion and leaves the player airborne. */
  lemma FlatSideHit(m: MathLib, w: real, h: real, vx: real, vy: real,
                    nextX: real, nextY: real, p: Platform)
    requires TrigAtZero(m) && p.angle == 0.0
    requires ResolvesOnX(m, w, h, nextX, nextY, p)
    ensures var r := CollisionResponse(m, w, h, vx, vy, nextX, nextY, p);
      r.y == nextY && r.vx == 0.0 && r.vy == vy && !r.isOnGround &&
      (if nextX + w / 2.0 < CentreX(p) then r.x + w == p.x else r.x == p.x + p.width)
  {
    FlatFrameIsIdentity(m, nextX, nextY, p);
  }

  /** At angle 0, equal penetrations resolve on Y (a corner hit is a landing or a head bump). */
  lemma FlatTieResolvesOnY(m: MathLib, w: real, h: real, vx: real, vy: real,
                           nextX: real, nextY: real, p: Platform)
    requires Abs(OverlapX(m, w, nextX, nextY, p)) == Abs(OverlapY(m, h, nextX, nextY, p))
    ensures var r := CollisionResponse(m, w, h, vx, vy, nextX, nextY, p);
      r.vx == vx && r.vy == 0.0
  {
  }

  /** Containment at angle 0: the resolved box never overlaps the platform it was pushed out of,
      because it ends flush against the face it was pushed through. */
  lemma FlatResolutionSeparates(m: MathLib, w: real, h: real, vx: real, vy: real,
                                nextX: real, nextY: real, p: Platform)
    requires TrigAtZero(m) && p.angle == 0.0
    ensures var r := CollisionResponse(m, w, h, vx, vy, nextX, nextY, p);
      !BoxesOverlap(r.x, r.y, w, h, p.x, p.y, p.width, p.height)
  {
    FlatFrameIsIdentity(m, nextX, nextY, p);
    var r := CollisionResponse(m, w, h, vx, vy, nextX, nextY, p);
    if ResolvesOnX(m, w, h, nextX, nextY, p) {
      assert r.x == nextX + OverlapX(m, w, nextX, nextY, p);
    } else {
      assert r.y == nextY + OverlapY(m, h, nextX, nextY, p);
    }
  }
}
