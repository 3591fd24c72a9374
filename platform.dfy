/** Platform records (platform.js) and the viewport they are drawn in. */
module Platforms {
  import opened Common

  /** A platform: top-left corner, size, and a rotation in degrees about its centre.
      Platforms are map data and never change during a match. */
  datatype Platform = Platform(x: real, y: real, width: real, height: real, angle: real := 0.0)

  /** The game's camera: only `x` moves; `width` is the world width it may scroll over. */
  datatype Camera = Camera(x: real, y: real, width: real, height: real)

  /** The drawing surface. */
  datatype Canvas = Canvas(width: real, height: real)

  const VISIBILITY_PADDING: real := 100.0

  /** `Platform.isVisible`: the platform's unrotated box against the viewport widened by the padding. */
  predicate IsVisible(p: Platform, camera: Camera, canvas: Canvas) {
    p.x + p.width > camera.x - VISIBILITY_PADDING &&
    p.x < camera.x + canvas.width + VISIBILITY_PADDING &&
    p.y + p.height > camera.y - VISIBILITY_PADDING &&
    p.y < camera.y + canvas.height + VISIBILITY_PADDING
  }

  predicate InOpen(v: real, lo: real, hi: real) {
    lo < v < hi
  }

  /** Reference notion: two open intervals share a point. */
  ghost predicate OpenIntervalsMeet(lo1: real, hi1: real, lo2: real, hi2: real) {
    exists v: real :: InOpen(v, lo1, hi1) && InOpen(v, lo2, hi2)
  }

  /** A platform built without an angle lies flat; the constructor stores its arguments as given. */
  lemma ConstructorDefaults(x: real, y: real, width: real, height: real)
    ensures Platform(x, y, width, height) == Platform(x, y, width, height, 0.0)
    ensures Platform(x, y, width, height).angle == 0.0
    ensures Platform(x, y, width, height).x == x && Platform(x, y, width, height).width == width
  {
  }

  lemma OpenIntervalsMeetIff(lo1: real, hi1: real, lo2: real, hi2: real)
    requires lo1 < hi1 && lo2 < hi2
    ensures OpenIntervalsMeet(lo1, hi1, lo2, hi2) <==> hi1 > lo2 && lo1 < hi2
  {
    if hi1 > lo2 && lo1 < hi2 {
      var v := (Max(lo1, lo2) + Min(hi1, hi2)) / 2.0;
      assert InOpen(v, lo1, hi1) && InOpen(v, lo2, hi2);
    }
  }

  /** For a platform and a viewport of positive size, visibility is exactly "the platform's box
      and the padded viewport share an interior point on both axes". */
  lemma VisibleIffPaddedOverlap(p: Platform, camera: Camera, canvas: Canvas)
    requires 0.0 < p.width && 0.0 < p.height
    requires 0.0 < canvas.width + 2.0 * VISIBILITY_PADDING && 0.0 < canvas.height + 2.0 * VISIBILITY_PADDING
    ensures IsVisible(p, camera, canvas) <==>
      OpenIntervalsMeet(p.x, p.x + p.width,
                        camera.x - VISIBILITY_PADDING, camera.x + canvas.width + VISIBILITY_PADDING) &&
      OpenIntervalsMeet(p.y, p.y + p.height,
                        camera.y - VISIBILITY_PADDING, camera.y + canvas.height + VISIBILITY_PADDING)
  {
    OpenIntervalsMeetIff(p.x, p.x + p.width,
                         camera.x - VISIBILITY_PADDING, camera.x + canvas.width + VISIBILITY_PADDING);
    OpenIntervalsMeetIff(p.y, p.y + p.height,
                         camera.y - VISIBILITY_PADDING, camera.y + canvas.height + VISIBILITY_PADDING);
  }

  /** A platform entirely left of, or entirely right of, the padded viewport is not visible. */
  lemma OffscreenNotVisible(p: Platform, camera: Camera, canvas: Canvas)
    requires p.x + p.width <= camera.x - VISIBILITY_PADDING ||
             p.x >= camera.x + canvas.width + VISIBILITY_PADDING
    ensures !IsVisible(p, camera, canvas)
  {
  }

  /** Visibility does not depend on the rotation. */
  lemma VisibilityIgnoresAngle(p: Platform, angle: real, camera: Camera, canvas: Canvas)
    ensures IsVisible(p, camera, canvas) == IsVisible(p.(angle := angle), camera, canvas)
  {
  }
}
