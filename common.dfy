/** Shared vocabulary of the model: an option type, points, the numeric primitives
    the game calls (Math.sqrt, Math.cos, Math.sin, Math.PI) and Euclidean distance. */
module Common {

  datatype Option<+T> = None | Some(value: T)

  datatype Point = Point(x: real, y: real)

  /** The browser's Math functions, passed in explicitly: Dafny has no square root
      or trigonometry on `real`, and the model may not leave a function without a body. */
  datatype MathLib = MathLib(pi: real, sqrt: real -> real, cos: real -> real, sin: real -> real)

  /** `m.sqrt` is the non-negative square root on the non-negative reals. */
  ghost predicate SqrtLawful(m: MathLib) {
    forall v: real :: 0.0 <= v ==> 0.0 <= m.sqrt(v) && m.sqrt(v) * m.sqrt(v) == v
  }

  /** The only facts about trigonometry the model relies on. */
  predicate TrigAtZero(m: MathLib) {
    m.cos(0.0) == 1.0 && m.sin(0.0) == 0.0
  }

  function Abs(v: real): (r: real)
    ensures 0.0 <= r && (r == v || r == -v)
  {
    if v < 0.0 then -v else v
  }

  function Min(a: real, b: real): (r: real)
    ensures r <= a && r <= b && (r == a || r == b)
  {
    if a < b then a else b
  }

  function Max(a: real, b: real): (r: real)
    ensures a <= r && b <= r && (r == a || r == b)
  {
    if a < b then b else a
  }

  /** A random draw in [0, 1) scaled to a span: `Math.random() * span`. Kept as a function so
      that the solver treats the product as one term. */
  function Scale(r: real, span: real): real {
    r * span
  }

  /** For a draw in [0, 1) and a positive span the scaled draw lies in [0, span). */
  lemma ScaledDrawBelow(r: real, span: real)
    requires 0.0 <= r < 1.0 && 0.0 < span
    ensures 0.0 <= Scale(r, span) < span
  {
    assert r * span < 1.0 * span;
  }

  /** `Math.sqrt(dx * dx + dy * dy)`. */
  function Dist(m: MathLib, dx: real, dy: real): real {
    m.sqrt(dx * dx + dy * dy)
  }

  /** On non-negative reals, squaring preserves and reflects strict order. */
  lemma SquareStrictMono(a: real, b: real)
    requires 0.0 <= a && 0.0 <= b
    ensures a < b <==> a * a < b * b
  {
    var aa, ab, bb := a * a, a * b, b * b;
    if a < b {
      assert aa <= ab;
      assert ab < bb;
    } else {
      assert bb <= ab;
      assert ab <= aa;
    }
  }

  /** A distance threshold `Dist < t` is the squared comparison `dx² + dy² < t²`. */
  lemma DistBelow(m: MathLib, dx: real, dy: real, t: real)
    requires SqrtLawful(m) && 0.0 <= t
    ensures Dist(m, dx, dy) < t <==> dx * dx + dy * dy < t * t
  {
    var q := dx * dx + dy * dy;
    assert 0.0 <= dx * dx && 0.0 <= dy * dy;
    var d := m.sqrt(q);
    assert 0.0 <= d && d * d == q;
    SquareStrictMono(d, t);
  }

  /** A distance threshold `t < Dist` is the squared comparison `t² < dx² + dy²`. */
  lemma DistAbove(m: MathLib, dx: real, dy: real, t: real)
    requires SqrtLawful(m) && 0.0 <= t
    ensures t < Dist(m, dx, dy) <==> t * t < dx * dx + dy * dy
  {
    var q := dx * dx + dy * dy;
    assert 0.0 <= dx * dx && 0.0 <= dy * dy;
    var d := m.sqrt(q);
    assert 0.0 <= d && d * d == q;
    SquareStrictMono(t, d);
  }

  /** Distances compare as their squares do: sorting by `Dist` is sorting by `dx² + dy²`. */
  lemma DistOrder(m: MathLib, px: real, py: real, qx: real, qy: real)
    requires SqrtLawful(m)
    ensures Dist(m, px, py) < Dist(m, qx, qy) <==> px * px + py * py < qx * qx + qy * qy
  {
    var p := px * px + py * py;
    var q := qx * qx + qy * qy;
    assert 0.0 <= px * px && 0.0 <= py * py && 0.0 <= qx * qx && 0.0 <= qy * qy;
    var d := m.sqrt(p);
    var e := m.sqrt(q);
    assert 0.0 <= d && d * d == p;
    assert 0.0 <= e && e * e == q;
    SquareStrictMono(d, e);
  }
}
