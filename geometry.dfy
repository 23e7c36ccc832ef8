/** Shapes of the game and the circle-overlap test shared by placement and collision. */
module Geometry {

  /** An RGBA colour, each channel in [0, 1]. */
  datatype Rgba = Rgba(r: real, g: real, b: real, a: real)

  /** A player, star or obstacle: a centre in device coordinates, a size used as radius, a colour. */
  datatype Circle = Circle(x: real, y: real, size: real, color: Rgba)

  function Sq(v: real): real { v * v }

  /** A circle of radius `size` centred at (x, y) touches `c`: the game's
      `Math.hypot(x - c.x, y - c.y) < size + c.size`, compared squared
      (see HypotComparison for why the two agree). */
  predicate Collides(x: real, y: real, size: real, c: Circle)
  {
    Sq(x - c.x) + Sq(y - c.y) < Sq(size + c.size)
  }

  predicate Overlaps(a: Circle, b: Circle)
  {
    Collides(a.x, a.y, a.size, b)
  }

  /** No circle of `cs` is touched by the circle of radius `size` at (x, y). */
  predicate ClearOf(x: real, y: real, size: real, cs: seq<Circle>)
  {
    forall j :: 0 <= j < |cs| ==> !Collides(x, y, size, cs[j])
  }

  /** Some circle of `cs` overlaps `p`. */
  predicate AnyOverlap(p: Circle, cs: seq<Circle>)
  {
    exists j :: 0 <= j < |cs| && Overlaps(p, cs[j])
  }

  /** When `h` is the Euclidean distance of (dx, dy) and the radius sum `r` is
      positive, `h < r` holds exactly when the squared comparison does. */
  lemma HypotComparison(dx: real, dy: real, h: real, r: real)
    requires 0.0 <= h && h * h == Sq(dx) + Sq(dy) && 0.0 < r
    ensures h < r <==> Sq(dx) + Sq(dy) < Sq(r)
  {
    if h < r {
      var d := r - h;
      assert r * r == h * h + d * (r + h);
      assert d * (r + h) > 0.0;
    } else {
      var d := h - r;
      assert h * h == r * r + d * (h + r);
      assert d * (h + r) >= 0.0;
    }
  }

  /** The inner `for ... of` scan of a placement retry: stops at the first
      circle touched and reports whether none was. */
  method CheckClear(x: real, y: real, size: real, cs: seq<Circle>) returns (safe: bool)
    ensures safe == ClearOf(x, y, size, cs)
  {
    safe := true;
    var j := 0;
    while j < |cs|
      invariant 0 <= j <= |cs|
      invariant forall t :: 0 <= t < j ==> !Collides(x, y, size, cs[t])
    {
      if Collides(x, y, size, cs[j]) {
        safe := false;
        break;
      }
      j := j + 1;
    }
  }

  /** The index of the first circle of `cs` that overlaps `p`, or |cs| when none does. */
  function FirstOverlap(p: Circle, cs: seq<Circle>): (k: nat)
    ensures k <= |cs|
    ensures forall j :: 0 <= j < k ==> !Overlaps(p, cs[j])
    ensures k < |cs| ==> Overlaps(p, cs[k])
    ensures k == |cs| <==> !AnyOverlap(p, cs)
    decreases |cs|
  {
    if |cs| == 0 then 0
    else if Overlaps(p, cs[0]) then 0
    else 1 + FirstOverlap(p, cs[1..])
  }
}
