/** The conventional optional value. */
module Wrappers {
  datatype Option<+T> = None | Some(value: T)
}

/**
 * Numbers, positions and the pieces every widget shares: the strict hit test,
 * the hover animation record, the easing step and the linear map.
 */
module Geometry {

  /**
   * A JavaScript number as the widgets see it: a real value, or NaN.
   * A field that was never assigned (`undefined`) behaves the same way:
   * arithmetic on it gives NaN and every comparison with it is false.
   */
  datatype Num = Num(v: real) | NaN

  /** `n + d` */
  function Plus(n: Num, d: real): Num {
    if n.Num? then Num(n.v + d) else NaN
  }

  /** `a + b` */
  function Add(a: Num, b: Num): Num {
    if a.Num? && b.Num? then Num(a.v + b.v) else NaN
  }

  /** `m > n`, `m < n`, `m >= n` and `m <= n` for a pointer coordinate `m`. */
  predicate Gt(m: real, n: Num) { n.Num? && m > n.v }
  predicate Lt(m: real, n: Num) { n.Num? && m < n.v }
  predicate Ge(m: real, n: Num) { n.Num? && m >= n.v }
  predicate Le(m: real, n: Num) { n.Num? && m <= n.v }

  /** The strict hit test: the pointer lies strictly inside (left, right) x (top, bottom). */
  predicate Inside(mx: real, my: real, left: Num, right: Num, top: Num, bottom: Num) {
    Gt(mx, left) && Lt(mx, right) && Gt(my, top) && Lt(my, bottom)
  }

  /** `handler.pos`: where a widget was drawn last. */
  datatype Pos = Pos(x: Num, y: Num)

  /** `handler.pos = {}` before the first draw: both coordinates read as undefined. */
  const Unset := Pos(NaN, NaN)

  /**
   * The hover test of every widget's draw: the pointer is strictly inside the
   * row (x-5, x-5+width) x (y, y+rowHeight) and the row is fully opaque.
   */
  predicate RowHover(mx: real, my: real, x: real, y: Num, width: real, rowHeight: real, alpha: real) {
    Inside(mx, my, Num(x - 5.0), Num(x - 5.0 + width), y, Plus(y, rowHeight)) && alpha == 255.0
  }

  /**
   * `easeOut(current, target, rate, minStep)`. It belongs to the host library,
   * so every animation step takes it as a parameter and the model only says
   * which arguments each animated field is given.
   */
  type Ease = (real, real, real, real) -> real

  predicate Between(v: real, a: real, b: real) {
    (a <= v <= b) || (b <= v <= a)
  }

  /** The easing contract: one step never leaves the interval from the current value to the target. */
  ghost predicate NoOvershoot(ease: Ease) {
    forall c: real, t: real, rate: real, step: real :: Between(ease(c, t, rate, step), c, t)
  }

  /** `handler.hover`: the hover flag and its animated highlight. */
  datatype Hover = Hover(hover: bool, alpha: real, height: real)

  /** `{hover: false, alpha: 0, height: 0}`, as every constructor sets it. */
  const Resting := Hover(false, 0.0, 0.0)

  /**
   * The hover step every widget's `update` runs: toward alpha 130 and the
   * widget's highlight height `full` while hovered, toward 0 and 0 otherwise.
   */
  function EaseHover(h: Hover, ease: Ease, full: real): (r: Hover)
    ensures r.hover == h.hover
  {
    if h.hover then Hover(true, ease(h.alpha, 130.0, 10.0, 1.0), ease(h.height, full, 10.0, 0.1))
    else Hover(false, ease(h.alpha, 0.0, 10.0, 1.0), ease(h.height, 0.0, 10.0, 0.1))
  }

  predicate HoverInRange(h: Hover, full: real) {
    0.0 <= h.alpha <= 130.0 && 0.0 <= h.height <= full
  }

  /** With an easing step that does not overshoot, the highlight stays within alpha [0, 130] and height [0, full]. */
  lemma EaseHoverInRange(h: Hover, ease: Ease, full: real)
    requires NoOvershoot(ease) && HoverInRange(h, full)
    ensures HoverInRange(EaseHover(h, ease, full), full)
  {
    if h.hover {
      assert Between(ease(h.alpha, 130.0, 10.0, 1.0), h.alpha, 130.0);
      assert Between(ease(h.height, full, 10.0, 0.1), h.height, full);
    } else {
      assert Between(ease(h.alpha, 0.0, 10.0, 1.0), h.alpha, 0.0);
      assert Between(ease(h.height, 0.0, 10.0, 0.1), h.height, 0.0);
    }
  }

  /** `MathLib.map(v, a, b, c, d)`: the linear map sending a to c and b to d, over exact reals. */
  function MapRange(v: real, a: real, b: real, c: real, d: real): real
    requires a != b
  {
    c + (v - a) * (d - c) / (b - a)
  }

  /** Scaling a positive factor by x <= y keeps the order. */
  lemma MulLess(lhs: real, rhs: real, z: real, x: real, y: real)
    requires z > 0.0 && lhs == x * z && rhs == y * z
    ensures x < y ==> lhs < rhs
    ensures x <= y ==> lhs <= rhs
  {
  }

  /** A quotient of two positive reals is positive. */
  lemma DivPositive(p: real, q: real)
    requires 0.0 < p && 0.0 < q
    ensures 0.0 < p / q
  {
  }

  /** A point strictly inside (a, b) is mapped strictly inside (c, d). */
  lemma MapRangeInside(v: real, a: real, b: real, c: real, d: real)
    requires a < v < b && c < d
    ensures c < MapRange(v, a, b, c, d) < d
  {
    var t := (v - a) / (b - a);
    assert t * (b - a) == v - a;
    DivPositive(v - a, b - a);
    if t >= 1.0 {
      MulLess(b - a, t * (b - a), b - a, 1.0, t);
    }
    assert (v - a) * (d - c) / (b - a) == t * (d - c);
    assert 0.0 < t * (d - c);
    MulLess(t * (d - c), d - c, d - c, t, 1.0);
  }
}
