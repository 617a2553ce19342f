/** The numeric slider of SettingTypes/Slider.js. */
module SliderType {
  import opened Wrappers
  import opened Geometry

  /** Everything a slider holds: its data and its `handler`. */
  datatype SliderState = SliderState(
    name: string, value: real, min: real, max: real, round: nat, hidden: bool,
    pos: Pos, hover: Hover)

  /** The height a slider row takes in the panel, and of its hover row. */
  const RowHeight := 25.0

  /** The constructor: `round` defaults to 0 when it is not given. */
  function NewSlider(name: string, value: real, min: real, max: real, round: Option<nat>): (s: SliderState)
    ensures s.round == (if round.Some? then round.value else 0)
    ensures s.pos == Unset && s.hover == Resting && !s.hidden
  {
    SliderState(name, value, min, max, if round.Some? then round.value else 0, false, Unset, Resting)
  }

  function Pow10(d: nat): (r: real)
    ensures r >= 1.0
  {
    if d == 0 then 1.0 else 10.0 * Pow10(d - 1)
  }

  /** Rounds a non-negative x to a multiple of 1/p, a tie going up. */
  function RoundHalfUp(x: real, p: real): real
    requires p >= 1.0
  {
    (x * p + 0.5).Floor as real / p
  }

  /**
   * `Number.prototype.toFixed(d)` read back as a number: x rounded to d
   * decimals, a tie going away from zero, as ECMAScript defines it on the
   * exact value.
   */
  function ToFixed(x: real, d: nat): real {
    if x < 0.0 then -RoundHalfUp(-x, Pow10(d)) else RoundHalfUp(x, Pow10(d))
  }

  /** Rounding a non-negative value stays non-negative, and is monotone. */
  lemma RoundHalfUpMono(x: real, y: real, p: real)
    requires 0.0 <= x <= y && p >= 1.0
    ensures 0.0 <= RoundHalfUp(x, p) <= RoundHalfUp(y, p)
  {
    MulLess(x * p, y * p, p, x, y);
    assert (x * p + 0.5).Floor <= (y * p + 0.5).Floor;
    assert 0 <= (x * p + 0.5).Floor;
    var fx := (x * p + 0.5).Floor as real;
    var fy := (y * p + 0.5).Floor as real;
    assert fx / p <= fy / p by {
      assert fx / p * p == fx && fy / p * p == fy;
      if fx / p > fy / p {
        MulLess(fy, fx, p, fy / p, fx / p);
      }
    }
  }

  /** toFixed is monotone. */
  lemma ToFixedMono(x: real, y: real, d: nat)
    requires x <= y
    ensures ToFixed(x, d) <= ToFixed(y, d)
  {
    var p := Pow10(d);
    if 0.0 <= x {
      RoundHalfUpMono(x, y, p);
    } else if y < 0.0 {
      RoundHalfUpMono(-y, -x, p);
    } else {
      RoundHalfUpMono(0.0, -x, p);
      RoundHalfUpMono(0.0, y, p);
    }
  }

  /** The most decimals `toFixed` accepts; more throw a RangeError. */
  const MaxDigits := 100

  /** The linear map of the pointer onto [min, max]: the track runs from x to x + width - 10. */
  function TrackValue(s: SliderState, mx: real, width: real): real
    requires s.pos.x.Num? && width - 10.0 != 0.0
  {
    ToFixed(MapRange(mx, s.pos.x.v, s.pos.x.v + (width - 10.0), s.min, s.max), s.round)
  }

  /** The pointer is strictly inside the track, from x to x + width - 10. */
  predicate InTrack(s: SliderState, mx: real, width: real) {
    Gt(mx, s.pos.x) && Lt(mx, Plus(s.pos.x, width - 10.0))
  }

  /**
   * `click`: the new state, whether `save` was called, and whether
   * `toFixed` threw because `round` asks for more than 100 decimals. Unless
   * the row is hovered nothing happens; a hovered click saves unless it threw.
   */
  function SliderClick(s: SliderState, mx: real, my: real, width: real): (r: (SliderState, bool, bool))
    ensures r.2 <==> s.hover.hover && InTrack(s, mx, width) && s.round > MaxDigits
    ensures r.1 <==> s.hover.hover && !r.2
    ensures r.0 == s.(value := r.0.value)
    ensures !s.hover.hover || r.2 ==> r.0 == s
    ensures s.hover.hover && Le(mx, s.pos.x) ==> r.0.value == s.min
    ensures s.hover.hover && Gt(mx, s.pos.x) && Ge(mx, Plus(s.pos.x, width - 10.0)) ==> r.0.value == s.max
    ensures s.hover.hover && InTrack(s, mx, width) && s.round <= MaxDigits ==>
      r.0.value == TrackValue(s, mx, width)
  {
    if !s.hover.hover then (s, false, false)
    else
      var slideWidth := width - 10.0;
      if Gt(mx, s.pos.x) && Lt(mx, Plus(s.pos.x, slideWidth)) then
        if s.round > MaxDigits then (s, false, true) else (s.(value := TrackValue(s, mx, width)), true, false)
      else
        var v :=
          if Le(mx, s.pos.x) then s.min
          else if Ge(mx, Plus(s.pos.x, slideWidth)) then s.max
          else s.value;
        (s.(value := v), true, false)
  }

  /** A pointer strictly inside the track maps, after rounding, into [min, max] when both ends survive rounding. */
  lemma TrackValueInRange(a: real, w: real, mx: real, lo: real, hi: real, round: nat)
    requires a < mx < a + w && lo <= hi
    requires ToFixed(lo, round) == lo && ToFixed(hi, round) == hi
    ensures lo <= ToFixed(MapRange(mx, a, a + w, lo, hi), round) <= hi
  {
    var m := MapRange(mx, a, a + w, lo, hi);
    if lo < hi {
      MapRangeInside(mx, a, a + w, lo, hi);
    } else {
      assert m == lo;
    }
    ToFixedMono(lo, m, round);
    ToFixedMono(m, hi, round);
  }

  /**
   * The slider stays within [min, max] as long as min and max need no more
   * decimals than `round` keeps (otherwise toFixed can round past them).
   */
  lemma SliderClickInRange(s: SliderState, mx: real, my: real, width: real)
    requires s.min <= s.max && s.min <= s.value <= s.max
    requires ToFixed(s.min, s.round) == s.min && ToFixed(s.max, s.round) == s.max
    ensures s.min <= SliderClick(s, mx, my, width).0.value <= s.max
  {
    if s.hover.hover && InTrack(s, mx, width) && s.round <= MaxDigits {
      TrackValueInRange(s.pos.x.v, width - 10.0, mx, s.min, s.max, s.round);
    }
  }

  /** toFixed(0) rounds 0.3 down to 0, below a minimum of 0.3; halves go away from zero. */
  lemma ToFixedExamples()
    ensures ToFixed(0.3, 0) == 0.0
    ensures ToFixed(2.5, 0) == 3.0
    ensures ToFixed(-2.5, 0) == -3.0
  {
    assert (0.3 * 1.0 + 0.5).Floor == 0;
    assert (2.5 * 1.0 + 0.5).Floor == 3;
    assert ((-(-2.5)) * 1.0 + 0.5).Floor == 3;
  }

  /** `draw` without the rendering: records the position and the hover flag, and returns the row height. */
  function SliderDraw(s: SliderState, mx: real, my: real, x: real, y: Num, alpha: real, width: real): (SliderState, real) {
    (s.(pos := Pos(Num(x), y), hover := s.hover.(hover := RowHover(mx, my, x, y, width, RowHeight, alpha))), RowHeight)
  }

  /**
   * After a draw at full opacity, the next click reacts (saves, or throws in
   * `toFixed`) exactly when the pointer of that draw was inside the row.
   */
  lemma DrawThenClickSaves(s: SliderState, dmx: real, dmy: real, x: real, y: real, width: real, mx: real, my: real)
    ensures var r := SliderClick(SliderDraw(s, dmx, dmy, x, Num(y), 255.0, width).0, mx, my, width);
      r.1 || r.2 <==> (x - 5.0 < dmx < x - 5.0 + width && y < dmy < y + RowHeight)
  {
  }

  /**
   * A slider from 0 to 100 with no decimals, drawn at x = 0 in a 250-wide
   * panel (track 0..240): the left edge gives 0, the right edge 100 and the
   * middle 50.
   */
  lemma SliderScenario(s: SliderState)
    requires s.min == 0.0 && s.max == 100.0 && s.round == 0
    requires s.hover.hover && s.pos.x == Num(0.0)
    ensures SliderClick(s, 0.0, 0.0, 250.0).0.value == 0.0
    ensures SliderClick(s, 240.0, 0.0, 250.0).0.value == 100.0
    ensures SliderClick(s, 120.0, 0.0, 250.0).0.value == 50.0
  {
    assert MapRange(120.0, 0.0, 240.0, 0.0, 100.0) == 50.0;
    assert (50.0 * Pow10(0) + 0.5).Floor == 50;
  }

  /** `update`: only the hover highlight moves, toward height 13. */
  function SliderUpdate(s: SliderState, ease: Ease): SliderState {
    s.(hover := EaseHover(s.hover, ease, 13.0))
  }

  /** A slider object, with the fields of the source's `this`. */
  class Slider {
    var name: string
    var value: real
    var min: real
    var max: real
    var round: nat
    var hidden: bool
    var pos: Pos
    var hover: Hover

    function State(): SliderState
      reads this
    {
      SliderState(name, value, min, max, round, hidden, pos, hover)
    }

    constructor(name: string, value: real, min: real, max: real, round: Option<nat>)
      ensures State() == NewSlider(name, value, min, max, round)
    {
      this.name := name;
      this.value := value;
      this.min := min;
      this.max := max;
      this.round := 0;
      if round.Some? {
        this.round := round.value;
      }
      hidden := false;
      pos := Unset;
      hover := Resting;
    }

    /** `setHidden`: returns the slider itself, for chaining. */
    method SetHidden(hidden: bool) returns (self: Slider)
      modifies this
      ensures self == this
      ensures State() == old(State()).(hidden := hidden)
    {
      this.hidden := hidden;
      self := this;
    }

    method Update(ease: Ease)
      modifies this
      ensures State() == SliderUpdate(old(State()), ease)
    {
      hover := EaseHover(hover, ease, 13.0);
    }

    /** `thrown`: `toFixed` threw a RangeError, before the value changed or `save` ran. */
    method Click(mx: real, my: real, width: real) returns (saved: bool, thrown: bool)
      modifies this
      ensures (State(), saved, thrown) == SliderClick(old(State()), mx, my, width)
    {
      if !hover.hover {
        return false, false;
      }
      var slideWidth := width - 10.0;
      thrown := false;
      if Gt(mx, pos.x) && Lt(mx, Plus(pos.x, slideWidth)) {
        if round > MaxDigits {
          return false, true;
        }
        value := ToFixed(MapRange(mx, pos.x.v, pos.x.v + slideWidth, min, max), round);
      } else if Le(mx, pos.x) {
        value := min;
      } else if Ge(mx, Plus(pos.x, slideWidth)) {
        value := max;
      }
      saved := true;
    }

    method Draw(mx: real, my: real, x: real, y: Num, alpha: real, width: real) returns (height: real)
      modifies this
      ensures (State(), height) == SliderDraw(old(State()), mx, my, x, y, alpha, width)
    {
      pos := Pos(Num(x), y);
      hover := hover.(hover := RowHover(mx, my, x, y, width, RowHeight, alpha));
      height := RowHeight;
    }
  }
}
