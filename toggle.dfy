/** The on/off toggle of SettingTypes/Toggle.js. */
module ToggleType {
  import opened Geometry

  /** `handler.slider`: the knob's animated x offset and the track's colour blend. */
  datatype Knob = Knob(x: real, color: real)

  /** Everything a toggle holds: its data (`name`, `value`) and its `handler`. */
  datatype ToggleState = ToggleState(name: string, value: bool, pos: Pos, slider: Knob, hover: Hover)

  /** The height a toggle row takes in the panel, and of its hover row. */
  const RowHeight := 15.0

  function NewToggle(name: string, value: bool): ToggleState {
    ToggleState(name, value, Unset, Knob(0.0, 255.0), Resting)
  }

  /** The click target: the track at the row's right edge, (x+width-60, x+width-10) x (y, y+13). */
  predicate OnTrack(p: Pos, mx: real, my: real, width: real) {
    Inside(mx, my, Plus(p.x, width - 60.0), Plus(p.x, width - 10.0), p.y, Plus(p.y, 13.0))
  }

  /** `click`: the new state, and whether `save` was called. */
  function ToggleClick(s: ToggleState, mx: real, my: real, width: real): (r: (ToggleState, bool))
    ensures r.1 <==> OnTrack(s.pos, mx, my, width)
    ensures r.0.value == (s.value != r.1)
    ensures r.0 == s.(value := r.0.value)
  {
    if OnTrack(s.pos, mx, my, width) then (s.(value := !s.value), true) else (s, false)
  }

  /** Two clicks at the same point restore the value: a click never moves the recorded position. */
  lemma ToggleClickTwice(s: ToggleState, mx: real, my: real, width: real)
    ensures ToggleClick(ToggleClick(s, mx, my, width).0, mx, my, width).0 == s
  {
  }

  /** The knob target: x 25 and colour 0 when on, x 0 and colour 255 when off. */
  function KnobTarget(value: bool): Knob {
    if value then Knob(25.0, 0.0) else Knob(0.0, 255.0)
  }

  /** `update`: eases the knob toward the target of the current value and the hover highlight toward height 8. */
  function ToggleUpdate(s: ToggleState, ease: Ease): (r: ToggleState)
    ensures r == s.(slider := r.slider, hover := r.hover)
    ensures r.hover == EaseHover(s.hover, ease, 8.0)
    ensures r.slider.x == ease(s.slider.x, KnobTarget(s.value).x, 10.0, 0.1)
    ensures r.slider.color == ease(s.slider.color, KnobTarget(s.value).color, 10.0, 1.0)
  {
    var target := KnobTarget(s.value);
    s.(slider := Knob(ease(s.slider.x, target.x, 10.0, 0.1), ease(s.slider.color, target.color, 10.0, 1.0)),
       hover := EaseHover(s.hover, ease, 8.0))
  }

  predicate KnobInRange(k: Knob) {
    0.0 <= k.x <= 25.0 && 0.0 <= k.color <= 255.0
  }

  /** With an easing step that does not overshoot, the knob stays on its track and the colour blend in [0, 255]. */
  lemma ToggleUpdateInRange(s: ToggleState, ease: Ease)
    requires NoOvershoot(ease) && KnobInRange(s.slider) && HoverInRange(s.hover, 8.0)
    ensures KnobInRange(ToggleUpdate(s, ease).slider) && HoverInRange(ToggleUpdate(s, ease).hover, 8.0)
  {
    var target := KnobTarget(s.value);
    assert Between(ease(s.slider.x, target.x, 10.0, 0.1), s.slider.x, target.x);
    assert Between(ease(s.slider.color, target.color, 10.0, 1.0), s.slider.color, target.color);
    EaseHoverInRange(s.hover, ease, 8.0);
  }

  /** `draw` without the rendering: records the position and the hover flag, and returns the row height. */
  function ToggleDraw(s: ToggleState, mx: real, my: real, x: real, y: Num, alpha: real, width: real): (ToggleState, real) {
    (s.(pos := Pos(Num(x), y), hover := s.hover.(hover := RowHover(mx, my, x, y, width, RowHeight, alpha))), RowHeight)
  }

  /** After a draw at (x, y), a click flips the value exactly inside (x+width-60, x+width-10) x (y, y+13). */
  lemma DrawThenClick(s: ToggleState, dmx: real, dmy: real, x: real, y: real, alpha: real, width: real, mx: real, my: real)
    ensures var drawn := ToggleDraw(s, dmx, dmy, x, Num(y), alpha, width).0;
      ToggleClick(drawn, mx, my, width).0.value != s.value
      <==> (x + width - 60.0 < mx < x + width - 10.0 && y < my < y + 13.0)
  {
  }

  /** A toggle object, with the fields of the source's `this`. */
  class Toggle {
    var name: string
    var value: bool
    var pos: Pos
    var slider: Knob
    var hover: Hover

    function State(): ToggleState
      reads this
    {
      ToggleState(name, value, pos, slider, hover)
    }

    constructor(name: string, value: bool)
      ensures State() == NewToggle(name, value)
    {
      this.name := name;
      this.value := value;
      pos := Unset;
      slider := Knob(0.0, 255.0);
      hover := Resting;
    }

    method Update(ease: Ease)
      modifies this
      ensures State() == ToggleUpdate(old(State()), ease)
    {
      if value {
        slider := slider.(x := ease(slider.x, 25.0, 10.0, 0.1));
        slider := slider.(color := ease(slider.color, 0.0, 10.0, 1.0));
      } else {
        slider := slider.(x := ease(slider.x, 0.0, 10.0, 0.1));
        slider := slider.(color := ease(slider.color, 255.0, 10.0, 1.0));
      }
      hover := EaseHover(hover, ease, 8.0);
    }

    method Click(mx: real, my: real, width: real) returns (saved: bool)
      modifies this
      ensures (State(), saved) == ToggleClick(old(State()), mx, my, width)
    {
      saved := false;
      if OnTrack(pos, mx, my, width) {
        value := !value;
        saved := true;
      }
    }

    method Draw(mx: real, my: real, x: real, y: Num, alpha: real, width: real) returns (height: real)
      modifies this
      ensures (State(), height) == ToggleDraw(old(State()), mx, my, x, y, alpha, width)
    {
      pos := Pos(Num(x), y);
      hover := hover.(hover := RowHover(mx, my, x, y, width, RowHeight, alpha));
      height := RowHeight;
    }
  }
}
