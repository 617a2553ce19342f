/** The three-track colour picker of SettingTypes/ColorPicker.js. */
module ColorPickerType {
  import opened Wrappers
  import opened Geometry

  /** The picker's `value`: an array of three channels, red, green and blue. */
  datatype Rgb = Rgb(r: int, g: int, b: int)

  function Channel(c: Rgb, k: nat): int
    requires k < 3
  {
    if k == 0 then c.r else if k == 1 then c.g else c.b
  }

  function WithChannel(c: Rgb, k: nat, v: int): (d: Rgb)
    requires k < 3
    ensures Channel(d, k) == v
    ensures forall m :: 0 <= m < 3 && m != k ==> Channel(d, m) == Channel(c, m)
  {
    if k == 0 then c.(r := v) else if k == 1 then c.(g := v) else c.(b := v)
  }

  /** Everything a colour picker holds: its data and its `handler`. */
  datatype ColorState = ColorState(name: string, value: Rgb, hidden: bool, pos: Pos, hover: Hover)

  /** The height a colour picker row takes in the panel, and of its hover row. */
  const RowHeight := 25.0

  function NewColorPicker(name: string, value: Rgb): ColorState {
    ColorState(name, value, false, Unset, Resting)
  }

  /** `slideWidth`: the width of each of the three tracks. */
  function SlideWidth(width: real): real {
    width / 3.0 - 15.0
  }

  /** The pointer's y lies in the band y+14 .. y+19 of the row; at an undefined y no comparison rules it out. */
  predicate InBand(p: Pos, my: real) {
    !(Lt(my, Plus(p.y, 14.0)) || Gt(my, Plus(p.y, 19.0)))
  }

  /**
   * Track k's open span: it starts k * (w + 5) right of x and is w wide, for
   * w = SlideWidth; the spans of the three tracks are separated by 5-unit gaps.
   */
  predicate OnSpan(p: Pos, mx: real, width: real, k: nat) {
    var left := k as real * (SlideWidth(width) + 5.0);
    Gt(mx, Plus(p.x, left)) && Lt(mx, Plus(p.x, left + SlideWidth(width)))
  }

  /**
   * Which track a click lands on: 0, 1 or 2 for the red, green and blue
   * tracks, decided by the band test and then the three spans in turn.
   * For a defined y only the band y+14 .. y+19 counts.
   */
  function TrackAt(p: Pos, mx: real, my: real, width: real): (t: Option<nat>)
    ensures t.Some? ==> t.value < 3 && p.x.Num? && SlideWidth(width) > 0.0
    ensures !InBand(p, my) ==> t.None?
    ensures forall k :: 0 <= k < 3 ==> (t == Some(k) <==> InBand(p, my) && OnSpan(p, mx, width, k))
  {
    var sw := SlideWidth(width);
    if Lt(my, Plus(p.y, 14.0)) || Gt(my, Plus(p.y, 19.0)) then None
    else if Gt(mx, p.x) && Lt(mx, Plus(p.x, sw)) then Some(0)
    else if Gt(mx, Plus(p.x, sw + 5.0)) && Lt(mx, Plus(p.x, sw * 2.0 + 5.0)) then Some(1)
    else if Gt(mx, Plus(p.x, sw * 2.0 + 10.0)) && Lt(mx, Plus(p.x, sw * 3.0 + 10.0)) then Some(2)
    else None
  }

  /**
   * At an undefined y, as below a text input, the band test never fails:
   * whether a track is hit depends on the pointer's x alone.
   */
  lemma UndefinedRowIgnoresHeight(x: real, mx: real, my: real, my': real, width: real)
    ensures TrackAt(Pos(Num(x), NaN), mx, my, width) == TrackAt(Pos(Num(x), NaN), mx, my', width)
    ensures x < mx < x + SlideWidth(width) ==> TrackAt(Pos(Num(x), NaN), mx, my, width) == Some(0)
  {
  }

  /**
   * The channel a click on track t sets: the floored linear map onto [0, 255].
   * The green track maps from x+70, not from its own left end x+w+5.
   */
  function ChannelAt(t: nat, x: real, mx: real, width: real): int
    requires t < 3 && SlideWidth(width) > 0.0 && width != 142.5
  {
    var sw := SlideWidth(width);
    if t == 0 then MapRange(mx, x, x + sw, 0.0, 255.0).Floor
    else if t == 1 then MapRange(mx, x + 70.0, x + sw * 2.0 + 5.0, 0.0, 255.0).Floor
    else MapRange(mx, x + sw * 2.0 + 10.0, x + sw * 3.0 + 10.0, 0.0, 255.0).Floor
  }

  /**
   * `click` (also what a drag calls): the new state, and whether `save` was
   * called. At most one channel changes; it is saved exactly when a track is hit.
   */
  function ColorClick(s: ColorState, mx: real, my: real, width: real): (r: (ColorState, bool))
    requires width != 142.5
    ensures r.0 == s.(value := r.0.value)
    ensures r.1 <==> TrackAt(s.pos, mx, my, width).Some?
    ensures forall k :: 0 <= k < 3 && TrackAt(s.pos, mx, my, width) != Some(k) ==>
      Channel(r.0.value, k) == Channel(s.value, k)
    ensures TrackAt(s.pos, mx, my, width).Some? ==> var t := TrackAt(s.pos, mx, my, width).value;
      Channel(r.0.value, t) == ChannelAt(t, s.pos.x.v, mx, width)
    ensures TrackAt(s.pos, mx, my, width) == Some(0) ==> 0 <= r.0.value.r <= 254
    ensures TrackAt(s.pos, mx, my, width) == Some(2) ==> 0 <= r.0.value.b <= 254
  {
    match TrackAt(s.pos, mx, my, width)
    case None => (s, false)
    case Some(t) =>
      var v := ChannelAt(t, s.pos.x.v, mx, width);
      RedBlueInRange(t, s.pos, mx, my, width);
      (s.(value := WithChannel(s.value, t, v)), true)
  }

  /** A click on the red or blue track sets that channel within 0 .. 254: 255 itself is never reached by a click. */
  lemma RedBlueInRange(t: nat, p: Pos, mx: real, my: real, width: real)
    requires width != 142.5 && TrackAt(p, mx, my, width) == Some(t)
    ensures t != 1 ==> 0 <= ChannelAt(t, p.x.v, mx, width) <= 254
  {
    var sw := SlideWidth(width);
    var x := p.x.v;
    if t == 0 {
      MapRangeInside(mx, x, x + sw, 0.0, 255.0);
    } else if t == 2 {
      MapRangeInside(mx, x + sw * 2.0 + 10.0, x + sw * 3.0 + 10.0, 0.0, 255.0);
    }
  }

  /** In panels at least 240 wide the green track's origin lies left of the track, and green stays within 0 .. 254. */
  lemma GreenInRangeWhenWide(p: Pos, mx: real, my: real, width: real)
    requires width >= 240.0 && TrackAt(p, mx, my, width) == Some(1)
    ensures 0 <= ChannelAt(1, p.x.v, mx, width) <= 254
  {
    var sw := SlideWidth(width);
    var x := p.x.v;
    MapRangeInside(mx, x + 70.0, x + sw * 2.0 + 5.0, 0.0, 255.0);
  }

  /**
   * In a 150-wide panel the green track is (x+40, x+75) but maps from x+70:
   * a click at x+41 sets green to -1479.
   */
  lemma GreenBelowZeroWhenNarrow(s: ColorState)
    requires s.pos == Pos(Num(0.0), Num(0.0))
    ensures TrackAt(s.pos, 41.0, 15.0, 150.0) == Some(1)
    ensures ColorClick(s, 41.0, 15.0, 150.0).0.value.g == -1479
  {
    assert SlideWidth(150.0) == 35.0;
    assert MapRange(41.0, 70.0, 75.0, 0.0, 255.0) == -1479.0;
  }

  /** The five-unit gap between the red and green tracks hits nothing: no channel changes and nothing is saved. */
  lemma GapMisses(s: ColorState, mx: real, my: real, width: real)
    requires width != 142.5 && s.pos.x.Num?
    requires s.pos.x.v + SlideWidth(width) <= mx <= s.pos.x.v + SlideWidth(width) + 5.0
    ensures ColorClick(s, mx, my, width) == (s, false)
  {
  }

  /** `draw` without the rendering: records the position and the hover flag, and returns the row height. */
  function ColorDraw(s: ColorState, mx: real, my: real, x: real, y: Num, alpha: real, width: real): (ColorState, real) {
    (s.(pos := Pos(Num(x), y), hover := s.hover.(hover := RowHover(mx, my, x, y, width, RowHeight, alpha))), RowHeight)
  }

  /** After a draw at (x, y), clicks outside the band y+14 .. y+19 change nothing, whatever the x. */
  lemma DrawThenClickBand(s: ColorState, dmx: real, dmy: real, x: real, y: real, alpha: real, width: real, mx: real, my: real)
    requires width != 142.5 && (my < y + 14.0 || my > y + 19.0)
    ensures var drawn := ColorDraw(s, dmx, dmy, x, Num(y), alpha, width).0;
      ColorClick(drawn, mx, my, width) == (drawn, false)
  {
  }

  /** `update`: only the hover highlight moves, toward height 13; the channels are untouched. */
  function ColorUpdate(s: ColorState, ease: Ease): ColorState {
    s.(hover := EaseHover(s.hover, ease, 13.0))
  }

  /** A colour picker object, with the fields of the source's `this`; `value` is the author's array itself. */
  class ColorPicker {
    var name: string
    var value: array<int>
    var hidden: bool
    var pos: Pos
    var hover: Hover

    ghost predicate Valid()
      reads this
    {
      value.Length == 3
    }

    function State(): ColorState
      requires Valid()
      reads this, value
    {
      ColorState(name, Rgb(value[0], value[1], value[2]), hidden, pos, hover)
    }

    constructor(name: string, value: array<int>)
      requires value.Length == 3
      ensures Valid() && this.value == value
      ensures State() == NewColorPicker(name, Rgb(value[0], value[1], value[2]))
    {
      this.name := name;
      this.value := value;
      hidden := false;
      pos := Unset;
      hover := Resting;
    }

    /** `setHidden`: returns the picker itself, for chaining. */
    method SetHidden(hidden: bool) returns (self: ColorPicker)
      requires Valid()
      modifies this
      ensures Valid() && self == this && value == old(value)
      ensures State() == old(State()).(hidden := hidden)
    {
      this.hidden := hidden;
      self := this;
    }

    method Update(ease: Ease)
      requires Valid()
      modifies this
      ensures Valid() && value == old(value)
      ensures State() == ColorUpdate(old(State()), ease)
    {
      hover := EaseHover(hover, ease, 13.0);
    }

    /** Writes at most one element of the `value` array in place. */
    method Click(mx: real, my: real, width: real) returns (saved: bool)
      requires Valid() && width != 142.5
      modifies value
      ensures (State(), saved) == ColorClick(old(State()), mx, my, width)
    {
      if Lt(my, Plus(pos.y, 14.0)) || Gt(my, Plus(pos.y, 19.0)) {
        return false;
      }
      var slideWidth := SlideWidth(width);
      saved := false;
      if Gt(mx, pos.x) && Lt(mx, Plus(pos.x, slideWidth)) {
        value[0] := ChannelAt(0, pos.x.v, mx, width);
        saved := true;
      } else if Gt(mx, Plus(pos.x, slideWidth + 5.0)) && Lt(mx, Plus(pos.x, slideWidth * 2.0 + 5.0)) {
        value[1] := ChannelAt(1, pos.x.v, mx, width);
        saved := true;
      } else if Gt(mx, Plus(pos.x, slideWidth * 2.0 + 10.0)) && Lt(mx, Plus(pos.x, slideWidth * 3.0 + 10.0)) {
        value[2] := ChannelAt(2, pos.x.v, mx, width);
        saved := true;
      }
    }

    method Draw(mx: real, my: real, x: real, y: Num, alpha: real, width: real) returns (height: real)
      requires Valid()
      modifies this
      ensures Valid() && value == old(value)
      ensures (State(), height) == ColorDraw(old(State()), mx, my, x, y, alpha, width)
    {
      pos := Pos(Num(x), y);
      hover := hover.(hover := RowHover(mx, my, x, y, width, RowHeight, alpha));
      height := RowHeight;
    }
  }
}
