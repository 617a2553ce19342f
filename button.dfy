/** The push button of SettingTypes/Button.js. */
module ButtonType {
  import opened Geometry

  /**
   * Everything a button holds: its data (`name`, the caption `text`, and
   * `method`, the callback, kept as its source text) and its `handler`.
   */
  datatype ButtonState = ButtonState(name: string, text: string, action: string, hidden: bool, pos: Pos, hover: Hover)

  /** The height a button row takes in the panel, and of its hover row. */
  const RowHeight := 15.0

  function NewButton(name: string, text: string, action: string): ButtonState {
    ButtonState(name, text, action, false, Unset, Resting)
  }

  /**
   * The click target: the caption box at the row's right edge,
   * (x+width-textWidth-60, x+width-10) x (y, y+13), where textWidth is the
   * rendered width of the caption.
   */
  predicate OnButton(p: Pos, mx: real, my: real, width: real, textWidth: real) {
    Inside(mx, my, Plus(p.x, width - textWidth - 60.0), Plus(p.x, width - 10.0), p.y, Plus(p.y, 13.0))
  }

  /** `draw` without the rendering: records the position and the hover flag, and returns the row height. */
  function ButtonDraw(s: ButtonState, mx: real, my: real, x: real, y: Num, alpha: real, width: real): (ButtonState, real) {
    (s.(pos := Pos(Num(x), y), hover := s.hover.(hover := RowHover(mx, my, x, y, width, RowHeight, alpha))), RowHeight)
  }

  /**
   * After a draw at (x, y), a click runs the callback exactly inside the caption
   * box; before any draw the position is unset and no click runs it.
   */
  lemma DrawThenClick(s: ButtonState, dmx: real, dmy: real, x: real, y: real, alpha: real, width: real, textWidth: real, mx: real, my: real)
    ensures var drawn := ButtonDraw(s, dmx, dmy, x, Num(y), alpha, width).0;
      OnButton(drawn.pos, mx, my, width, textWidth)
      <==> (x + width - textWidth - 60.0 < mx < x + width - 10.0 && y < my < y + 13.0)
    ensures !OnButton(NewButton(s.name, s.text, s.action).pos, mx, my, width, textWidth)
  {
  }

  /**
   * A caption no wider than width - 55 keeps the box inside the row's hover
   * rectangle, so a click that runs the callback lands on a row that was
   * hovered when it was drawn at full opacity with the same pointer.
   */
  lemma ButtonInsideRow(s: ButtonState, x: real, y: real, width: real, textWidth: real, mx: real, my: real)
    requires 0.0 <= textWidth <= width - 55.0
    ensures var drawn := ButtonDraw(s, mx, my, x, Num(y), 255.0, width).0;
      OnButton(drawn.pos, mx, my, width, textWidth) ==> drawn.hover.hover
  {
  }

  /** `update`: only the hover highlight moves, toward height 8. */
  function ButtonUpdate(s: ButtonState, ease: Ease): ButtonState {
    s.(hover := EaseHover(s.hover, ease, 8.0))
  }

  /** A button object, with the fields of the source's `this`. */
  class Button {
    var name: string
    var text: string
    var action: string
    var hidden: bool
    var pos: Pos
    var hover: Hover

    function State(): ButtonState
      reads this
    {
      ButtonState(name, text, action, hidden, pos, hover)
    }

    constructor(name: string, text: string, action: string)
      ensures State() == NewButton(name, text, action)
    {
      this.name := name;
      this.text := text;
      this.action := action;
      hidden := false;
      pos := Unset;
      hover := Resting;
    }

    /** `setHidden`: returns the button itself, for chaining. */
    method SetHidden(hidden: bool) returns (self: Button)
      modifies this
      ensures self == this
      ensures State() == old(State()).(hidden := hidden)
    {
      this.hidden := hidden;
      self := this;
    }

    method Update(ease: Ease)
      modifies this
      ensures State() == ButtonUpdate(old(State()), ease)
    {
      hover := EaseHover(hover, ease, 8.0);
    }

    /**
     * `click`: whether the callback `method` is run. The button itself never
     * changes, and `save` is never called.
     */
    method Click(mx: real, my: real, width: real, textWidth: real) returns (runs: bool)
      ensures runs <==> OnButton(pos, mx, my, width, textWidth)
    {
      runs := false;
      if Gt(mx, Plus(pos.x, width - textWidth - 60.0)) && Lt(mx, Plus(pos.x, width - 10.0))
        && Gt(my, pos.y) && Lt(my, Plus(pos.y, 13.0))
      {
        runs := true;
      }
    }

    method Draw(mx: real, my: real, x: real, y: Num, alpha: real, width: real) returns (height: real)
      modifies this
      ensures (State(), height) == ButtonDraw(old(State()), mx, my, x, y, alpha, width)
    {
      pos := Pos(Num(x), y);
      hover := hover.(hover := RowHover(mx, my, x, y, width, RowHeight, alpha));
      height := RowHeight;
    }
  }
}
