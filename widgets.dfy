/**
 * The widgets a category holds, seen through their `type` tag: what `save`
 * keeps of each, what `parse` rebuilds, what `getSetting` reads, and which
 * widgets the panel's `click`, `drag` and `keyType` reach.
 */
module Widgets {
  import opened Geometry
  import T = ToggleType
  import S = SliderType
  import C = ColorPickerType
  import Sel = StringSelectorType
  import B = ButtonType

  /** The type tags the widget constructors set. */
  const ToggleTag := "toggle"
  const SliderTag := "slider"
  const ColorTag := "color_picker"
  const SelectorTag := "string_selector"
  const ButtonTag := "button"
  const TextTag := "text_input"

  predicate Known(tag: string) {
    tag == ToggleTag || tag == SliderTag || tag == ColorTag || tag == SelectorTag || tag == ButtonTag || tag == TextTag
  }

  /**
   * A widget as `save` writes it: its own fields without `handler`. A record
   * with a tag of its own (not one of the six) keeps its tag, its name, its
   * `value` (undefined when it has none) and every other field it carries.
   */
  datatype Data =
    | ToggleData(name: string, on: bool)
    | SliderData(name: string, amount: real, min: real, max: real, round: nat, hidden: bool)
    | ColorData(name: string, rgb: C.Rgb, hidden: bool)
    | SelectorData(name: string, index: int, options: seq<string>, hidden: bool)
    | ButtonData(name: string, text: string, action: string, hidden: bool)
    | TextData(name: string, text: string)
    | OtherData(tag: string, name: string, value: JsValue, fields: map<string, JsValue>)

  type Record = d: Data | !(d.OtherData? && Known(d.tag)) witness ToggleData("", false)

  function DataTag(d: Record): (tag: string)
    ensures d.OtherData? <==> !Known(tag)
  {
    match d
    case ToggleData(_, _) => ToggleTag
    case SliderData(_, _, _, _, _, _) => SliderTag
    case ColorData(_, _, _) => ColorTag
    case SelectorData(_, _, _, _) => SelectorTag
    case ButtonData(_, _, _, _) => ButtonTag
    case TextData(_, _) => TextTag
    case OtherData(tag, _, _, _) => tag
  }

  /**
   * A widget in a category: a live object of one of the variants, a text
   * input (whose methods do nothing, so it has no state beyond its data), or
   * a plain record decoded from the settings file that `parse` did not
   * rebuild and that therefore has no methods.
   */
  datatype Widget =
    | ToggleW(toggle: T.ToggleState)
    | SliderW(slider: S.SliderState)
    | ColorW(picker: C.ColorState)
    | SelectorW(selector: Sel.SelectorState)
    | ButtonW(button: B.ButtonState)
    | TextW(textName: string, text: string)
    | Plain(record: Record)

  /** What `save` keeps of a widget: everything but `handler`. */
  function Strip(w: Widget): Record {
    match w
    case ToggleW(t) => ToggleData(t.name, t.value)
    case SliderW(s) => SliderData(s.name, s.value, s.min, s.max, s.round, s.hidden)
    case ColorW(c) => ColorData(c.name, c.value, c.hidden)
    case SelectorW(s) => SelectorData(s.name, s.value, Sel.Labels(s.choices), s.hidden)
    case ButtonW(b) => ButtonData(b.name, b.text, b.action, b.hidden)
    case TextW(name, text) => TextData(name, text)
    case Plain(d) => d
  }

  /** The widget's `type`: the tag its record carries. */
  function Tag(w: Widget): string {
    DataTag(Strip(w))
  }

  function Name(w: Widget): string {
    Strip(w).name
  }

  /**
   * One step of `parse`: the variants in its switch are rebuilt by their
   * constructors from the recorded fields; sliders and unknown tags are left
   * as they are.
   */
  function ParseWidget(w: Widget): (r: Widget)
    ensures Tag(r) == Tag(w) && Name(r) == Name(w)
    ensures Tag(w) == SliderTag || !Known(Tag(w)) ==> r == w
    ensures w.Plain? && Known(Tag(w)) && Tag(w) != SliderTag ==> !r.Plain?
  {
    match Strip(w)
    case ToggleData(name, on) => ToggleW(T.NewToggle(name, on))
    case ColorData(name, rgb, _) => ColorW(C.NewColorPicker(name, rgb))
    case SelectorData(name, index, options, _) => SelectorW(Sel.NewSelector(name, index, options))
    case ButtonData(name, text, action, _) => ButtonW(B.NewButton(name, text, action))
    case TextData(name, text) => TextW(name, text)
    case SliderData(_, _, _, _, _, _) => w
    case OtherData(_, _, _, _) => w
  }

  /** What a record becomes through a load and the next save: the rebuilt variants come back visible. */
  function Reloaded(d: Record): Record {
    match d
    case ColorData(name, rgb, _) => ColorData(name, rgb, false)
    case SelectorData(name, index, options, _) => SelectorData(name, index, options, false)
    case ButtonData(name, text, action, _) => ButtonData(name, text, action, false)
    case _ => d
  }

  /** Parsing a decoded record and stripping it again loses only `hidden` of the rebuilt variants. */
  lemma ParseThenStrip(d: Record)
    ensures Strip(ParseWidget(Plain(d))) == Reloaded(d)
    ensures Reloaded(Reloaded(d)) == Reloaded(d)
  {
  }

  /** A decoded record `parse` leaves plain has no `update`, `click` or `draw`: sliders read from a file are such records. */
  lemma ParsedSliderStaysPlain(d: Record)
    requires d.SliderData?
    ensures ParseWidget(Plain(d)) == Plain(d)
  {
  }

  /** What `getSetting` returns: a JavaScript value. */
  datatype JsValue = Bool(b: bool) | Number(n: real) | Color(rgb: C.Rgb) | Str(s: string) | Undefined | Null

  /** `options[value]`: undefined outside the array. */
  function OptionAt(options: seq<string>, index: int): (v: JsValue)
    ensures v.Str? <==> 0 <= index < |options|
    ensures v.Str? ==> v.s == options[index]
  {
    if 0 <= index < |options| then Str(options[index]) else Undefined
  }

  /**
   * The value `getSetting` reports for a widget: the selected option of a
   * string selector, otherwise the `value` field (undefined for buttons and
   * text inputs, which have none). It reads only the recorded data. Only a
   * record of a kind of its own can hold null there.
   */
  function ValueOf(d: Record): (v: JsValue)
    ensures v == Null ==> d.OtherData?
    ensures DataTag(d) == SelectorTag ==> v == OptionAt(d.options, d.index)
    ensures d.OtherData? ==> v == d.value
  {
    match d
    case ToggleData(_, on) => Bool(on)
    case SliderData(_, amount, _, _, _, _) => Number(amount)
    case ColorData(_, rgb, _) => Color(rgb)
    case SelectorData(_, index, options, _) => OptionAt(options, index)
    case OtherData(_, _, value, _) => value
    case _ => Undefined
  }

  /** A load and save never changes what `getSetting` reports. */
  lemma ReloadedKeepsValue(d: Record)
    ensures ValueOf(Reloaded(d)) == ValueOf(d) && Reloaded(d).name == d.name && DataTag(Reloaded(d)) == DataTag(d)
  {
  }

  /**
   * `update` on a widget: its animation step; true in the second component
   * when the widget has no `update` (a plain record), which throws. The data
   * never changes.
   */
  function UpdateWidget(w: Widget, ease: Ease): (r: (Widget, bool))
    ensures r.1 <==> w.Plain?
    ensures Strip(r.0) == Strip(w)
    ensures w.ToggleW? ==> r.0 == ToggleW(T.ToggleUpdate(w.toggle, ease))
    ensures w.SliderW? ==> r.0 == SliderW(S.SliderUpdate(w.slider, ease))
    ensures w.ColorW? ==> r.0 == ColorW(C.ColorUpdate(w.picker, ease))
    ensures w.SelectorW? ==> r.0 == SelectorW(Sel.SelectorUpdate(w.selector, ease))
    ensures w.ButtonW? ==> r.0 == ButtonW(B.ButtonUpdate(w.button, ease))
    ensures w.TextW? || w.Plain? ==> r.0 == w
  {
    match w
    case ToggleW(t) => (ToggleW(T.ToggleUpdate(t, ease)), false)
    case SliderW(s) => (SliderW(S.SliderUpdate(s, ease)), false)
    case ColorW(c) => (ColorW(C.ColorUpdate(c, ease)), false)
    case SelectorW(s) =>
      var r := Sel.SelectorUpdate(s, ease);
      assert Sel.Labels(r.choices) == Sel.Labels(s.choices);
      (SelectorW(r), false)
    case ButtonW(b) => (ButtonW(B.ButtonUpdate(b, ease)), false)
    case TextW(_, _) => (w, false)
    case Plain(_) => (w, true)
  }

  /** What `draw` returns: the row height, or undefined (NaN once added) for a text input. */
  function Height(w: Widget): (h: Num)
    ensures h.Num? <==> !(w.TextW? || w.Plain?)
    ensures h.Num? ==> h.v > 0.0
  {
    match w
    case ToggleW(_) => Num(T.RowHeight)
    case SliderW(_) => Num(S.RowHeight)
    case ColorW(_) => Num(C.RowHeight)
    case SelectorW(_) => Num(Sel.RowHeight)
    case ButtonW(_) => Num(B.RowHeight)
    case TextW(_, _) => NaN
    case Plain(_) => NaN
  }

  /** The hover flag a widget holds; a text input's and a plain record's stay at rest. */
  function Hovered(w: Widget): bool {
    match w
    case ToggleW(t) => t.hover.hover
    case SliderW(s) => s.hover.hover
    case ColorW(c) => c.hover.hover
    case SelectorW(s) => s.hover.hover
    case ButtonW(b) => b.hover.hover
    case _ => false
  }

  /**
   * `draw` on a widget at (x, y) with the category's alpha: records the
   * position and the hover flag; a text input does nothing; a plain record
   * has no `draw` and throws (the second component). The data never changes.
   */
  function DrawWidget(w: Widget, mx: real, my: real, x: real, y: Num, alpha: real, width: real): (r: (Widget, bool))
    ensures r.1 <==> w.Plain?
    ensures Strip(r.0) == Strip(w)
    ensures !w.Plain? && !w.TextW? ==> Hovered(r.0) == RowHover(mx, my, x, y, width, Height(w).v, alpha)
    ensures w.TextW? || w.Plain? ==> r.0 == w
  {
    match w
    case ToggleW(t) => (ToggleW(T.ToggleDraw(t, mx, my, x, y, alpha, width).0), false)
    case SliderW(s) => (SliderW(S.SliderDraw(s, mx, my, x, y, alpha, width).0), false)
    case ColorW(c) => (ColorW(C.ColorDraw(c, mx, my, x, y, alpha, width).0), false)
    case SelectorW(s) => (SelectorW(Sel.SelectorDraw(s, mx, my, x, y, alpha, width).0), false)
    case ButtonW(b) => (ButtonW(B.ButtonDraw(b, mx, my, x, y, alpha, width).0), false)
    case TextW(_, _) => (w, false)
    case Plain(_) => (w, true)
  }

  /** A widget drawn with an undefined y is never hovered. */
  lemma DrawAtNaNNotHovered(w: Widget, mx: real, my: real, x: real, alpha: real, width: real)
    ensures !Hovered(DrawWidget(w, mx, my, x, NaN, alpha, width).0)
  {
  }

  /** The three input paths: `click`, `drag` and `keyType`. */
  datatype Route = ClickRoute | DragRoute | KeyRoute

  /** Which tags each path forwards to, by the switch and the tag tests of the panel. */
  predicate Routed(route: Route, tag: string) {
    match route
    case ClickRoute => tag == ToggleTag || tag == SelectorTag || tag == ButtonTag || tag == TextTag
    case DragRoute => tag == ColorTag
    case KeyRoute => tag == TextTag
  }

  /** The outcome of forwarding one input to one widget. */
  datatype Press = Press(widget: Widget, saved: bool, runs: bool, thrown: bool)

  /**
   * Forwarding one input to one widget: `click` (a drag calls a colour
   * picker's `click` too) or `keyType`. `saved` says the widget called
   * `save`, `runs` that a button's `method` runs, `thrown` that the widget
   * lacks the method: a plain record, or `keyType`, which no text input
   * defines. `textWidth` measures a button caption.
   */
  function Forward(route: Route, w: Widget, mx: real, my: real, width: real, textWidth: string -> real): (r: Press)
    requires width != 142.5
    ensures !Routed(route, Tag(w)) ==> r == Press(w, false, false, false)
    ensures r.thrown <==> Routed(route, Tag(w)) && (w.Plain? || route.KeyRoute?)
    ensures r.thrown ==> r == Press(w, false, false, true)
    ensures Tag(r.widget) == Tag(w) && Name(r.widget) == Name(w)
    ensures r.runs ==> route.ClickRoute? && w.ButtonW? && !r.saved && r.widget == w
    ensures r.widget.Plain? <==> w.Plain?
    ensures r.saved ==> Routed(route, Tag(w)) && (w.ToggleW? || w.SelectorW? || w.ColorW?)
    ensures !r.saved ==> r.widget == w
  {
    if !Routed(route, Tag(w)) then Press(w, false, false, false)
    else if w.Plain? || route.KeyRoute? then Press(w, false, false, true)
    else match w
      case ToggleW(t) =>
        var (t', saved) := T.ToggleClick(t, mx, my, width);
        Press(ToggleW(t'), saved, false, false)
      case SelectorW(s) =>
        var (s', saved) := Sel.SelectorClick(s, mx, my, width);
        Press(SelectorW(s'), saved, false, false)
      case ColorW(c) =>
        var (c', saved) := C.ColorClick(c, mx, my, width);
        Press(ColorW(c'), saved, false, false)
      case ButtonW(b) =>
        Press(w, false, B.OnButton(b.pos, mx, my, width, textWidth(b.text)), false)
      case _ => Press(w, false, false, false)
  }

  /** Sliders are never reached by any input path, so no panel input ever changes one. */
  lemma SlidersNeverForwarded(route: Route, w: Widget, mx: real, my: real, width: real, textWidth: string -> real)
    requires width != 142.5 && Tag(w) == SliderTag
    ensures Forward(route, w, mx, my, width, textWidth) == Press(w, false, false, false)
  {
  }

  /** A colour picker is reached by drags only; toggles, selectors and buttons by clicks only. */
  lemma RoutesDisjoint(tag: string)
    ensures !(Routed(ClickRoute, tag) && Routed(DragRoute, tag))
    ensures Routed(KeyRoute, tag) ==> Routed(ClickRoute, tag)
  {
  }
}
