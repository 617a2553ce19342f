/** The left/right option selector of SettingTypes/StringSelector.js. */
module StringSelectorType {
  import opened Geometry

  /** One option: its label, and the animated alpha of that label (`handler.text.alphas[i]`). */
  datatype Choice = Choice(caption: string, alpha: real)

  /**
   * Everything a string selector holds: its data (`name`, the index `value`,
   * the option labels) and its `handler` (`pos`, `hover`, `text.x` and one
   * label alpha per option).
   */
  datatype SelectorState = SelectorState(
    name: string, value: int, choices: seq<Choice>, hidden: bool,
    pos: Pos, hover: Hover, textX: real)

  /** The height a selector row takes in the panel, and of its hover row and click zones. */
  const RowHeight := 25.0

  /** The option labels, `options`. */
  function Labels(cs: seq<Choice>): (labels: seq<string>)
    ensures |labels| == |cs|
    ensures forall i :: 0 <= i < |cs| ==> labels[i] == cs[i].caption
  {
    seq(|cs|, i requires 0 <= i < |cs| => cs[i].caption)
  }

  /** Pairs each label with its alpha. */
  function Zip(labels: seq<string>, alphas: seq<real>): (cs: seq<Choice>)
    requires |labels| == |alphas|
    ensures |cs| == |labels| && Labels(cs) == labels
    ensures forall i :: 0 <= i < |cs| ==> cs[i].alpha == alphas[i]
  {
    seq(|labels|, i requires 0 <= i < |labels| => Choice(labels[i], alphas[i]))
  }

  /** The constructor: one label alpha per option, all 0, the text offset at 0 and the hover at rest. */
  function NewSelector(name: string, value: int, options: seq<string>): (s: SelectorState)
    ensures Labels(s.choices) == options
    ensures forall i :: 0 <= i < |s.choices| ==> s.choices[i].alpha == 0.0
    ensures s.value == value && s.textX == 0.0 && s.hover == Resting && s.pos == Unset && !s.hidden
  {
    SelectorState(name, value, Zip(options, seq(|options|, _ => 0.0)), false, Unset, Resting, 0.0)
  }

  /** The left click zone: the left half of the row, (x-5, x-5+width/2) x (y, y+25). */
  predicate LeftZone(p: Pos, mx: real, my: real, width: real) {
    Inside(mx, my, Plus(p.x, -5.0), Plus(p.x, -5.0 + width / 2.0), p.y, Plus(p.y, RowHeight))
  }

  /** The right click zone: the right half of the row, (x-5+width/2, x-5+width) x (y, y+25). */
  predicate RightZone(p: Pos, mx: real, my: real, width: real) {
    Inside(mx, my, Plus(p.x, -5.0 + width / 2.0), Plus(p.x, -5.0 + width), p.y, Plus(p.y, RowHeight))
  }

  /** The zones are open intervals meeting at x-5+width/2: no click lands in both. */
  lemma ZonesDisjoint(p: Pos, mx: real, my: real, width: real)
    ensures !(LeftZone(p, mx, my, width) && RightZone(p, mx, my, width))
  {
  }

  /** `value--`, then back up to 0 if it went below. */
  function StepDown(v: int): (w: int)
    ensures w >= 0
    ensures v >= 1 ==> w == v - 1
    ensures v < 1 ==> w == 0
  {
    if v - 1 < 0 then 0 else v - 1
  }

  /** `value++`, then back down to `n - 1` if it went past it. */
  function StepUp(v: int, n: nat): (w: int)
    ensures w <= n - 1
    ensures v < n - 1 ==> w == v + 1
    ensures v >= n - 1 ==> w == n - 1
  {
    if v + 1 > n - 1 then n - 1 else v + 1
  }

  /**
   * `click`: the new state, and whether `save` was called. The left zone
   * steps down, the right zone steps up; outside both nothing happens.
   */
  function SelectorClick(s: SelectorState, mx: real, my: real, width: real): (r: (SelectorState, bool))
    ensures r.0 == s.(value := r.0.value)
    ensures r.1 <==> LeftZone(s.pos, mx, my, width) || RightZone(s.pos, mx, my, width)
    ensures LeftZone(s.pos, mx, my, width) ==> r.0.value == StepDown(s.value)
    ensures RightZone(s.pos, mx, my, width) ==> r.0.value == StepUp(s.value, |s.choices|)
    ensures !r.1 ==> r.0 == s
  {
    ZonesDisjoint(s.pos, mx, my, width);
    var afterLeft := if LeftZone(s.pos, mx, my, width) then StepDown(s.value) else s.value;
    var afterRight := if RightZone(s.pos, mx, my, width) then StepUp(afterLeft, |s.choices|) else afterLeft;
    (s.(value := afterRight), LeftZone(s.pos, mx, my, width) || RightZone(s.pos, mx, my, width))
  }

  /** An index within the options stays within them, and moves by at most one. */
  lemma SelectorClickInRange(s: SelectorState, mx: real, my: real, width: real)
    requires 0 <= s.value < |s.choices|
    ensures var v := SelectorClick(s, mx, my, width).0.value;
      0 <= v < |s.choices| && s.value - 1 <= v <= s.value + 1
  {
  }

  /** With no options at all, a click in the right zone sets the index to -1. */
  lemma NoOptionsRightClick(s: SelectorState, mx: real, my: real, width: real)
    requires s.choices == [] && s.value == 0 && RightZone(s.pos, mx, my, width)
    ensures SelectorClick(s, mx, my, width) == (s.(value := -1), true)
  {
  }

  /**
   * An index past the options: a left click from 7 with three options steps
   * down by one, to 6, while a right click snaps to the last option, 2.
   */
  lemma OutOfRangeSnaps(s: SelectorState, mx: real, my: real, width: real)
    requires |s.choices| == 3 && s.value == 7
    ensures LeftZone(s.pos, mx, my, width) ==> SelectorClick(s, mx, my, width).0.value == 6
    ensures RightZone(s.pos, mx, my, width) ==> SelectorClick(s, mx, my, width).0.value == 2
  {
  }

  /** The target of option i's label alpha: 255 for the selected option, 0 for the others. */
  function AlphaTarget(i: int, value: int): real {
    if value == i then 255.0 else 0.0
  }

  /**
   * `update`: eases the text offset toward value * 20, each label alpha
   * toward its target, and the hover highlight toward height 13. The index
   * and the labels are untouched.
   */
  function SelectorUpdate(s: SelectorState, ease: Ease): (r: SelectorState)
    ensures r == s.(choices := r.choices, hover := r.hover, textX := r.textX)
    ensures Labels(r.choices) == Labels(s.choices)
    ensures forall i :: 0 <= i < |r.choices| ==>
      r.choices[i].alpha == ease(s.choices[i].alpha, AlphaTarget(i, s.value), 10.0, 1.0)
    ensures r.textX == ease(s.textX, s.value as real * 20.0, 10.0, 0.1)
    ensures r.hover == EaseHover(s.hover, ease, 13.0)
  {
    var cs := s.choices;
    s.(textX := ease(s.textX, s.value as real * 20.0, 10.0, 0.1),
       choices := seq(|cs|, i requires 0 <= i < |cs| => cs[i].(alpha := ease(cs[i].alpha, AlphaTarget(i, s.value), 10.0, 1.0))),
       hover := EaseHover(s.hover, ease, 13.0))
  }

  predicate AlphasInRange(cs: seq<Choice>) {
    forall i :: 0 <= i < |cs| ==> 0.0 <= cs[i].alpha <= 255.0
  }

  /** With an easing step that does not overshoot, every label alpha stays within [0, 255]. */
  lemma SelectorUpdateInRange(s: SelectorState, ease: Ease)
    requires NoOvershoot(ease) && AlphasInRange(s.choices) && HoverInRange(s.hover, 13.0)
    ensures AlphasInRange(SelectorUpdate(s, ease).choices) && HoverInRange(SelectorUpdate(s, ease).hover, 13.0)
  {
    var r := SelectorUpdate(s, ease);
    forall i | 0 <= i < |r.choices|
      ensures 0.0 <= r.choices[i].alpha <= 255.0
    {
      var a := s.choices[i].alpha;
      assert Between(ease(a, AlphaTarget(i, s.value), 10.0, 1.0), a, AlphaTarget(i, s.value));
    }
    EaseHoverInRange(s.hover, ease, 13.0);
  }

  /** `draw` without the rendering: records the position and the hover flag, and returns the row height. */
  function SelectorDraw(s: SelectorState, mx: real, my: real, x: real, y: Num, alpha: real, width: real): (SelectorState, real) {
    (s.(pos := Pos(Num(x), y), hover := s.hover.(hover := RowHover(mx, my, x, y, width, RowHeight, alpha))), RowHeight)
  }

  /**
   * After a draw at (x, y), a click in the row's left half steps down and one
   * in its right half steps up.
   */
  lemma DrawThenClick(s: SelectorState, dmx: real, dmy: real, x: real, y: real, alpha: real, width: real, mx: real, my: real)
    requires y < my < y + RowHeight
    ensures var drawn := SelectorDraw(s, dmx, dmy, x, Num(y), alpha, width).0;
      && (x - 5.0 < mx < x - 5.0 + width / 2.0 ==> SelectorClick(drawn, mx, my, width) == (drawn.(value := StepDown(s.value)), true))
      && (x - 5.0 + width / 2.0 < mx < x - 5.0 + width ==> SelectorClick(drawn, mx, my, width) == (drawn.(value := StepUp(s.value, |s.choices|)), true))
  {
  }

  /**
   * The horizontal offset of option i's label, `i * -20 + text.x`, wrapped:
   * past 20 it jumps to -20, below -20 to 20.
   */
  function LabelOffset(i: int, textX: real): (offset: real)
    ensures -20.0 <= offset <= 20.0
    ensures -20.0 <= i as real * -20.0 + textX <= 20.0 ==> offset == i as real * -20.0 + textX
  {
    var o := i as real * -20.0 + textX;
    var o' := if o > 20.0 then -20.0 else o;
    if o' < -20.0 then 20.0 else o'
  }

  /**
   * Once `text.x` has settled on value * 20, the selected label sits at the
   * centre and its neighbours at -20 and 20; farther labels are wrapped onto
   * the edges.
   */
  lemma SettledLabels(value: int, i: int)
    ensures LabelOffset(value, value as real * 20.0) == 0.0
    ensures LabelOffset(value + 1, value as real * 20.0) == -20.0
    ensures LabelOffset(value - 1, value as real * 20.0) == 20.0
    ensures i > value + 1 ==> LabelOffset(i, value as real * 20.0) == 20.0
    ensures i < value - 1 ==> LabelOffset(i, value as real * 20.0) == -20.0
  {
  }

  /** A string selector object, with the fields of the source's `this`; the label alphas are an array. */
  class StringSelector {
    var name: string
    var value: int
    var options: seq<string>
    var hidden: bool
    var pos: Pos
    var hover: Hover
    var textX: real
    var alphas: array<real>

    ghost predicate Valid()
      reads this
    {
      alphas.Length == |options|
    }

    function State(): SelectorState
      requires Valid()
      reads this, alphas
    {
      SelectorState(name, value, Zip(options, alphas[..]), hidden, pos, hover, textX)
    }

    constructor(name: string, value: int, options: seq<string>)
      ensures Valid() && fresh(alphas)
      ensures State() == NewSelector(name, value, options)
    {
      this.name := name;
      this.value := value;
      this.options := options;
      hidden := false;
      pos := Unset;
      hover := Resting;
      textX := 0.0;
      var textAlphas := new real[|options|];
      var i := 0;
      while i < |options|
        invariant 0 <= i <= |options|
        invariant forall k :: 0 <= k < i ==> textAlphas[k] == 0.0
      {
        textAlphas[i] := 0.0;
        i := i + 1;
      }
      alphas := textAlphas;
    }

    method Update(ease: Ease)
      requires Valid()
      modifies this, alphas
      ensures Valid() && alphas == old(alphas)
      ensures State() == SelectorUpdate(old(State()), ease)
    {
      textX := ease(textX, value as real * 20.0, 10.0, 0.1);
      var i := 0;
      while i < |options|
        invariant 0 <= i <= |options| == alphas.Length
        invariant forall k :: 0 <= k < i ==> alphas[k] == ease(old(alphas[k]), AlphaTarget(k, value), 10.0, 1.0)
        invariant forall k :: i <= k < alphas.Length ==> alphas[k] == old(alphas[k])
        modifies alphas
      {
        if value == i {
          alphas[i] := ease(alphas[i], 255.0, 10.0, 1.0);
        } else {
          alphas[i] := ease(alphas[i], 0.0, 10.0, 1.0);
        }
        i := i + 1;
      }
      hover := EaseHover(hover, ease, 13.0);
      ghost var s := old(State());
      assert Zip(options, alphas[..]) == SelectorUpdate(s, ease).choices;
    }

    /** Runs both zone tests in turn, as the source does; `saves` counts the calls to `save`. */
    method Click(mx: real, my: real, width: real) returns (saves: nat)
      requires Valid()
      modifies this
      ensures Valid() && alphas == old(alphas)
      ensures saves <= 1
      ensures (State(), saves == 1) == SelectorClick(old(State()), mx, my, width)
    {
      saves := 0;
      if LeftZone(pos, mx, my, width) {
        value := value - 1;
        if value < 0 {
          value := 0;
        }
        saves := saves + 1;
      }
      if RightZone(pos, mx, my, width) {
        value := value + 1;
        if value > |options| - 1 {
          value := |options| - 1;
        }
        saves := saves + 1;
      }
      ZonesDisjoint(pos, mx, my, width);
    }

    /** Records the position and hover flag; returns the row height and the wrapped offset of every label. */
    method Draw(mx: real, my: real, x: real, y: Num, alpha: real, width: real) returns (height: real, offsets: seq<real>)
      requires Valid()
      modifies this
      ensures Valid() && alphas == old(alphas)
      ensures (State(), height) == SelectorDraw(old(State()), mx, my, x, y, alpha, width)
      ensures |offsets| == |options| && forall i :: 0 <= i < |options| ==> offsets[i] == LabelOffset(i, textX)
    {
      pos := Pos(Num(x), y);
      hover := hover.(hover := RowHover(mx, my, x, y, width, RowHeight, alpha));
      offsets := [];
      var i := 0;
      while i < |options|
        invariant 0 <= i <= |options|
        invariant |offsets| == i && forall k :: 0 <= k < i ==> offsets[k] == LabelOffset(k, textX)
      {
        var xOffset := i as real * -20.0 + textX;
        if xOffset > 20.0 {
          xOffset := -20.0;
        }
        if xOffset < -20.0 {
          xOffset := 20.0;
        }
        offsets := offsets + [xOffset];
        i := i + 1;
      }
      height := RowHeight;
    }
  }
}
