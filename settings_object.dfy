/** The settings panel object of SettingsObject.js. */
module SettingsPanel {
  import opened Geometry
  import opened Widgets
  import opened PanelSpec

  lemma AppendAssoc<T>(a: seq<T>, b: seq<T>, c: seq<T>)
    ensures (a + b) + c == a + (b + c)
  {
  }

  /**
   * A settings panel: its categories, the defaults it falls back to, the
   * `handler` record `open` creates (selected tab, panel y and alpha, one
   * animation record per tab), and two logs standing for the host's effects:
   * every text written to the settings file, and every button callback run.
   */
  class SettingsObject {
    const moduleName: string
    var defaults: seq<Category>
    var settings: seq<Category>
    /** `settings` and `defaults` are the same array, as after `reset` or a fallback load. */
    var shared: bool
    /** `open` has created the `handler`. */
    var isOpen: bool
    var selected: nat
    var y: real
    var alpha: real
    var tabs: array<Tab>
    var written: seq<seq<SavedCategory>>
    var runs: seq<string>

    /** The `handler` record: whether `open` made it, the selected tab, the panel's y and alpha, the tab records. */
    function Handler(): (bool, nat, real, real, array<Tab>)
      reads this
    {
      (isOpen, selected, y, alpha, tabs)
    }

    /** What the panel keeps besides the tree and the handler: the defaults, the sharing, and the two logs. */
    function Store(): (seq<Category>, bool, seq<seq<SavedCategory>>, seq<string>)
      reads this
    {
      (defaults, shared, written, runs)
    }

    /** The defaults array: while shared, it is the settings array itself, with every change made to it. */
    function Defaults(): seq<Category>
      reads this
    {
      if shared then settings else defaults
    }

    constructor(moduleName: string, defaultSettings: seq<Category>)
      ensures this.moduleName == moduleName && Defaults() == defaultSettings
      ensures settings == [] && !isOpen && written == [] && runs == []
    {
      this.moduleName := moduleName;
      defaults := defaultSettings;
      settings := [];
      shared := false;
      isOpen := false;
      selected := 0;
      y := 0.0;
      alpha := 0.0;
      tabs := new Tab[0];
      written := [];
      runs := [];
    }

    /**
     * `getSetting(category, name)`: the value of the first widget called
     * `name` in the first category called `category` that has one; null if
     * there is none.
     */
    method GetSetting(category: string, name: string) returns (v: JsValue)
      ensures v == Lookup(SaveCopy(settings), category, name)
    {
      ghost var saved := SaveCopy(settings);
      var i := 0;
      while i < |settings|
        invariant 0 <= i <= |settings|
        invariant Lookup(saved, category, name) == Lookup(saved[i..], category, name)
      {
        if category != settings[i].name {
          assert saved[i..][1..] == saved[i + 1..];
          i := i + 1;
          continue;
        }
        var ws := settings[i].settings;
        ghost var rs := saved[i].settings;
        var j := 0;
        while j < |ws|
          invariant 0 <= j <= |ws|
          invariant Find(rs, name) == Find(rs[j..], name)
        {
          if name != Name(ws[j]) {
            assert rs[j..][1..] == rs[j + 1..];
            j := j + 1;
            continue;
          }
          var record := Strip(ws[j]);
          if Tag(ws[j]) == SelectorTag {
            return OptionAt(record.options, record.index);
          } else {
            return ValueOf(record);
          }
        }
        assert saved[i..][1..] == saved[i + 1..];
        i := i + 1;
      }
      return Null;
    }

    /** `save`: writes the tree with every widget's `handler` removed; nothing else changes. */
    method Save() returns (self: SettingsObject)
      modifies this
      ensures self == this
      ensures written == old(written) + [SaveCopy(settings)]
      ensures settings == old(settings) && defaults == old(defaults) && shared == old(shared) && runs == old(runs)
      ensures isOpen == old(isOpen) && selected == old(selected) && y == old(y) && alpha == old(alpha) && tabs == old(tabs)
    {
      var cats := settings;
      var write: seq<SavedCategory> := [];
      var i := 0;
      while i < |cats|
        invariant 0 <= i <= |cats|
        invariant write == SaveCopy(cats)[..i]
      {
        var ws := cats[i].settings;
        var stripped: seq<Record> := [];
        var j := 0;
        while j < |ws|
          invariant 0 <= j <= |ws|
          invariant stripped == StripAll(ws)[..j]
        {
          stripped := stripped + [Strip(ws[j])];
          j := j + 1;
        }
        assert stripped == StripAll(ws);
        write := write + [SavedCategory(cats[i].name, stripped)];
        i := i + 1;
      }
      assert write == SaveCopy(cats);
      written := written + [write];
      self := this;
    }

    /** `reset`: the settings become the defaults array itself, which is then saved. */
    method Reset() returns (self: SettingsObject)
      modifies this
      ensures self == this
      ensures settings == old(Defaults()) && shared && Defaults() == old(Defaults())
      ensures written == old(written) + [SaveCopy(old(Defaults()))] && runs == old(runs)
      ensures isOpen == old(isOpen) && selected == old(selected) && y == old(y) && alpha == old(alpha) && tabs == old(tabs)
    {
      settings := Defaults();
      shared := true;
      self := Save();
    }

    /**
     * `open`: one fresh tab record per category, the first tab selected, the
     * panel raised by 20 and transparent.
     */
    method Open() returns (self: SettingsObject)
      modifies this
      ensures self == this && isOpen && fresh(tabs)
      ensures tabs[..] == seq(|settings|, _ => NewTab)
      ensures selected == 0 && y == 20.0 && alpha == 0.0
      ensures settings == old(settings) && defaults == old(defaults) && shared == old(shared)
      ensures written == old(written) && runs == old(runs)
    {
      var t := new Tab[|settings|];
      var i := 0;
      while i < |settings|
        modifies t
        invariant 0 <= i <= |settings| == t.Length
        invariant forall k :: 0 <= k < i ==> t[k] == NewTab
      {
        t[i] := Tab(0.0, 0.0, 20.0, 255.0, false);
        i := i + 1;
      }
      tabs := t;
      selected := 0;
      y := 20.0;
      alpha := 0.0;
      isOpen := true;
      self := this;
    }

    /** `parse`: replaces every widget, in place, by what `ParseWidget` makes of it. */
    method Parse()
      modifies this
      ensures settings == ParseAll(old(settings))
      ensures defaults == old(defaults) && shared == old(shared) && written == old(written) && runs == old(runs)
      ensures isOpen == old(isOpen) && selected == old(selected) && y == old(y) && alpha == old(alpha) && tabs == old(tabs)
    {
      var i := 0;
      while i < |settings|
        invariant 0 <= i <= |settings| == |old(settings)|
        invariant forall k :: 0 <= k < i ==> settings[k] == ParseCategory(old(settings)[k])
        invariant forall k :: i <= k < |settings| ==> settings[k] == old(settings)[k]
        invariant defaults == old(defaults) && shared == old(shared) && written == old(written) && runs == old(runs)
        invariant isOpen == old(isOpen) && selected == old(selected) && y == old(y) && alpha == old(alpha) && tabs == old(tabs)
      {
        ghost var before := settings;
        var j := 0;
        while j < |settings[i].settings|
          invariant |settings| == |before| && settings[i].name == before[i].name
          invariant forall k :: 0 <= k < |settings| && k != i ==> settings[k] == before[k]
          invariant 0 <= j <= |settings[i].settings| == |before[i].settings|
          invariant forall m :: 0 <= m < j ==> settings[i].settings[m] == ParseWidget(before[i].settings[m])
          invariant forall m :: j <= m < |settings[i].settings| ==> settings[i].settings[m] == before[i].settings[m]
          invariant defaults == old(defaults) && shared == old(shared) && written == old(written) && runs == old(runs)
          invariant isOpen == old(isOpen) && selected == old(selected) && y == old(y) && alpha == old(alpha) && tabs == old(tabs)
        {
          var c := settings[i];
          settings := settings[i := c.(settings := c.settings[j := ParseWidget(c.settings[j])])];
          j := j + 1;
        }
        assert settings[i] == ParseCategory(before[i]);
        i := i + 1;
      }
    }

    /**
     * `load`, given what reading the settings file returned. No content, or
     * content that is not an array, falls back to the defaults array itself
     * and saves it; an array is decoded and parsed, and not saved; text that
     * JSON cannot parse throws and leaves everything as it was.
     */
    method Load(content: FileContent) returns (thrown: bool)
      modifies this
      ensures thrown <==> content.Unparsable?
      ensures thrown ==> settings == old(settings) && shared == old(shared) && defaults == old(defaults) && written == old(written)
      ensures content.Missing? || content.NotArray? ==>
        settings == old(Defaults()) && shared && written == old(written) + [SaveCopy(old(Defaults()))]
      ensures content.Decoded? ==>
        settings == Reload(content.categories) && !shared && Defaults() == old(Defaults()) && written == old(written)
      ensures Defaults() == old(Defaults()) && runs == old(runs)
      ensures isOpen == old(isOpen) && selected == old(selected) && y == old(y) && alpha == old(alpha) && tabs == old(tabs)
    {
      thrown := false;
      match content
      case Missing =>
        settings := Defaults();
        shared := true;
        var _ := Save();
      case Unparsable =>
        thrown := true;
      case NotArray =>
        settings := Defaults();
        shared := true;
        var _ := Save();
      case Decoded(saved) =>
        defaults := Defaults();
        settings := Decode(saved);
        shared := false;
        Parse();
    }

    /**
     * `update`: while the GUI is open, the panel eases in, every tab eases
     * toward its targets and every widget of every category takes its
     * animation step. A category without a tab record, or a widget without
     * `update`, throws; no data changes either way.
     */
    method Update(guiOpen: bool, ease: Ease) returns (thrown: bool)
      requires guiOpen ==> isOpen
      modifies this, tabs
      ensures !guiOpen ==> !thrown && settings == old(settings) && y == old(y) && alpha == old(alpha) && tabs[..] == old(tabs[..])
      ensures guiOpen ==> y == ease(old(y), 0.0, 10.0, 0.1) && alpha == ease(old(alpha), 255.0, 10.0, 0.1)
      ensures thrown <==> guiOpen && !Live(old(settings), tabs.Length)
      ensures SaveCopy(settings) == SaveCopy(old(settings))
      ensures guiOpen && !thrown ==>
        settings == UpdateAll(old(settings), ease) && tabs[..] == UpdateTabs(old(tabs[..]), |settings|, selected, ease)
      ensures Store() == old(Store())
      ensures isOpen == old(isOpen) && selected == old(selected) && tabs == old(tabs)
    {
      thrown := false;
      if !guiOpen {
        return;
      }
      y := ease(y, 0.0, 10.0, 0.1);
      alpha := ease(alpha, 255.0, 10.0, 0.1);
      ghost var cats, marks := settings, tabs[..];
      thrown := UpdateCategories(ease);
      if !thrown {
        assert settings == UpdateAll(cats, ease);
        assert tabs[..] == UpdateTabs(marks, |settings|, selected, ease);
      }
    }

    /** The loop of `update` over the categories: each tab eases, then each category's widgets step. */
    method UpdateCategories(ease: Ease) returns (thrown: bool)
      modifies this, tabs
      ensures Handler() == old(Handler()) && Store() == old(Store())
      ensures thrown <==> !Live(old(settings), tabs.Length)
      ensures SaveCopy(settings) == SaveCopy(old(settings))
      ensures !thrown ==> |settings| == |old(settings)|
      ensures !thrown ==>
        forall k {:trigger settings[k]} :: 0 <= k < |settings| ==> settings[k] == UpdateCategory(old(settings)[k], ease)
      ensures !thrown ==>
        forall k {:trigger tabs[k]} :: 0 <= k < |settings| ==> tabs[k] == EaseTab(old(tabs[k]), k == selected, ease)
      ensures forall k :: |old(settings)| <= k < tabs.Length ==> tabs[k] == old(tabs[k])
    {
      thrown := false;
      ghost var cats, marks := settings, tabs[..];
      var i := 0;
      while i < |settings|
        invariant Handler() == old(Handler()) && Store() == old(Store())
        invariant 0 <= i <= |settings| == |cats| && i <= tabs.Length == |marks|
        invariant forall k {:trigger settings[k]} :: 0 <= k < i ==> settings[k] == UpdateCategory(cats[k], ease)
        invariant forall k :: i <= k < |settings| ==> settings[k] == cats[k]
        invariant forall k {:trigger tabs[k]} :: 0 <= k < i ==> tabs[k] == EaseTab(marks[k], k == selected, ease)
        invariant forall k :: i <= k < tabs.Length ==> tabs[k] == marks[k]
        invariant forall k :: 0 <= k < i ==> NoPlain(cats[k])
        invariant SaveCopy(settings) == SaveCopy(cats)
      {
        if i >= tabs.Length {
          assert !Live(cats, tabs.Length);
          return true;
        }
        tabs[i] := EaseTab(tabs[i], i == selected, ease);
        thrown := UpdateWidgets(i, ease);
        if thrown {
          assert !Live(cats, tabs.Length) by {
            assert !NoPlain(cats[i]);
          }
          return;
        }
        i := i + 1;
      }
      assert Live(cats, tabs.Length);
    }

    /** The inner loop of `update`: every widget of category i takes its step, and a plain record throws. */
    method UpdateWidgets(i: nat, ease: Ease) returns (thrown: bool)
      requires i < |settings|
      modifies this
      ensures thrown <==> !NoPlain(old(settings)[i])
      ensures !thrown ==> settings == old(settings)[i := UpdateCategory(old(settings)[i], ease)]
      ensures |settings| == |old(settings)| && SaveCopy(settings) == SaveCopy(old(settings))
      ensures Handler() == old(Handler()) && Store() == old(Store())
    {
      var row := settings[i].settings;
      var j := 0;
      UpdatedUpToStart(settings[i], ease);
      while j < |row|
        invariant settings == old(settings) && Handler() == old(Handler()) && Store() == old(Store())
        invariant j <= |row| && UpdatedUpTo(settings[i], ease, row, j)
      {
        UpdatedUpToStep(settings[i], ease, row, j);
        var (next, fails) := UpdateWidget(row[j], ease);
        if fails {
          PutRow(i, row);
          return true;
        }
        row := row[j := next];
        j := j + 1;
      }
      UpdatedUpToEnd(settings[i], ease, row, j);
      PutRow(i, row);
      thrown := false;
    }

    /**
     * `draw`, without the rendering: each tab header's `hovered` is set by
     * its hit test and each category's widgets are drawn one below the
     * other. A category without a tab record, or a widget without `draw`,
     * throws; no data changes either way.
     */
    method Draw(mx: real, my: real, screenWidth: real, screenHeight: real, measure: string -> real) returns (thrown: bool)
      requires isOpen
      modifies this, tabs
      ensures Handler() == old(Handler()) && Store() == old(Store())
      ensures thrown <==> !Live(old(settings), tabs.Length)
      ensures SaveCopy(settings) == SaveCopy(old(settings))
      ensures !thrown ==>
        settings == DrawAll(old(settings), old(tabs[..]), mx, my, PanelX(screenWidth), PanelY(screenHeight, y))
        && tabs[..] == MarkTabs(old(settings), old(tabs[..]), measure, mx, my, PanelX(screenWidth), PanelY(screenHeight, y))
    {
      var x := PanelX(screenWidth);
      var top := PanelY(screenHeight, y);
      thrown := DrawTabs(mx, my, x, top, measure);
      if !thrown {
        assert settings == DrawAll(old(settings), old(tabs[..]), mx, my, x, top);
        assert tabs[..] == MarkTabs(old(settings), old(tabs[..]), measure, mx, my, x, top);
      }
    }

    /** The loop of `draw` over the categories, each header at `x + xOffset`, where `xOffset` adds up the earlier headers' widths. */
    method DrawTabs(mx: real, my: real, x: real, top: real, measure: string -> real) returns (thrown: bool)
      modifies this, tabs
      ensures Handler() == old(Handler()) && Store() == old(Store())
      ensures thrown <==> !Live(old(settings), tabs.Length)
      ensures SaveCopy(settings) == SaveCopy(old(settings))
      ensures !thrown ==> |settings| == |old(settings)|
      ensures !thrown ==>
        forall k {:trigger settings[k]} :: 0 <= k < |settings| ==> settings[k] == DrawCategory(old(settings)[k], mx, my, x, top, old(tabs[k]))
      ensures !thrown ==>
        forall k {:trigger tabs[k]} :: 0 <= k < |settings| ==> tabs[k] == old(tabs[k]).(hovered := TabHovered(old(settings), k, measure, mx, my, x, top))
      ensures forall k :: |settings| <= k < tabs.Length ==> tabs[k] == old(tabs[k])
    {
      thrown := false;
      ghost var cats, marks := settings, tabs[..];
      var xOffset := 0.0;
      var i := 0;
      while i < |settings|
        invariant Handler() == old(Handler()) && Store() == old(Store())
        invariant 0 <= i <= |settings| == |cats| && i <= tabs.Length == |marks|
        invariant xOffset == TabLeft(cats, i, measure)
        invariant forall k {:trigger settings[k]} :: 0 <= k < i ==> settings[k] == DrawCategory(cats[k], mx, my, x, top, marks[k])
        invariant forall k :: i <= k < |settings| ==> settings[k] == cats[k]
        invariant forall k {:trigger tabs[k]} :: 0 <= k < i ==> tabs[k] == marks[k].(hovered := TabHovered(cats, k, measure, mx, my, x, top))
        invariant forall k :: i <= k < tabs.Length ==> tabs[k] == marks[k]
        invariant forall k :: 0 <= k < i ==> NoPlain(cats[k])
        invariant SaveCopy(settings) == SaveCopy(cats)
      {
        if i >= tabs.Length {
          assert !Live(cats, tabs.Length);
          return true;
        }
        var width;
        thrown, width := DrawTab(i, mx, my, x, top, xOffset, measure);
        if thrown {
          assert !Live(cats, tabs.Length) by {
            assert !NoPlain(cats[i]);
          }
          return;
        }
        assert tabs[i].hovered == TabHovered(cats, i, measure, mx, my, x, top);
        xOffset := xOffset + width;
        i := i + 1;
      }
      assert Live(cats, tabs.Length);
    }

    /** One round of that loop: the hit test of header i, then the widgets of category i; returns the header's width. */
    method DrawTab(i: nat, mx: real, my: real, x: real, top: real, xOffset: real, measure: string -> real) returns (thrown: bool, width: real)
      requires i < |settings| && i < tabs.Length
      modifies this, tabs
      ensures Handler() == old(Handler()) && Store() == old(Store())
      ensures width == TabWidth(old(settings)[i], measure)
      ensures tabs[i] == old(tabs[i]).(hovered := OverTab(mx, my, x, top, xOffset, width))
      ensures forall k :: 0 <= k < tabs.Length && k != i ==> tabs[k] == old(tabs[k])
      ensures thrown <==> !NoPlain(old(settings)[i])
      ensures !thrown ==> settings == old(settings)[i := DrawCategory(old(settings)[i], mx, my, x, top, old(tabs[i]))]
      ensures |settings| == |old(settings)| && SaveCopy(settings) == SaveCopy(old(settings))
      ensures forall k :: 0 <= k < |settings| && k != i ==> settings[k] == old(settings)[k]
    {
      width := measure(settings[i].name) + 10.0;
      var tab := tabs[i];
      tabs[i] := tab.(hovered := x + xOffset < mx < x + xOffset + width && top - 18.0 < my < top);
      thrown := DrawWidgets(i, mx, my, x, top, tab);
    }

    /**
     * The inner loop of `draw`: the widgets of category i, each at
     * `y + 5 + yOffset + tab.y`, where `yOffset` adds up the heights the
     * earlier ones returned; a plain record throws.
     */
    method DrawWidgets(i: nat, mx: real, my: real, x: real, top: real, tab: Tab) returns (thrown: bool)
      requires i < |settings|
      modifies this
      ensures thrown <==> !NoPlain(old(settings)[i])
      ensures !thrown ==> settings == old(settings)[i := DrawCategory(old(settings)[i], mx, my, x, top, tab)]
      ensures |settings| == |old(settings)| && settings[i].name == old(settings)[i].name
      ensures forall k :: 0 <= k < |settings| && k != i ==> settings[k] == old(settings)[k]
      ensures SaveCopy(settings) == SaveCopy(old(settings))
      ensures Handler() == old(Handler()) && Store() == old(Store())
    {
      var row := settings[i].settings;
      var yOffset := Num(0.0);
      var j := 0;
      DrawnUpToStart(settings[i], mx, my, x, top, tab);
      while j < |row|
        invariant settings == old(settings) && Handler() == old(Handler()) && Store() == old(Store())
        invariant j <= |row| && DrawnUpTo(settings[i], mx, my, x, top, tab, row, j, yOffset)
      {
        DrawnUpToStep(settings[i], mx, my, x, top, tab, row, j, yOffset);
        var (drawn, fails) := DrawWidget(row[j], mx, my, x + 5.0, Plus(Add(Num(top + 5.0), yOffset), tab.y), tab.alpha, PanelWidth);
        if fails {
          PutRow(i, row);
          return true;
        }
        yOffset := Add(yOffset, Height(row[j]));
        row := row[j := drawn];
        j := j + 1;
      }
      DrawnUpToEnd(settings[i], mx, my, x, top, tab, row, j, yOffset);
      PutRow(i, row);
      thrown := false;
    }

    /** Category i's widgets replaced by the same widgets redrawn or updated: their data is unchanged. */
    method PutRow(i: nat, row: seq<Widget>)
      requires i < |settings| && StripAll(row) == StripAll(settings[i].settings)
      modifies this
      ensures settings == old(settings)[i := old(settings)[i].(settings := row)]
      ensures SaveCopy(settings) == SaveCopy(old(settings))
      ensures Handler() == old(Handler()) && Store() == old(Store())
    {
      RowKeepsData(settings, i, row);
      var c := settings[i];
      settings := settings[i := c.(settings := row)];
    }

    /**
     * Forwarding one input to the widgets of category i in order, as
     * `click` and `drag` do: a widget that saves writes the tree as it is at
     * that moment, a button's callback is logged, and the first widget
     * lacking the method throws and ends the loop.
     */
    method ForwardWidgets(route: Route, i: nat, mx: real, my: real, textWidth: string -> real) returns (thrown: bool)
      requires i < |settings|
      modifies this
      ensures var e := ForwardFrom(route, old(settings), i, 0, mx, my, textWidth);
        settings == e.cats && written == old(written) + e.written && runs == old(runs) + e.runs && thrown == e.thrown
      ensures defaults == old(defaults) && shared == old(shared) && Handler() == old(Handler())
    {
      ghost var total := ForwardFrom(route, settings, i, 0, mx, my, textWidth);
      var j := 0;
      while j < |settings[i].settings|
        invariant defaults == old(defaults) && shared == old(shared) && Handler() == old(Handler())
        invariant |settings| == |old(settings)| && 0 <= j <= |settings[i].settings|
        invariant var cur := ForwardFrom(route, settings, i, j, mx, my, textWidth);
          total.cats == cur.cats && total.thrown == cur.thrown
          && old(written) + total.written == written + cur.written && old(runs) + total.runs == runs + cur.runs
      {
        ghost var before, logged, ran := settings, written, runs;
        var p := ForwardOne(route, i, j, mx, my, textWidth);
        ForwardStep(route, before, i, j, mx, my, textWidth);
        if p.thrown {
          return true;
        }
        ghost var rest := ForwardFrom(route, settings, i, j + 1, mx, my, textWidth);
        AppendAssoc(logged, if p.saved then [SaveCopy(settings)] else [], rest.written);
        AppendAssoc(ran, if p.runs then [p.widget.button.action] else [], rest.runs);
        j := j + 1;
      }
      thrown := false;
    }

    /** One step of that loop: widget j of category i gets the input, and saves or runs its callback. */
    method ForwardOne(route: Route, i: nat, j: nat, mx: real, my: real, textWidth: string -> real) returns (p: Press)
      requires i < |settings| && j < |settings[i].settings|
      modifies this
      ensures p == Forward(route, old(settings)[i].settings[j], mx, my, PanelWidth, textWidth)
      ensures p.thrown ==> settings == old(settings) && written == old(written) && runs == old(runs)
      ensures !p.thrown ==>
        settings == old(settings)[i := old(settings)[i].(settings := old(settings)[i].settings[j := p.widget])]
        && written == old(written) + (if p.saved then [SaveCopy(settings)] else [])
        && runs == old(runs) + (if p.runs then [p.widget.button.action] else [])
      ensures defaults == old(defaults) && shared == old(shared) && Handler() == old(Handler())
    {
      p := Forward(route, settings[i].settings[j], mx, my, PanelWidth, textWidth);
      if p.thrown {
        return;
      }
      var c := settings[i];
      settings := settings[i := c.(settings := c.settings[j := p.widget])];
      if p.saved {
        var _ := Save();
      }
      if p.runs {
        runs := runs + [p.widget.button.action];
      }
    }

    /**
     * `click`: the categories are visited in order; the first hovered tab
     * becomes the selection and ends the scan, and the selected category,
     * when it is reached first, forwards the click to its toggles, string
     * selectors, buttons and text inputs.
     */
    method Click(mx: real, my: real, textWidth: string -> real) returns (thrown: bool)
      requires isOpen
      modifies this
      ensures var o := PanelClick(old(settings), tabs[..], old(selected), mx, my, textWidth);
        settings == o.effects.cats && written == old(written) + o.effects.written
        && runs == old(runs) + o.effects.runs && thrown == o.effects.thrown && selected == o.selected
      ensures defaults == old(defaults) && shared == old(shared)
      ensures isOpen && y == old(y) && alpha == old(alpha) && tabs == old(tabs)
    {
      var i := 0;
      while i < |settings|
        invariant defaults == old(defaults) && shared == old(shared) && Handler() == old(Handler())
        invariant |settings| == |old(settings)| && 0 <= i <= |settings| && i <= tabs.Length
        invariant forall m :: 0 <= m < i ==> !tabs[m].hovered
        invariant i <= selected ==> settings == old(settings) && written == old(written) && runs == old(runs)
        invariant selected < i ==> var e := ForwardFrom(ClickRoute, old(settings), selected, 0, mx, my, textWidth);
          !e.thrown && settings == e.cats && written == old(written) + e.written && runs == old(runs) + e.runs
      {
        if i >= tabs.Length {
          FirstStopAt(tabs[..], |settings|, 0, i);
          return true;
        }
        if tabs[i].hovered {
          FirstStopAt(tabs[..], |settings|, 0, i);
          selected := i;
          return false;
        }
        if i == selected {
          thrown := ForwardWidgets(ClickRoute, i, mx, my, textWidth);
          if thrown {
            ghost var k := FirstStop(tabs[..], |settings|, 0);
            assert selected < k;
            return;
          }
        }
        i := i + 1;
      }
      FirstStopAt(tabs[..], |settings|, 0, i);
      thrown := false;
    }

    /** `drag`: the selected category forwards the drag to its colour pickers. */
    method Drag(mx: real, my: real) returns (thrown: bool)
      requires isOpen
      modifies this
      ensures var e := PanelDrag(old(settings), selected, mx, my);
        settings == e.cats && written == old(written) + e.written && runs == old(runs) && thrown == e.thrown
      ensures defaults == old(defaults) && shared == old(shared) && Handler() == old(Handler())
    {
      var i := 0;
      while i < |settings|
        invariant defaults == old(defaults) && shared == old(shared) && Handler() == old(Handler()) && runs == old(runs)
        invariant |settings| == |old(settings)| && 0 <= i <= |settings|
        invariant i <= selected ==> settings == old(settings) && written == old(written)
        invariant selected < i ==> var e := PanelDrag(old(settings), selected, mx, my);
          !e.thrown && settings == e.cats && written == old(written) + e.written
      {
        if selected != i {
          i := i + 1;
          continue;
        }
        thrown := ForwardWidgets(DragRoute, i, mx, my, NoMeasure);
        if thrown {
          return;
        }
        i := i + 1;
      }
      thrown := false;
    }

    /**
     * `keyType`: the selected category forwards the key to its text inputs,
     * the only widgets it is sent to, and a text input has no `keyType`: it
     * throws exactly when there is one, and changes nothing. Before `open`
     * there is no `handler`, and reading its selection throws as soon as
     * there is a category.
     */
    method KeyType(ch: char, keycode: int) returns (thrown: bool)
      ensures !isOpen ==> (thrown <==> |settings| > 0)
      ensures isOpen ==> (thrown <==> selected < |settings| && HasTextInput(settings[selected]))
    {
      if !isOpen {
        return |settings| > 0;
      }
      var i := 0;
      while i < |settings|
        invariant 0 <= i <= |settings|
        invariant selected < i ==> !HasTextInput(settings[selected])
      {
        if selected != i {
          i := i + 1;
          continue;
        }
        var ws := settings[i].settings;
        var j := 0;
        while j < |ws|
          invariant 0 <= j <= |ws|
          invariant forall m :: 0 <= m < j ==> Tag(ws[m]) != TextTag
        {
          if Tag(ws[j]) == TextTag {
            return true;
          }
          j := j + 1;
        }
        i := i + 1;
      }
      return false;
    }
  }
}
