/**
 * The settings panel of SettingsObject.js as functions of its state: the
 * category tree, the saved copy, the lookup `getSetting` performs, the tab
 * animation, the stacking of `draw` and the forwarding of input to widgets.
 * The class in settings_object.dfy is proved against these.
 */
module PanelSpec {
  import opened Wrappers
  import opened Geometry
  import opened Widgets
  import C = ColorPickerType

  /** A category: its tab label and its widgets, in order. */
  datatype Category = Category(name: string, settings: seq<Widget>)

  /** A category as `save` writes it: every widget without its `handler`. */
  datatype SavedCategory = SavedCategory(name: string, settings: seq<Record>)

  /** The panel's `width` and `height`. */
  const PanelWidth := 250.0
  const PanelHeight := 150.0

  // ---------------------------------------------------------------- save

  function StripAll(ws: seq<Widget>): (rs: seq<Record>)
    ensures |rs| == |ws| && forall j {:trigger rs[j]} :: 0 <= j < |ws| ==> rs[j] == Strip(ws[j])
  {
    seq(|ws|, j requires 0 <= j < |ws| => Strip(ws[j]))
  }

  /** What `save` writes: the tree with every widget's `handler` removed. */
  function SaveCopy(cats: seq<Category>): (saved: seq<SavedCategory>)
    ensures |saved| == |cats|
    ensures forall i {:trigger saved[i]} :: 0 <= i < |cats| ==> saved[i] == SavedCategory(cats[i].name, StripAll(cats[i].settings))
  {
    seq(|cats|, i requires 0 <= i < |cats| => SavedCategory(cats[i].name, StripAll(cats[i].settings)))
  }

  /** Element j of the old part turned into element j of the new one: the boundary moves by one. */
  lemma PrefixStep<T>(r: seq<T>, ws: seq<T>, j: nat)
    requires |r| == |ws| && j < |ws|
    ensures (r[..j] + ws[j..])[j := r[j]] == r[..j + 1] + ws[j + 1..]
  {
  }

  /** Replacing one widget by one with the same data leaves the stripped row unchanged. */
  lemma StripReplace(ws: seq<Widget>, j: nat, w: Widget)
    requires j < |ws| && Strip(w) == Strip(ws[j])
    ensures StripAll(ws[j := w]) == StripAll(ws)
  {
    assert forall m :: 0 <= m < |ws| ==> StripAll(ws[j := w])[m] == StripAll(ws)[m];
  }

  /** Replacing a category's row by one with the same data leaves what `save` writes unchanged. */
  lemma RowKeepsData(cats: seq<Category>, i: nat, row: seq<Widget>)
    requires i < |cats| && StripAll(row) == StripAll(cats[i].settings)
    ensures SaveCopy(cats[i := cats[i].(settings := row)]) == SaveCopy(cats)
  {
    var next := cats[i := cats[i].(settings := row)];
    assert forall k :: 0 <= k < |cats| ==> SaveCopy(next)[k] == SaveCopy(cats)[k];
  }

  // ---------------------------------------------------------------- load and parse

  /**
   * What reading the settings file yields: nothing (an empty string, null or
   * undefined), text JSON cannot parse, a decoded value that is not an
   * array, or an array of categories.
   */
  datatype FileContent = Missing | Unparsable | NotArray | Decoded(categories: seq<SavedCategory>)

  /** The decoded tree before `parse`: every widget a plain record. */
  function Decode(saved: seq<SavedCategory>): (cats: seq<Category>)
    ensures SaveCopy(cats) == saved
    ensures forall i, j :: 0 <= i < |cats| && 0 <= j < |cats[i].settings| ==> cats[i].settings[j].Plain?
  {
    var cats := seq(|saved|, i requires 0 <= i < |saved| =>
      Category(saved[i].name, seq(|saved[i].settings|, j requires 0 <= j < |saved[i].settings| => Plain(saved[i].settings[j]))));
    assert forall i :: 0 <= i < |cats| ==> StripAll(cats[i].settings) == saved[i].settings;
    cats
  }

  function ParseCategory(c: Category): Category {
    c.(settings := seq(|c.settings|, j requires 0 <= j < |c.settings| => ParseWidget(c.settings[j])))
  }

  /** `parse`: every widget replaced by `ParseWidget` of it, in place. */
  function ParseAll(cats: seq<Category>): (r: seq<Category>)
    ensures |r| == |cats|
    ensures forall i {:trigger r[i]} :: 0 <= i < |cats| ==> r[i] == ParseCategory(cats[i])
  {
    seq(|cats|, i requires 0 <= i < |cats| => ParseCategory(cats[i]))
  }

  /**
   * `parse` keeps the number of categories, their names, the number of
   * widgets in each, and each widget's tag and name; sliders and unknown tags
   * are left as they are, every other decoded record becomes a live widget.
   */
  lemma ParseKeepsShape(cats: seq<Category>)
    ensures var r := ParseAll(cats);
      && |r| == |cats|
      && (forall i :: 0 <= i < |cats| ==> r[i].name == cats[i].name && |r[i].settings| == |cats[i].settings|)
      && (forall i, j :: 0 <= i < |cats| && 0 <= j < |cats[i].settings| ==>
            && Tag(r[i].settings[j]) == Tag(cats[i].settings[j])
            && Name(r[i].settings[j]) == Name(cats[i].settings[j])
            && (Tag(cats[i].settings[j]) == SliderTag || !Known(Tag(cats[i].settings[j])) ==> r[i].settings[j] == cats[i].settings[j])
            && (cats[i].settings[j].Plain? && Known(Tag(cats[i].settings[j])) && Tag(cats[i].settings[j]) != SliderTag ==> !r[i].settings[j].Plain?))
  {
  }

  /** A loaded tree: the decoded records after `parse`. */
  function Reload(saved: seq<SavedCategory>): seq<Category> {
    ParseAll(Decode(saved))
  }

  function ReloadedAll(saved: seq<SavedCategory>): (r: seq<SavedCategory>)
    ensures |r| == |saved|
  {
    seq(|saved|, i requires 0 <= i < |saved| =>
      SavedCategory(saved[i].name, seq(|saved[i].settings|, j requires 0 <= j < |saved[i].settings| => Reloaded(saved[i].settings[j]))))
  }

  /** Loading what was saved and saving again writes the same file, except that rebuilt widgets come back visible. */
  lemma SaveLoadRoundTrip(saved: seq<SavedCategory>)
    ensures SaveCopy(Reload(saved)) == ReloadedAll(saved)
  {
    var cats := Decode(saved);
    forall i | 0 <= i < |saved|
      ensures StripAll(ParseCategory(cats[i]).settings) == ReloadedAll(saved)[i].settings
    {
      forall j | 0 <= j < |saved[i].settings|
        ensures Strip(ParseWidget(cats[i].settings[j])) == Reloaded(saved[i].settings[j])
      {
        ParseThenStrip(saved[i].settings[j]);
      }
    }
  }

  /** From the second load on, saving and loading is a fixed point: the file stops changing. */
  lemma ReloadStable(cats: seq<Category>)
    ensures var once := SaveCopy(Reload(SaveCopy(cats)));
      SaveCopy(Reload(once)) == once
  {
    var saved := SaveCopy(cats);
    SaveLoadRoundTrip(saved);
    SaveLoadRoundTrip(ReloadedAll(saved));
    var twice := ReloadedAll(ReloadedAll(saved));
    forall i | 0 <= i < |saved|
      ensures twice[i] == ReloadedAll(saved)[i]
    {
      forall j | 0 <= j < |saved[i].settings|
        ensures Reloaded(Reloaded(saved[i].settings[j])) == Reloaded(saved[i].settings[j])
      {
        ParseThenStrip(saved[i].settings[j]);
      }
    }
  }

  // ---------------------------------------------------------------- getSetting

  /** The first record named n. */
  function Find(rs: seq<Record>, n: string): (r: Option<Record>)
    ensures r.None? <==> forall j :: 0 <= j < |rs| ==> rs[j].name != n
  {
    if rs == [] then None
    else if rs[0].name == n then Some(rs[0])
    else Find(rs[1..], n)
  }

  /** `getSetting(category, name)` on the saved form of the tree (it reads no `handler`). */
  function Lookup(saved: seq<SavedCategory>, category: string, name: string): JsValue {
    if saved == [] then Null
    else
      var found := if saved[0].name == category then Find(saved[0].settings, name) else None;
      if found.Some? then ValueOf(found.value) else Lookup(saved[1..], category, name)
  }

  /** Category i is named `category` and its widget j is named `name`. */
  predicate Match(saved: seq<SavedCategory>, category: string, name: string, i: int, j: int) {
    0 <= i < |saved| && saved[i].name == category && 0 <= j < |saved[i].settings| && saved[i].settings[j].name == name
  }

  /** No (i, j) before (i0, j0), in category-then-widget order, matches. */
  ghost predicate NoEarlierMatch(saved: seq<SavedCategory>, category: string, name: string, i0: int, j0: int) {
    forall i, j :: Match(saved, category, name, i, j) ==> i0 < i || (i0 == i && j0 <= j)
  }

  lemma FindFirst(rs: seq<Record>, n: string, j0: nat)
    requires j0 < |rs| && rs[j0].name == n
    requires forall j :: 0 <= j < j0 ==> rs[j].name != n
    ensures Find(rs, n) == Some(rs[j0])
    decreases j0
  {
    if j0 > 0 {
      FindFirst(rs[1..], n, j0 - 1);
    }
  }

  /** `getSetting` returns null when no category of that name holds a widget of that name. */
  lemma {:induction false} LookupMissing(saved: seq<SavedCategory>, category: string, name: string)
    requires forall i, j :: !Match(saved, category, name, i, j)
    ensures Lookup(saved, category, name) == Null
  {
    if saved != [] {
      forall i, j | Match(saved[1..], category, name, i, j)
        ensures false
      {
        assert Match(saved, category, name, i + 1, j);
      }
      if saved[0].name == category {
        forall j | 0 <= j < |saved[0].settings|
          ensures saved[0].settings[j].name != name
        {
          assert !Match(saved, category, name, 0, j);
        }
      }
      LookupMissing(saved[1..], category, name);
    }
  }

  /** The first widget named n in rs, given one at index j. */
  lemma {:induction false} FirstIndex(rs: seq<Record>, n: string, j: nat) returns (j0: nat)
    requires j < |rs| && rs[j].name == n
    ensures j0 <= j && rs[j0].name == n && forall k :: 0 <= k < j0 ==> rs[k].name != n
    decreases j
  {
    if exists k :: 0 <= k < j && rs[k].name == n {
      var k :| 0 <= k < j && rs[k].name == n;
      j0 := FirstIndex(rs, n, k);
    } else {
      j0 := j;
    }
  }

  /** Where some widget matches, a first match in category-then-widget order exists. */
  lemma {:induction false} FirstMatchExists(saved: seq<SavedCategory>, category: string, name: string, i: int, j: int)
    returns (i0: int, j0: int)
    requires Match(saved, category, name, i, j)
    ensures Match(saved, category, name, i0, j0) && NoEarlierMatch(saved, category, name, i0, j0)
    decreases |saved|
  {
    var rs := saved[0].settings;
    if exists m :: Match(saved, category, name, 0, m) {
      var m :| Match(saved, category, name, 0, m);
      i0 := 0;
      j0 := FirstIndex(rs, name, m);
      forall i', j' | Match(saved, category, name, i', j')
        ensures i0 < i' || (i0 == i' && j0 <= j')
      {
      }
    } else {
      assert Match(saved[1..], category, name, i - 1, j);
      var i1, j1 := FirstMatchExists(saved[1..], category, name, i - 1, j);
      i0, j0 := i1 + 1, j1;
      forall i', j' | Match(saved, category, name, i', j')
        ensures i0 < i' || (i0 == i' && j0 <= j')
      {
        assert i' != 0;
        assert Match(saved[1..], category, name, i' - 1, j');
      }
    }
  }

  /**
   * `getSetting` returns null exactly when the first match holds null as its
   * value, or there is no match at all: no category of that name holds a
   * widget of that name.
   */
  lemma LookupNull(saved: seq<SavedCategory>, category: string, name: string)
    ensures Lookup(saved, category, name) == Null <==>
      forall i, j :: Match(saved, category, name, i, j) && NoEarlierMatch(saved, category, name, i, j) ==>
        ValueOf(saved[i].settings[j]) == Null
  {
    if exists i, j :: Match(saved, category, name, i, j) {
      var i, j :| Match(saved, category, name, i, j);
      var i0, j0 := FirstMatchExists(saved, category, name, i, j);
      LookupFirst(saved, category, name, i0, j0);
      forall i', j' | Match(saved, category, name, i', j') && NoEarlierMatch(saved, category, name, i', j')
        ensures i' == i0 && j' == j0
      {
      }
    } else {
      LookupMissing(saved, category, name);
    }
  }

  /**
   * Otherwise it returns the value of the first match: the first category of
   * that name that holds such a widget, and the first such widget in it.
   */
  lemma {:induction false} LookupFirst(saved: seq<SavedCategory>, category: string, name: string, i0: int, j0: int)
    requires Match(saved, category, name, i0, j0) && NoEarlierMatch(saved, category, name, i0, j0)
    ensures Lookup(saved, category, name) == ValueOf(saved[i0].settings[j0])
  {
    if i0 == 0 {
      forall j | 0 <= j < j0
        ensures saved[0].settings[j].name != name
      {
        assert !Match(saved, category, name, 0, j);
      }
      FindFirst(saved[0].settings, name, j0);
    } else {
      if saved[0].name == category {
        forall j | 0 <= j < |saved[0].settings|
          ensures saved[0].settings[j].name != name
        {
          assert !Match(saved, category, name, 0, j);
        }
      }
      forall i, j | Match(saved[1..], category, name, i, j)
        ensures i0 - 1 < i || (i0 - 1 == i && j0 <= j)
      {
        assert Match(saved, category, name, i + 1, j);
      }
      LookupFirst(saved[1..], category, name, i0 - 1, j0);
    }
  }

  /** A load, with no other change in between, never changes what `getSetting` returns. */
  lemma {:induction false} ReloadKeepsLookup(saved: seq<SavedCategory>, category: string, name: string)
    ensures Lookup(ReloadedAll(saved), category, name) == Lookup(saved, category, name)
  {
    if saved != [] {
      var r := ReloadedAll(saved);
      assert r[1..] == ReloadedAll(saved[1..]);
      ReloadKeepsLookup(saved[1..], category, name);
      var rs := saved[0].settings;
      assert r[0] == SavedCategory(saved[0].name, seq(|rs|, j requires 0 <= j < |rs| => Reloaded(rs[j])));
      ReloadKeepsFind(rs, name);
    }
  }

  lemma {:induction false} ReloadKeepsFind(rs: seq<Record>, n: string)
    ensures var r := Find(seq(|rs|, j requires 0 <= j < |rs| => Reloaded(rs[j])), n);
      var f := Find(rs, n);
      r.Some? == f.Some? && (f.Some? ==> r.value == Reloaded(f.value))
  {
    var rr := seq(|rs|, j requires 0 <= j < |rs| => Reloaded(rs[j]));
    if rs != [] {
      assert rr[1..] == seq(|rs[1..]|, j requires 0 <= j < |rs[1..]| => Reloaded(rs[1..][j]));
      ReloadKeepsFind(rs[1..], n);
      ReloadedKeepsValue(rs[0]);
    }
    if Find(rs, n).Some? {
      ReloadedKeepsValue(Find(rs, n).value);
    }
  }

  /** Hence a value read after a save and a load is the value read before. */
  lemma SaveThenLoadKeepsSettings(cats: seq<Category>, category: string, name: string)
    ensures Lookup(SaveCopy(Reload(SaveCopy(cats))), category, name) == Lookup(SaveCopy(cats), category, name)
  {
    SaveLoadRoundTrip(SaveCopy(cats));
    ReloadKeepsLookup(SaveCopy(cats), category, name);
  }

  // ---------------------------------------------------------------- tabs and update

  /** One tab's animation record. */
  datatype Tab = Tab(height: real, alpha: real, y: real, text: real, hovered: bool)

  /** The record `open` gives every tab. */
  const NewTab := Tab(0.0, 0.0, 20.0, 255.0, false)

  /**
   * One `update` step of a tab: the selected tab eases toward height -18,
   * text 0, alpha 255 and y 0; every other tab toward 0, 255, 0 and 20.
   */
  function EaseTab(t: Tab, chosen: bool, ease: Ease): (r: Tab)
    ensures r.hovered == t.hovered
    ensures chosen ==>
      (r.height == ease(t.height, -18.0, 10.0, 0.1) && r.text == ease(t.text, 0.0, 10.0, 0.1)
       && r.alpha == ease(t.alpha, 255.0, 10.0, 1.0) && r.y == ease(t.y, 0.0, 10.0, 1.0))
    ensures !chosen ==>
      (r.height == ease(t.height, 0.0, 10.0, 0.1) && r.text == ease(t.text, 255.0, 10.0, 0.1)
       && r.alpha == ease(t.alpha, 0.0, 10.0, 1.0) && r.y == ease(t.y, 20.0, 10.0, 1.0))
  {
    if chosen then
      t.(height := ease(t.height, -18.0, 10.0, 0.1), text := ease(t.text, 0.0, 10.0, 0.1),
         alpha := ease(t.alpha, 255.0, 10.0, 1.0), y := ease(t.y, 0.0, 10.0, 1.0))
    else
      t.(height := ease(t.height, 0.0, 10.0, 0.1), text := ease(t.text, 255.0, 10.0, 0.1),
         alpha := ease(t.alpha, 0.0, 10.0, 1.0), y := ease(t.y, 20.0, 10.0, 1.0))
  }

  predicate TabInRange(t: Tab) {
    -18.0 <= t.height <= 0.0 && 0.0 <= t.alpha <= 255.0 && 0.0 <= t.y <= 20.0 && 0.0 <= t.text <= 255.0
  }

  /** A new tab is in range, and with an easing step that does not overshoot every tab stays in range. */
  lemma EaseTabInRange(t: Tab, chosen: bool, ease: Ease)
    requires NoOvershoot(ease) && TabInRange(t)
    ensures TabInRange(NewTab)
    ensures TabInRange(EaseTab(t, chosen, ease))
  {
    var tgt := if chosen then Tab(-18.0, 255.0, 0.0, 0.0, false) else Tab(0.0, 0.0, 20.0, 255.0, false);
    assert Between(ease(t.height, tgt.height, 10.0, 0.1), t.height, tgt.height);
    assert Between(ease(t.text, tgt.text, 10.0, 0.1), t.text, tgt.text);
    assert Between(ease(t.alpha, tgt.alpha, 10.0, 1.0), t.alpha, tgt.alpha);
    assert Between(ease(t.y, tgt.y, 10.0, 1.0), t.y, tgt.y);
  }

  /** The tabs after `update`: the first n eased, the selected one toward the selected targets. */
  function UpdateTabs(tabs: seq<Tab>, n: nat, selected: nat, ease: Ease): (r: seq<Tab>)
    ensures |r| == |tabs|
  {
    seq(|tabs|, i requires 0 <= i < |tabs| => if i < n then EaseTab(tabs[i], i == selected, ease) else tabs[i])
  }

  /**
   * The tree can be updated and drawn without a TypeError: there is a tab for
   * every category and no widget is a plain record (which has no methods).
   */
  predicate Live(cats: seq<Category>, tabCount: int) {
    |cats| <= tabCount && forall i :: 0 <= i < |cats| ==> NoPlain(cats[i])
  }

  /** No widget of the category is a plain record. */
  predicate NoPlain(c: Category) {
    NoPlainRow(c.settings)
  }

  predicate NoPlainRow(ws: seq<Widget>) {
    forall j :: 0 <= j < |ws| ==> !ws[j].Plain?
  }

  function UpdateCategory(c: Category, ease: Ease): Category {
    c.(settings := seq(|c.settings|, j requires 0 <= j < |c.settings| => UpdateWidget(c.settings[j], ease).0))
  }

  /** Every widget of every category, not only the selected one, takes its `update` step. */
  function UpdateAll(cats: seq<Category>, ease: Ease): (r: seq<Category>)
    ensures |r| == |cats|
    ensures forall i {:trigger r[i]} :: 0 <= i < |cats| ==> r[i] == UpdateCategory(cats[i], ease)
  {
    seq(|cats|, i requires 0 <= i < |cats| => UpdateCategory(cats[i], ease))
  }

  /**
   * The state of `update`'s inner loop over category c after j steps: the
   * first j widgets updated and the rest untouched, none of the first j a
   * plain record, and the data unchanged.
   */
  ghost predicate UpdatedUpTo(c: Category, ease: Ease, row: seq<Widget>, j: nat) {
    j <= |c.settings| && |row| == |c.settings|
    && row == UpdateCategory(c, ease).settings[..j] + c.settings[j..]
    && NoPlainRow(c.settings[..j])
    && StripAll(row) == StripAll(c.settings)
  }

  lemma UpdatedUpToStart(c: Category, ease: Ease)
    ensures UpdatedUpTo(c, ease, c.settings, 0)
  {
    assert UpdateCategory(c, ease).settings[..0] + c.settings[0..] == c.settings;
  }

  /** One step of that loop: widget j either throws, which means c holds a plain record, or is updated. */
  lemma UpdatedUpToStep(c: Category, ease: Ease, row: seq<Widget>, j: nat)
    requires UpdatedUpTo(c, ease, row, j) && j < |row|
    ensures row[j] == c.settings[j]
    ensures UpdateWidget(row[j], ease).1 ==> !NoPlain(c)
    ensures !UpdateWidget(row[j], ease).1 ==> UpdatedUpTo(c, ease, row[j := UpdateWidget(row[j], ease).0], j + 1)
  {
    var ws, r := c.settings, UpdateCategory(c, ease).settings;
    assert row[j] == ws[j];
    var w := UpdateWidget(ws[j], ease).0;
    if !UpdateWidget(ws[j], ease).1 {
      PrefixStep(r, ws, j);
      StripReplace(row, j, w);
      assert ws[..j + 1] == ws[..j] + [ws[j]];
    }
  }

  lemma UpdatedUpToEnd(c: Category, ease: Ease, row: seq<Widget>, j: nat)
    requires UpdatedUpTo(c, ease, row, j) && j == |row|
    ensures row == UpdateCategory(c, ease).settings && NoPlain(c)
  {
    assert c.settings[..j] == c.settings;
  }

  /** `update` never changes what `save` would write. */
  lemma UpdateKeepsData(cats: seq<Category>, ease: Ease)
    ensures SaveCopy(UpdateAll(cats, ease)) == SaveCopy(cats)
  {
    forall i | 0 <= i < |cats|
      ensures StripAll(UpdateCategory(cats[i], ease).settings) == StripAll(cats[i].settings)
    {
    }
  }

  // ---------------------------------------------------------------- draw

  /** The panel's top-left corner: centred on the screen, shifted down by the handler's y. */
  function PanelX(screenWidth: real): real {
    screenWidth / 2.0 - PanelWidth / 2.0
  }

  function PanelY(screenHeight: real, handlerY: real): real {
    screenHeight / 2.0 - PanelHeight / 2.0 + handlerY
  }

  /** A tab header's width: its label's rendered width plus 10. */
  function TabWidth(c: Category, measure: string -> real): real {
    measure(c.name) + 10.0
  }

  /** `xOffset` before tab i: the widths of the tabs before it. */
  function TabLeft(cats: seq<Category>, i: nat, measure: string -> real): real
    requires i <= |cats|
  {
    if i == 0 then 0.0 else TabLeft(cats, i - 1, measure) + TabWidth(cats[i - 1], measure)
  }

  /** The header hit test: (x + left, x + left + width) x (y - 18, y). */
  predicate OverTab(mx: real, my: real, x: real, y: real, left: real, width: real) {
    x + left < mx < x + left + width && y - 18.0 < my < y
  }

  /** Tab i's `hovered` as `draw` sets it. */
  predicate TabHovered(cats: seq<Category>, i: nat, measure: string -> real, mx: real, my: real, x: real, y: real)
    requires i < |cats|
  {
    OverTab(mx, my, x, y, TabLeft(cats, i, measure), TabWidth(cats[i], measure))
  }

  lemma {:induction false} TabLeftGrows(cats: seq<Category>, measure: string -> real, i: nat, k: nat)
    requires i < k <= |cats|
    requires forall s :: measure(s) >= 0.0
    ensures TabLeft(cats, k, measure) >= TabLeft(cats, i, measure) + TabWidth(cats[i], measure)
    decreases k
  {
    if k > i + 1 {
      TabLeftGrows(cats, measure, i, k - 1);
    }
  }

  /** With label widths that are never negative the headers do not overlap, so a draw marks at most one tab hovered. */
  lemma AtMostOneTabHovered(cats: seq<Category>, measure: string -> real, mx: real, my: real, x: real, y: real, i: nat, k: nat)
    requires i < k < |cats|
    requires forall s :: measure(s) >= 0.0
    ensures !(TabHovered(cats, i, measure, mx, my, x, y) && TabHovered(cats, k, measure, mx, my, x, y))
  {
    TabLeftGrows(cats, measure, i, k);
  }

  /** `yOffset` before widget j: the heights the earlier widgets' `draw` returned, added up (NaN once one returned undefined). */
  function StackOffset(ws: seq<Widget>, j: nat): Num
    requires j <= |ws|
  {
    if j == 0 then Num(0.0) else Add(StackOffset(ws, j - 1), Height(ws[j - 1]))
  }

  /** The y widget j is drawn at: `y + 5 + yOffset + tab.y`. */
  function RowY(ws: seq<Widget>, j: nat, y: real, tabY: real): Num
    requires j <= |ws|
  {
    Plus(Add(Num(y + 5.0), StackOffset(ws, j)), tabY)
  }

  /** Once a text input has been drawn, every later widget of the category has an undefined y. */
  lemma {:induction false} TextInputBreaksStack(ws: seq<Widget>, t: nat, j: nat)
    requires t < j <= |ws| && ws[t].TextW?
    ensures StackOffset(ws, j) == NaN
    decreases j
  {
    if j > t + 1 {
      TextInputBreaksStack(ws, t, j - 1);
    }
  }

  /** While the stack is defined, each widget starts at or below the bottom of every earlier one. */
  lemma {:induction false} RowsStacked(ws: seq<Widget>, j: nat, k: nat)
    requires j < k <= |ws| && StackOffset(ws, k).Num?
    ensures StackOffset(ws, j).Num? && Height(ws[j]).Num?
    ensures StackOffset(ws, k).v >= StackOffset(ws, j).v + Height(ws[j]).v
    decreases k
  {
    if k > j + 1 {
      RowsStacked(ws, j, k - 1);
      assert Height(ws[k - 1]).Num?;
    }
  }

  function DrawCategory(c: Category, mx: real, my: real, x: real, y: real, tab: Tab): (r: Category)
    ensures r.name == c.name && |r.settings| == |c.settings|
    ensures forall j {:trigger r.settings[j]} :: 0 <= j < |c.settings| ==>
      r.settings[j] == DrawWidget(c.settings[j], mx, my, x + 5.0, RowY(c.settings, j, y, tab.y), tab.alpha, PanelWidth).0
  {
    c.(settings := seq(|c.settings|, j requires 0 <= j < |c.settings| =>
      DrawWidget(c.settings[j], mx, my, x + 5.0, RowY(c.settings, j, y, tab.y), tab.alpha, PanelWidth).0))
  }

  /**
   * The state of `draw`'s inner loop over category c after j steps: the
   * first j widgets drawn, the rest untouched, `yOffset` the sum of the
   * heights returned so far, none of the first j a plain record, and the
   * data unchanged.
   */
  ghost predicate DrawnUpTo(c: Category, mx: real, my: real, x: real, y: real, tab: Tab, row: seq<Widget>, j: nat, yOffset: Num) {
    j <= |c.settings| && |row| == |c.settings|
    && row == DrawCategory(c, mx, my, x, y, tab).settings[..j] + c.settings[j..]
    && yOffset == StackOffset(c.settings, j)
    && NoPlainRow(c.settings[..j])
    && StripAll(row) == StripAll(c.settings)
  }

  lemma DrawnUpToStart(c: Category, mx: real, my: real, x: real, y: real, tab: Tab)
    ensures DrawnUpTo(c, mx, my, x, y, tab, c.settings, 0, Num(0.0))
  {
    assert DrawCategory(c, mx, my, x, y, tab).settings[..0] + c.settings[0..] == c.settings;
  }

  /**
   * One step of that loop: widget j, drawn at `y + 5 + yOffset + tab.y`,
   * either throws, which means c holds a plain record, or is drawn and its
   * height added to `yOffset`.
   */
  lemma DrawnUpToStep(c: Category, mx: real, my: real, x: real, y: real, tab: Tab, row: seq<Widget>, j: nat, yOffset: Num)
    requires DrawnUpTo(c, mx, my, x, y, tab, row, j, yOffset) && j < |row|
    ensures row[j] == c.settings[j]
    ensures var d := DrawWidget(row[j], mx, my, x + 5.0, Plus(Add(Num(y + 5.0), yOffset), tab.y), tab.alpha, PanelWidth);
      d.1 ==> !NoPlain(c)
    ensures var d := DrawWidget(row[j], mx, my, x + 5.0, Plus(Add(Num(y + 5.0), yOffset), tab.y), tab.alpha, PanelWidth);
      !d.1 ==> DrawnUpTo(c, mx, my, x, y, tab, row[j := d.0], j + 1, Add(yOffset, Height(row[j])))
  {
    var ws, r := c.settings, DrawCategory(c, mx, my, x, y, tab).settings;
    assert row[j] == ws[j];
    var d := DrawWidget(ws[j], mx, my, x + 5.0, Plus(Add(Num(y + 5.0), yOffset), tab.y), tab.alpha, PanelWidth);
    if !d.1 {
      assert d.0 == r[j];
      PrefixStep(r, ws, j);
      StripReplace(row, j, d.0);
      assert ws[..j + 1] == ws[..j] + [ws[j]];
    }
  }

  lemma DrawnUpToEnd(c: Category, mx: real, my: real, x: real, y: real, tab: Tab, row: seq<Widget>, j: nat, yOffset: Num)
    requires DrawnUpTo(c, mx, my, x, y, tab, row, j, yOffset) && j == |row|
    ensures row == DrawCategory(c, mx, my, x, y, tab).settings && NoPlain(c)
  {
    assert c.settings[..j] == c.settings;
  }

  /** The rows of one category do not overlap, so a draw leaves at most one of its widgets hovered. */
  lemma AtMostOneRowHovered(c: Category, mx: real, my: real, x: real, y: real, tab: Tab, j: nat, k: nat)
    requires j < k < |c.settings| && !c.settings[j].Plain? && !c.settings[k].Plain?
    ensures var r := DrawCategory(c, mx, my, x, y, tab);
      !(Hovered(r.settings[j]) && Hovered(r.settings[k]))
  {
    var ws := c.settings;
    var r := DrawCategory(c, mx, my, x, y, tab);
    if Hovered(r.settings[j]) && Hovered(r.settings[k]) {
      assert !ws[k].TextW? && !ws[j].TextW?;
      assert RowY(ws, k, y, tab.y).Num?;
      RowsStacked(ws, j, k);
      assert false;
    }
  }

  /**
   * A colour picker drawn below a text input of its category has an
   * undefined y, so a later click or drag hits its tracks at any height:
   * only the pointer's x decides.
   */
  lemma PickerBelowTextInputIgnoresHeight(c: Category, mx: real, my: real, x: real, y: real, tab: Tab, t: nat, j: nat,
                                          px: real, py: real, py': real)
    requires t < j < |c.settings| && c.settings[t].TextW? && c.settings[j].ColorW?
    ensures var d := DrawCategory(c, mx, my, x, y, tab).settings[j];
      d.ColorW? && d.picker.pos == Pos(Num(x + 5.0), NaN)
      && C.TrackAt(d.picker.pos, px, py, PanelWidth) == C.TrackAt(d.picker.pos, px, py', PanelWidth)
  {
    TextInputBreaksStack(c.settings, t, j);
    C.UndefinedRowIgnoresHeight(x + 5.0, px, py, py', PanelWidth);
  }

  /** `draw`'s effect on the tree: every category drawn below its header, with its tab's offsets. */
  function DrawAll(cats: seq<Category>, tabs: seq<Tab>, mx: real, my: real, x: real, y: real): (r: seq<Category>)
    requires |cats| <= |tabs|
    ensures |r| == |cats| && forall i {:trigger r[i]} :: 0 <= i < |cats| ==> r[i] == DrawCategory(cats[i], mx, my, x, y, tabs[i])
  {
    seq(|cats|, i requires 0 <= i < |cats| => DrawCategory(cats[i], mx, my, x, y, tabs[i]))
  }

  /** `draw`'s effect on the tab records: each header's `hovered` set by its hit test, nothing else. */
  function MarkTabs(cats: seq<Category>, tabs: seq<Tab>, measure: string -> real, mx: real, my: real, x: real, y: real): (r: seq<Tab>)
    requires |cats| <= |tabs|
    ensures |r| == |tabs|
    ensures forall i :: 0 <= i < |cats| ==> r[i] == tabs[i].(hovered := TabHovered(cats, i, measure, mx, my, x, y))
    ensures forall i :: |cats| <= i < |tabs| ==> r[i] == tabs[i]
  {
    seq(|tabs|, i requires 0 <= i < |tabs| =>
      if i < |cats| then tabs[i].(hovered := TabHovered(cats, i, measure, mx, my, x, y)) else tabs[i])
  }

  /** `draw` never changes what `save` would write. */
  lemma DrawKeepsData(cats: seq<Category>, tabs: seq<Tab>, mx: real, my: real, x: real, y: real)
    requires |cats| <= |tabs|
    ensures SaveCopy(DrawAll(cats, tabs, mx, my, x, y)) == SaveCopy(cats)
  {
    var r := DrawAll(cats, tabs, mx, my, x, y);
    forall i | 0 <= i < |cats|
      ensures StripAll(r[i].settings) == StripAll(cats[i].settings)
    {
      assert forall j :: 0 <= j < |cats[i].settings| ==> Strip(r[i].settings[j]) == Strip(cats[i].settings[j]);
    }
  }

  // ---------------------------------------------------------------- input

  /** What forwarding input to the widgets of one category did. */
  datatype Effects = Effects(cats: seq<Category>, written: seq<seq<SavedCategory>>, runs: seq<string>, thrown: bool)

  /** Widget j of category i needs the method it is sent and lacks it. */
  predicate Throws(route: Route, w: Widget) {
    Routed(route, Tag(w)) && (w.Plain? || route.KeyRoute?)
  }

  /**
   * Forwarding one input to widgets j.. of category i in order: each save
   * writes the tree as it is at that moment; a button's run is recorded; the
   * first widget lacking the method throws and ends the loop.
   */
  function ForwardFrom(route: Route, cats: seq<Category>, i: nat, j: nat, mx: real, my: real, textWidth: string -> real): (r: Effects)
    requires i < |cats| && j <= |cats[i].settings|
    ensures |r.cats| == |cats| && forall k {:trigger r.cats[k]} :: 0 <= k < |cats| && k != i ==> r.cats[k] == cats[k]
    ensures r.cats[i].name == cats[i].name && |r.cats[i].settings| == |cats[i].settings|
    ensures forall m {:trigger r.cats[i].settings[m]} :: 0 <= m < |cats[i].settings| ==>
      Tag(r.cats[i].settings[m]) == Tag(cats[i].settings[m]) && Name(r.cats[i].settings[m]) == Name(cats[i].settings[m])
    ensures forall m {:trigger r.cats[i].settings[m]} :: 0 <= m < |cats[i].settings| && (m < j || !Routed(route, Tag(cats[i].settings[m]))) ==>
      r.cats[i].settings[m] == cats[i].settings[m]
    ensures r.thrown <==> exists m :: j <= m < |cats[i].settings| && Throws(route, cats[i].settings[m])
    ensures !route.ClickRoute? ==> r.runs == []
    ensures route.KeyRoute? ==> r.cats == cats && r.written == []
    decreases |cats[i].settings| - j
  {
    var ws := cats[i].settings;
    if j == |ws| then Effects(cats, [], [], false)
    else
      var p := Forward(route, ws[j], mx, my, PanelWidth, textWidth);
      if p.thrown then Effects(cats, [], [], true)
      else
        var next := cats[i := cats[i].(settings := ws[j := p.widget])];
        assert route.KeyRoute? ==> p.widget == ws[j] && ws[j := p.widget] == ws && next == cats;
        var rest := ForwardFrom(route, next, i, j + 1, mx, my, textWidth);
        assert forall m :: j + 1 <= m < |ws| ==> next[i].settings[m] == ws[m];
        Effects(rest.cats,
          (if p.saved then [SaveCopy(next)] else []) + rest.written,
          (if p.runs then [p.widget.button.action] else []) + rest.runs,
          rest.thrown)
  }

  /** One unfolding of `ForwardFrom`: widget j's press, then the rest of the category on the tree it leaves. */
  lemma ForwardStep(route: Route, cats: seq<Category>, i: nat, j: nat, mx: real, my: real, textWidth: string -> real)
    requires i < |cats| && j < |cats[i].settings|
    ensures var p := Forward(route, cats[i].settings[j], mx, my, PanelWidth, textWidth);
      var cur := ForwardFrom(route, cats, i, j, mx, my, textWidth);
      if p.thrown then cur == Effects(cats, [], [], true)
      else
        var next := cats[i := cats[i].(settings := cats[i].settings[j := p.widget])];
        var rest := ForwardFrom(route, next, i, j + 1, mx, my, textWidth);
        cur == Effects(rest.cats, (if p.saved then [SaveCopy(next)] else []) + rest.written,
          (if p.runs then [p.widget.button.action] else []) + rest.runs, rest.thrown)
  {
  }

  /** The first category index at which `click`'s scan stops: a hovered tab, or a category without a tab. */
  function FirstStop(tabs: seq<Tab>, n: nat, i: nat): (k: nat)
    requires i <= n
    ensures i <= k <= n
    ensures i < k ==> k <= |tabs|
    ensures forall m :: i <= m < k ==> !tabs[m].hovered
    ensures k < n ==> k >= |tabs| || tabs[k].hovered
    decreases n - i
  {
    if i == n || i >= |tabs| || tabs[i].hovered then i else FirstStop(tabs, n, i + 1)
  }

  /** Where a scan that passed the tabs before i without stopping, and stops at i, has stopped. */
  lemma {:induction false} FirstStopAt(tabs: seq<Tab>, n: nat, m: nat, i: nat)
    requires m <= i <= n
    requires m < i ==> i <= |tabs|
    requires forall k :: m <= k < i ==> !tabs[k].hovered
    requires i == n || i >= |tabs| || tabs[i].hovered
    ensures FirstStop(tabs, n, m) == i
    decreases i - m
  {
    if m < i {
      FirstStopAt(tabs, n, m + 1, i);
    }
  }

  /** The outcome of the panel's `click`. */
  datatype ClickOutcome = ClickOutcome(effects: Effects, selected: nat)

  /**
   * `click`: the scan visits the categories in order; the selected one
   * forwards the click to its widgets when it is reached, and the first
   * hovered tab becomes the selection and ends the scan.
   */
  function PanelClick(cats: seq<Category>, tabs: seq<Tab>, selected: nat, mx: real, my: real, textWidth: string -> real): ClickOutcome {
    var k := FirstStop(tabs, |cats|, 0);
    var e := if selected < k then ForwardFrom(ClickRoute, cats, selected, 0, mx, my, textWidth) else Effects(cats, [], [], false);
    if e.thrown || k == |cats| then ClickOutcome(e, selected)
    else if k >= |tabs| then ClickOutcome(e.(thrown := true), selected)
    else ClickOutcome(e, k)
  }

  /**
   * First hovered wins: when every category has a tab, a click with some
   * hovered tab selects the first of them, unless a widget of the selected
   * category throws first.
   */
  lemma ClickSelectsFirstHovered(cats: seq<Category>, tabs: seq<Tab>, selected: nat, mx: real, my: real, textWidth: string -> real, k: nat)
    requires |cats| <= |tabs| && k < |cats| && tabs[k].hovered
    requires forall m :: 0 <= m < k ==> !tabs[m].hovered
    ensures var o := PanelClick(cats, tabs, selected, mx, my, textWidth);
      !o.effects.thrown ==> o.selected == k
  {
    var s := FirstStop(tabs, |cats|, 0);
    assert s == k;
  }

  /**
   * Draw, then click at the same point: with label widths that are never
   * negative, the header under the pointer becomes the selection, unless a
   * widget of the selected category throws first.
   */
  lemma DrawThenClickSelectsTab(cats: seq<Category>, tabs: seq<Tab>, tree: seq<Category>, measure: string -> real,
                                mx: real, my: real, x: real, y: real, selected: nat, textWidth: string -> real, k: nat)
    requires |cats| <= |tabs| && |tree| == |cats| && k < |cats|
    requires forall s :: measure(s) >= 0.0
    requires TabHovered(cats, k, measure, mx, my, x, y)
    ensures var o := PanelClick(tree, MarkTabs(cats, tabs, measure, mx, my, x, y), selected, mx, my, textWidth);
      !o.effects.thrown ==> o.selected == k
  {
    var marked := MarkTabs(cats, tabs, measure, mx, my, x, y);
    forall m | 0 <= m < k
      ensures !marked[m].hovered
    {
      AtMostOneTabHovered(cats, measure, mx, my, x, y, m, k);
    }
    ClickSelectsFirstHovered(tree, marked, selected, mx, my, textWidth, k);
  }

  /**
   * The selected category's widgets receive the click only when its tab
   * comes before the first hovered one; otherwise the tree, the file and the
   * buttons are untouched.
   */
  lemma ClickForwardsOnlyBeforeHoveredTab(cats: seq<Category>, tabs: seq<Tab>, selected: nat, mx: real, my: real, textWidth: string -> real)
    requires selected >= FirstStop(tabs, |cats|, 0)
    ensures var o := PanelClick(cats, tabs, selected, mx, my, textWidth);
      o.effects.cats == cats && o.effects.written == [] && o.effects.runs == []
  {
  }

  /** No click ever changes a slider, a colour picker, or any widget outside the selected category. */
  lemma ClickLeavesUnrouted(cats: seq<Category>, tabs: seq<Tab>, selected: nat, mx: real, my: real, textWidth: string -> real, i: nat, j: nat)
    requires i < |cats| && j < |cats[i].settings|
    requires i != selected || Tag(cats[i].settings[j]) == SliderTag || Tag(cats[i].settings[j]) == ColorTag
    ensures PanelClick(cats, tabs, selected, mx, my, textWidth).effects.cats[i].settings[j] == cats[i].settings[j]
  {
  }

  /** A drag or a key press never reaches a button, so no caption is measured for it. */
  function NoMeasure(text: string): real {
    0.0
  }

  /** `drag`: the selected category's colour pickers get the drag, in order. */
  function PanelDrag(cats: seq<Category>, selected: nat, mx: real, my: real): Effects {
    if selected < |cats| then ForwardFrom(DragRoute, cats, selected, 0, mx, my, NoMeasure) else Effects(cats, [], [], false)
  }

  /** A drag changes colour pickers of the selected category only, and never runs a button. */
  lemma DragChangesOnlyColorPickers(cats: seq<Category>, selected: nat, mx: real, my: real, i: nat, j: nat)
    requires i < |cats| && j < |cats[i].settings|
    requires i != selected || Tag(cats[i].settings[j]) != ColorTag
    ensures PanelDrag(cats, selected, mx, my).cats[i].settings[j] == cats[i].settings[j]
    ensures PanelDrag(cats, selected, mx, my).runs == []
  {
  }

  /** Category i holds a text input (live or a decoded record). */
  predicate HasTextInput(c: Category) {
    exists j :: 0 <= j < |c.settings| && Tag(c.settings[j]) == TextTag
  }

  /** `keyType` throws exactly when the selected category holds a text input, which has no `keyType`, and changes nothing. */
  lemma KeyTypeOutcome(cats: seq<Category>, selected: nat)
    requires selected < |cats|
    ensures var e := ForwardFrom(KeyRoute, cats, selected, 0, 0.0, 0.0, NoMeasure);
      e.cats == cats && e.written == [] && e.runs == [] && (e.thrown <==> HasTextInput(cats[selected]))
  {
  }
}
