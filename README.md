# SettingsManager core, modelled in Dafny

SettingsManager is a toolkit for in-game settings menus. A module author
builds a `SettingsObject` from a module name and an array of default
*categories*. Each category is a named tab holding an ordered list of typed
*settings*: toggles, sliders, colour pickers, string selectors, buttons and
text inputs. The object loads and saves the settings file and looks values up
with `getSetting`. It also opens a panel in which, on every frame, it eases the
animations, draws the tab headers and the rows, and routes clicks, drags and
key presses to the widgets of the selected tab.

This project models the non-rendering state of that panel and of five widget
kinds. The modules are:

- `Geometry` (geometry.dfy): shared vocabulary. JavaScript numbers that may be
  NaN (`Num`) and comparisons on them, which are false against NaN. Recorded
  positions (`Pos`, unset before the first draw). The strict rectangle hit
  test. The hover highlight that every row eases. The linear map `MathLib.map`
  over exact reals.
- `ToggleType`, `SliderType`, `ColorPickerType`, `StringSelectorType`,
  `ButtonType` (one file per widget). Each has a value datatype for what the
  widget holds: its data and its `handler` record. Pure functions give the
  effect of `click`, `update` and `draw`, with lemmas about them. A class has
  the widget's fields, and its methods are proved to change them exactly as
  those functions say. A colour picker's `value` is an `array<int>` written in
  place; a string selector's label alphas are an array updated in a loop.
- `Widgets` (widgets.dfy): widgets seen through their `type` tag. It covers:
  - what `save` keeps of each widget;
  - what `parse` rebuilds;
  - what `getSetting` reports;
  - one widget's `update` and `draw`;
  - which tags `click`, `drag` and `keyType` reach.

  A widget read back from the file that `parse` does not rebuild stays a
  plain record without methods. Calling a method on it throws a `TypeError`,
  which the model reports as `thrown`.
- `PanelSpec` (panel_spec.dfy): the panel's behaviour as functions of its
  state. It covers the saved copy, decoding and parsing, the `getSetting`
  search, the tab animation, the header and row stacking of `draw`, and the
  forwarding of input to the selected category.
- `SettingsPanel` (settings_object.dfy): the `SettingsObject` class with its
  fields: module name, defaults, settings, the `handler` (selection, panel y
  and alpha, an array of tab records). Two logs stand in for the host: the
  trees written to the settings file, and the button callbacks run. Every
  method is proved equal to the matching `PanelSpec` function, loops included.

The host's easing function `easeOut` is a parameter of type `Ease`. When a
property needs it, it is assumed through the predicate `NoOvershoot` (an eased
value lies between the current value and the target). `Renderer.getStringWidth`
is a parameter `measure` or `textWidth` of type `string -> real`. The screen
size and the pointer are inputs, and `Gui.isOpen()` is the `guiOpen` argument
of `update`.

Where the code and its documented intent differ, the model follows the code:

- `open` always resets the selected tab to 0 (SettingsObject.js:114-119).
- A settings file JSON cannot parse throws from `load` rather than falling back
  to the defaults (SettingsObject.js:136).
- `parse` has no case for `"slider"`, so a slider read back from the file stays
  a plain record. The next `update` or `draw` of the panel throws on it
  (SettingsObject.js:202-235, 264, 390).
- `keyType` forwards to text inputs, which define no `keyType`, so it throws
  whenever the selected category holds one (SettingsObject.js:326-329).
- The colour picker's green track is hit on (x+w+5, x+2w+5) but mapped from
  x+70 (ColorPicker.js:67-69). Green can therefore go below 0 in narrow panels.

## Model

| member | source | states |
|---|---|---|
| Geometry.EaseHoverInRange | SettingTypes/Toggle.js:42-49 | with an easing that does not overshoot, the hover highlight's alpha stays in [0, 130] and its height between 0 and the row's target |
| Geometry.MapRangeInside | SettingTypes/Slider.js:73-75 | the linear map of a point strictly inside the source interval lies strictly inside the target interval |
| ToggleType.ToggleClick | SettingTypes/Toggle.js:59-67 | `save` is called iff the pointer is strictly inside (x+width-60, x+width-10) x (y, y+13); the value flips exactly when it is saved; nothing else changes |
| ToggleType.ToggleClickTwice | SettingTypes/Toggle.js:64 | two clicks at the same point restore the original state |
| ToggleType.ToggleUpdate | SettingTypes/Toggle.js:33-49 | the knob eases toward x 25 and colour 0 when on, toward 0 and 255 when off; hover eases toward height 8; value, name and position never change |
| ToggleType.ToggleUpdateInRange | SettingTypes/Toggle.js:33-49 | with an easing that does not overshoot, the knob stays in [0, 25] and its colour in [0, 255] |
| ToggleType.DrawThenClick | SettingTypes/Toggle.js:59-88 | after a draw at (x, y), a click flips the value exactly inside the track rectangle at the row's right edge |
| ToggleType.Toggle.constructor | SettingTypes/Toggle.js:9-27 | a new toggle: the given name and value, position unset, knob at x 0 and colour 255, hover at rest |
| ToggleType.Toggle.Update | SettingTypes/Toggle.js:33-49 | the fields change exactly as `ToggleUpdate` says |
| ToggleType.Toggle.Click | SettingTypes/Toggle.js:59-67 | the fields and the save flag are exactly those of `ToggleClick` |
| ToggleType.Toggle.Draw | SettingTypes/Toggle.js:80-138 | records the position, sets hover iff the pointer is strictly inside the 15-high row at full alpha, and returns 15 |
| SliderType.NewSlider | SettingTypes/Slider.js:12-35 | `round` is the given one, or 0 when it is not given; the position is unset and the hover at rest |
| SliderType.ToFixedMono | SettingTypes/Slider.js:74 | rounding to d decimals, ties away from zero, is monotone |
| SliderType.ToFixedExamples | SettingTypes/Slider.js:74 | toFixed(0) gives 0 for 0.3, 3 for 2.5 and -3 for -2.5 |
| SliderType.SliderClick | SettingTypes/Slider.js:70-82 | an unhovered click does nothing and does not save; a hovered click saves unless `toFixed` throws, which it does exactly strictly inside the track when `round` exceeds 100, changing nothing; at or left of x the value becomes min, at or past the track end max, and strictly inside the track the rounded linear map of the pointer onto [min, max] |
| SliderType.TrackValueInRange | SettingTypes/Slider.js:73-75 | a pointer strictly inside the track maps, after rounding, into [min, max] when min and max need no more decimals than `round` keeps |
| SliderType.SliderClickInRange | SettingTypes/Slider.js:70-82 | a slider whose value is in [min, max] keeps it there after any click, under the same rounding condition |
| SliderType.DrawThenClickSaves | SettingTypes/Slider.js:70-103 | after a draw at full alpha, the next click reacts (saves, or throws in `toFixed`) exactly when the pointer of that draw was strictly inside the 25-high row |
| SliderType.SliderScenario | SettingTypes/Slider.js:70-82 | a 0..100 slider with no decimals in a 250-wide panel gives 0 at the left edge, 100 at x+240 and 50 in the middle |
| SliderType.Slider.constructor | SettingTypes/Slider.js:12-35 | a new slider is `NewSlider` of the arguments |
| SliderType.Slider.SetHidden | SettingTypes/Slider.js:43-46 | sets `hidden`, changes nothing else, and returns the slider itself |
| SliderType.Slider.Update | SettingTypes/Slider.js:52-60 | only the hover highlight moves, toward height 13 |
| SliderType.Slider.Click | SettingTypes/Slider.js:70-82 | the fields, the save flag and the RangeError of `toFixed` are exactly those of `SliderClick` |
| SliderType.Slider.Draw | SettingTypes/Slider.js:95-132 | records the position, sets hover iff the pointer is strictly inside the 25-high row at full alpha, and returns 25 |
| ColorPickerType.WithChannel | SettingTypes/ColorPicker.js:65-71 | writing channel k sets it and leaves the other two channels as they were |
| ColorPickerType.TrackAt | SettingTypes/ColorPicker.js:60-73 | for a defined y only the band y+14 .. y+19 can hit a track; track k (red, green, blue) is hit exactly when the pointer passes the band test and lies strictly inside the span starting k*(slideWidth+5) right of x and slideWidth wide, with slideWidth = width/3 - 15 |
| ColorPickerType.UndefinedRowIgnoresHeight | SettingTypes/ColorPicker.js:61 | at an undefined y the band test never fails, so which track is hit depends on the pointer's x alone |
| ColorPickerType.ColorClick | SettingTypes/ColorPicker.js:60-74 | `save` is called iff a track is hit; only the channel of the track hit changes, and it becomes the floored linear map of the pointer onto [0, 255] over that track (green from x+70); a red or blue click sets the channel within 0 .. 254 |
| ColorPickerType.RedBlueInRange | SettingTypes/ColorPicker.js:63-66 | a click strictly inside the red or the blue track floors the linear map onto [0, 255] to a value in 0 .. 254 |
| ColorPickerType.GreenInRangeWhenWide | SettingTypes/ColorPicker.js:67-69 | in panels at least 240 wide, a click on the green track keeps green in 0 .. 254 |
| ColorPickerType.GreenBelowZeroWhenNarrow | SettingTypes/ColorPicker.js:67-69 | in a 150-wide panel a click at x+41 hits the green track and, mapped from x+70, sets green to -1479 |
| ColorPickerType.GapMisses | SettingTypes/ColorPicker.js:63-73 | a pointer in the gap between the red and green tracks changes nothing and does not save |
| ColorPickerType.DrawThenClickBand | SettingTypes/ColorPicker.js:61 | after a draw at y, a click above y+14 or below y+19 changes nothing and does not save, whatever its x |
| ColorPickerType.ColorPicker.constructor | SettingTypes/ColorPicker.js:9-25 | a new picker keeps the author's three-element array as its `value`, with position unset and hover at rest |
| ColorPickerType.ColorPicker.SetHidden | SettingTypes/ColorPicker.js:33-36 | sets `hidden`, changes nothing else, and returns the picker itself |
| ColorPickerType.ColorPicker.Update | SettingTypes/ColorPicker.js:42-50 | only the hover highlight moves, toward height 13; the channels are untouched |
| ColorPickerType.ColorPicker.Click | SettingTypes/ColorPicker.js:60-74 | writes at most one element of the `value` array in place, exactly as `ColorClick` says |
| ColorPickerType.ColorPicker.Draw | SettingTypes/ColorPicker.js:87-146 | records the position, sets hover iff the pointer is strictly inside the 25-high row at full alpha, and returns 25 |
| StringSelectorType.NewSelector | SettingTypes/StringSelector.js:10-36 | a new selector has one label alpha per option, all 0; text offset 0; hover at rest; position unset |
| StringSelectorType.ZonesDisjoint | SettingTypes/StringSelector.js:81-97 | no click lands in both the left and the right half |
| StringSelectorType.StepDown | SettingTypes/StringSelector.js:81-88 | the index goes down by one, but never below 0 |
| StringSelectorType.StepUp | SettingTypes/StringSelector.js:90-97 | the index goes up by one, but never past the last option |
| StringSelectorType.SelectorClick | SettingTypes/StringSelector.js:80-98 | saves iff the pointer is in one of the halves; the left half steps down and the right half steps up; outside both nothing changes |
| StringSelectorType.SelectorClickInRange | SettingTypes/StringSelector.js:85-95 | an index within the options stays within them after a click and moves by at most one |
| StringSelectorType.NoOptionsRightClick | SettingTypes/StringSelector.js:90-97 | with no options, a right click sets the index to -1 |
| StringSelectorType.OutOfRangeSnaps | SettingTypes/StringSelector.js:81-97 | from an index of 7 with three options, a left click steps down by one, to 6, and a right click snaps to the last option, 2 |
| StringSelectorType.SelectorUpdate | SettingTypes/StringSelector.js:53-70 | the text offset eases toward index*20; option i's alpha eases toward 255 iff i is the index, else toward 0; hover eases toward 13; index and labels never change |
| StringSelectorType.SelectorUpdateInRange | SettingTypes/StringSelector.js:53-70 | with an easing that does not overshoot, every label alpha stays in [0, 255] |
| StringSelectorType.DrawThenClick | SettingTypes/StringSelector.js:80-120 | after a draw at (x, y), a click in the row's left half steps down and one in its right half steps up |
| StringSelectorType.LabelOffset | SettingTypes/StringSelector.js:132-135 | the wrapped label offset always lies in [-20, 20] and equals i*-20 + text.x whenever that already does |
| StringSelectorType.SettledLabels | SettingTypes/StringSelector.js:132-135 | once the text offset has settled, the selected label is at 0, its neighbours at -20 and 20, and labels farther away on the edges |
| StringSelectorType.StringSelector.constructor | SettingTypes/StringSelector.js:10-36 | the object, with a fresh alpha array filled with 0 by its loop, is `NewSelector` of the arguments |
| StringSelectorType.StringSelector.Update | SettingTypes/StringSelector.js:53-70 | the loop over the alpha array updates the fields exactly as `SelectorUpdate` says |
| StringSelectorType.StringSelector.Click | SettingTypes/StringSelector.js:80-98 | runs both zone tests in turn, calls `save` at most once, and agrees with `SelectorClick` |
| StringSelectorType.StringSelector.Draw | SettingTypes/StringSelector.js:112-167 | records the position and hover over the 25-high row, returns 25, and yields every label's wrapped offset |
| ButtonType.DrawThenClick | SettingTypes/Button.js:61-89 | after a draw at (x, y), the callback runs exactly inside (x+width-textWidth-60, x+width-10) x (y, y+13); before any draw it never runs |
| ButtonType.ButtonInsideRow | SettingTypes/Button.js:61-89 | a caption no wider than width-55 keeps the click target inside the hovered row |
| ButtonType.Button.constructor | SettingTypes/Button.js:9-26 | a new button keeps name, caption and callback, with position unset and hover at rest |
| ButtonType.Button.SetHidden | SettingTypes/Button.js:34-37 | sets `hidden`, changes nothing else, and returns the button itself |
| ButtonType.Button.Update | SettingTypes/Button.js:43-51 | only the hover highlight moves, toward height 8 |
| ButtonType.Button.Click | SettingTypes/Button.js:61-68 | the callback runs iff the pointer is inside the caption box; the button itself never changes and `save` is never called |
| ButtonType.Button.Draw | SettingTypes/Button.js:81-111 | records the position, sets hover iff the pointer is strictly inside the 15-high row at full alpha, and returns 15 |
| Widgets.DataTag | SettingsObject.js:202-235 | a record's tag is one of the six known ones exactly when the record is not of an unknown kind |
| Widgets.ParseWidget | SettingsObject.js:202-235 | keeps tag and name; leaves sliders and unknown tags as they are; turns every other decoded record into a live widget |
| Widgets.ParseThenStrip | SettingsObject.js:199-238 | parsing a decoded record and stripping it again loses only the `hidden` flag of the rebuilt kinds, and doing so twice is the same as once |
| Widgets.ParsedSliderStaysPlain | SettingsObject.js:202-235 | a slider read back from the file remains a plain record without methods |
| Widgets.OptionAt | SettingsObject.js:74-76 | `options[value]` is a string exactly when the index is within the options, and undefined otherwise |
| Widgets.ValueOf | SettingsObject.js:74-79 | for a string selector the selected option, for a record of a kind of its own its own `value` field, otherwise the kind's value; only a record of a kind of its own can give null |
| Widgets.ReloadedKeepsValue | SettingsObject.js:68-84 | a load and save changes neither the value `getSetting` reports nor the name or tag |
| Widgets.UpdateWidget | SettingsObject.js:263-265 | throws iff the widget is a plain record; each kind takes its own `update`; a text input does nothing; the data never changes |
| Widgets.Height | SettingsObject.js:389-391 | the height `draw` returns is positive for the five drawn kinds and undefined (NaN) for text inputs |
| Widgets.DrawWidget | SettingsObject.js:389-391 | throws iff the widget is a plain record; the hover flag is the hit test of its row; the data never changes |
| Widgets.DrawAtNaNNotHovered | SettingsObject.js:388-391 | a widget drawn at an undefined y is never hovered |
| Widgets.Forward | SettingsObject.js:300-312 | an input reaches only widgets of the routed tags; it throws iff the widget lacks the method; only toggles, selectors and pickers save; only a button runs its callback, without changing |
| Widgets.SlidersNeverForwarded | SettingsObject.js:276-335 | no input path ever reaches a slider |
| Widgets.RoutesDisjoint | SettingsObject.js:276-335 | drags reach colour pickers only, clicks never do, and key presses reach only tags that clicks also reach |
| PanelSpec.StripAll | SettingsObject.js:172-176 | every widget in order, with its `handler` removed |
| PanelSpec.SaveCopy | SettingsObject.js:159-176 | the written tree has the same categories and names, and every widget without its `handler` |
| PanelSpec.Decode | SettingsObject.js:136-142 | decoding a saved tree gives back a tree that saves to the same file, with every widget a plain record |
| PanelSpec.ParseKeepsShape | SettingsObject.js:199-238 | `parse` keeps the categories, their names and sizes, each widget's tag and name, and sliders and unknown tags; it makes every other record live |
| PanelSpec.SaveLoadRoundTrip | SettingsObject.js:130-176 | loading a saved file and saving again writes the same file, except that rebuilt widgets come back visible |
| PanelSpec.ReloadStable | SettingsObject.js:130-176 | from the second load on, saving and loading is a fixed point |
| PanelSpec.Find | SettingsObject.js:71-72 | no record is found iff none has the name |
| PanelSpec.LookupMissing | SettingsObject.js:68-84 | `getSetting` returns null when no category of that name holds a widget of that name |
| PanelSpec.FirstMatchExists | SettingsObject.js:69-72 | where some widget matches, a first match in category-then-widget order exists |
| PanelSpec.LookupNull | SettingsObject.js:68-84 | `getSetting` returns null iff there is no match or the first match's value is null |
| PanelSpec.LookupFirst | SettingsObject.js:68-84 | otherwise it returns the value of the first match, in category-then-widget order |
| PanelSpec.ReloadKeepsLookup | SettingsObject.js:68-84 | reloading a saved file never changes what `getSetting` returns |
| PanelSpec.SaveThenLoadKeepsSettings | SettingsObject.js:130-176 | a value read after a save and a load equals the value read before |
| PanelSpec.EaseTab | SettingsObject.js:251-261 | the selected tab eases toward height -18, text 0, alpha 255 and y 0; every other tab toward 0, 255, 0 and 20; `hovered` is untouched |
| PanelSpec.EaseTabInRange | SettingsObject.js:105-111 | a new tab is in range and, with an easing that does not overshoot, every tab stays within its animation ranges |
| PanelSpec.UpdateKeepsData | SettingsObject.js:244-267 | `update` never changes what `save` writes |
| PanelSpec.AtMostOneTabHovered | SettingsObject.js:355-393 | with label widths that are never negative the headers do not overlap, so at most one tab is hovered |
| PanelSpec.TextInputBreaksStack | SettingsObject.js:388-391 | once a text input is drawn, every later widget of its category is drawn at an undefined y |
| PanelSpec.RowsStacked | SettingsObject.js:388-391 | while the offsets are defined, each widget starts at or below the bottom of every earlier one |
| PanelSpec.PickerBelowTextInputIgnoresHeight | SettingsObject.js:388-391 | a colour picker drawn below a text input of its category has an undefined y, so a later click on it hits its tracks at any pointer height |
| PanelSpec.AtMostOneRowHovered | SettingsObject.js:388-391 | the rows of one category do not overlap, so a draw leaves at most one widget hovered |
| PanelSpec.DrawCategory | SettingsObject.js:388-391 | widget j is drawn at x+5 and y + 5 + (sum of earlier heights) + the tab's y, with the tab's alpha |
| PanelSpec.MarkTabs | SettingsObject.js:355-364 | each header's `hovered` is its hit test at x plus the widths of the earlier headers; nothing else in a tab changes |
| PanelSpec.DrawKeepsData | SettingsObject.js:344-395 | `draw` never changes what `save` writes |
| PanelSpec.ForwardFrom | SettingsObject.js:300-312 | forwarding changes only widgets of routed tags in the chosen category; it throws iff one of them lacks the method; key presses change nothing |
| PanelSpec.FirstStop | SettingsObject.js:294-298 | the scan stops at the first hovered tab, or at the first category without a tab |
| PanelSpec.ClickSelectsFirstHovered | SettingsObject.js:293-298 | when some tab is hovered, a click selects the first hovered one, unless a widget throws first |
| PanelSpec.DrawThenClickSelectsTab | SettingsObject.js:293-364 | a draw followed by a click at the same point selects the header under the pointer |
| PanelSpec.ClickForwardsOnlyBeforeHoveredTab | SettingsObject.js:293-313 | unless the selected tab comes before the first hovered one, a click leaves the tree, the file and the buttons untouched |
| PanelSpec.ClickLeavesUnrouted | SettingsObject.js:300-312 | a click never changes a slider, a colour picker, or a widget outside the selected category |
| PanelSpec.DragChangesOnlyColorPickers | SettingsObject.js:276-284 | a drag changes only colour pickers of the selected category and never runs a callback |
| PanelSpec.KeyTypeOutcome | SettingsObject.js:322-335 | a key press changes nothing, and throws iff the selected category holds a text input |
| SettingsPanel.SettingsObject.constructor | SettingsObject.js:10-24 | keeps the module name and the defaults; no settings and no handler yet; nothing written |
| SettingsPanel.SettingsObject.GetSetting | SettingsObject.js:68-84 | the nested search returns exactly `Lookup` of the saved form of the tree |
| SettingsPanel.SettingsObject.Save | SettingsObject.js:159-193 | appends to the file log the tree with every `handler` removed, built by nested loops; nothing else changes |
| SettingsPanel.SettingsObject.Reset | SettingsObject.js:91-95 | the settings become the defaults array itself, which is saved |
| SettingsPanel.SettingsObject.Open | SettingsObject.js:102-123 | one fresh tab record per category, each at height 0, alpha 0, y 20, text 255 and not hovered; tab 0 selected; panel y 20 and alpha 0; the tree is unchanged |
| SettingsPanel.SettingsObject.Parse | SettingsObject.js:199-238 | the nested loop replaces every widget in place by `ParseWidget` of it |
| SettingsPanel.SettingsObject.Load | SettingsObject.js:130-152 | missing content, or content that is not an array, falls back to the defaults array and saves it; an array is decoded and parsed and not saved; unparsable text throws and changes nothing |
| SettingsPanel.SettingsObject.Update | SettingsObject.js:244-267 | with the GUI closed nothing changes; otherwise the panel eases in, the tabs follow `UpdateTabs`, and every category follows `UpdateAll`; it throws iff a category lacks a tab or holds a plain record; the data never changes |
| SettingsPanel.SettingsObject.UpdateCategories | SettingsObject.js:250-266 | the outer loop eases tab i and steps category i, for every category in order |
| SettingsPanel.SettingsObject.UpdateWidgets | SettingsObject.js:263-265 | the inner loop steps every widget of the category, and a plain record throws |
| SettingsPanel.SettingsObject.Draw | SettingsObject.js:344-395 | the headers are marked by `MarkTabs` and the categories drawn by `DrawAll`; it throws iff a category lacks a tab or holds a plain record; the data never changes |
| SettingsPanel.SettingsObject.DrawTabs | SettingsObject.js:355-394 | the loop over the categories, with each header at x plus the sum of the earlier headers' widths |
| SettingsPanel.SettingsObject.DrawWidgets | SettingsObject.js:388-391 | the loop over one category's widgets, each at y + 5 + the sum of the earlier returned heights + the tab's y |
| SettingsPanel.SettingsObject.ForwardWidgets | SettingsObject.js:301-312 | forwarding to one category's widgets in order, with each save logging the tree at that moment: exactly `ForwardFrom` |
| SettingsPanel.SettingsObject.Click | SettingsObject.js:293-314 | the new tree, the new selection, the files written, the callbacks run and the exception are exactly `PanelClick`'s |
| SettingsPanel.SettingsObject.Drag | SettingsObject.js:276-284 | the selected category's colour pickers get the drag in order, exactly as `PanelDrag` says; no callback runs |
| SettingsPanel.SettingsObject.KeyType | SettingsObject.js:322-335 | throws iff the selected category holds a text input, or, before `open`, iff there is any category; nothing changes |

## Left out

- Rendering: every `Renderer` call, the colours and the text drawn. Of each `draw` only the recorded position, the hover flag and the returned height are kept. For a string selector, the wrapped label offsets are kept too.
- `easeOut` is a host library function that is not part of this model. It is a parameter, and properties only say which value, target and step each field receives. Bounds assume only that it does not overshoot.
- `Renderer.getStringWidth` and the screen size are parameters.
- The JSON encoding of `save` and `load`, including the `"/Function(...)/"` form of callbacks and their `eval` (SettingsObject.js:136-142, 160-171, 177-190). The file is modelled at the tree level: `load` takes what reading and decoding gave (`FileContent`), `save` appends the stripped tree to a log, and a button's callback is its source text.
- A record of one of the six kinds has the fields its kind's constructor writes. A file holding ill-typed values, such as a string where a boolean belongs, or extra fields on such a record, is not modelled. A record of a kind of its own keeps its `value` and its other fields as data; it never has methods, so a custom widget object with its own `update` or `draw` is not modelled.
- `FileLib`, `Gui`, `print` and the hook registration of Settings.js are host I/O. `Gui.isOpen()` is the `guiOpen` argument of `update`.
- SettingsPanel.SettingsObject.Click, Drag and Draw require that `open` has run. The host calls them only while the GUI is open (Settings.js:22-35), which only `open` does. Before that, the missing `handler` would throw.
- `setColor`, `setSize` and `setCommand` are not modelled. The panel is fixed at 250 by 150 (SettingsObject.js:20-21), and the tab colour is rendering only.
- `settings` is undefined until `load` runs. The model starts it as the empty tree, so calls before `load` that would throw on it are not captured.
- Sharing of widget objects: `settings` and `defaults` become the same array after `reset` or a fallback load (the `shared` flag models this). The widget objects themselves are values in the tree, so no other aliasing is captured.
- The state a method leaves behind after it throws part-way through a loop: the model says it throws and that the saved data is unchanged, not which earlier rows were already updated or drawn.
- The global `yOffset` that `draw` assigns without declaring it.
- SettingTypes/TextInput.js: its `update`, `click` and `draw` do nothing and it defines no `keyType`. Only its tag and its undefined height matter here.
- `setHidden` in SettingTypes/StringSelector.js:44 is attached to the factory, not to the selector, so the selector has none. `hidden` is never read by any `draw`, so it changes no behaviour.
- A button's callback is logged by its source text in `runs`. What the callback then does is not modelled.
- ColorPickerType.ColorClick and ColorPickerType.ColorPicker.Click require width != 142.5, at which width the green track's map divides by zero (NaN in JavaScript). The panel's width is fixed at 250.
- SliderType.SliderClick and the slider's value: the slider value is a number, where `toFixed` makes it a string. `round` is a non-negative integer; a negative or fractional `round` is not modelled. Rounding is exact decimal rounding, half away from zero, on exact reals; float error and the exponent form `toFixed` uses at 1e21 and above are not modelled.
- Coordinates and `MathLib.map` use exact reals, with NaN kept where the source produces it (undefined positions and heights). Floating point itself is not modelled.
