# zpanel: the Zernike panel of a deformable-mirror GUI

This project models the stateful core of `dmlib/zpanel.py`. That file is the
PyQt window used to drive a deformable mirror (DM) through its Zernike
coefficients. The model has four parts.

- **RelSlider** (`relslider.dfy`). The relative slider of one Zernike mode:
  - a spin box holding the effective value;
  - a slider in [-100, 100] that applies `anchor + rel/100 * maxDelta` to the
    value captured when the slider was pressed;
  - a spin box holding the maximum delta.

  Every handler keeps the widgets' signals unblocked on every path. It
  returns what it would pass to the change callback.
- **ZernikePanel** (`zernike_panel.dfy`). The panel of one mirror's modes:
  - the coefficient vector `z`, a fixed-length array updated in place;
  - the list of shown rows, grown by appending and shrunk by popping until it
    has exactly the requested count;
  - the label dictionary, which only gains default names for modes that have
    no label yet;
  - the `shown_modes` clamp, and the save and load of the panel's parameters.

  The default mode names are a pure classification by index and by the
  azimuthal order `m`.
- **OptionsPanel** (`options_panel.dfy`). The control-options tab:
  - a store `pars[name + "_options"][strategy][option]`, filled from the
    defaults only where that key is absent;
  - the strategy switch, which reads the store and never writes it;
  - the scalar edit, which stores the converted value;
  - the list edit, which commits the whole parsed list or keeps the old one
    and shows it again;
  - `get_options`, which returns the selection and a copy of its values.

  `text.dfy` holds `str.split` and `str.join` on one character, with their
  round trips.
- **ZernikeWindow** (`zernike_window.dfy`). The window that hands the mirror
  over to a control session running elsewhere:
  - the mutex, as a flag `locked`, together with `can_close` and the enabled
    state of the two tabs, all switched by the acquire and release handlers;
  - the draw handler, the interactive actuator edit and `closeEvent`;
  - the failure path of `acquire_control`;
  - the construction of the controller, which falls back to the defaults when
    the stored configuration is refused.

  The controller's own computations are the fields of a `Device` value: `u2z`,
  `z2u` for `write`, the saturation test, and acceptance of a stored
  configuration. The three conversions take the controller's `flat_on` flag
  as their first argument, so toggling the flat changes what is written. Every write to the mirror is recorded in the ghost history
  `Control.sent`.

Shared pieces:

- `params.dfy`: the JSON-like `Value` that parameter dictionaries hold, and
  `str(n)` for the label keys.
- `wrappers.dfy`: `Option`.

Qt callbacks are not stored. A handler returns the argument its callback
would receive: `Some(v)` when the callback runs, `None` when it does not. The
window passes that argument on to its own `write_dm` handler (`WriteDm`).

Where the code and its description disagree, the model follows the code:
- Pressing a slider overwrites the anchor unconditionally.
- The draw handler does not take the mutex.
- The status line after a draw shows the controller's previous saturation
  flag.
- Switching strategy never updates `pars[name + "_name"]`.
- After a release, the panel's redraw callback writes `u2z(adopted)` back to
  the mirror. The controller therefore ends with `z2u(u2z(adopted))`, not
  with `adopted` itself.

## Model

| member | source | states |
|---|---|---|
| Params.Decimal | dmlib/zpanel.py:469-474 | `str(i)`: a non-empty string of decimal digits, one digit exactly for indices below 10 |
| Params.DecimalValue | dmlib/zpanel.py:469-474 | `int(str(i)) == i`: the key of an index reads back, digit by digit, as that index |
| Params.DecimalInjective | dmlib/zpanel.py:469-474 | distinct mode indices have distinct label keys, so a key `str(i)` stands for exactly one mode (a consequence of the read-back) |
| Text.Split | dmlib/zpanel.py:165 | `text.split(',')` always yields at least one piece |
| Text.Join | dmlib/zpanel.py:159 | `', '.join` of no pieces is empty; pieces free of the separator are joined with exactly one separator between each two |
| Text.JoinSplit | dmlib/zpanel.py:159-165 | joining the pieces of a split with the same separator gives the text back |
| Text.SplitPiecesFree | dmlib/zpanel.py:165 | no piece of a split contains the separator |
| Text.SplitCount | dmlib/zpanel.py:165 | a split has one piece more than the text has separators |
| Text.SplitJoin | dmlib/zpanel.py:159-165 | splitting the join of separator-free pieces gives those pieces back |
| Text.SplitPlain | dmlib/zpanel.py:165 | text without the separator splits into itself alone |
| RelSliders.Clamp | dmlib/zpanel.py:211-212 | the result lies in the range; a value inside comes back unchanged, one below gives the minimum and one above gives the maximum |
| RelSliders.SpinBox | dmlib/zpanel.py:211-212 | the configured spin box keeps values in [-1000, 1000]: values inside pass unchanged, values below become -1000 and values above 1000; zero and the sign are preserved |
| RelSliders.MoveTarget | dmlib/zpanel.py:246 | a move by 0 gives the anchor exactly; for rel in [-100, 100] the result lies within maxDelta of the anchor |
| RelSliders.BoundedFraction | dmlib/zpanel.py:246 | `rel/100 * m` lies in [-m, m] for rel in [-100, 100] and m >= 0 |
| RelSliders.MoveTargetMonotone | dmlib/zpanel.py:246 | for a positive maximum delta, a larger slider position gives a strictly larger value |
| RelSliders.InitialValueAsWritten | dmlib/zpanel.py:203-212 | as written, the first `setValue(val)` runs under Qt's default range [0, 99.99]: a value inside is kept, a negative value becomes 0 and a larger one 99.99 |
| RelSliders.InitialValueAsWrittenDropsSign | dmlib/zpanel.py:203-212 | as written, a coefficient of -0.5 is shown as 0 while its indicator says non-zero |
| RelSliders.InitialValue | dmlib/zpanel.py:203-212 | the intended initial value: `val` whenever it is in [-1000, 1000], and zero exactly when `val` is zero |
| RelSliders.RelSlider.constructor | dmlib/zpanel.py:198-226 | no anchor, slider centred, maximum delta 4.0, value `InitialValue(val)`, indicator `val != 0`, signals unblocked |
| RelSliders.RelSlider.Block | dmlib/zpanel.py:287-290 | signals blocked; nothing else changes |
| RelSliders.RelSlider.Unblock | dmlib/zpanel.py:292-295 | signals unblocked; nothing else changes |
| RelSliders.RelSlider.Press | dmlib/zpanel.py:262-267 | the anchor becomes the current value; value, position, maximum delta and indicator are unchanged; signals are unblocked |
| RelSliders.RelSlider.Move | dmlib/zpanel.py:237-252 | without an anchor: the slider goes back to 0, no callback, value unchanged. With one: position `rel`, value `SpinBox(anchor + rel/100*m)`, and exactly that unclamped value goes to the callback. Anchor and maximum delta are unchanged and signals unblocked on both paths |
| RelSliders.RelSlider.Release | dmlib/zpanel.py:254-260 | slider at 0, anchor cleared, value and maximum delta unchanged, signals unblocked |
| RelSliders.RelSlider.ValueTyped | dmlib/zpanel.py:228-235 | the value is `SpinBox(v)`, and that value goes to the callback; the indicator follows it; anchor, position and maximum delta are unchanged |
| RelSliders.RelSlider.MaxDeltaTyped | dmlib/zpanel.py:221-226 | only the maximum delta changes, to the typed value, which Qt's spin box keeps in [0.01, 99.99] since only the minimum is set |
| RelSliders.RelSlider.SetValue | dmlib/zpanel.py:313-315 | called with signals blocked, so `sba_cb` does not run: value `SpinBox(v)`, indicator `v != 0`; anchor, position and maximum delta unchanged |
| RelSliders.ZeroDeltaGesture | dmlib/zpanel.py:246-267 | press, move by 0 and release land on the starting value, hand exactly that value to the callback, and leave the slider centred with no anchor |
| ZernikePanels.DefaultZernikeName | dmlib/zpanel.py:432-454 | `default_zernike_name` returns the empty name exactly for a mode past the fourth whose abs(m) exceeds 5 |
| ZernikePanels.DefaultZernikeNameByTable | dmlib/zpanel.py:432-454 | the if-chain equals two tables: piston, tip, tilt, defocus by index 1..4, then spherical to pentafoil by abs(m) 0..5, else "" |
| ZernikePanels.DefaultPars | dmlib/zpanel.py:347 | the defaults have the panel's well-typed keys |
| ZernikePanels.WithLabel | dmlib/zpanel.py:429 | only label `key` changes, to `name`; every other key is kept |
| ZernikePanels.SharedAfterEditAsWritten | dmlib/zpanel.py:429 | as written, a rename in a panel given no labels writes into the shared class dictionary: only `key` is added or changed there, to the new text; with labels of its own the shared dictionary is untouched |
| ZernikePanels.ModesToShow | dmlib/zpanel.py:394-395 | `min(shown_modes, nk)`: never above either argument, and equal to one of them |
| ZernikePanels.Saved | dmlib/zpanel.py:549-552 | keys of both dictionaries; panel values win over `merge`; `shown_modes` is the row count |
| ZernikePanels.ZernikePanel.SaveParameters | dmlib/zpanel.py:549-552 | the saved dictionary has the keys of `merge`, of the panel's dictionary and `shown_modes`; the panel's values win over `merge`, and `shown_modes` is the row count |
| ZernikePanels.Loaded | dmlib/zpanel.py:554-557 | the defaults overridden by `d`; without labels in `d`, the labels start empty; `shown_modes` is clamped to `nk` |
| ZernikePanels.SaveLoadRoundTrip | dmlib/zpanel.py:549-557 | loading what the panel saved restores its dictionary, with the row count as `shown_modes` |
| ZernikePanels.KeysBetweenMember | dmlib/zpanel.py:463-474 | every index the growing loop visits has its key in the visited set |
| ZernikePanels.KeysBetweenOnly | dmlib/zpanel.py:463-474 | the visited set has only keys of visited indices |
| ZernikePanels.KeysBetweenBelow | dmlib/zpanel.py:463-474 | an index at or past the loop's end is not in the visited set |
| ZernikePanels.Fill | dmlib/zpanel.py:463-474 | the labels after the growing loop; every non-label key is unchanged |
| ZernikePanels.FillKeeps | dmlib/zpanel.py:469-470 | an existing label is never overwritten |
| ZernikePanels.FillKeys | dmlib/zpanel.py:463-474 | the loop adds exactly the keys of the visited indices |
| ZernikePanels.FillDefault | dmlib/zpanel.py:471-474 | a visited index that had no label ends with its default name |
| ZernikePanels.FillStepKeeps | dmlib/zpanel.py:469-474 | one more iteration keeps the label of an earlier index |
| ZernikePanels.FillStepNew | dmlib/zpanel.py:471-474 | one more iteration names its own index when the label was missing |
| ZernikePanels.StartParsAsWritten | dmlib/zpanel.py:347-355 | as written, a panel given no labels takes the class attribute's own label dictionary |
| ZernikePanels.LabelsLeakAsWritten | dmlib/zpanel.py:347-355 | as written, after one panel renames mode 1 to "foo", the next panel built without labels calls mode 1 "foo" instead of "piston" |
| ZernikePanels.FreshPanelDefaultNames | dmlib/zpanel.py:469-474 | intended: a panel built without labels gives every shown mode its default name |
| ZernikePanels.ZernikePanel.PhiPlotCallback | dmlib/zpanel.py:584-585 | the callback runs, with `z`, exactly when there is one and it is asked for |
| ZernikePanels.ZernikePanel.constructor | dmlib/zpanel.py:355-377 | `z` is a copy of `z0`, or zeros, of length `nk`; no rows; the given parameters over the defaults; radians |
| ZernikePanels.NewZernikePanel | dmlib/zpanel.py:349-535 | the constructor's state plus exactly `min(shown_modes, nk)` rows, each fresh and showing its coefficient, with the labels filled |
| ZernikePanels.ZernikePanel.UpdateZernikeRows | dmlib/zpanel.py:457-500 | exactly `mynk` rows (unchanged count for `None`); rows below both counts are untouched; new rows are fresh, centred and show their coefficient; labels are filled for the new indices |
| ZernikePanels.ZernikePanel.GrowRows | dmlib/zpanel.py:462-486 | the appending loop: old rows kept as a prefix, new rows as created, labels filled over the new indices |
| ZernikePanels.ZernikePanel.ShrinkRows | dmlib/zpanel.py:488-500 | the popping loop: the rows become the prefix of length `mynk`; the dictionary is unchanged |
| ZernikePanels.ZernikePanel.AppendRow | dmlib/zpanel.py:464-484 | one iteration: one fresh row for index `len`, its label kept or set to the default |
| ZernikePanels.ZernikePanel.LabelNext | dmlib/zpanel.py:469-474 | the label of index `len` is kept when present, otherwise set to its default name |
| ZernikePanels.ZernikePanel.PushRow | dmlib/zpanel.py:467-484 | a fresh slider for `z[len]` is appended; earlier rows are kept |
| ZernikePanels.ZernikePanel.UpdateGuiControls | dmlib/zpanel.py:564-569 | every shown row's value shows its coefficient; anchors, positions and maximum deltas are unchanged |
| ZernikePanels.ZernikePanel.CoefficientChanged | dmlib/zpanel.py:421-425 | only `z[ind]` changes, to the reported value, and the redraw's callback runs |
| ZernikePanels.ZernikePanel.SliderPressed | dmlib/zpanel.py:262-267 | the row's anchor becomes its value; its position and maximum delta are unchanged, and `z` is untouched |
| ZernikePanels.ZernikePanel.SliderMoved | dmlib/zpanel.py:421-425 | without an anchor, `z` and the row's value are unchanged, the slider is centred and nothing fires. With one, only `z[ind]` changes, to the move target; the row shows `SpinBox(target)`, its position is `rel`, and the redraw fires. The anchor and maximum delta are kept on both paths |
| ZernikePanels.ZernikePanel.SliderReleased | dmlib/zpanel.py:254-260 | anchor cleared, slider centred, value and maximum delta unchanged |
| ZernikePanels.ZernikePanel.ValueTyped | dmlib/zpanel.py:421-425 | only `z[ind]` changes, to the typed value; the row shows `SpinBox(v)` and keeps its anchor, position and maximum delta |
| ZernikePanels.ZernikePanel.LabelEdited | dmlib/zpanel.py:427-430 | only the label of row `i` changes |
| ZernikePanels.ZernikePanel.ResetClicked | dmlib/zpanel.py:505-508 | every coefficient is zero, in place with the length unchanged; the sliders show it; the callback runs |
| ZernikePanels.ZernikePanel.ModesEntered | dmlib/zpanel.py:510-522 | a missing entry, or one outside 1..nk, changes nothing; a valid one gives exactly that many rows, and the redraw runs only if the count changed |
| ZernikePanels.ZernikePanel.UnitsToggled | dmlib/zpanel.py:524-533 | multiplier 1 in radians, else the nanometre factor; rows and dictionary unchanged |
| ZernikePanels.ZernikePanel.LoadParameters | dmlib/zpanel.py:554-562 | `min(shown_modes, nk)` rows, each as created for its coefficient; the dictionary is the loaded one with labels filled |
| ZernikePanels.ZernikePanel.ReplacePars | dmlib/zpanel.py:555 | with no rows shown, the dictionary becomes the given one |
| OptionsPanels.KeysDiffer | dmlib/zpanel.py:82-83 | the options key and the selection key never coincide |
| OptionsPanels.ParseNum | dmlib/zpanel.py:130-132 | a successful `int` conversion gives an integer value and a `float` one a real value |
| OptionsPanels.ParseAll | dmlib/zpanel.py:165 | the list comprehension succeeds exactly when every piece converts; the list then has one element per piece, each the converted piece |
| OptionsPanels.ParseList | dmlib/zpanel.py:165 | a parsed list has one element more than the text has commas |
| OptionsPanels.ListPieces | dmlib/zpanel.py:159 | one piece per element: the first is `str(c)`, the rest `" " + str(c)` |
| OptionsPanels.ListPiecesFree | dmlib/zpanel.py:159 | when no element's text holds a comma, neither does any displayed piece |
| OptionsPanels.ListText | dmlib/zpanel.py:159 | the line text of a list: empty for no elements; otherwise, when no element's text holds a comma, it splits back at the commas into exactly the displayed pieces |
| OptionsPanels.ListTextRoundTrip | dmlib/zpanel.py:159-174 | committing the displayed text of a list unchanged stores the same list, when no element's text holds a comma and each converts back |
| OptionsPanels.EmptyListNotReentered | dmlib/zpanel.py:159-174 | an empty list is shown as an empty line that never parses back |
| OptionsPanels.Accepted | dmlib/zpanel.py:142-156 | a scalar edit is accepted exactly when the text converts and lies within the bounds, and the stored value is the conversion |
| OptionsPanels.InBounds | dmlib/zpanel.py:146-153 | an accepted value is a number; with no bound given, an integer lies in the 32-bit range [-2147483648, 2147483647]; a given bound holds; a real with no bounds is always accepted |
| OptionsPanels.Texts | dmlib/zpanel.py:116-185 | one line text per option of the strategy: `str(value)` for a scalar option, the joined list text for a list option |
| OptionsPanels.SetupPars | dmlib/zpanel.py:88-91 | the defaults and the first strategy are written only where their keys are absent; every existing key is kept |
| OptionsPanels.SetupParsIdempotent | dmlib/zpanel.py:88-91 | a second setup over the same dictionary changes nothing |
| OptionsPanels.Stored | dmlib/zpanel.py:131-132 | one option of one strategy replaced; every other strategy, option and key unchanged |
| OptionsPanels.StoredCommute | dmlib/zpanel.py:131-132 | a later edit of another option keeps a stored value, and storing the old value back restores the dictionary |
| OptionsPanels.OptionsPanel.constructor | dmlib/zpanel.py:57-96 | for a non-empty strategy list whose names are the keys of the defaults: the dictionary is `SetupPars`, the first strategy is selected and its options are displayed |
| OptionsPanels.OptionsPanel.Select | dmlib/zpanel.py:98-105 | the dictionary is unchanged, the selection is `s` and its stored options are displayed |
| OptionsPanels.OptionsPanel.GetOptions | dmlib/zpanel.py:110-114 | the selection, and its values with every listed option |
| OptionsPanels.OptionsPanel.EditScalar | dmlib/zpanel.py:128-156 | the accepted value is stored under the displayed strategy, and nothing else changes |
| OptionsPanels.OptionsPanel.EditList | dmlib/zpanel.py:162-178 | a list that parses in full is stored; otherwise the dictionary is unchanged and the line shows the old list again |
| OptionsPanels.SwitchAndBack | dmlib/zpanel.py:98-105 | switching to another strategy and back gives the same options and the same dictionary |
| ZernikeWindows.ChooseConfig | dmlib/zpanel.py:602-606 | the stored configuration is used exactly when present and accepted; otherwise the defaults |
| ZernikeWindows.NonZero | dmlib/zpanel.py:704 | `norm(u) != 0` fails exactly for the zero vector |
| ZernikeWindows.Reals | dmlib/zpanel.py:888 | `u.tolist()`: one real value per entry |
| ZernikeWindows.ControlRequest | dmlib/zpanel.py:886-890 | the selected options plus flat on, `uflat = u`, a zero `u` of the same length and `all = 0`; other options unchanged |
| ZernikeWindows.WithPanelEntry | dmlib/zpanel.py:654-655 | a `ZernikePanel` entry is added as `{}` only when absent |
| ZernikeWindows.Control.constructor | dmlib/zpanel.py:602-606 | the controller holds the device's start vector and flat flag for its configuration, with nothing written yet |
| ZernikeWindows.Control.U2Z | dmlib/zpanel.py:731 | the coefficients have one entry per mode |
| ZernikeWindows.Control.Write | dmlib/zpanel.py:634 | `u` becomes `z2u(flat_on, z)` in place, the saturation flag is that of `z` under the same flat flag, the flag is kept, and the write is recorded |
| ZernikeWindows.ZernikeWindow.constructor | dmlib/zpanel.py:594-699 | the window over its parts: unlocked, closable, every tab enabled |
| ZernikeWindows.NewWindow | dmlib/zpanel.py:594-699 | the configuration comes from `ChooseConfig`; the panel starts from the controller's `z`, which is written once; shown saturation is the controller's; the flat box follows the controller's flag; the panel is in radians with `min(shown_modes, nk)` rows as created and its labels filled; the options list the strategies, with the first selected and its options displayed |
| ZernikeWindows.NewParts | dmlib/zpanel.py:602-697 | the parts `__init__` builds, fresh and disjoint, with the panel on the controller's `z`, in radians, with `min(shown_modes, nk)` rows as created and its labels filled, and the options with the first strategy selected and displayed |
| ZernikeWindows.NewController | dmlib/zpanel.py:602-659 | a fresh controller with its start coefficients already written once |
| ZernikeWindows.NewTabs | dmlib/zpanel.py:688-697 | two tabs, both enabled |
| ZernikeWindows.NewControlOptions | dmlib/zpanel.py:742-749 | the control options over the window's dictionary, set up: the given strategies, the first selected, its options displayed as text |
| ZernikeWindows.NewPanel | dmlib/zpanel.py:656-658 | the panel for the device's modes, on a copy of `z0`, with a callback, in radians, with `min(shown_modes, nk)` rows as created and the labels of the shown rows filled |
| ZernikeWindows.ZernikeWindow.WriteDm | dmlib/zpanel.py:630-649 | a write happens and is recorded only when asked; the shown saturation is the controller's |
| ZernikeWindows.ZernikeWindow.PanelCallback | dmlib/zpanel.py:630-634 | the panel's callback writes exactly the coefficients it receives: `u = z2u(flat_on, z)`, the saturation is that of `z`, and the status line shows it. When it does not run, `u`, the saturation, the shown indicator and the writes are unchanged |
| ZernikeWindows.ZernikeWindow.SetTabsEnabled | dmlib/zpanel.py:709-710 | every tab is enabled, or every tab disabled |
| ZernikeWindows.ZernikeWindow.Acquire | dmlib/zpanel.py:715-722 | locked, not closable, every tab disabled |
| ZernikeWindows.ZernikeWindow.Release | dmlib/zpanel.py:701-713 | Without a vector: `z`, `u`, the saturation, the shown indicator and the writes are unchanged. With one: `u` is adopted only when non-zero, `z = u2z(adopted)`, the sliders sync, and the redraw writes `z`, so `u = z2u(z)`, the saturation is that of `z` and it is shown. In every case: unlocked, closable, every tab enabled; the options tab is untouched. The panel's rows, labels, units and unit factor are kept |
| ZernikeWindows.ZernikeWindow.Unlock | dmlib/zpanel.py:709-712 | every tab enabled, closable, unlocked |
| ZernikeWindows.ZernikeWindow.ShowAndWrite | dmlib/zpanel.py:706-708 | `z = u2z(u)`, the sliders sync, and the redraw's callback writes `z` once: `u = z2u(z)`, the saturation is that of `z`, and it is shown. The panel's rows, labels, units and unit factor are kept |
| ZernikeWindows.ZernikeWindow.CopyIntoU | dmlib/zpanel.py:705 | `zcontrol.u[:] = u` |
| ZernikeWindows.ZernikeWindow.ShowControllerCoefficients | dmlib/zpanel.py:706-707 | the panel's `z` is `u2z(u)` and every shown slider shows it; the panel's rows, labels, units and unit factor are kept |
| ZernikeWindows.ZernikeWindow.Draw | dmlib/zpanel.py:727-735 | `u` is the session's vector and `z = u2z(u)`, with no callback and no write |
| ZernikeWindows.ZernikeWindow.CloseEvent | dmlib/zpanel.py:911-918 | the event is ignored exactly when closing is not allowed; the application quits exactly when it is allowed and there is an application |
| ZernikeWindows.ZernikeWindow.SelectActuator | dmlib/zpanel.py:661-676 | Without a hit or a confirmed value, `z`, `u`, the saturation, the shown indicator and the writes are unchanged. Otherwise `u[ind]` is set, `z = u2z(u)`, and the redraw writes `z`, so `u = z2u(z)` and the saturation of `z` is shown. The handler ends unlocked; the options tab is untouched. The panel's rows, labels, units and unit factor are kept |
| ZernikeWindows.ZernikeWindow.AcquireControl | dmlib/zpanel.py:882-906 | the request is the selected options with flat on, `uflat = u`, zero `u` and `all = 0`. A session that cannot be built leaves the window unlocked, closable and enabled, with `z`, `u`, the saturation and the writes untouched. The panel's rows, labels, units and unit factor are kept |
| ZernikeWindows.ZernikeWindow.InstanceControl | dmlib/zpanel.py:751-766 | a fresh controller from `ChooseConfig`; the flat box follows its flag; `z = u2z(u)`, the sliders sync, and it is written once, with the saturation of `z` shown. The panel's rows, labels, units and unit factor are kept |
| ZernikeWindows.ZernikeWindow.AdoptControl | dmlib/zpanel.py:753-763 | the window uses the new controller and the flat check box shows its flag |
| ZernikeWindows.ZernikeWindow.FlatToggled | dmlib/zpanel.py:851-855 | the controller's flat flag and the check box are `on`; `z` is unchanged and written again under the new flag, so `u == z2u(on, z)`; the shown saturation follows |
| ZernikeWindows.ZernikeWindow.PanelSliderMoved | dmlib/zpanel.py:421-425 | without an anchor, `z`, `u`, the saturation, the shown indicator, the writes and the row's value are unchanged, and the row's slider is back at 0. With one, the row's slider is at `rel`, its value is the move target, only `z[ind]` changes, to that target, and `z` is written: `u = z2u(z)` and the saturation of `z` is shown. The row keeps its anchor and maximum delta. The panel's rows, labels, units and unit factor are kept |
| ZernikeWindows.ZernikeWindow.PanelReset | dmlib/zpanel.py:505-508 | the panel's reset zeroes `z`, syncs the sliders and writes the zeros: `u = z2u(zeros)` and their saturation is shown. The panel's rows, labels, units and unit factor are kept |
| ZernikeWindows.ControlSession | dmlib/zpanel.py:701-735 | closing is refused throughout acquire and draws; afterwards the window is unlocked, closable and enabled, and `z = u2z(adopted)` with `adopted` the final vector when non-zero, else the last drawn one, else the controller's own; that `z` is written exactly once |
| ZernikeWindows.DrawSteps | dmlib/zpanel.py:727-735 | the draws of a session, each followed by a refused close: nothing is written, the flat flag is kept, and `u` ends on the last drawn vector |

## Left out

- Qt widgets, layouts, palettes, tooltips, the phase plot, the DM plot and the status texts. Of `sba_color`, only the non-zero indicator is kept.
- Decimal rounding of the spin boxes, and their single step. The value box rounds to 3 decimals once `setDecimals(3)` runs (dmlib/zpanel.py:213). The first `setValue(val)` at dmlib/zpanel.py:204 runs under Qt's default 2 decimals, so `InitialValueAsWritten` keeps an in-range value only up to that rounding. The maximum-delta box keeps 2 decimals (dmlib/zpanel.py:225). The clamps to [-1000, 1000], [0, 99.99] and [0.01, 99.99] are modelled.
- `update_phi_plot`'s phase evaluation (RZern) and its min/max/RMS statistics, which are floating-point numerics. Only its callback gate is modelled.
- The radians-to-nanometres factor is an opaque positive constant.
- `ZernikeControl` (`u2z`, `write`, `saturation`, acceptance of a stored configuration) and `control.new_control`. They are not part of this model. The conversions and the acceptance test appear as the fields of `Device`; the conversions take the controller's `flat_on` flag, which is a field of `Control`. Whether a session could be built is the `built` parameter of `AcquireControl`.
- `int()`, `float()` and `str()` on option values. They are the functions of `Conversions`.
- The validators' `setFixup` state, and the text they restore into a rejected line edit.
- The validator bounds and the actuator dialog's range [-1, 1] are preconditions. A typed text a validator would reject never reaches a handler.
- `QMutex` as real concurrency, and signal dispatch across threads. The mutex is the flag `locked`. A second acquire would deadlock, so `Acquire` and `SelectActuator` require `!locked`.
- `RelSlider.enable`, `disable`, `add_to_layout` and `remove_from_layout`. These are widget state and layout only.
- `RelSlider.fto100`: dead code that reads the undefined `self.m2`.
- File, JSON and HDF5 I/O, dialogs and the command line:
  - `hand_load`, `hand_calib` and `hand_save`;
  - the module-level `load_parameters` and `new_zernike_window`;
  - `ZernikeWindow.load_parameters` and `save_parameters`. The first reads a module-global `pars`; the second calls the controller's own save.
- ZernikePanels.ZernikePanel.UpdateZernikeRows: requires a target in 0..nk. A negative `shown_modes` would make the source's pop loop fail on an empty list.
- NewZernikePanel and LoadParameters require a non-negative `shown_modes`, for the same reason.
- The calibration name label at dmlib/zpanel.py:857-859. It needs a `calibration` entry in the dictionary, which the model does not require.
- The row count of `change_nmodes` is not written back into the line edit.
- The window shares its parameter dictionary with the options tab and the caller. The model keeps that dictionary in the options panel (`Pars()`), not as a separate alias.
- ZernikePanels.ZernikePanel.LoadParameters: drops the rows before replacing the dictionary, where the source does it the other way round. Dropping rows reads neither the dictionary nor `z`, so the end state is the same.
- OptionsPanels.OptionsPanel.constructor: requires `Ready`, that the stored options hold the selected strategy and every one of its options. The source raises `KeyError` at dmlib/zpanel.py:93-96 when a stored `control_options` lacks them; the model does not cover that error.
- OptionsPanels.OptionsPanel.Select: requires `Ready` for the new strategy. The source raises `KeyError` at dmlib/zpanel.py:100-103 and dmlib/zpanel.py:141 for a missing strategy or option.
- ZernikeWindows.NewControlOptions, ZernikeWindows.NewParts and ZernikeWindows.NewWindow: require `Ready` for the first strategy, for the same reason; the `KeyError` of `make_control_tab` is not modelled.
- ZernikePanels.Loaded: uses the corrected behaviour of the second finding below. Without labels in `d`, the labels start as a fresh empty dictionary, not as the class dictionary shared by every panel (dmlib/zpanel.py:554-557).
- ZernikePanels.ZernikePanel.constructor: follows the same correction; its dictionary does not alias the class attribute (dmlib/zpanel.py:353-355).
- ZernikePanels.NewZernikePanel: follows the same correction, so a new panel never sees labels written by an earlier one.
- ZernikePanels.ZernikePanel.constructor and ZernikePanels.NewZernikePanel: require `|z0| == nk` when a vector is given. This stands for `assert(self.rzern.nk == self.z.size)` (dmlib/zpanel.py:377); the `AssertionError` a mismatched vector raises is not modelled.
- ZernikePanels.ZernikePanel.LoadParameters: follows the same correction through `Loaded`.
- RelSliders.RelSlider.constructor: uses the corrected `InitialValue` of the first finding below, not the value the code at dmlib/zpanel.py:204 produces. `InitialValueAsWritten` models the code.
- Floating point. Coefficients and actuator values are exact reals: there is no NaN, no infinity and no rounding. `z *= 0.` in the reset (dmlib/zpanel.py:506) therefore gives exact zeros, where the source leaves a NaN entry as NaN.
- The `log.error` call of `instance_control` (dmlib/zpanel.py:756). Only the fallback to the defaults is modelled.
- ZernikeWindows.ZernikeWindow.AcquireControl: when the session cannot be built it releases the window and returns normally. The source re-raises the exception (dmlib/zpanel.py:904); the caller's error path is not modelled.
- ZernikePanels.ZernikePanel.UpdateZernikeRows: states that kept rows are the same objects. It does not state each new row's freshness separately, only that the set of new objects is fresh.

## Findings

| source | as written | input that shows it | evidently intended | confidence | as-written member | corrected member |
|---|---|---|---|---|---|---|
| dmlib/zpanel.py:203-212 | `setValue(val)` runs before `setMinimum(-1000)`/`setMaximum(1000)`, so Qt's default range [0, 99.99] clamps the initial value | a row built for coefficient -0.5 shows 0.0 while its indicator says non-zero | the configured range applies to the initial value | medium, not executed | RelSliders.InitialValueAsWrittenDropsSign | RelSliders.InitialValue |
| dmlib/zpanel.py:347-355 | `def_pars` is a class attribute, and `{**self.def_pars, **pars}` copies only its top level. A panel given no labels then writes into the class's own label dictionary, at line 474 and at line 429 | one panel renames mode 1 to "foo"; the next panel built (or loaded) without labels calls mode 1 "foo" instead of "piston" | every panel starts from a label dictionary of its own | medium, not executed | ZernikePanels.LabelsLeakAsWritten | ZernikePanels.FreshPanelDefaultNames |
