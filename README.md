# EnDiPlot layout engine and options readers, in Dafny

EnDiPlot draws energy diagrams: each dataset is a file of states (length, kind,
label, energy), and every state is laid out along a horizontal cursor.

- An intermediate (`IM`) is a flat solid segment.
- A `dashed` link is a dotted segment between the energies of its neighbours.
- A transition state (`TS`) is a two-half parabola that rises to an apex between its neighbours.

The options file is read line by line. A `<key` line opens a section. A line that starts with a space supplies a value for that key.

This project models:

- **`utils_plot.py`, the current layout:**
  - the `States` container;
  - `define_parabola`;
  - the `plot_lines` walk and its neighbour rules;
  - `define_figure_ranges`, which computes the window shared by all datasets;
  - `plot_labels`;
  - the order of steps in `do_energy_diagram`.
- **`utils/gibbs_diagram.py`, the older layout:**
  - its `States`, which converts text with `int()` and `float()`;
  - its `plot_lines`, which draws a dotted one-unit connector between adjacent intermediates and shifts the walk by that unit, and calls `exit()` on a transition state that is not embedded between intermediates.
- **The two `read_options` readers:**
  - `endiplot/utils_io.py`;
  - `general.py`, the older reader with fewer keys.

Every `plt.plot`/`plt.text` call becomes a `Primitive` appended to a sequence. Every raised exception, including `exit()`, becomes an `Err` of a `Result`. Printed warnings become a sequence of state names.

How the model is built:

- Each loop of the source is a `method` with that loop. It is proved equal to a fold over the states (or lines), written as a function.
- The lemmas state what that fold draws, where it draws it, and exactly when it fails.
- Numbers are `real` and lengths and offsets are `int`. Nothing is rounded.

Files:

| file | module | contents |
|---|---|---|
| `py.dfy` | `Py` | Python behaviour the source relies on: exceptions, negative list indexing, `split()[0]`, `split(c)[0]`, `bool(str)`, `int()`/`float()` of a token |
| `diagram.dfy` | `Diagram` | states, kinds, primitives, colors, and the length and adjacent-intermediate counts |
| `parabola.dfy` | `Parabola` | `define_parabola` (the same code in both layouts) |
| `utils_plot.dfy` | `UtilsPlot` | `States`, `plot_lines`, `plot_labels` |
| `figure_ranges.dfy` | `FigureRanges` | `define_figure_ranges` |
| `energy_diagram.dfy` | `EnergyDiagram` | `do_energy_diagram` |
| `gibbs_diagram.dfy` | `GibbsDiagram` | the older `States` and `plot_lines` |
| `utils_io.dfy` | `UtilsIo` | `read_options` of `endiplot/utils_io.py` |
| `general.dfy` | `General` | `read_options` of `general.py` |

Where the code and its documentation part ways, the model follows the code:

- A dashed link is rejected only when *both* neighbours are not intermediates.
- The guard `i + 1 <= num_states` of `plot_lines` always holds, so a dashed link in the last place fails on the lookup of the next kind (an `IndexError`), not on the `ValueError` the guard was meant to raise.
- The label of a transition state is lifted only when a neighbour is *strictly* higher.
- With all energies 0 and no y-limits in the options, the auto-padded window is `[0, 0]`.
- In `utils/gibbs_diagram.py` a transition state at index 0 reads its predecessor at index `-1`, which is the last state of the file.

## Model

| member | source | states |
|---|---|---|
| Py.PyIndex | utils/gibbs_diagram.py:135 | a list lookup succeeds exactly for `-len <= j < len`; a negative index counts from the end |
| Py.FirstTokenIsFirstRun | endiplot/utils_io.py:36 | `line.split()[0]` is the first maximal run of non-space characters after leading whitespace, and raises exactly when the line is all whitespace |
| Py.Before | endiplot/utils_io.py:33 | `s.split(c)[0]` is the longest prefix of `s` without `c`, ended by the end of `s` or by a `c` |
| Py.ParseIntRoundTrip | endiplot/utils_io.py:40 | `int(str(n)) == n` for every integer, so an integer written into an `offset` or `nfiles` section is read back unchanged |
| Py.ParseFloatOfInt | endiplot/utils_io.py:52 | `float()` accepts every token `int()` accepts, with the same value |
| Diagram.KindOf | utils_plot.py:243-277 | a kind tag maps to `IM`, `TS`, `dashed` or "other", and the tag is recovered from it, so string comparisons of kinds are comparisons of these values |
| Diagram.StatesOf | utils_plot.py:10-68 | the four parallel lists describe one state per index, built from the entries at that index |
| Diagram.StatesOfAppend | utils_plot.py:46-68 | appending one entry to each of the four lists appends exactly one state |
| Diagram.ColorAt | utils_plot.py:245-246 | `colors[num_plot]` exists exactly when `num_plot < len(colors)`, and is then that entry of the list |
| Parabola.Linspace | utils_plot.py:184 | `np.linspace(a, b, 50)` has 50 points, from `a` to `b`, evenly spaced |
| Parabola.Apex | utils_plot.py:179 | the apex is at least 0.01 above both endpoints and at least the transition state's energy, and it equals one of the three candidates |
| Parabola.FitIsInterpolatingQuadratic | utils_plot.py:180-190 | each half is a polynomial of degree at most two through its three fitted points, so it is the quadratic `np.polyfit` returns |
| Parabola.DefineParabola | utils_plot.py:178-194 | 100 abscissae from `x_start` to `x_end`, with the midpoint at indices 49 and 50; for `x_start != x_end` the curve starts at `y_start`, ends at `y_end` and reaches the apex at indices 49 and 50 |
| Parabola.ParabolaBounds | utils/gibbs_diagram.py:82-98 | every point of each half lies between that half's end height and the apex; the apex is the highest point; for `x_start < x_end`, every abscissa lies in `[x_start, x_end]` |
| Parabola.ParabolaReversal | utils_plot.py:178-194 | swapping the two ends reverses the curve point by point |
| UtilsPlot.States.constructor | utils_plot.py:37-44 | a new `States` holds four empty lists |
| UtilsPlot.States.AddLabel | utils_plot.py:46-50 | appends the label and changes no other list |
| UtilsPlot.States.AddKind | utils_plot.py:52-56 | appends the kind and changes no other list |
| UtilsPlot.States.AddLength | utils_plot.py:58-62 | appends the length and changes no other list |
| UtilsPlot.States.AddValue | utils_plot.py:64-68 | appends the energy and changes no other list |
| UtilsPlot.States.Rows | utils_plot.py:10-44 | the states held by parallel lists, one per entry |
| UtilsPlot.States.AddRow | utils_plot.py:375-378 | one line of a state file keeps the lists parallel and adds exactly one state at the end |
| UtilsPlot.PlotLines | utils_plot.py:236-301 | the loop of `plot_lines` computes exactly the walk `LinesOf`, including which exception ends it |
| UtilsPlot.LinesStop | utils_plot.py:248-291 | the first exception ends the walk: every longer prefix fails with it |
| UtilsPlot.LinesSucceed | utils_plot.py:243-301 | the walk succeeds exactly when every state obeys its neighbour rule and, if anything is drawn, the dataset has a color |
| UtilsPlot.StepSucceeds | utils_plot.py:243-301 | one step succeeds exactly when its state obeys its neighbour rule and has a color if it draws |
| UtilsPlot.LinesCursor | utils_plot.py:237-242 | the cursor starts at `offset[num_plot]` and advances by exactly each length with no gap; one primitive per intermediate, dashed link and transition state |
| UtilsPlot.LineShapes | utils_plot.py:243-301 | what each state draws at cursor `x0`: a flat solid segment for an intermediate; a dotted segment between the neighbours' energies for a dashed link; the parabola over its span for a transition state; nothing for any other kind |
| UtilsPlot.LowTransitionWarns | utils_plot.py:294-297 | a transition state below a neighbour adds its label to the warnings and is still drawn |
| UtilsPlot.FirstStateUnembedded | utils_plot.py:250-257 | a transition state or dashed link at index 0 ends the walk with `ValueError` |
| UtilsPlot.LastStateUnembedded | utils_plot.py:258-260 | a transition state or dashed link in the last place ends the walk with an `IndexError` on the next kind |
| UtilsPlot.NeighbourRules | utils_plot.py:266-286 | a transition state needs intermediates on both sides and a dashed link on at least one; otherwise the walk ends with `ValueError` |
| UtilsPlot.LinesDrawNoText | utils_plot.py:236-301 | `plot_lines` draws no text |
| UtilsPlot.PlotLabels | utils_plot.py:90-122 | the loop of `plot_labels` computes exactly the walk `LabelsOf` |
| UtilsPlot.LabelsStop | utils_plot.py:90-122 | the first exception ends the label walk |
| UtilsPlot.LabelsSucceed | utils_plot.py:90-122 | labelling fails exactly on a transition state in the last place, or on a missing color when something is labelled |
| UtilsPlot.LabelsAfterLines | utils_plot.py:90-122 | every dataset `plot_lines` accepts can be labelled |
| UtilsPlot.LabelsCursor | utils_plot.py:91-97 | the cursor advances over every state, dashed links included; one label per state that is not a dashed link |
| UtilsPlot.LabelPlacement | utils_plot.py:97-122 | a label is the state's own name, at the middle of its span, a fiftieth of the y-range above its anchor height |
| UtilsPlot.LabelBaseBounds | utils_plot.py:99-111 | the anchor is the energy itself, except for a transition state strictly below a neighbour, where it is 0.01 above the higher neighbour; it is never below the energy |
| UtilsPlot.LabelNearApex | utils_plot.py:100-111 | for an embedded transition state the anchor is at most 0.01 below the apex of its parabola, and equal to the apex when the state is low |
| FigureRanges.DefineFigureRanges | utils_plot.py:325-347 | the nested loops compute exactly `Ranges`, including the `IndexError` for a dataset without an offset |
| FigureRanges.ScanDataset | utils_plot.py:329-336 | the inner loop over one dataset ends with the counter at `offset + 1 + sum(lengths) + #adjacent IM pairs`, and with `y_max`/`y_min` the running maximum/minimum over the energies seen so far and this dataset's |
| FigureRanges.XRange | utils_plot.py:325-339 | `x_range` starts at 0; `x_max` is at least every dataset's `offset + sum(lengths) + #adjacent IM pairs + 2`, and it is 0 or one of them |
| FigureRanges.RangesFail | utils_plot.py:328-329 | the window fails, with `IndexError`, exactly when `nfiles` exceeds the offsets or the datasets |
| FigureRanges.AutoYRange | utils_plot.py:326-344 | with `ymin == ymax == 0` the window contains 0 and every energy; it is strictly wider than every energy when one is nonzero, and `[0, 0]` when all are 0 |
| FigureRanges.FixedYRange | utils_plot.py:345-346 | any other pair of limits is the y-range as given |
| FigureRanges.TopBounds | utils_plot.py:326-336 | the running `y_max` starts at 0, bounds every energy, and is 0 or one of them |
| FigureRanges.BottomBounds | utils_plot.py:327-337 | the running `y_min` starts at 0, is below every energy, and is 0 or one of them |
| FigureRanges.MaxExtentBounds | utils_plot.py:328-338 | the running `x_max` covers every dataset's counter and is 0 or one of them |
| FigureRanges.AllValuesCover | utils_plot.py:330-337 | the loops visit every energy of every dataset in `range(nfiles)` |
| EnergyDiagram.ReadAll | utils_plot.py:394-396 | when reading succeeds there is one dataset per file in `range(nfiles)`, each the result of reading its file |
| EnergyDiagram.DoEnergyDiagram | utils_plot.py:383-402 | the steps run in order: options, then every state file, then the window, then each dataset's lines and labels; the result is exactly `EnergyDiagram` |
| EnergyDiagram.ReadStateFiles | utils_plot.py:394-396 | the reading loop computes exactly `ReadAll` |
| EnergyDiagram.DrawDatasets | utils_plot.py:398-401 | the drawing loop computes exactly `DrawAll`: per dataset, lines first and then, only if `plot_labels` is set, labels |
| EnergyDiagram.DrawAllSucceeds | utils_plot.py:398-401 | drawing succeeds exactly when every dataset's lines succeed and, with `plot_labels`, so do its labels |
| EnergyDiagram.DrawAllNoText | utils_plot.py:398-401 | without `plot_labels` no text is drawn |
| EnergyDiagram.DrawAllCount | utils_plot.py:398-401 | the figure has one primitive per drawn state and, with `plot_labels`, one per labelled state |
| EnergyDiagram.DiagramSucceeds | utils_plot.py:383-402 | a diagram is produced exactly when the options parse, every file is named and read, every dataset has an offset, and every dataset draws against the window of all datasets; its window is that of all datasets |
| EnergyDiagram.RangesBeforeDrawing | utils_plot.py:397-399 | the window is computed before anything is drawn: a missing offset is reported by `define_figure_ranges` |
| GibbsDiagram.States.constructor | utils/gibbs_diagram.py:37-41 | a new `States` holds four empty lists |
| GibbsDiagram.States.AddLabel | utils/gibbs_diagram.py:43-44 | appends the label and changes no other list |
| GibbsDiagram.States.AddKind | utils/gibbs_diagram.py:46-47 | appends the kind and changes no other list |
| GibbsDiagram.States.AddLength | utils/gibbs_diagram.py:49-50 | appends `int(length)` and changes no other list; a token `int()` rejects raises `ValueError` and appends nothing |
| GibbsDiagram.States.AddValue | utils/gibbs_diagram.py:52-53 | appends `float(value)` and changes no other list; a token `float()` rejects raises `ValueError` and appends nothing |
| GibbsDiagram.States.Rows | utils/gibbs_diagram.py:37-41 | the states held by parallel lists |
| GibbsDiagram.States.AddRow | utils/gibbs_diagram.py:171-174 | one line of a state file adds exactly one state. A bad length adds nothing. A bad energy leaves three lists one entry longer than the fourth |
| GibbsDiagram.PlotLines | utils/gibbs_diagram.py:109-159 | the loop of `plot_lines` computes exactly the walk `GibbsLinesOf` |
| GibbsDiagram.GibbsStops | utils/gibbs_diagram.py:109-159 | the first exception or `exit()` ends the walk |
| GibbsDiagram.GibbsCursor | utils/gibbs_diagram.py:110-129 | the cursor ends at `offset + sum(lengths) + #adjacent IM pairs` |
| GibbsDiagram.CursorMatchesExtent | utils/gibbs_diagram.py:110-129 | this final cursor plus 2 is the per-dataset counter of `define_figure_ranges` (utils_plot.py:329-337) |
| GibbsDiagram.GibbsShapes | utils/gibbs_diagram.py:116-159 | at cursor `x0`: an intermediate after an intermediate draws a dotted connector over `[x0, x0+1]` from the previous energy, then its solid segment shifted by one unit; any other intermediate draws its unshifted segment; an embedded transition state draws the parabola to its neighbours; dashed and other kinds draw nothing |
| GibbsDiagram.TransitionExits | utils/gibbs_diagram.py:134-147 | a transition state ends the program (`SystemExit`) exactly when it is last or a neighbour is not an intermediate |
| GibbsDiagram.LowTransitionWarns | utils/gibbs_diagram.py:148-159 | a transition state below a neighbour adds its label to the warnings and still draws one curve |
| GibbsDiagram.TransitionFirst | utils/gibbs_diagram.py:135-159 | a transition state at index 0 takes the last state as its predecessor, and is drawn from that state's energy when the last and the second states are intermediates |
| GibbsDiagram.GibbsSucceeds | utils/gibbs_diagram.py:109-159 | the walk succeeds exactly when every transition state is embedded and, without a color, nothing is drawn |
| GibbsDiagram.VariantsAgree | utils/gibbs_diagram.py:109-159 | on data without dashed links or adjacent intermediates, both layouts draw the same whenever the current one succeeds |
| UtilsIo.ReadOptions | endiplot/utils_io.py:18-59 | the loop over lines computes exactly `Parse`, carrying `key` and `key_input` across lines |
| UtilsIo.Dispatch | endiplot/utils_io.py:37-58 | the `if`/`elif` chain on `key` computes exactly `Store` |
| UtilsIo.RunStops | endiplot/utils_io.py:31-58 | the first exception ends the reading |
| UtilsIo.RunAppend | endiplot/utils_io.py:31-58 | reading `a + b` is reading `a`, then reading `b` from where `a` left off |
| UtilsIo.DefaultValues | endiplot/utils_io.py:18-29 | the defaults: empty lists, `nfiles` -1, `fontsize` 7, `ymin` and `ymax` 0, both switches False, and the default y-label; an empty file yields them |
| UtilsIo.OnlyKeysGiveDefaults | endiplot/utils_io.py:32-34 | a file of section lines only yields the defaults |
| UtilsIo.KeyLineSetsKey | endiplot/utils_io.py:32-34 | `<key` followed by whitespace sets the current key and changes nothing else |
| UtilsIo.KeyInputNonEmpty | endiplot/utils_io.py:35-36 | the carried `key_input` is always one non-empty token |
| UtilsIo.ValueStep | endiplot/utils_io.py:35-58 | a value line stores its token under the current key |
| UtilsIo.RunValueLines | endiplot/utils_io.py:35-58 | a run of value lines stores their tokens one after the other, in line order |
| UtilsIo.ListSectionAppends | endiplot/utils_io.py:37-48 | under `files`, `colors` and `titles` each token is appended in line order, and nothing else changes |
| UtilsIo.OffsetSectionAppends | endiplot/utils_io.py:39-40 | under `offset`, value lines carrying any tokens `int()` accepts append those integers to `offset`, in order; no other option changes |
| UtilsIo.ScalarLastWins | endiplot/utils_io.py:43-56 | under `nfiles` (any tokens `int()` accepts) or `fontsize`, `ymin`, `ymax` (any tokens `float()` accepts), the value of the last line wins; no other option changes |
| UtilsIo.SwitchOnAnyToken | endiplot/utils_io.py:45-50 | `plot_titles` and `plot_labels` become True for any value token |
| UtilsIo.RepeatsLastToken | endiplot/utils_io.py:32-38 | a line starting with neither `<` nor a space acts as a value line carrying the previous token again |
| UtilsIo.ValueBeforeKey | endiplot/utils_io.py:32-37 | a value line before any section fails: `UnboundLocalError`, or `IndexError` if it has no token |
| UtilsIo.UnknownKeyIgnored | endiplot/utils_io.py:37-58 | a value under an unrecognised key leaves the options unchanged |
| UtilsIo.TextYLabelFails | endiplot/utils_io.py:57-58 | a non-numeric `ylabel` value raises `ValueError` |
| UtilsIo.SectionNames | endiplot/utils_io.py:37-57 | a section name selects a branch exactly when it is one of the eleven names the loop compares against, and then the branch of that very name |
| UtilsIo.KeyNameSelects | endiplot/utils_io.py:37-57 | each of the eleven branches is selected by its own name, so distinct branches have distinct names |
| General.ReadOptions | general.py:3-34 | the loop over lines computes exactly `Parse` |
| General.Dispatch | general.py:19-32 | the `if`/`elif` chain on `key` computes exactly `Store` |
| General.RunStops | general.py:13-32 | the first exception ends the reading |
| General.DefaultValues | general.py:4-11 | the defaults: empty lists, `nfiles` -1, `plot_titles` False, and no `plot_labels` key |
| General.PlotLabelsOnlyTrue | general.py:31-32 | `plot_labels` is either absent or True |
| General.NewerKeysIgnored | general.py:19-32 | values under `fontsize`, `ymin`, `ymax` and `ylabel` are ignored |
| General.RunValueLines | general.py:13-32 | a run of value lines stores their tokens one after the other, in line order |
| General.NFilesLastWins | general.py:25-26 | under `nfiles`, with tokens `int()` accepts, the value of the last line wins; no other option changes |
| General.StoreAgrees | general.py:19-32 | on a key both readers accept, the older dispatch stores what the newer one stores |
| General.StepAgrees | general.py:13-32 | one line read by both readers keeps them in agreement |
| General.ReadersAgree | general.py:3-34 | whenever the newer reader succeeds, so does the older one, with the same files, offsets, colors, titles, `nfiles` and `plot_titles`, and a `plot_labels` that is absent or the same |

## Left out

- Rendering is not modelled. This covers matplotlib figure setup, `save_figure`, axis ticks, fonts and PDF output: `plt.plot` and `plt.text` calls become appended primitives.
- `x_range` is computed but never used by `do_energy_diagram`; the model keeps it in the window and proves nothing further about it.
- Arithmetic is exact. The model leaves out floating-point rounding of 0.01, 0.15, `/ 50`, `np.linspace` and `np.polyval`.
- Parabola.DefineParabola: the y-values are only stated for `x_start != x_end`. For a zero-length span the three fitted points share one abscissa, and the model takes the mean of their heights, which is one least-squares solution. numpy's own result, and its rank warning, are not modelled.
- Reading a state file (`read_infiles`) is not modelled. This covers the existence check, the printing, `open`, and splitting each line into four tokens. `do_energy_diagram` takes the reader as a parameter. The two `AddRow` methods model one line's appends, in the source's order.
- The options file is given as its sequence of lines, each keeping its trailing newline as Python's file iteration does (`ValueLine` builds such lines), so `open` is not modelled. A blank line is `"\n"`: it starts with neither `<` nor a space, so it stores the previous `key_input` again (`UtilsIo.RepeatsLastToken`), or, under a named section, raises `UnboundLocalError` when no value has been read yet. The model also gives the empty string `""` an outcome, the `IndexError` of `line[0]`, but a line read from a file is never empty.
- `int()` and `float()` are modelled on tokens of ASCII digits. An optional sign, a fraction and an exponent are accepted. Digit-group underscores, non-ASCII digits, `inf` and `nan` are not.
- Printed messages are not modelled. The warning for a low transition state is recorded as that state's name, and the other messages are dropped.
- The scripts `scripts/chemplots.py` and `chemplots.py` are not modelled: they only parse command-line arguments and delegate.
- `do_gibbs_diagram` (utils/gibbs_diagram.py:178-186) is not modelled. Its loop reads one file and draws it, and the reading is already left out. Its `plot_lines`, the part that differs, is modelled.
- Both `plot_lines` and `plot_labels` take a dataset as a sequence of rows. The model does not cover four lists of different lengths, which the source would index out of range.
- General.ReadersAgree: it relates the two readers only where the newer one succeeds. The older reader ignores the `fontsize`, `ymin`, `ymax` and `ylabel` values that can make the newer one fail.
