# Near-field scanner: a verified model of the scan core

The scanner maps the electromagnetic field above a printed circuit board. A 3D printer moves
a probe across a grid over the board. A software-defined radio measures the received power
at each grid point. The points are stored as JSON files: one per probe orientation (0°, 45°
and 90°), plus the combination of the 0° and 90° scans. Plots are drawn from these files.

This project models the deterministic part of that system in Dafny and proves its
properties:

- **Grids.** The two ways the grid axes are built: the truncating list comprehension of the
  configuration and the `arange`-with-fallback of the older stand-alone scanner.
- **Scan loops.** The raster scan of one orientation, and the three-orientation sequence
  around it. The stand-alone scanner's own loop is modelled too.
- **Radio routines.** The single-buffer and multi-buffer power measurements, and the
  three-attempt retry state machine.
- **Scan files.** Saving, combining the 0° and 90° scans, and choosing which files to
  display. The file names are derived with Python's exact `str.replace` and `str.rsplit`
  semantics.
- **Plot data.** The data side of the plots: NaN matrices over sorted distinct coordinates,
  the live plot's 2-D/1-D switch, the per-point current view, the combined file of the
  selector, the common colour range and the file-format dispatch.

## How the model is built

- **Hardware as oracles.** The hardware appears only through oracles:
  - a scan's reading at row `r`, column `c` is `reading(r, c)`;
  - a radio reception is a `Reception`;
  - a `receive_frame` request is a `FrameReply`;
  - a re-initialisation's outcome is `reinitOk(attempt)`.
- **Printer commands.** Commands to the printer are events in a trace (`Raster.ScanEvent`).
- **Transcendental functions.** `log10`, `10**x`, `sqrt` and `arctan2` are fields of a
  `Transcendental` value passed as a parameter. They are never axiomatised, so every
  property holds for any choice of them.
- **Doubles.** Doubles are reals plus `NaN` (`Numeric.Float`).
- **Files.** The file system is a map from path to file content (`FileUtils.FileStore`). A
  missing key is a missing file. `NotJson` is content that `json.load` rejects. A JSON
  list is kept as its points. A JSON object is kept as its "metadata" and "results" keys
  only: every other key is dropped, so an object with neither key is read as `{}`.
- **State changes.** Code that works by changing state is written as methods with loops and
  invariants. Each method is proved equal to a specification function, and the source's
  promises are proved about that function.
  - The matrix fills of `load_data` and `update_plot` work in place on an `array2`.
  - `get_power_dBm` in radio_utils.py fills a reused `array` buffer.

## Model

| member | source | states |
|---|---|---|
| Config.StepSize | config.py:4 | the step times the resolution is exactly 1, and a positive resolution gives a positive step |
| Config.AxisShape | config.py:5-6 | an axis has int(W/STEP)+1 points and its i-th point is i*STEP |
| Config.AxisEvenlySpaced | config.py:5-6 | the axis starts at 0 and each point is exactly one step above the previous one |
| Config.AxisWithinWidth | config.py:5 | no grid point exceeds the width, and the first multiple of the step left out does exceed it |
| Config.AxisNoFallback | config.py:5-6 | a board narrower than one step gets the single point [0]: there is no two-point fallback |
| Config.ConfiguredAxes | config.py:2-6 | the configured 2.165 × 1.53 cm board at 30 points/cm gets 65 × 46 grid points |
| Scanner.ScannerAxis | scanner.py:38-46 | the stand-alone axis always has at least two points and starts at 0 |
| Scanner.ScannerAxisBounds | scanner.py:38-40 | without the fallback, the axis is arange(0, W+STEP, STEP): point i is i*STEP and every point lies in [0, W+STEP) |
| Scanner.ScannerAxisZeroWidth | scanner.py:43-46 | width 0 falls back to [0, 0] |
| Scanner.ScannerAxisNarrowBoard | scanner.py:39-46 | a board narrower than one step gets [0, STEP], whose second point lies beyond the board |
| Scanner.ScannerAxisOnMultiple | scanner.py:39-40 | when the width is a whole number of steps, the arange axis equals the configuration's truncating axis |
| Scanner.ScannerAxisOvershoot | scanner.py:39-40 | otherwise the arange axis is the truncating axis plus one point, and that point lies beyond the board's edge |
| Scanner.ConfiguredScannerAxes | scanner.py:33-40 | the 3 × 2 cm board at 50 points/cm gets 151 × 101 points |
| Scanner.PerimeterTrace | scanner.py:150-163 | five moves at feed 800 visit the corners (0,0), (W,0), (W,H), (0,H) and (0,0), in millimetres |
| Scanner.MovesTraceTargets | scanner.py:159-163 | a run of probe moves targets exactly the given points, in order |
| Scanner.VisitCells | scanner.py:228-244 | the loop visits cells up to the interrupt; it stores the cells with a present reading, in order, and emits each cell's move, reading and every-tenth-cell redraw |
| Scanner.ScanField | scanner.py:176-252 | a failed radio init or a missing printer socket returns before any scanning and writes nothing. Otherwise the cells of the module-level 151 × 101 grid are visited up to the interrupt, with the printer run framed by init, perimeter and disconnect. Only a finished scan reaches the unguarded write: it stores the bare list of points, or raises and writes nothing when the file cannot be opened, for interrupts at cell boundaries (see Left out) |
| Scanner.Millimetres | scanner.py:231 | probe targets are grid centimetres times ten |
| Scanner.ScanMovesInOrder | scanner.py:228-231 | the probe is sent to each visited cell in turn, in millimetres |
| Scanner.CellEventsTargets | scanner.py:231 | the events of one cell move the probe to that cell and nowhere else |
| Scanner.ScanRefreshCount | scanner.py:218-219 | after n visited cells the plot has been redrawn n/10 times and n readings taken, whatever the readings were |
| Raster.MoveProbeTargets | d3d_printer.py:147-168 | move_probe sends the probe to exactly its own (x, y) target and ends by waiting for the move (M400) |
| Raster.Report | scan_utils.py:145-160 | the first-row report is a warning iff there is no valid reading. Otherwise it holds the count out of the row length, a mean whose product with the count is the sum, and a min and max that are readings and bound all readings |
| Raster.Grid | scanner.py:204 | the grid has \|xs\|·\|ys\| cells |
| Raster.GridAt | scanner.py:204 | cell (row i, column j) is at flat index i·\|xs\|+j: np.ndindex order, with x varying fastest |
| Raster.PresentIsSubsequence | scan_utils.py:127-135 | stored points are an order-preserving subsequence of the visited cells. Entry k is the cell of the k-th present reading, and every present reading has an entry |
| Raster.PresentStrengths | scan_utils.py:118-132 | the strengths of the stored points are exactly the collected power values |
| Raster.PresentLength | scan_utils.py:118-132 | a scan stores as many points as it collects power values |
| Raster.PresentPrefix | scan_utils.py:127-135 | later readings never change the points stored for earlier cells |
| ScanUtils.ScanMetadata | scan_utils.py:167-173 | the saved metadata has exactly the keys PCB_SIZE, resolution, center_freq, BW and nb_average |
| ScanUtils.FlushBuffer | scan_utils.py:100-107 | the flush adds exactly `count` discarded readings to the trace |
| ScanUtils.ScanRow | scan_utils.py:85-135 | the inner loop stops at the interrupted column or at the row's end. It appends the row's present points, the row's power values and the row's cell events |
| ScanUtils.ScanLine | scan_utils.py:70-163 | one pass of the row loop: a completed row extends the row-major specification by one row (with the summary after row 0), and an interrupted one stops at the interrupt's column |
| ScanUtils.ScanGrid | scan_utils.py:70-163 | the row loop's results, power values and trace equal the row-major specification up to the interrupt: complete rows, each after its line pause, the first followed by its summary, then the part of the interrupted row |
| ScanUtils.ScanSingleOrientation | scan_utils.py:51-178 | the results, power values and trace are those of the row loop. The file is saved with the five metadata keys iff some point was stored |
| ScanUtils.RowInGridOrder | scan_utils.py:85-135 | the points of a row prefix filter that row's readings |
| ScanUtils.RowsInGridOrder | scan_utils.py:70-135 | the points of the first r rows filter the readings of those rows, in grid order |
| ScanUtils.GridRowsPrefix | scan_utils.py:70-85 | the first r·\|xs\|+c cells of the grid are r whole rows and then c cells of row r |
| ScanUtils.ScanInGridOrder | scan_utils.py:70-135 | the stored points are the present readings of the visited grid prefix, in row-major order, and the power values are exactly those readings |
| ScanUtils.CellTargets | scan_utils.py:87-92 | a cell's events move the probe to (x·10+x_offset, y·10+y_offset) only |
| ScanUtils.RowTargets | scan_utils.py:85-92 | a row is probed left to right |
| ScanUtils.RowsTargets | scan_utils.py:70-92 | the first r rows are probed row after row |
| ScanUtils.ScanMovesRowMajor | scan_utils.py:70-92 | the moves of a scan target exactly the visited grid cells, in row-major order, with the head offsets, for interrupts at cell boundaries (see Left out) |
| ScanUtils.VisitCounts | scan_utils.py:87-117 | a visit takes one kept reading, the flush's discarded readings, and no pause or summary |
| ScanUtils.RowCounts | scan_utils.py:85-117 | c cells of a row take c kept readings and c·flush discarded ones |
| ScanUtils.RowsCounts | scan_utils.py:70-160 | r complete rows take r·\|xs\| readings and r line pauses, and hold one first-row summary once r ≥ 1 |
| ScanUtils.ScanCounts | scan_utils.py:70-160 | there is exactly one kept reading per visited cell and BUFFER_FLUSH_COUNT flush readings before each when flushing. There is one pause per started row, and exactly one first-row summary, over the first row's readings, iff the first row was completed, for interrupts at cell boundaries (see Left out) |
| Sequencer.DerivedNamesOfJsonName | scan_utils.py:203-206 | "<base>.json" with no other ".json" gives base_0d.json, base_45d.json, base_90d.json and base_combined.json |
| Sequencer.DerivedNamesWithoutExtension | scan_utils.py:203-206 | a name without ".json" is not changed, so all four files share that one name |
| Sequencer.DerivedNamesReplaceEveryOccurrence | scan_utils.py:203 | every occurrence is replaced: "<base>.json.json" gives "<base>_0d.json_0d.json" |
| Sequencer.CombinedPathMatchesRun | plot_utils.py:402 | for the files a scan_field run writes, the selector's combined path is the one the run saved |
| Sequencer.ScanField | scan_utils.py:185-296 | the outcome, steps and files equal the specification of the whole sequence, including an exception the selector raises after the disconnect |
| Sequencer.RunPhases | scan_utils.py:228-293 | the `try` block, phase by phase, equals its specification; the plotting phase ends as plot_with_selector does on the files the run left |
| Sequencer.AbortBeforeMotion | scan_utils.py:208-226 | a failed radio init or printer connect returns before any printer motion. Its steps are only the init and the connect, and it leaves every file unchanged |
| Sequencer.PhaseOrderAndTeardown | scan_utils.py:228-296 | once connected, the steps are the fixed phase order cut after 2, 4, 6, 8 or all 10 phases, then exactly one disconnect, which is the last step. A finished run went through all ten phases |
| Sequencer.PhasedIsPrefix | scan_utils.py:228-293 | the `try` block's steps are a prefix of the phase order, of length 2, 4, 6, 8 or 10 |
| Sequencer.FinishedSavesCombination | scan_utils.py:282-286 | a finished run saved the combination of the 0° and 90° files, as they stood after the 90° scan, under the combined name with the 0° metadata |
| Sequencer.PlotOutcome | scan_utils.py:290-293 | the run finishes iff the selector fixed a colour range and no interrupt struck in the plot window; a selector exception is the outcome |
| Sequencer.UnwritableRunRaisesAtSelector | scan_utils.py:228-296 | a session that cannot write never finishes and changes no file: with no combined file left by an earlier run, reaching the selector always ends in an exception |
| Sequencer.UnwritablePhased | scan_utils.py:228-293 | the same for the `try` block alone |
| Sequencer.ConnectCheckAlwaysReturns | scan_utils.py:221-226 | as written, every session past the radio returns right after connecting: no homing, no scan, no disconnect, even where the intended sequence homes the printer |
| FileUtils.SaveScanResults | file_utils.py:16-38 | the file holds exactly metadata (or {}) and results. A failed write changes nothing, and no other file changes |
| FileUtils.Strengths | file_utils.py:68-69 | the strength array exists iff no strength is null, and then it holds exactly the strengths, in order |
| FileUtils.CombineScans | file_utils.py:40-86 | the append loop returns exactly the specified combination or exception |
| FileUtils.CombineShape | file_utils.py:78-86 | the combination has one point per 0° result, in order. It copies x/y from the 0° points and keeps the 0° metadata |
| FileUtils.CombineIgnores90Coordinates | file_utils.py:68-84 | the 90° points are paired by index alone: changing their x/y changes nothing |
| FileUtils.CombineMismatchFails | file_utils.py:72 | scans of different lengths, neither of length 1, raise numpy's ValueError |
| FileUtils.CombineBroadcastsSingle90 | file_utils.py:68-84 | a one-point 90° scan is broadcast against every 0° point |
| FileUtils.CombineMissingFile | file_utils.py:62-63 | a missing 0° file raises FileNotFoundError before anything else is read |
| FileUtils.DisplayScan | file_utils.py:108-129 | both candidates exist → (file_0d, file_90d, True); else the named file if it exists; else (None, None, False) |
| FileUtils.CandidatesOfJsonName | file_utils.py:108-110 | for "<base>.json" the candidates are base_0d.json and base_90d.json |
| FileUtils.DisplayScanIgnoresLoneFile | file_utils.py:115-129 | a lone 0° file without its 90° partner is ignored |
| PyStrings.ReplaceAllAfter | scan_utils.py:203-206 | str.replace replaces the first occurrence after an occurrence-free prefix and carries on after it |
| PyStrings.ReplaceAllAbsent | scan_utils.py:203-206 | replacing an absent pattern leaves the string unchanged |
| PyStrings.RSplitHead | file_utils.py:108 | rsplit(sep, 1)[0] is the text before the last occurrence of sep, or the whole string |
| PyStrings.RSplitHeadOfSuffixed | file_utils.py:108 | a name ending in ".json" loses exactly that suffix |
| Numeric.Mean | radio_utils.py:101 | np.mean is NaN iff the list is empty, and otherwise the mean times the count is the sum |
| Numeric.MeanPermutation | radio_utils.py:101 | a mean depends only on the multiset of values |
| Radio.FieldStrength | radio_utils.py:30-43 | a reception gives the dBm of the delivered sum divided by 1024, whatever the number of samples delivered. A RuntimeError gives None; any other exception propagates |
| Radio.FirstRaise | radio_utils.py:96-97 | the first reception that raised, with every earlier one delivering samples |
| Radio.GetPowerDbm | radio_utils.py:91-107 | the reused-buffer loop returns exactly the specified power, after exactly num_averages recv calls, or k+1 calls when reception k raised |
| Radio.FirstRaiseStops | radio_utils.py:96-97 | the first exception ends the loop: it stays the first one however many more receptions there are |
| Radio.ContributionsAreDeliveredMeans | radio_utils.py:98-99 | only receptions with num_rx_samps > 0 contribute. Each contributes the mean of exactly its delivered samples |
| Radio.SilentRadioGivesNaN | radio_utils.py:101-104 | with no delivered sample the result is NaN dBm, not None |
| Radio.PowerDependsOnContributionMultiset | radio_utils.py:101-103 | averaging is linear before the log and depends only on the multiset of contributions |
| Radio.SingleReceptionCompared | radio_utils.py:37-99 | the two routines agree on a full 1024-sample buffer. On a partial one, one divides by 1024 and the other by the delivered count |
| MeasurePower.ReceiveFrame | measure_power.py:65-96 | returns the specified frame and stream commands |
| MeasurePower.StopOnlyAfterCleanReception | measure_power.py:81-94 | stop_cont is sent only after a clean recv, so a failed reception leaves the stream started. A frame comes back iff stop_cont went out without an exception |
| MeasurePower.RunAttempt | measure_power.py:133-140 | one attempt appends the powers of the frames up to the first failure and requests no further frame |
| MeasurePower.AttemptPowersStop | measure_power.py:139-140 | after a failed frame the attempt gathers nothing more |
| MeasurePower.GetPowerDbm | measure_power.py:114-160 | the nested loops return exactly the specified power and events |
| MeasurePower.Attempt | measure_power.py:133-157 | one pass returns the power when it gathered any. Otherwise it resets, or re-initialises and returns None if that fails |
| MeasurePower.RetryProtocol | measure_power.py:132-160 | at most three attempts and a reset only after the first. The average always covers a single attempt, and three failures give None |
| MeasurePower.NoAveragesNoPower | measure_power.py:133-142 | nb_avera = 0 never measures: reset, re-inits, None |
| MeasurePower.PartialAttemptAccepted | measure_power.py:140-146 | one good frame then a failure returns that frame's power at once |
| MeasurePower.LastReinitUnused | measure_power.py:151-160 | the outcome of the last re-initialisation never affects the result |
| PlotUtils.SortedSet | plot_utils.py:178-179 | sorted(set(v)) is strictly increasing and holds exactly the values of v |
| PlotUtils.IndexOf | plot_utils.py:183-184 | list.index gives the first position of the value, or raises ValueError iff the value is absent |
| PlotUtils.CellValueIsLastWrite | plot_utils.py:182-185 | a cell holds the strength of the last point written there, or NaN if none was |
| PlotUtils.FillMatrix | plot_utils.py:180-185 | the matrix is len(y) × len(x). Each cell holds its last write, and a point off the axes raises ValueError |
| PlotUtils.LoadData | plot_utils.py:161-192 | gives (None, None, None) iff the path lacks ".json", the file is missing or malformed, or it is a list. Otherwise it gives the matrix over the sorted distinct coordinates, with the later write winning and a null strength stored as NaN, and the defaulted size and resolution |
| PlotUtils.SortPairs | plot_utils.py:137 | sorted() of the (x, strength) tuples is ordered and a permutation of its input |
| PlotUtils.ValidPairsArePoints | plot_utils.py:137 | the line holds exactly the points that have a strength |
| PlotUtils.UpdatePlot | plot_utils.py:96-137 | it is 2-D iff there is more than one distinct y. A 2-D plot fills a NaN matrix over the grid axes, where a None strength skips its write, and an off-axis point raises ValueError. A 1-D plot is the points with a strength, sorted |
| PlotUtils.NoneSkippedOrStored | plot_utils.py:118-119 | a None after a value keeps the value in update_plot but overwrites it with NaN in load_data (plot_utils.py line 185) |
| PlotUtils.CurrentAt | plot_utils.py:258-286 | the i-th entry copies x/y from the 0° point. Its intensity is sqrt(P0²+P90²) and its angle arctan2(P90−P0, P45), with the 45° value defaulting to 0 dBm. A missing 90°/45° index raises IndexError and a null strength TypeError |
| PlotUtils.ShowCurrents | plot_utils.py:257-286 | one entry per 0° point, in order, or the exception of the first failing point |
| PlotUtils.CurrentsAgainstCombination | plot_utils.py:278-284 | the intensity stays linear: combine_scans' value for the same point is 10·log10 of it |
| PlotUtils.CombinedData | plot_utils.py:402-411 | the combination is computed and written only when the combined file is absent, and the unguarded write raises when the store cannot be written. An existing file is loaded as it is |
| PlotUtils.CombinedPathWithoutSuffix | plot_utils.py:402-411 | a 0° path without "_0d.json" is its own combined path, so the 0° file is shown as the combination |
| PlotUtils.CombinedDataAsWritten | plot_utils.py:403-405 | as written, an absent combined file makes the three-argument combine_scans call raise TypeError |
| PlotUtils.CombinedDataAsWrittenDiffers | plot_utils.py:403-411 | the written and corrected selector agree when the combined file exists. When it is absent and the scans combine, the written one raises TypeError and the corrected one succeeds iff it can write |
| PlotUtils.CollectStrengths | plot_utils.py:414-420 | the extend loop yields the field strengths of every truthy dataset in order, or the first error that reading `dataset["results"]` raises (AllStrengths, with FirstErrorPersists for the early exit) |
| PlotUtils.ColourRange | plot_utils.py:414-423 | vmin/vmax bound every strength of every truthy dataset and are attained. An empty list raises ValueError and a null strength TypeError, and otherwise the range exists |
| PlotUtils.GlobalRange | plot_utils.py:414-423 | the min/max computation over the collected strengths returns exactly the specified range or exception |
| PlotUtils.Load45 | plot_utils.py:396-399 | the 45° file is loaded only when its path is non-empty and exists, and then must be JSON |
| PlotUtils.Selector | plot_utils.py:390-423 | a missing 0° file raises FileNotFoundError and changes nothing. No existing file is ever changed, the only file added is the combined one, a colour range needs both scans and the combined file, and an unwritable store without a combined file always raises |
| PlotUtils.PlotWithSelector | plot_utils.py:380-423 | the loads, the combined file and the colour range, step by step, equal the selector's specification |
| PlotUtils.FirstErrorPersists | plot_utils.py:415-417 | the first failing `dataset["results"]` decides the exception |
| PlotUtils.PrepareData | plot_utils.py:500-510 | an object with "results" gives that list and its metadata (or {}). A list gives itself with {}. An object with only "metadata" raises TypeError when its key is indexed like a point, and an empty object iterates nothing |
| PlotUtils.PrepareDataRoundTrip | plot_utils.py:500-505 | the object save_scan_results writes and the bare list the stand-alone scanner writes both read back as written |

## Left out

- The radio hardware (UHD driver calls, stream set-up, `initialize_radio`) is represented only by what its calls return.
- The printer connection (Telnet client, passwords, responses) is not modelled. Only the G-code sent by `move_probe` and the homing step appear, as trace events.
- printer_utils.py (the Tk head-adjustment GUI and its measuring thread) is not part of this model. Its result enters as the session's `head` offsets.
- Operator dialogs (the rotation prompts) are steps in the trace. Their only modelled effect is where a keyboard interrupt can strike.
- Keyboard interrupts are taken only at cell and phase boundaries. In the program one can strike anywhere inside the `try`: after a cell's move and before its reading, during the flushes, the settle sleep or the line pause, or between row 0's last cell and the first-row summary. Such an interrupt stores the same points and power values as the nearest modelled one. Its trace differs: it would end with that cell's move and some of its flushes, and no modelled trace has that shape. This affects five members:
  - ScanUtils.ScanGrid: the trace shapes it promises are those of boundary interrupts only;
  - ScanUtils.ScanSingleOrientation: the same, through ScanGrid;
  - Scanner.VisitCells: an interrupt strikes only before a cell's move, never between the move and the reading;
  - Scanner.ScanField: an interrupt during `initialize_printer` or `move_around_perimeter` is not modelled;
  - Sequencer.Phased: interrupts between phases are only the four modelled points, plus those inside the scans.
- Sleeps, prints, the debug flags and the progress messages do not change any result and are not modelled, except as the pause events of the scan trace.
- Drawing is not modelled: contour and scatter plots, colour bars, the PCB overlay, sliders, buttons, streamlines and the `griddata` interpolation. `update_plot`'s scatter fallback, its axis limits and the `np.all(np.isnan(Z))` check only affect drawing.
- `show_currents` writing debug_intensity.json, and `show_debug_intensity`, are not modelled: they only affect a debug file and a drawing.
- `load_and_prepare_data` after the coordinate extraction (scaling, interpolation grids, and the ValueError that `min` raises at plot_utils.py:517 on an empty list) is drawing preparation and is not modelled.
- `plot_with_selector`'s PCB size lookup and its callbacks are not modelled. Its loads, its combined file and its colour range are.
- `compute_current_direction` is not modelled: it returns names that are never bound, so it can only raise.
- FileUtils.Truthy: an object is truthy iff it holds "metadata" or "results", because other keys are not represented. `{"other": 1}` is therefore falsy here. plot_with_selector would raise KeyError on it where PlotUtils.AllStrengths and PlotUtils.ColourRange skip it. load_and_prepare_data would iterate its key and raise TypeError where PlotUtils.PrepareData returns an empty scan. A null "metadata" value is not representable either.
- Floating point: doubles are reals. The rounding of W/STEP and of arange's length is not modelled; the model takes the exact quotient.
- Transcendental functions are left uninterpreted. No monotonicity or algebraic law is assumed.
- Mismatched calls between files are modelled with the callee's intended contract:
  - `measure_field_strength` is passed a `debug=` argument it does not accept;
  - scan_utils.py passes a `debug=` argument to `move_probe`, which d3d_printer.py:147 does not accept, so every scan move would raise TypeError; the model moves the probe as intended;
  - scanner.py's receive path passes two arguments to the one-argument `receive_frame`;
  - scan_utils.py imports names that config.py and file_utils.py do not define;
  - plot_with_selector passes a third argument to the two-parameter `combine_scans` (plot_utils.py:405). A scan_field run plots through the intended two-argument call, so an unwritable run without a combined file raises IOError where the code as written raises TypeError. The Findings table has both versions.

  Each scan reading is an oracle value instead of the resulting exception.
- FileUtils.SaveScanResults: the document is stored as a parsed value. JSON formatting (indentation) is not modelled, and a tuple PCB_SIZE is stored as a size pair.
- Radio.GetPowerDbm: `num_rx_samps` is the length of the delivered powers and is assumed not to exceed the buffer (`recv` never writes past it).
- Scanner.ScanField: `measure_field_strength(usrp, streamer)` in scanner.py is a different two-argument function, not radio_utils' one. Each of its readings is an oracle value.

## Findings

| source | as written | input that shows it | evidently intended | confidence | as-written member | corrected member |
|---|---|---|---|---|---|---|
| plot_utils.py:405 | `combine_scans(file_0d, file_90d, file_45d)` passes three arguments to the two-parameter `combine_scans` (file_utils.py:40) | any selector call whose combined file does not exist yet, e.g. 0° and 90° files written by hand with no `_combined.json` | combine the 0° and 90° scans and write the result, as scan_utils.py:284 does | high, not executed | PlotUtils.CombinedDataAsWritten | PlotUtils.CombinedData |
| scan_utils.py:221-226 | `if not connection_status or not printer.connected: return` tests the value of `printer.connect()`, which returns None on every path (d3d_printer.py:48-76), and reads an attribute `connected` that is never set | any session whose radio initialises, with the printer reachable | return only when the connection failed, then home, scan and disconnect | high, not executed | Sequencer.ConnectCheckAlwaysReturns | Sequencer.PhaseOrderAndTeardown |
