/// `do_energy_diagram` of utils_plot.py: read the options, read one state file
/// per dataset, compute the shared window from all datasets, then draw each
/// dataset in turn, its lines first and its labels after them when the options
/// ask for labels. Reading a state file is a parameter (`read`) of the model.
module EnergyDiagram {
  import opened Py
  import opened Diagram
  import UtilsIo
  import UtilsPlot
  import FigureRanges

  /** Everything drawn onto the one figure, in drawing order, and the printed warnings. */
  datatype Canvas = Canvas(prims: seq<Primitive>, warnings: seq<string>)

  /** The finished figure: its window and its contents. */
  datatype Figure = Figure(window: FigureRanges.Window, prims: seq<Primitive>, warnings: seq<string>)

  /** The first loop: `plot_data.append(read_infiles(option_data["files"][num_plot]))`
      for the first `k` datasets, stopping at the first missing file name or failed read. */
  function ReadAll(files: seq<string>, read: string -> Result<seq<State>>, k: nat): (r: Result<seq<seq<State>>>)
    ensures r.Ok? ==> |r.value| == k && k <= |files|
    ensures r.Ok? ==> forall d :: 0 <= d < k ==> read(files[d]) == Ok(r.value[d])
  {
    if k == 0 then Ok([])
    else
      var plotData :- ReadAll(files, read, k - 1);
      if k - 1 >= |files| then Err(IndexError)
      else
        var states :- read(files[k - 1]);
        Ok(plotData + [states])
  }

  /** One pass of the drawing loop: the lines of dataset `numPlot`, then its labels
      when `plot_labels` is set. */
  function DrawDataset(states: seq<State>, options: UtilsIo.Options, numPlot: nat, yRange: (real, real)): Result<Canvas> {
    var lines :- UtilsPlot.LinesOf(states, options, numPlot);
    if options.plotLabels then
      var labels :- UtilsPlot.LabelsOf(states, options, numPlot, yRange);
      Ok(Canvas(lines.prims + labels.prims, lines.warnings + labels.warnings))
    else Ok(Canvas(lines.prims, lines.warnings))
  }

  /** The drawing loop over the first `k` datasets. */
  function DrawAll(plotData: seq<seq<State>>, options: UtilsIo.Options, yRange: (real, real), k: nat): Result<Canvas>
    requires k <= |plotData|
  {
    if k == 0 then Ok(Canvas([], []))
    else
      var canvas :- DrawAll(plotData, options, yRange, k - 1);
      var drawn :- DrawDataset(plotData[k - 1], options, k - 1, yRange);
      Ok(Canvas(canvas.prims + drawn.prims, canvas.warnings + drawn.warnings))
  }

  /** `do_energy_diagram(option_file)`, with the option file given as its lines. */
  function EnergyDiagram(optionLines: seq<string>, read: string -> Result<seq<State>>): Result<Figure> {
    var options :- UtilsIo.Parse(optionLines);
    var k := FigureRanges.Count(options.nfiles);
    var plotData :- ReadAll(options.files, read, k);
    var window :- FigureRanges.Ranges(plotData, options);
    var canvas :- DrawAll(plotData, options, (window.yMin, window.yMax), k);
    Ok(Figure(window, canvas.prims, canvas.warnings))
  }

  method DoEnergyDiagram(optionLines: seq<string>, read: string -> Result<seq<State>>) returns (r: Result<Figure>)
    ensures r == EnergyDiagram(optionLines, read)
  {
    var parsed := UtilsIo.ReadOptions(optionLines);
    if parsed.Err? {
      return Err(parsed.error);
    }
    var options := parsed.value;
    var nfiles := FigureRanges.Count(options.nfiles);
    var plotData := ReadStateFiles(options.files, read, nfiles);
    if plotData.Err? {
      return Err(plotData.error);
    }
    var ranges := FigureRanges.DefineFigureRanges(plotData.value, options);
    if ranges.Err? {
      return Err(ranges.error);
    }
    var window := ranges.value;
    var canvas := DrawDatasets(plotData.value, options, (window.yMin, window.yMax));
    if canvas.Err? {
      return Err(canvas.error);
    }
    r := Ok(Figure(window, canvas.value.prims, canvas.value.warnings));
  }

  /** The reading loop of `do_energy_diagram`. */
  method ReadStateFiles(files: seq<string>, read: string -> Result<seq<State>>, nfiles: nat) returns (r: Result<seq<seq<State>>>)
    ensures r == ReadAll(files, read, nfiles)
  {
    var plotData: seq<seq<State>> := [];
    var numPlot := 0;
    while numPlot < nfiles
      invariant numPlot <= nfiles
      invariant ReadAll(files, read, numPlot) == Ok(plotData)
    {
      if numPlot >= |files| {
        ReadStops(files, read, numPlot + 1, nfiles);
        return Err(IndexError);
      }
      var states := read(files[numPlot]);
      if states.Err? {
        ReadStops(files, read, numPlot + 1, nfiles);
        return Err(states.error);
      }
      plotData := plotData + [states.value];
      numPlot := numPlot + 1;
    }
    r := Ok(plotData);
  }

  /** The drawing loop of `do_energy_diagram`. */
  method DrawDatasets(plotData: seq<seq<State>>, options: UtilsIo.Options, yRange: (real, real)) returns (r: Result<Canvas>)
    ensures r == DrawAll(plotData, options, yRange, |plotData|)
  {
    var prims: seq<Primitive> := [];
    var warnings: seq<string> := [];
    var numPlot := 0;
    while numPlot < |plotData|
      invariant numPlot <= |plotData|
      invariant DrawAll(plotData, options, yRange, numPlot) == Ok(Canvas(prims, warnings))
    {
      var lines := UtilsPlot.PlotLines(plotData[numPlot], options, numPlot);
      if lines.Err? {
        DrawStops(plotData, options, yRange, numPlot + 1, |plotData|);
        return Err(lines.error);
      }
      var drawn := Canvas(lines.value.prims, lines.value.warnings);
      if options.plotLabels {
        var labels := UtilsPlot.PlotLabels(plotData[numPlot], options, numPlot, yRange);
        if labels.Err? {
          DrawStops(plotData, options, yRange, numPlot + 1, |plotData|);
          return Err(labels.error);
        }
        drawn := Canvas(drawn.prims + labels.value.prims, drawn.warnings + labels.value.warnings);
      }
      prims := prims + drawn.prims;
      warnings := warnings + drawn.warnings;
      numPlot := numPlot + 1;
    }
    r := Ok(Canvas(prims, warnings));
  }

  // ---------------------------------------------------------------------------
  // Properties

  /** Once a read fails, every later prefix fails with the same error. */
  lemma {:induction false} ReadStops(files: seq<string>, read: string -> Result<seq<State>>, i: nat, n: nat)
    requires i <= n && ReadAll(files, read, i).Err?
    ensures ReadAll(files, read, n) == ReadAll(files, read, i)
  {
    if n > i {
      ReadStops(files, read, i, n - 1);
    }
  }

  /** Once a dataset fails to draw, the drawing loop ends with its error. */
  lemma {:induction false} DrawStops(plotData: seq<seq<State>>, options: UtilsIo.Options, yRange: (real, real), i: nat, n: nat)
    requires i <= n <= |plotData| && DrawAll(plotData, options, yRange, i).Err?
    ensures DrawAll(plotData, options, yRange, n) == DrawAll(plotData, options, yRange, i)
  {
    if n > i {
      DrawStops(plotData, options, yRange, i, n - 1);
    }
  }

  /** The drawing loop succeeds exactly when every dataset's lines, and its labels
      when they are asked for, succeed. */
  lemma {:induction false} DrawAllSucceeds(plotData: seq<seq<State>>, options: UtilsIo.Options, yRange: (real, real), k: nat)
    requires k <= |plotData|
    ensures DrawAll(plotData, options, yRange, k).Ok? <==>
      forall d :: 0 <= d < k ==>
        UtilsPlot.LinesOf(plotData[d], options, d).Ok? &&
        (options.plotLabels ==> UtilsPlot.LabelsOf(plotData[d], options, d, yRange).Ok?)
  {
    if k > 0 {
      DrawAllSucceeds(plotData, options, yRange, k - 1);
    }
  }

  /** Without `plot_labels` nothing but lines and curves is drawn. */
  lemma {:induction false} DrawAllNoText(plotData: seq<seq<State>>, options: UtilsIo.Options, yRange: (real, real), k: nat)
    requires k <= |plotData| && !options.plotLabels && DrawAll(plotData, options, yRange, k).Ok?
    ensures forall p :: p in DrawAll(plotData, options, yRange, k).value.prims ==> !p.Text?
  {
    if k > 0 {
      DrawAllNoText(plotData, options, yRange, k - 1);
      var states := plotData[k - 1];
      UtilsPlot.LinesDrawNoText(states, options.offset[k - 1], ColorAt(options.colors, k - 1), |states|);
    }
  }

  /** The number of primitives of the first `k` datasets: one per drawn state, plus one
      label per non-dashed state when labels are on. */
  function PrimitiveCount(plotData: seq<seq<State>>, labels: bool, k: nat): nat
    requires k <= |plotData|
  {
    if k == 0 then 0
    else
      var states := plotData[k - 1];
      PrimitiveCount(plotData, labels, k - 1) + UtilsPlot.Drawn(states, |states|)
        + (if labels then UtilsPlot.Labelled(states, |states|) else 0)
  }

  lemma {:induction false} DrawAllCount(plotData: seq<seq<State>>, options: UtilsIo.Options, yRange: (real, real), k: nat)
    requires k <= |plotData| && DrawAll(plotData, options, yRange, k).Ok?
    ensures |DrawAll(plotData, options, yRange, k).value.prims| == PrimitiveCount(plotData, options.plotLabels, k)
  {
    if k > 0 {
      DrawAllCount(plotData, options, yRange, k - 1);
      var states := plotData[k - 1];
      var offset, color := options.offset[k - 1], ColorAt(options.colors, k - 1);
      UtilsPlot.LinesCursor(states, offset, color, |states|);
      if options.plotLabels {
        UtilsPlot.LabelsCursor(states, offset, UtilsPlot.LabelShift(yRange), color, options.fontsize, |states|);
      }
    }
  }

  /** A diagram is drawn exactly when the options parse, every state file is named and
      read, every dataset has an offset, and every dataset's lines (and labels, when
      asked for) succeed against the window of all datasets; it then has one primitive
      per drawn state and per label, and no text at all without `plot_labels`. */
  lemma DiagramSucceeds(optionLines: seq<string>, read: string -> Result<seq<State>>)
    ensures EnergyDiagram(optionLines, read).Ok? <==>
      && UtilsIo.Parse(optionLines).Ok?
      && var options := UtilsIo.Parse(optionLines).value;
         var k := FigureRanges.Count(options.nfiles);
         && ReadAll(options.files, read, k).Ok?
         && k <= |options.offset|
         && var plotData := ReadAll(options.files, read, k).value;
            var w := FigureRanges.Ranges(plotData, options).value;
            forall d :: 0 <= d < k ==>
              UtilsPlot.LinesOf(plotData[d], options, d).Ok? &&
              (options.plotLabels ==> UtilsPlot.LabelsOf(plotData[d], options, d, (w.yMin, w.yMax)).Ok?)
    ensures EnergyDiagram(optionLines, read).Ok? ==>
      var options := UtilsIo.Parse(optionLines).value;
      var k := FigureRanges.Count(options.nfiles);
      var plotData := ReadAll(options.files, read, k).value;
      var f := EnergyDiagram(optionLines, read).value;
      && f.window == FigureRanges.Ranges(plotData, options).value
      && |f.prims| == PrimitiveCount(plotData, options.plotLabels, k)
      && (!options.plotLabels ==> forall p :: p in f.prims ==> !p.Text?)
  {
    var parsed := UtilsIo.Parse(optionLines);
    if parsed.Ok? {
      var options := parsed.value;
      var k := FigureRanges.Count(options.nfiles);
      var read := ReadAll(options.files, read, k);
      if read.Ok? {
        var plotData := read.value;
        FigureRanges.RangesFail(plotData, options);
        var ranges := FigureRanges.Ranges(plotData, options);
        if ranges.Ok? {
          var w := ranges.value;
          var yRange := (w.yMin, w.yMax);
          DrawAllSucceeds(plotData, options, yRange, k);
          if DrawAll(plotData, options, yRange, k).Ok? {
            DrawAllCount(plotData, options, yRange, k);
            if !options.plotLabels {
              DrawAllNoText(plotData, options, yRange, k);
            }
          }
        }
      }
    }
  }

  /** The window is computed from all datasets before any is drawn: a missing offset
      is reported as the `IndexError` of `define_figure_ranges`, whatever error
      drawing the first dataset would have raised. */
  lemma RangesBeforeDrawing(optionLines: seq<string>, read: string -> Result<seq<State>>)
    requires UtilsIo.Parse(optionLines).Ok?
    requires var options := UtilsIo.Parse(optionLines).value;
      ReadAll(options.files, read, FigureRanges.Count(options.nfiles)).Ok?
      && FigureRanges.Count(options.nfiles) > |options.offset|
    ensures EnergyDiagram(optionLines, read) == Err(IndexError)
  {
  }
}
