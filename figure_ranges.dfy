/// `EnergyPlot.define_figure_ranges` of utils_plot.py: the window shared by all
/// datasets. The x-range runs from 0 to the widest dataset, measured by a
/// replay of the cursor walk with one margin unit on each side and one extra
/// unit between two adjacent intermediates; the y-range spans every energy and
/// 0, widened by 15% on both sides unless the options fix it.
module FigureRanges {
  import opened Py
  import opened Diagram
  import UtilsIo

  /** `x_range` and `y_range`. */
  datatype Window = Window(xMin: int, xMax: int, yMin: real, yMax: real)

  /** The share of the energy span added below and above it. */
  const Padding: real := 0.15

  function IntMax(a: int, b: int): int { if a >= b then a else b }

  /** `range(nfiles)` has this many elements. */
  function Count(nfiles: int): nat { if nfiles < 0 then 0 else nfiles }

  /** The per-dataset counter: one margin unit, the lengths, one unit per pair
      of adjacent intermediates, and one closing unit. */
  function Extent(states: seq<State>, offset: int): int {
    offset + 1 + SumLengths(states) + ImImPairs(states) + 1
  }

  /** `x_max` after the first `k` datasets. */
  function MaxExtent(plotData: seq<seq<State>>, offsets: seq<int>, k: nat): int
    requires k <= |plotData| && k <= |offsets|
  {
    if k == 0 then 0 else IntMax(Extent(plotData[k - 1], offsets[k - 1]), MaxExtent(plotData, offsets, k - 1))
  }

  /** The energies of `states`, in order. */
  function ValuesOf(states: seq<State>): (r: seq<real>)
    ensures |r| == |states| && forall i :: 0 <= i < |states| ==> r[i] == states[i].value
  {
    if states == [] then [] else ValuesOf(states[..|states| - 1]) + [states[|states| - 1].value]
  }

  /** The energies of the first `k` datasets, in the order the loops visit them. */
  function AllValues(plotData: seq<seq<State>>, k: nat): seq<real>
    requires k <= |plotData|
  {
    if k == 0 then [] else AllValues(plotData, k - 1) + ValuesOf(plotData[k - 1])
  }

  /** The running `y_max`, which starts at 0. */
  function Top(vs: seq<real>): real {
    if vs == [] then 0.0 else Max(Top(vs[..|vs| - 1]), vs[|vs| - 1])
  }

  /** The running `y_min`, which starts at 0. */
  function Bottom(vs: seq<real>): real {
    if vs == [] then 0.0 else Min(Bottom(vs[..|vs| - 1]), vs[|vs| - 1])
  }

  /** `define_figure_ranges(plot_data, option_data)`. */
  function Ranges(plotData: seq<seq<State>>, options: UtilsIo.Options): Result<Window> {
    var k := Count(options.nfiles);
    if k > |options.offset| || k > |plotData| then Err(IndexError)
    else
      var vs := AllValues(plotData, k);
      var xMax := MaxExtent(plotData, options.offset, k);
      if options.ymin == 0.0 && options.ymax == 0.0 then
        var shift := (Top(vs) - Bottom(vs)) * Padding;
        Ok(Window(0, xMax, Bottom(vs) - shift, Top(vs) + shift))
      else Ok(Window(0, xMax, options.ymin, options.ymax))
  }

  method DefineFigureRanges(plotData: seq<seq<State>>, options: UtilsIo.Options) returns (r: Result<Window>)
    ensures r == Ranges(plotData, options)
  {
    var xMax := 0;
    var yMax := 0.0;
    var yMin := 0.0;
    var numPlot := 0;
    var nfiles := Count(options.nfiles);
    while numPlot < nfiles
      invariant numPlot <= nfiles && numPlot <= |options.offset| && numPlot <= |plotData|
      invariant xMax == MaxExtent(plotData, options.offset, numPlot)
      invariant yMax == Top(AllValues(plotData, numPlot)) && yMin == Bottom(AllValues(plotData, numPlot))
    {
      if numPlot >= |options.offset| || numPlot >= |plotData| {
        return Err(IndexError);
      }
      var counter;
      counter, yMax, yMin := ScanDataset(plotData[numPlot], options.offset[numPlot] + 1, AllValues(plotData, numPlot), yMax, yMin);
      counter := counter + 1;
      xMax := IntMax(counter, xMax);
      numPlot := numPlot + 1;
    }
    var xRange := (0, xMax);
    if options.ymin == 0.0 && options.ymax == 0.0 {
      var yShift := (yMax - yMin) * 0.15;
      yMax := yMax + yShift;
      yMin := yMin - yShift;
      r := Ok(Window(xRange.0, xRange.1, yMin, yMax));
    } else {
      r := Ok(Window(xRange.0, xRange.1, options.ymin, options.ymax));
    }
  }

  /** The inner loop over one dataset: the counter walks its lengths and adjacent
      intermediates, and the running limits take in its energies. */
  method ScanDataset(states: seq<State>, start: int, ghost before: seq<real>, yMax0: real, yMin0: real)
    returns (counter: int, yMax: real, yMin: real)
    requires yMax0 == Top(before) && yMin0 == Bottom(before)
    ensures counter == start + SumLengths(states) + ImImPairs(states)
    ensures yMax == Top(before + ValuesOf(states)) && yMin == Bottom(before + ValuesOf(states))
  {
    counter, yMax, yMin := start, yMax0, yMin0;
    var i := 0;
    assert before + ValuesOf(states[..0]) == before;
    while i < |states|
      invariant 0 <= i <= |states|
      invariant counter == start + SumLengths(states[..i]) + ImImPairs(states[..i])
      invariant yMax == Top(before + ValuesOf(states[..i])) && yMin == Bottom(before + ValuesOf(states[..i]))
    {
      PrefixStep(states, i);
      ValuesStep(before, states, i);
      counter := counter + states[i].length;
      if i > 0 && states[i].kind == IM {
        if states[i - 1].kind == IM {
          counter := counter + 1;
        }
      }
      yMax := Max(yMax, states[i].value);
      yMin := Min(yMin, states[i].value);
      i := i + 1;
    }
    assert states[..i] == states;
  }

  lemma ValuesStep(before: seq<real>, states: seq<State>, i: nat)
    requires i < |states|
    ensures before + ValuesOf(states[..i + 1]) == (before + ValuesOf(states[..i])) + [states[i].value]
  {
    assert states[..i + 1][..i] == states[..i];
  }

  // ---------------------------------------------------------------------------
  // Properties

  /** The running maximum starts at 0 and bounds every energy; it is 0 or one of them. */
  lemma {:induction false} TopBounds(vs: seq<real>)
    ensures Top(vs) >= 0.0
    ensures forall i :: 0 <= i < |vs| ==> vs[i] <= Top(vs)
    ensures Top(vs) == 0.0 || exists i :: 0 <= i < |vs| && vs[i] == Top(vs)
  {
    if vs != [] {
      TopBounds(vs[..|vs| - 1]);
    }
  }

  /** The running minimum starts at 0 and bounds every energy; it is 0 or one of them. */
  lemma {:induction false} BottomBounds(vs: seq<real>)
    ensures Bottom(vs) <= 0.0
    ensures forall i :: 0 <= i < |vs| ==> Bottom(vs) <= vs[i]
    ensures Bottom(vs) == 0.0 || exists i :: 0 <= i < |vs| && vs[i] == Bottom(vs)
  {
    if vs != [] {
      BottomBounds(vs[..|vs| - 1]);
    }
  }

  /** Every energy of every dataset `range(nfiles)` covers appears among the values the loop visits. */
  lemma {:induction false} AllValuesCover(plotData: seq<seq<State>>, k: nat, d: nat, i: nat)
    requires k <= |plotData| && d < k && i < |plotData[d]|
    ensures plotData[d][i].value in AllValues(plotData, k)
  {
    var prev, last := AllValues(plotData, k - 1), ValuesOf(plotData[k - 1]);
    assert AllValues(plotData, k) == prev + last;
    if d == k - 1 {
      assert last[i] == plotData[d][i].value;
      assert (prev + last)[|prev| + i] == last[i];
    } else {
      AllValuesCover(plotData, k - 1, d, i);
      var j :| 0 <= j < |prev| && prev[j] == plotData[d][i].value;
      assert (prev + last)[j] == prev[j];
    }
  }

  /** `x_max` reaches the extent of every dataset, is never negative, and is 0 or the
      extent of one of them. */
  lemma {:induction false} MaxExtentBounds(plotData: seq<seq<State>>, offsets: seq<int>, k: nat)
    requires k <= |plotData| && k <= |offsets|
    ensures MaxExtent(plotData, offsets, k) >= 0
    ensures forall d :: 0 <= d < k ==> Extent(plotData[d], offsets[d]) <= MaxExtent(plotData, offsets, k)
    ensures MaxExtent(plotData, offsets, k) == 0
         || exists d :: 0 <= d < k && MaxExtent(plotData, offsets, k) == Extent(plotData[d], offsets[d])
  {
    if k > 0 {
      MaxExtentBounds(plotData, offsets, k - 1);
    }
  }

  /** The x-range starts at 0 and ends at the widest dataset's extent (or 0). */
  lemma XRange(plotData: seq<seq<State>>, options: UtilsIo.Options)
    requires Ranges(plotData, options).Ok?
    ensures var w, k := Ranges(plotData, options).value, Count(options.nfiles);
      && w.xMin == 0 && w.xMax >= 0
      && (forall d :: 0 <= d < k ==> Extent(plotData[d], options.offset[d]) <= w.xMax)
      && (w.xMax == 0 || exists d :: 0 <= d < k && w.xMax == Extent(plotData[d], options.offset[d]))
  {
    MaxExtentBounds(plotData, options.offset, Count(options.nfiles));
  }

  /** The window fails only when `nfiles` exceeds the offsets or the datasets. */
  lemma RangesFail(plotData: seq<seq<State>>, options: UtilsIo.Options)
    ensures Ranges(plotData, options).Err? <==>
      Count(options.nfiles) > |options.offset| || Count(options.nfiles) > |plotData|
    ensures Ranges(plotData, options).Err? ==> Ranges(plotData, options).error == IndexError
  {
  }

  /** With both limits 0 in the options the window holds 0 and every energy, each
      side widened by 15% of the span: strictly wider when some energy is not 0,
      and `[0, 0]` when all are. */
  lemma AutoYRange(plotData: seq<seq<State>>, options: UtilsIo.Options)
    requires Ranges(plotData, options).Ok? && options.ymin == 0.0 && options.ymax == 0.0
    ensures var w, k := Ranges(plotData, options).value, Count(options.nfiles);
      && w.yMin <= 0.0 <= w.yMax
      && (forall d, i :: 0 <= d < k && 0 <= i < |plotData[d]| ==> w.yMin <= plotData[d][i].value <= w.yMax)
      && ((exists d, i :: 0 <= d < k && 0 <= i < |plotData[d]| && plotData[d][i].value != 0.0) ==>
            forall d, i :: 0 <= d < k && 0 <= i < |plotData[d]| ==> w.yMin < plotData[d][i].value < w.yMax)
      && ((forall d, i :: 0 <= d < k && 0 <= i < |plotData[d]| ==> plotData[d][i].value == 0.0) ==>
            w.yMin == 0.0 && w.yMax == 0.0)
  {
    var k := Count(options.nfiles);
    var vs := AllValues(plotData, k);
    TopBounds(vs);
    BottomBounds(vs);
    forall d, i | 0 <= d < k && 0 <= i < |plotData[d]|
      ensures Bottom(vs) <= plotData[d][i].value <= Top(vs)
    {
      AllValuesCover(plotData, k, d, i);
    }
    if exists d, i :: 0 <= d < k && 0 <= i < |plotData[d]| && plotData[d][i].value != 0.0 {
      var d, i :| 0 <= d < k && 0 <= i < |plotData[d]| && plotData[d][i].value != 0.0;
      assert Top(vs) - Bottom(vs) > 0.0;
    }
    if forall d, i :: 0 <= d < k && 0 <= i < |plotData[d]| ==> plotData[d][i].value == 0.0 {
      AllZero(plotData, k);
    }
  }

  lemma {:induction false} AllZero(plotData: seq<seq<State>>, k: nat)
    requires k <= |plotData|
    requires forall d, i :: 0 <= d < k && 0 <= i < |plotData[d]| ==> plotData[d][i].value == 0.0
    ensures Top(AllValues(plotData, k)) == 0.0 && Bottom(AllValues(plotData, k)) == 0.0
  {
    var vs := AllValues(plotData, k);
    TopBounds(vs);
    BottomBounds(vs);
    forall j | 0 <= j < |vs| ensures vs[j] == 0.0 {
      ValueOrigin(plotData, k, j);
    }
  }

  /** Every value the loop visits is the energy of some state of the first `k` datasets. */
  lemma {:induction false} ValueOrigin(plotData: seq<seq<State>>, k: nat, j: nat)
    requires k <= |plotData| && j < |AllValues(plotData, k)|
    ensures exists d, i :: 0 <= d < k && 0 <= i < |plotData[d]| && AllValues(plotData, k)[j] == plotData[d][i].value
  {
    var before := AllValues(plotData, k - 1);
    if j < |before| {
      ValueOrigin(plotData, k - 1, j);
    } else {
      var i := j - |before|;
      assert AllValues(plotData, k)[j] == plotData[k - 1][i].value;
    }
  }

  /** Any other pair of limits in the options is the y-range as given. */
  lemma FixedYRange(plotData: seq<seq<State>>, options: UtilsIo.Options)
    requires Ranges(plotData, options).Ok? && !(options.ymin == 0.0 && options.ymax == 0.0)
    ensures Ranges(plotData, options).value.yMin == options.ymin
    ensures Ranges(plotData, options).value.yMax == options.ymax
  {
  }
}
