/// The layout engine of utils_plot.py: the `States` container, `plot_lines`
/// (a cursor walk that draws one primitive per intermediate, dashed link and
/// transition state and checks the neighbours of the last two) and
/// `plot_labels` (the same walk placing one rotated label per non-dashed
/// state). Each walk is a method with the loop of the source, proved equal to
/// a fold over the states; the lemmas state what the fold draws and when it
/// stops with an exception.
module UtilsPlot {
  import opened Py
  import opened Diagram
  import opened Parabola
  import UtilsIo

  /** The four parallel lists of one dataset, filled one entry at a time. */
  class States {
    var labels: seq<string>
    var kinds: seq<string>
    var lengths: seq<int>
    var values: seq<real>

    constructor ()
      ensures labels == [] && kinds == [] && lengths == [] && values == []
    {
      labels, kinds, lengths, values := [], [], [], [];
    }

    method AddLabel(name: string)
      modifies this
      ensures labels == old(labels) + [name]
      ensures kinds == old(kinds) && lengths == old(lengths) && values == old(values)
    {
      labels := labels + [name];
    }

    method AddKind(kind: string)
      modifies this
      ensures kinds == old(kinds) + [kind]
      ensures labels == old(labels) && lengths == old(lengths) && values == old(values)
    {
      kinds := kinds + [kind];
    }

    method AddLength(length: int)
      modifies this
      ensures lengths == old(lengths) + [length]
      ensures labels == old(labels) && kinds == old(kinds) && values == old(values)
    {
      lengths := lengths + [length];
    }

    method AddValue(value: real)
      modifies this
      ensures values == old(values) + [value]
      ensures labels == old(labels) && kinds == old(kinds) && lengths == old(lengths)
    {
      values := values + [value];
    }

    /** All four lists have one entry per state. */
    predicate Parallel()
      reads this
    {
      |labels| == |kinds| == |lengths| == |values|
    }

    /** The states the lists describe. */
    function Rows(): (r: seq<State>)
      reads this
      requires Parallel()
      ensures |r| == |labels|
    {
      StatesOf(labels, kinds, lengths, values)
    }

    /** The body of the reading loop of `read_infiles`: one line of a state file
        adds its length, kind, label and value, in that order, which adds one state. */
    method AddRow(length: int, kind: string, name: string, value: real)
      modifies this
      requires Parallel()
      ensures Parallel()
      ensures Rows() == old(Rows()) + [State(length, KindOf(kind), name, value)]
    {
      StatesOfAppend(labels, kinds, lengths, values, name, kind, length, value);
      AddLength(length);
      AddKind(kind);
      AddLabel(name);
      AddValue(value);
    }
  }

  // ---------------------------------------------------------------------------
  // plot_lines

  /** The neighbour rules of `plot_lines` for state `i`: a transition state needs an
      intermediate on both sides, a dashed link on at least one side, and both
      need a state on each side. */
  predicate Accepted(states: seq<State>, i: nat)
    requires i < |states|
  {
    match states[i].kind
    case TS => 0 < i < |states| - 1 && states[i - 1].kind == IM && states[i + 1].kind == IM
    case Dashed => 0 < i < |states| - 1 && (states[i - 1].kind == IM || states[i + 1].kind == IM)
    case _ => true
  }

  /** The kinds `plot_lines` draws something for. */
  predicate Draws(k: Kind) { !k.Other? }

  /** A transition state whose energy is below one of its neighbours'. */
  predicate Low(states: seq<State>, i: nat)
    requires 0 < i < |states| - 1
  {
    states[i].value < states[i + 1].value || states[i].value < states[i - 1].value
  }

  /** What `plot_lines` does with state `i` when the cursor stands at `d.cursor`:
      it advances the cursor by the state's length and draws, or raises. */
  function LineStep(states: seq<State>, i: nat, d: Drawing, color: Option<string>): Result<Drawing>
    requires i < |states|
  {
    var s := states[i];
    var xStart := d.cursor;
    var xEnd := xStart + s.length;
    var moved := d.(cursor := xEnd);
    match s.kind
    case IM =>
      if color.None? then Err(IndexError)
      else Ok(moved.(prims := d.prims + [Segment(xStart as real, xEnd as real, s.value, s.value, Solid, color.value)]))
    case Dashed =>
      if i == 0 then Err(ValueError)
      else if i + 1 == |states| then Err(IndexError)
      else if states[i - 1].kind != IM && states[i + 1].kind != IM then Err(ValueError)
      else if color.None? then Err(IndexError)
      else
        var seg := Segment(xStart as real, xEnd as real, states[i - 1].value, states[i + 1].value, Dotted, color.value);
        Ok(moved.(prims := d.prims + [seg]))
    case TS =>
      if i == 0 then Err(ValueError)
      else if i + 1 == |states| then Err(IndexError)
      else if states[i - 1].kind != IM || states[i + 1].kind != IM then Err(ValueError)
      else if color.None? then Err(IndexError)
      else
        var p := DefineParabola(xStart, xEnd, states[i - 1].value, s.value, states[i + 1].value);
        var warned := if Low(states, i) then [s.name] else [];
        Ok(Drawing(xEnd, d.prims + [Curve(p.0, p.1, color.value)], d.warnings + warned))
    case Other(_) => Ok(moved)
  }

  /** The walk of `plot_lines` over the first `n` states, starting at `offset`. */
  function Lines(states: seq<State>, offset: int, color: Option<string>, n: nat): Result<Drawing>
    requires n <= |states|
  {
    if n == 0 then Ok(Drawing(offset, [], []))
    else
      var d :- Lines(states, offset, color, n - 1);
      LineStep(states, n - 1, d, color)
  }

  /** `plot_lines(element_plot_data, option_data, num_plot)`: the offset and the
      color are those of dataset `numPlot`. */
  function LinesOf(states: seq<State>, options: UtilsIo.Options, numPlot: nat): Result<Drawing> {
    if numPlot >= |options.offset| then Err(IndexError)
    else Lines(states, options.offset[numPlot], ColorAt(options.colors, numPlot), |states|)
  }

  method PlotLines(states: seq<State>, options: UtilsIo.Options, numPlot: nat) returns (r: Result<Drawing>)
    ensures r == LinesOf(states, options, numPlot)
  {
    var numStates := |states|;
    if numPlot >= |options.offset| {
      return Err(IndexError);
    }
    var offset := options.offset[numPlot];
    var color := ColorAt(options.colors, numPlot);
    var counter := offset;
    var prims: seq<Primitive> := [];
    var warnings: seq<string> := [];
    var i := 0;
    while i < numStates
      invariant 0 <= i <= numStates
      invariant Lines(states, offset, color, i) == Ok(Drawing(counter, prims, warnings))
    {
      ghost var d := Drawing(counter, prims, warnings);
      assert Lines(states, offset, color, i + 1) == LineStep(states, i, d, color);
      var xStart := counter;
      counter := counter + states[i].length;
      var xEnd := counter;
      var value := states[i].value;
      var kind := states[i].kind;
      if kind == IM {
        if numPlot >= |options.colors| {
          LinesStop(states, offset, color, i + 1, numStates);
          return Err(IndexError);
        }
        prims := prims + [Segment(xStart as real, xEnd as real, value, value, Solid, options.colors[numPlot])];
      }
      if kind == Dashed {
        if i == 0 {
          LinesStop(states, offset, color, i + 1, numStates);
          return Err(ValueError);
        }
        var previousKind := states[i - 1].kind;
        var previousValue := states[i - 1].value;
        // The guard `i + 1 <= num_states` always holds: at the last state it is
        // the lookup of the next kind that fails.
        if i + 1 == numStates {
          LinesStop(states, offset, color, i + 1, numStates);
          return Err(IndexError);
        }
        var nextKind := states[i + 1].kind;
        var nextValue := states[i + 1].value;
        if previousKind != IM && nextKind != IM {
          LinesStop(states, offset, color, i + 1, numStates);
          return Err(ValueError);
        }
        if numPlot >= |options.colors| {
          LinesStop(states, offset, color, i + 1, numStates);
          return Err(IndexError);
        }
        prims := prims + [Segment(xStart as real, xEnd as real, previousValue, nextValue, Dotted, options.colors[numPlot])];
      }
      if kind == TS {
        if i >= 1 {
          var previousKind := states[i - 1].kind;
          if i + 1 == numStates {
            LinesStop(states, offset, color, i + 1, numStates);
            return Err(IndexError);
          }
          var nextKind := states[i + 1].kind;
          if previousKind != IM || nextKind != IM {
            LinesStop(states, offset, color, i + 1, numStates);
            return Err(ValueError);
          }
        } else {
          LinesStop(states, offset, color, i + 1, numStates);
          return Err(ValueError);
        }
        var previousValue := states[i - 1].value;
        var nextValue := states[i + 1].value;
        if value < nextValue || value < previousValue {
          warnings := warnings + [states[i].name];
        }
        var parabola := DefineParabola(xStart, xEnd, previousValue, value, nextValue);
        // the intermediate before it was drawn in this dataset's color
        DrawnHasColor(states, offset, color, i);
        assert numPlot < |options.colors|;
        prims := prims + [Curve(parabola.0, parabola.1, options.colors[numPlot])];
        assert d.warnings + [] == d.warnings;
      }
      i := i + 1;
    }
    return Ok(Drawing(counter, prims, warnings));
  }

  /** A walk that drew an intermediate had a color to draw it in. */
  lemma DrawnHasColor(states: seq<State>, offset: int, color: Option<string>, n: nat)
    requires 0 < n <= |states| && states[n - 1].kind == IM && Lines(states, offset, color, n).Ok?
    ensures color.Some?
  {
  }

  /** An exception ends the walk: once a prefix raises, the whole walk raises the same. */
  lemma {:induction false} LinesStop(states: seq<State>, offset: int, color: Option<string>, i: nat, n: nat)
    requires i <= n <= |states| && Lines(states, offset, color, i).Err?
    ensures Lines(states, offset, color, n) == Lines(states, offset, color, i)
    decreases n
  {
    if i < n {
      LinesStop(states, offset, color, i, n - 1);
    }
  }

  /** The walk succeeds exactly when every state obeys the neighbour rules and,
      if anything is drawn, dataset `num_plot` has a color. */
  lemma {:induction false} LinesSucceed(states: seq<State>, offset: int, color: Option<string>, n: nat)
    requires n <= |states|
    ensures Lines(states, offset, color, n).Ok? <==>
      && (forall i :: 0 <= i < n ==> Accepted(states, i))
      && (color.Some? || forall i :: 0 <= i < n ==> !Draws(states[i].kind))
  {
    if n > 0 {
      LinesSucceed(states, offset, color, n - 1);
      var before := Lines(states, offset, color, n - 1);
      if before.Ok? {
        StepSucceeds(states, n - 1, before.value, color);
      }
    }
  }

  lemma StepSucceeds(states: seq<State>, i: nat, d: Drawing, color: Option<string>)
    requires i < |states|
    ensures LineStep(states, i, d, color).Ok? <==> Accepted(states, i) && (color.Some? || !Draws(states[i].kind))
  {
  }

  /** The cursor starts at the offset and advances by exactly each state's length,
      with no gap; one primitive is drawn per intermediate, dashed link and
      transition state, and one warning per low transition state. */
  lemma {:induction false} LinesCursor(states: seq<State>, offset: int, color: Option<string>, n: nat)
    requires n <= |states| && Lines(states, offset, color, n).Ok?
    ensures Lines(states, offset, color, n).value.cursor == offset + SumLengths(states[..n])
    ensures |Lines(states, offset, color, n).value.prims| == Drawn(states, n)
  {
    if n > 0 {
      LinesCursor(states, offset, color, n - 1);
      PrefixStep(states, n - 1);
    }
  }

  /** The number of intermediates, dashed links and transition states among the first `n` states. */
  function Drawn(states: seq<State>, n: nat): nat
    requires n <= |states|
  {
    if n == 0 then 0 else Drawn(states, n - 1) + (if Draws(states[n - 1].kind) then 1 else 0)
  }

  /** What state `i` adds to the drawing, at the span `[offset + sum of the earlier
      lengths, that + lengths[i]]`: a solid segment at its energy for an
      intermediate, a dotted segment from the previous to the next energy for a
      dashed link, the parabola through the previous energy, its own and the next
      for a transition state, and nothing for any other kind. */
  lemma LineShapes(states: seq<State>, offset: int, c: string, i: nat)
    requires i < |states| && Lines(states, offset, Some(c), i + 1).Ok?
    ensures Lines(states, offset, Some(c), i).Ok?
    ensures
      var before := Lines(states, offset, Some(c), i).value.prims;
      var after := Lines(states, offset, Some(c), i + 1).value.prims;
      var x0 := offset + SumLengths(states[..i]);
      var x1 := x0 + states[i].length;
      var v := states[i].value;
      match states[i].kind
      case IM => after == before + [Segment(x0 as real, x1 as real, v, v, Solid, c)]
      case Dashed =>
        0 < i < |states| - 1
        && after == before + [Segment(x0 as real, x1 as real, states[i - 1].value, states[i + 1].value, Dotted, c)]
      case TS =>
        0 < i < |states| - 1
        && var p := DefineParabola(x0, x1, states[i - 1].value, v, states[i + 1].value);
        after == before + [Curve(p.0, p.1, c)]
      case Other(_) => after == before
  {
    LinesCursor(states, offset, Some(c), i);
  }

  /** A transition state below a neighbour is only reported: its label is added to
      the warnings and its parabola is drawn all the same. */
  lemma LowTransitionWarns(states: seq<State>, offset: int, c: string, i: nat)
    requires i < |states| && states[i].kind == TS && Lines(states, offset, Some(c), i + 1).Ok?
    ensures 0 < i < |states| - 1
    ensures Lines(states, offset, Some(c), i + 1).value.warnings ==
      Lines(states, offset, Some(c), i).value.warnings + (if Low(states, i) then [states[i].name] else [])
  {
  }

  /** A transition state or dashed link at index 0 raises ValueError. */
  lemma FirstStateUnembedded(states: seq<State>, offset: int, color: Option<string>)
    requires |states| > 0 && states[0].kind in {TS, Dashed}
    ensures Lines(states, offset, color, |states|) == Err(ValueError)
  {
    LinesStop(states, offset, color, 1, |states|);
  }

  /** A transition state or dashed link at the last index (after an accepted
      prefix) fails on the lookup of the next kind. */
  lemma LastStateUnembedded(states: seq<State>, offset: int, color: Option<string>)
    requires |states| > 1 && states[|states| - 1].kind in {TS, Dashed}
    requires Lines(states, offset, color, |states| - 1).Ok?
    ensures Lines(states, offset, color, |states|) == Err(IndexError)
  {
  }

  /** Between two states, a transition state raises ValueError unless both
      neighbours are intermediates, while a dashed link raises ValueError only when
      neither is. */
  lemma NeighbourRules(states: seq<State>, offset: int, c: string, i: nat)
    requires 0 < i < |states| - 1 && states[i].kind in {TS, Dashed}
    requires Lines(states, offset, Some(c), i).Ok?
    ensures Lines(states, offset, Some(c), i + 1).Err? <==>
      if states[i].kind == TS then states[i - 1].kind != IM || states[i + 1].kind != IM
      else states[i - 1].kind != IM && states[i + 1].kind != IM
    ensures Lines(states, offset, Some(c), i + 1).Err? ==> Lines(states, offset, Some(c), |states|) == Err(ValueError)
  {
    if Lines(states, offset, Some(c), i + 1).Err? {
      LinesStop(states, offset, Some(c), i + 1, |states|);
    }
  }

  /** `plot_lines` draws no text. */
  lemma {:induction false} LinesDrawNoText(states: seq<State>, offset: int, color: Option<string>, n: nat)
    requires n <= |states| && Lines(states, offset, color, n).Ok?
    ensures forall p :: p in Lines(states, offset, color, n).value.prims ==> !p.Text?
  {
    if n > 0 {
      LinesDrawNoText(states, offset, color, n - 1);
    }
  }

  // ---------------------------------------------------------------------------
  // plot_labels

  /** The height a label is anchored at, before the shift: the state's energy,
      except for a transition state below a neighbour, which is lifted to 0.01
      above the higher neighbour. `values[i - 1]` at index 0 is the last value;
      `values[i + 1]` at the last index raises. */
  function LabelBase(states: seq<State>, i: nat): Result<real>
    requires i < |states|
  {
    var v := states[i].value;
    if states[i].kind != TS then Ok(v)
    else
      var previous := PyIndex(states, i - 1).value.value;
      if i + 1 == |states| then Err(IndexError)
      else
        var next := states[i + 1].value;
        if previous > v || next > v then Ok(Max(previous, next) + Epsilon) else Ok(v)
  }

  /** What `plot_labels` does with state `i`: advance the cursor and, unless the
      state is a dashed link, write its label at the middle of its span. */
  function LabelStep(states: seq<State>, i: nat, d: Drawing, shift: real, color: Option<string>, fontsize: real): Result<Drawing>
    requires i < |states|
  {
    var s := states[i];
    var xStart := d.cursor;
    var xEnd := xStart + s.length;
    var moved := d.(cursor := xEnd);
    if s.kind == Dashed then Ok(moved)
    else
      var xMid := (xEnd + xStart) as real / 2.0;
      var value :- LabelBase(states, i);
      if color.None? then Err(IndexError)
      else Ok(moved.(prims := d.prims + [Text(xMid, value + shift, s.name, color.value, fontsize)]))
  }

  function Labels(states: seq<State>, offset: int, shift: real, color: Option<string>, fontsize: real, n: nat): Result<Drawing>
    requires n <= |states|
  {
    if n == 0 then Ok(Drawing(offset, [], []))
    else
      var d :- Labels(states, offset, shift, color, fontsize, n - 1);
      LabelStep(states, n - 1, d, shift, color, fontsize)
  }

  /** The vertical distance between a state and its label: a fiftieth of the y-range. */
  function LabelShift(yRange: (real, real)): real {
    (yRange.1 - yRange.0) / 50.0
  }

  /** `plot_labels(element_plot_data, option_data, num_plot, y_range)`. */
  function LabelsOf(states: seq<State>, options: UtilsIo.Options, numPlot: nat, yRange: (real, real)): Result<Drawing> {
    if numPlot >= |options.offset| then Err(IndexError)
    else Labels(states, options.offset[numPlot], LabelShift(yRange), ColorAt(options.colors, numPlot), options.fontsize, |states|)
  }

  method PlotLabels(states: seq<State>, options: UtilsIo.Options, numPlot: nat, yRange: (real, real)) returns (r: Result<Drawing>)
    ensures r == LabelsOf(states, options, numPlot, yRange)
  {
    var labelShift := (yRange.1 - yRange.0) / 50.0;
    if numPlot >= |options.offset| {
      return Err(IndexError);
    }
    var offset := options.offset[numPlot];
    var color := ColorAt(options.colors, numPlot);
    var counter := offset;
    var prims: seq<Primitive> := [];
    var i := 0;
    while i < |states|
      invariant 0 <= i <= |states|
      invariant Labels(states, offset, labelShift, color, options.fontsize, i) == Ok(Drawing(counter, prims, []))
    {
      var xStart := counter;
      counter := counter + states[i].length;
      if states[i].kind == Dashed {
        i := i + 1;
        continue;
      }
      var xEnd := counter;
      var xMid := (xEnd + xStart) as real / 2.0;
      var value := states[i].value;
      if states[i].kind == TS {
        var previous := PyIndex(states, i - 1).value.value;
        if i + 1 == |states| {
          LabelsStop(states, offset, labelShift, color, options.fontsize, i + 1, |states|);
          return Err(IndexError);
        }
        var next := states[i + 1].value;
        if previous > value || next > value {
          value := Max(previous, next) + 0.01;
        }
      }
      var yShifted := value + labelShift;
      if numPlot >= |options.colors| {
        LabelsStop(states, offset, labelShift, color, options.fontsize, i + 1, |states|);
        return Err(IndexError);
      }
      prims := prims + [Text(xMid, yShifted, states[i].name, options.colors[numPlot], options.fontsize)];
      i := i + 1;
    }
    return Ok(Drawing(counter, prims, []));
  }

  lemma {:induction false} LabelsStop(states: seq<State>, offset: int, shift: real, color: Option<string>, fontsize: real, i: nat, n: nat)
    requires i <= n <= |states| && Labels(states, offset, shift, color, fontsize, i).Err?
    ensures Labels(states, offset, shift, color, fontsize, n) == Labels(states, offset, shift, color, fontsize, i)
    decreases n
  {
    if i < n {
      LabelsStop(states, offset, shift, color, fontsize, i, n - 1);
    }
  }

  /** Labelling fails only on a transition state in the last place or on a
      missing color for a dataset with something to label. */
  lemma {:induction false} LabelsSucceed(states: seq<State>, offset: int, shift: real, color: Option<string>, fontsize: real, n: nat)
    requires n <= |states|
    ensures Labels(states, offset, shift, color, fontsize, n).Ok? <==>
      && (forall i :: 0 <= i < n && states[i].kind == TS ==> i + 1 < |states|)
      && (color.Some? || forall i :: 0 <= i < n ==> states[i].kind == Dashed)
  {
    if n > 0 {
      LabelsSucceed(states, offset, shift, color, fontsize, n - 1);
    }
  }

  /** Every dataset `plot_lines` accepts can be labelled with its color. */
  lemma LabelsAfterLines(states: seq<State>, offset: int, shift: real, c: string, fontsize: real)
    requires Lines(states, offset, Some(c), |states|).Ok?
    ensures Labels(states, offset, shift, Some(c), fontsize, |states|).Ok?
  {
    LinesSucceed(states, offset, Some(c), |states|);
    LabelsSucceed(states, offset, shift, Some(c), fontsize, |states|);
    forall i | 0 <= i < |states| && states[i].kind == TS ensures i + 1 < |states| {
      assert Accepted(states, i);
    }
  }

  /** The cursor of `plot_labels` advances over every state, dashed ones included,
      and one label is written per state that is not a dashed link. */
  lemma {:induction false} LabelsCursor(states: seq<State>, offset: int, shift: real, color: Option<string>, fontsize: real, n: nat)
    requires n <= |states| && Labels(states, offset, shift, color, fontsize, n).Ok?
    ensures Labels(states, offset, shift, color, fontsize, n).value.cursor == offset + SumLengths(states[..n])
    ensures |Labels(states, offset, shift, color, fontsize, n).value.prims| == Labelled(states, n)
  {
    if n > 0 {
      LabelsCursor(states, offset, shift, color, fontsize, n - 1);
      PrefixStep(states, n - 1);
    }
  }

  /** The number of states other than dashed links among the first `n`. */
  function Labelled(states: seq<State>, n: nat): nat
    requires n <= |states|
  {
    if n == 0 then 0 else Labelled(states, n - 1) + (if states[n - 1].kind != Dashed then 1 else 0)
  }

  /** The label of state `i` is its own name, written at the middle of its span
      and a fiftieth of the y-range above its anchor height. */
  lemma LabelPlacement(states: seq<State>, offset: int, shift: real, c: string, fontsize: real, i: nat)
    requires i < |states| && states[i].kind != Dashed
    requires Labels(states, offset, shift, Some(c), fontsize, i + 1).Ok?
    ensures Labels(states, offset, shift, Some(c), fontsize, i).Ok? && LabelBase(states, i).Ok?
    ensures
      var x0 := offset + SumLengths(states[..i]);
      Labels(states, offset, shift, Some(c), fontsize, i + 1).value.prims ==
        Labels(states, offset, shift, Some(c), fontsize, i).value.prims
        + [Text(x0 as real + states[i].length as real / 2.0, LabelBase(states, i).value + shift, states[i].name, c, fontsize)]
  {
    LabelsCursor(states, offset, shift, Some(c), fontsize, i);
  }

  /** The anchor height is never below the state's energy. For anything but a
      transition state it is that energy; for a transition state it is at least
      both neighbours' energies (the previous one being the last state's at
      index 0), and it differs from the state's own energy exactly when that is
      below a neighbour's, in which case it is 0.01 above the higher neighbour. */
  lemma LabelBaseBounds(states: seq<State>, i: nat)
    requires i < |states| && LabelBase(states, i).Ok?
    ensures var b, v := LabelBase(states, i).value, states[i].value;
      && b >= v
      && (states[i].kind != TS ==> b == v)
      && (states[i].kind == TS ==>
            var previous := if i == 0 then states[|states| - 1].value else states[i - 1].value;
            var next := states[i + 1].value;
            && b >= previous && b >= next
            && (b != v <==> previous > v || next > v)
            && (b != v ==> b == Max(previous, next) + Epsilon))
  {
  }

  /** For an embedded transition state the label anchor and the apex of its
      parabola are at most 0.01 apart, the anchor being the lower: they coincide
      when the state is below a neighbour. */
  lemma LabelNearApex(states: seq<State>, i: nat)
    requires 0 < i < |states| - 1 && states[i].kind == TS
    ensures LabelBase(states, i).Ok?
    ensures var b := LabelBase(states, i).value;
      var apex := Apex(states[i - 1].value, states[i].value, states[i + 1].value);
      && b <= apex <= b + Epsilon
      && (Low(states, i) ==> b == apex)
  {
  }
}
