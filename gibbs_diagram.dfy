/// The older layout of utils/gibbs_diagram.py. Its `States` converts the length
/// and the energy text itself, and its `plot_lines` differs from the current one:
/// an intermediate right after an intermediate is joined to it by a one-unit
/// dotted connector and pushes the rest of the walk one unit to the right,
/// dashed links are not drawn, and a transition state that is not embedded
/// between two intermediates ends the program (`exit()`) instead of raising.
/// The previous state of index 0 is Python's `kinds[-1]`, the last state.
module GibbsDiagram {
  import opened Py
  import opened Diagram
  import opened Parabola
  import General
  import UtilsPlot
  import FigureRanges

  /** The four parallel lists of one dataset; lengths and energies arrive as text. */
  class States {
    var labels: seq<string>
    var kinds: seq<string>
    var lengths: seq<int>
    var values: seq<real>

    constructor ()
      ensures labels == [] && kinds == [] && lengths == [] && values == []
    {
      labels, kinds, lengths, values := [], [], [], [];
    }

    method AddLabel(name: string)
      modifies this
      ensures labels == old(labels) + [name]
      ensures kinds == old(kinds) && lengths == old(lengths) && values == old(values)
    {
      labels := labels + [name];
    }

    method AddKind(kind: string)
      modifies this
      ensures kinds == old(kinds) + [kind]
      ensures labels == old(labels) && lengths == old(lengths) && values == old(values)
    {
      kinds := kinds + [kind];
    }

    /** `self.lengths.append(int(length))`: a token `int()` rejects raises and adds nothing. */
    method AddLength(length: string) returns (err: Option<Error>)
      modifies this
      ensures ParseInt(length).Some? ==> err == None && lengths == old(lengths) + [ParseInt(length).value]
      ensures ParseInt(length).None? ==> err == Some(ValueError) && lengths == old(lengths)
      ensures labels == old(labels) && kinds == old(kinds) && values == old(values)
    {
      var n := ParseInt(length);
      if n.None? {
        return Some(ValueError);
      }
      lengths := lengths + [n.value];
      err := None;
    }

    /** `self.values.append(float(value))`: a token `float()` rejects raises and adds nothing. */
    method AddValue(value: string) returns (err: Option<Error>)
      modifies this
      ensures ParseFloat(value).Some? ==> err == None && values == old(values) + [ParseFloat(value).value]
      ensures ParseFloat(value).None? ==> err == Some(ValueError) && values == old(values)
      ensures labels == old(labels) && kinds == old(kinds) && lengths == old(lengths)
    {
      var x := ParseFloat(value);
      if x.None? {
        return Some(ValueError);
      }
      values := values + [x.value];
      err := None;
    }

    predicate Parallel()
      reads this
    {
      |labels| == |kinds| == |lengths| == |values|
    }

    function Rows(): (r: seq<State>)
      reads this
      requires Parallel()
      ensures |r| == |labels|
    {
      StatesOf(labels, kinds, lengths, values)
    }

    /** One line of a state file, in the order of `read_infiles`: length, kind, label,
        energy. A bad length adds nothing; a bad energy leaves the first three lists one
        entry longer than the last; otherwise exactly one state is added. */
    method AddRow(length: string, kind: string, name: string, value: string) returns (err: Option<Error>)
      modifies this
      requires Parallel()
      ensures ParseInt(length).None? ==>
        err == Some(ValueError) && labels == old(labels) && kinds == old(kinds)
        && lengths == old(lengths) && values == old(values)
      ensures ParseInt(length).Some? && ParseFloat(value).None? ==>
        && err == Some(ValueError) && lengths == old(lengths) + [ParseInt(length).value]
        && kinds == old(kinds) + [kind] && labels == old(labels) + [name] && values == old(values)
      ensures ParseInt(length).Some? && ParseFloat(value).Some? ==>
        && err == None && Parallel()
        && Rows() == old(Rows()) + [State(ParseInt(length).value, KindOf(kind), name, ParseFloat(value).value)]
    {
      err := AddLength(length);
      if err.Some? {
        return;
      }
      AddKind(kind);
      AddLabel(name);
      err := AddValue(value);
      if err.None? {
        StatesOfAppend(old(labels), old(kinds), old(lengths), old(values), name, kind, ParseInt(length).value, ParseFloat(value).value);
      }
    }
  }

  // ---------------------------------------------------------------------------
  // plot_lines

  /** The `try` block of a transition state succeeds: the previous kind (Python's
      `kinds[i - 1]`, the last one when `i == 0`) and the next kind exist and are
      both intermediates. */
  predicate Embedded(states: seq<State>, i: nat)
    requires i < |states|
  {
    i + 1 < |states| && PyIndex(states, i - 1).value.kind == IM && states[i + 1].kind == IM
  }

  /** The energy of the previous state, read with Python's negative indexing. */
  function Previous(states: seq<State>, i: nat): real
    requires i < |states|
  {
    PyIndex(states, i - 1).value.value
  }

  /** What `plot_lines` does with state `i` when the cursor stands at `d.cursor`. */
  function GibbsStep(states: seq<State>, i: nat, d: Drawing, color: Option<string>): Result<Drawing>
    requires i < |states|
  {
    var s := states[i];
    var xStart := d.cursor;
    var xEnd := xStart + s.length;
    match s.kind
    case IM =>
      if color.None? then Err(IndexError)
      else if ImAfterIm(states, i) then
        var link := Segment(xStart as real, (xStart + 1) as real, states[i - 1].value, s.value, Dotted, color.value);
        var flat := Segment((xStart + 1) as real, (xEnd + 1) as real, s.value, s.value, Solid, color.value);
        Ok(Drawing(xEnd + 1, d.prims + [link, flat], d.warnings))
      else Ok(Drawing(xEnd, d.prims + [Segment(xStart as real, xEnd as real, s.value, s.value, Solid, color.value)], d.warnings))
    case TS =>
      if !Embedded(states, i) then Err(SystemExit)
      else
        var previous, next := Previous(states, i), states[i + 1].value;
        var warned := if s.value < next || s.value < previous then [s.name] else [];
        if color.None? then Err(IndexError)
        else
          var p := DefineParabola(xStart, xEnd, previous, s.value, next);
          Ok(Drawing(xEnd, d.prims + [Curve(p.0, p.1, color.value)], d.warnings + warned))
    case Dashed => Ok(d.(cursor := xEnd))
    case Other(_) => Ok(d.(cursor := xEnd))
  }

  /** The walk over the first `n` states, starting at `offset`. */
  function GibbsLines(states: seq<State>, offset: int, color: Option<string>, n: nat): Result<Drawing>
    requires n <= |states|
  {
    if n == 0 then Ok(Drawing(offset, [], []))
    else
      var d :- GibbsLines(states, offset, color, n - 1);
      GibbsStep(states, n - 1, d, color)
  }

  /** `plot_lines(plot_data, option_data, num_plot)`. */
  function GibbsLinesOf(states: seq<State>, options: General.GeneralOptions, numPlot: nat): Result<Drawing> {
    if numPlot >= |options.offset| then Err(IndexError)
    else GibbsLines(states, options.offset[numPlot], ColorAt(options.colors, numPlot), |states|)
  }

  method PlotLines(states: seq<State>, options: General.GeneralOptions, numPlot: nat) returns (r: Result<Drawing>)
    ensures r == GibbsLinesOf(states, options, numPlot)
  {
    var numStates := |states|;
    if numPlot >= |options.offset| {
      return Err(IndexError);
    }
    var offset := options.offset[numPlot];
    var color := ColorAt(options.colors, numPlot);
    var counter := offset;
    var prims: seq<Primitive> := [];
    var warnings: seq<string> := [];
    var i := 0;
    while i < numStates
      invariant 0 <= i <= numStates
      invariant GibbsLines(states, offset, color, i) == Ok(Drawing(counter, prims, warnings))
    {
      ghost var d := Drawing(counter, prims, warnings);
      assert GibbsLines(states, offset, color, i + 1) == GibbsStep(states, i, d, color);
      var xStart := counter;
      counter := counter + states[i].length;
      var xEnd := counter;
      var value := states[i].value;
      var kind := states[i].kind;
      if kind == IM {
        if i > 0 {
          var previousKind := states[i - 1].kind;
          if previousKind == IM {
            var previousValue := states[i - 1].value;
            // the previous intermediate was drawn in this dataset's color
            DrawnHasColor(states, offset, color, i);
            assert numPlot < |options.colors|;
            var link := Segment(xStart as real, (xStart + 1) as real, previousValue, value, Dotted, options.colors[numPlot]);
            var flat := Segment((xStart + 1) as real, (xEnd + 1) as real, value, value, Solid, options.colors[numPlot]);
            assert d.prims + [link] + [flat] == d.prims + [link, flat];
            prims := prims + [link];
            xStart := xStart + 1;
            xEnd := xEnd + 1;
            counter := counter + 1;
          }
        }
        if numPlot >= |options.colors| {
          GibbsStops(states, offset, color, i + 1, numStates);
          return Err(IndexError);
        }
        prims := prims + [Segment(xStart as real, xEnd as real, value, value, Solid, options.colors[numPlot])];
      }
      if kind == TS {
        // The bare `except` turns both the missing next state and the rejected
        // neighbour kinds into a message and `exit()`.
        var previousKind := PyIndex(states, i - 1).value.kind;
        if i + 1 >= numStates || previousKind != IM || states[i + 1].kind != IM {
          GibbsStops(states, offset, color, i + 1, numStates);
          return Err(SystemExit);
        }
        var previousValue := PyIndex(states, i - 1).value.value;
        var nextValue := states[i + 1].value;
        if value < nextValue || value < previousValue {
          warnings := warnings + [states[i].name];
        }
        var parabola := DefineParabola(xStart, xEnd, previousValue, value, nextValue);
        if numPlot >= |options.colors| {
          GibbsStops(states, offset, color, i + 1, numStates);
          return Err(IndexError);
        }
        prims := prims + [Curve(parabola.0, parabola.1, options.colors[numPlot])];
        assert d.warnings + [] == d.warnings;
      }
      i := i + 1;
    }
    return Ok(Drawing(counter, prims, warnings));
  }

  // ---------------------------------------------------------------------------
  // Properties

  /** A walk that drew an intermediate had a color to draw it in. */
  lemma DrawnHasColor(states: seq<State>, offset: int, color: Option<string>, n: nat)
    requires 0 < n <= |states| && states[n - 1].kind == IM && GibbsLines(states, offset, color, n).Ok?
    ensures color.Some?
  {
  }

  /** Once a prefix of the walk fails, the whole walk fails the same way. */
  lemma {:induction false} GibbsStops(states: seq<State>, offset: int, color: Option<string>, i: nat, n: nat)
    requires i <= n <= |states| && GibbsLines(states, offset, color, i).Err?
    ensures GibbsLines(states, offset, color, n) == GibbsLines(states, offset, color, i)
  {
    if n > i {
      GibbsStops(states, offset, color, i, n - 1);
    }
  }

  /** The walk ends at the offset plus every length plus one unit per pair of
      adjacent intermediates. */
  lemma {:induction false} GibbsCursor(states: seq<State>, offset: int, color: Option<string>, n: nat)
    requires n <= |states| && GibbsLines(states, offset, color, n).Ok?
    ensures GibbsLines(states, offset, color, n).value.cursor
         == offset + SumLengths(states[..n]) + ImImPairs(states[..n])
  {
    if n > 0 {
      GibbsCursor(states, offset, color, n - 1);
      PrefixStep(states, n - 1);
    }
  }

  /** The per-dataset counter of `define_figure_ranges` is this walk's final cursor
      plus its two margin units. */
  lemma CursorMatchesExtent(states: seq<State>, offset: int, color: Option<string>)
    requires GibbsLines(states, offset, color, |states|).Ok?
    ensures GibbsLines(states, offset, color, |states|).value.cursor + 2 == FigureRanges.Extent(states, offset)
  {
    GibbsCursor(states, offset, color, |states|);
    assert states[..|states|] == states;
  }

  /** What state `i` adds to the drawing, at `x0`, the cursor after the states
      before it: an intermediate after an intermediate a dotted connector over one
      unit and its flat segment shifted by that unit, any other intermediate its flat
      segment, an embedded transition state the parabola to its neighbours'
      energies, and every other kind nothing. */
  lemma GibbsShapes(states: seq<State>, offset: int, c: string, i: nat)
    requires i < |states| && GibbsLines(states, offset, Some(c), i + 1).Ok?
    ensures GibbsLines(states, offset, Some(c), i).Ok?
    ensures
      var s := states[i];
      var x0 := offset + SumLengths(states[..i]) + ImImPairs(states[..i]);
      var before := GibbsLines(states, offset, Some(c), i).value.prims;
      var after := GibbsLines(states, offset, Some(c), i + 1).value.prims;
      match s.kind
      case IM =>
        if ImAfterIm(states, i) then
          after == before + [Segment(x0 as real, (x0 + 1) as real, states[i - 1].value, s.value, Dotted, c),
                             Segment((x0 + 1) as real, (x0 + 1 + s.length) as real, s.value, s.value, Solid, c)]
        else after == before + [Segment(x0 as real, (x0 + s.length) as real, s.value, s.value, Solid, c)]
      case TS =>
        var p := DefineParabola(x0, x0 + s.length, Previous(states, i), s.value, states[i + 1].value);
        Embedded(states, i) && after == before + [Curve(p.0, p.1, c)]
      case Dashed => after == before
      case Other(_) => after == before
  {
    GibbsCursor(states, offset, Some(c), i);
  }

  /** A transition state ends the program exactly when it is not embedded between two
      intermediates; an embedded one is always drawn. */
  lemma TransitionExits(states: seq<State>, offset: int, c: string, i: nat)
    requires i < |states| && states[i].kind == TS && GibbsLines(states, offset, Some(c), i).Ok?
    ensures GibbsLines(states, offset, Some(c), i + 1).Err? <==> !Embedded(states, i)
    ensures !Embedded(states, i) ==> GibbsLines(states, offset, Some(c), |states|) == Err(SystemExit)
  {
    if !Embedded(states, i) {
      GibbsStops(states, offset, Some(c), i + 1, |states|);
    }
  }

  /** A transition state below a neighbour is reported by name and still drawn. */
  lemma LowTransitionWarns(states: seq<State>, offset: int, c: string, i: nat)
    requires i < |states| && states[i].kind == TS && GibbsLines(states, offset, Some(c), i + 1).Ok?
    ensures i + 1 < |states|
    ensures var before, after := GibbsLines(states, offset, Some(c), i).value, GibbsLines(states, offset, Some(c), i + 1).value;
      && after.warnings == before.warnings
           + (if states[i].value < states[i + 1].value || states[i].value < Previous(states, i) then [states[i].name] else [])
      && |after.prims| == |before.prims| + 1
  {
  }

  /** A transition state first in the file takes the last state as its predecessor:
      with an intermediate last and one second it is drawn from the last state's energy. */
  lemma TransitionFirst(states: seq<State>, offset: int, c: string)
    requires |states| >= 2 && states[0].kind == TS && states[1].kind == IM && states[|states| - 1].kind == IM
    ensures GibbsLines(states, offset, Some(c), 1).Ok?
    ensures
      var p := DefineParabola(offset, offset + states[0].length, states[|states| - 1].value, states[0].value, states[1].value);
      GibbsLines(states, offset, Some(c), 1).value.prims == [Curve(p.0, p.1, c)]
  {
    assert GibbsLines(states, offset, Some(c), 0) == Ok(Drawing(offset, [], []));
  }

  /** The walk succeeds exactly when every transition state is embedded and, if the
      dataset has no color, nothing is drawn. */
  lemma {:induction false} GibbsSucceeds(states: seq<State>, offset: int, color: Option<string>, n: nat)
    requires n <= |states|
    ensures GibbsLines(states, offset, color, n).Ok? <==>
      forall i :: 0 <= i < n ==>
        (states[i].kind == TS ==> Embedded(states, i)) &&
        (color.None? ==> states[i].kind != IM && states[i].kind != TS)
  {
    if n > 0 {
      GibbsSucceeds(states, offset, color, n - 1);
    }
  }

  /** On a dataset with neither dashed links nor adjacent intermediates, the two
      layouts draw the same whenever the current one succeeds. */
  lemma {:induction false} VariantsAgree(states: seq<State>, offset: int, color: Option<string>, n: nat)
    requires n <= |states|
    requires forall i :: 0 <= i < n ==> states[i].kind != Dashed && !ImAfterIm(states, i)
    requires UtilsPlot.Lines(states, offset, color, n).Ok?
    ensures GibbsLines(states, offset, color, n) == UtilsPlot.Lines(states, offset, color, n)
  {
    if n > 0 {
      VariantsAgree(states, offset, color, n - 1);
    }
  }
}
