/// The data both layout variants share: the typed states of one dataset, the
/// drawing primitives the layout emits (one per `plt.plot` / `plt.text` call),
/// and the horizontal bookkeeping of the cursor walk.
module Diagram {
  import opened Py

  /** The kind column of a state file: "IM", "TS", "dashed", or any other word. */
  datatype Kind = IM | TS | Dashed | Other(tag: string)

  predicate WellFormed(k: Kind) {
    k.Other? ==> k.tag != "IM" && k.tag != "TS" && k.tag != "dashed"
  }

  function TagOf(k: Kind): string {
    match k
    case IM => "IM"
    case TS => "TS"
    case Dashed => "dashed"
    case Other(t) => t
  }

  /** The kind a tag stands for; the layout compares tags by string equality. */
  function KindOf(tag: string): (k: Kind)
    ensures WellFormed(k) && TagOf(k) == tag
  {
    if tag == "IM" then IM
    else if tag == "TS" then TS
    else if tag == "dashed" then Dashed
    else Other(tag)
  }

  /** One row of a state file: length, kind, label and energy. */
  datatype State = State(length: int, kind: Kind, name: string, value: real)

  /** The rows held by the four parallel lists of a `States` object. */
  function StatesOf(labels: seq<string>, kinds: seq<string>, lengths: seq<int>, values: seq<real>): (r: seq<State>)
    requires |labels| == |kinds| == |lengths| == |values|
    ensures |r| == |labels|
    ensures forall i :: 0 <= i < |r| ==> r[i] == State(lengths[i], KindOf(kinds[i]), labels[i], values[i])
  {
    if labels == [] then []
    else [State(lengths[0], KindOf(kinds[0]), labels[0], values[0])]
         + StatesOf(labels[1..], kinds[1..], lengths[1..], values[1..])
  }

  /** Appending one entry to each of the four lists appends exactly one state. */
  lemma StatesOfAppend(labels: seq<string>, kinds: seq<string>, lengths: seq<int>, values: seq<real>,
                       name: string, kind: string, length: int, value: real)
    requires |labels| == |kinds| == |lengths| == |values|
    ensures StatesOf(labels + [name], kinds + [kind], lengths + [length], values + [value])
         == StatesOf(labels, kinds, lengths, values) + [State(length, KindOf(kind), name, value)]
  {
    var r := StatesOf(labels + [name], kinds + [kind], lengths + [length], values + [value]);
    var s := StatesOf(labels, kinds, lengths, values) + [State(length, KindOf(kind), name, value)];
    assert |r| == |s|;
    forall i | 0 <= i < |r| ensures r[i] == s[i] {
      if i < |labels| {
        assert (labels + [name])[i] == labels[i];
      }
    }
  }

  datatype LineStyle = Solid | Dotted

  /** One call of the renderer. A `Text` is drawn left-aligned and rotated by 90 degrees. */
  datatype Primitive =
    | Segment(x0: real, x1: real, y0: real, y1: real, style: LineStyle, color: string)
    | Curve(xs: seq<real>, ys: seq<real>, color: string)
    | Text(x: real, y: real, text: string, color: string, fontsize: real)

  /** The state of a layout walk: the cursor, what has been drawn and the warnings printed. */
  datatype Drawing = Drawing(cursor: int, prims: seq<Primitive>, warnings: seq<string>)

  /** `option_data["colors"][num_plot]`, looked up at every drawing call. */
  function ColorAt(colors: seq<string>, numPlot: nat): (c: Option<string>)
    ensures c.Some? <==> numPlot < |colors|
    ensures c.Some? ==> c.value == colors[numPlot]
  {
    if numPlot < |colors| then Some(colors[numPlot]) else None
  }

  /** The sum of the lengths of `states`. */
  function SumLengths(states: seq<State>): int {
    if states == [] then 0 else SumLengths(states[..|states| - 1]) + states[|states| - 1].length
  }

  /** State `i` is an intermediate that directly follows an intermediate. */
  predicate ImAfterIm(states: seq<State>, i: nat)
    requires i < |states|
  {
    i > 0 && states[i].kind == IM && states[i - 1].kind == IM
  }

  /** The number of indices `i > 0` with `states[i]` and `states[i-1]` both intermediates. */
  function ImImPairs(states: seq<State>): nat {
    if states == [] then 0
    else ImImPairs(states[..|states| - 1]) + (if ImAfterIm(states, |states| - 1) then 1 else 0)
  }

  lemma PrefixStep(states: seq<State>, i: nat)
    requires i < |states|
    ensures SumLengths(states[..i + 1]) == SumLengths(states[..i]) + states[i].length
    ensures ImImPairs(states[..i + 1]) == ImImPairs(states[..i]) + (if ImAfterIm(states, i) then 1 else 0)
  {
    assert states[..i + 1][..i] == states[..i];
  }
}
