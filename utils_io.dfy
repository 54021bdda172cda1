/// `read_options` of endiplot/utils_io.py: the options file of the energy
/// diagram, read line by line. A line starting with `<` names the current
/// section (`key`); a line starting with a space supplies a value token
/// (`key_input`); every other line re-uses the last token. Each value is
/// stored under the current key: appended for the list keys, overwritten for
/// the scalar ones. The file is given as the sequence of its lines.
module UtilsIo {
  import opened Py

  /** `ylabel` starts as text; a value line converts it with `float()`. */
  datatype YLabel = LabelText(text: string) | LabelNumber(number: real)

  /** The options dictionary, one field per key it always holds. */
  datatype Options = Options(
    files: seq<string>, offset: seq<int>, colors: seq<string>, titles: seq<string>,
    nfiles: int, fontsize: real, ymin: real, ymax: real,
    plotTitles: bool, plotLabels: bool, ylabel: YLabel)

  const DefaultYLabel: string := "$\\mathrm{\\Delta} G$ (kJ/mol)"

  /** The dictionary before the first line is read. */
  function Defaults(): Options {
    Options([], [], [], [], -1, 7.0, 0.0, 0.0, false, false, LabelText(DefaultYLabel))
  }

  /** What the loop carries from line to line: `key` and `key_input` (None while
      Python has not bound them yet) and the dictionary. */
  datatype Reader = Reader(key: Option<string>, keyInput: Option<string>, options: Options)

  function Initial(): Reader { Reader(None, None, Defaults()) }

  /** The value of a local variable, or the error of reading it before assignment. */
  function Bound(v: Option<string>): (r: Result<string>)
    ensures r.Ok? <==> v.Some?
    ensures r.Err? ==> r.error == UnboundLocalError
  {
    if v.Some? then Ok(v.value) else Err(UnboundLocalError)
  }

  /** `int(token)`. */
  function ToInt(t: string): Result<int> {
    var n := ParseInt(t);
    if n.Some? then Ok(n.value) else Err(ValueError)
  }

  /** `float(token)`. */
  function ToFloat(t: string): Result<real> {
    var x := ParseFloat(t);
    if x.Some? then Ok(x.value) else Err(ValueError)
  }

  /** The section names the dispatch tells apart; every other name is `Unknown`. */
  datatype Key =
    | Files | Offset | Colors | NFiles | PlotTitles | Titles | PlotLabels
    | FontSize | YMin | YMax | YLabelKey | Unknown

  /** The branch of the dispatch a section name selects. */
  function KeyFrom(s: string): Key {
    if s == "files" then Files
    else if s == "offset" then Offset
    else if s == "colors" then Colors
    else if s == "nfiles" then NFiles
    else if s == "plot_titles" then PlotTitles
    else if s == "titles" then Titles
    else if s == "plot_labels" then PlotLabels
    else if s == "fontsize" then FontSize
    else if s == "ymin" then YMin
    else if s == "ymax" then YMax
    else if s == "ylabel" then YLabelKey
    else Unknown
  }

  /** The dispatch on `key` for the current value token. */
  function Store(key: Key, keyInput: Option<string>, o: Options): Result<Options> {
    if key == Unknown then Ok(o)
    else
      var t :- Bound(keyInput);
      match key
      case Files => Ok(o.(files := o.files + [t]))
      case Offset => var n :- ToInt(t); Ok(o.(offset := o.offset + [n]))
      case Colors => Ok(o.(colors := o.colors + [t]))
      case NFiles => var n :- ToInt(t); Ok(o.(nfiles := n))
      case PlotTitles => Ok(o.(plotTitles := PyBool(t)))
      case Titles => Ok(o.(titles := o.titles + [t]))
      case PlotLabels => Ok(o.(plotLabels := PyBool(t)))
      case FontSize => var x :- ToFloat(t); Ok(o.(fontsize := x))
      case YMin => var x :- ToFloat(t); Ok(o.(ymin := x))
      case YMax => var x :- ToFloat(t); Ok(o.(ymax := x))
      case YLabelKey => var x :- ToFloat(t); Ok(o.(ylabel := LabelNumber(x)))
  }

  /** The key a `<` line names: the first token of `line.split("<")[1]`. */
  function KeyOf(line: string): Option<string>
    requires line != [] && line[0] == '<'
  {
    FirstToken(Before(line[1..], '<'))
  }

  /** One pass of the loop body. */
  function Step(r: Reader, line: string): Result<Reader> {
    if line == [] then Err(IndexError)
    else if line[0] == '<' then
      var k := KeyOf(line);
      if k.None? then Err(IndexError) else Ok(r.(key := k))
    else
      var keyInput :-
        if line[0] != ' ' then Ok(r.keyInput)
        else if FirstToken(line).None? then Err(IndexError)
        else Ok(FirstToken(line));
      Apply(r, keyInput)
  }

  /** The second half of the loop body: the token stored under the current key,
      which must be bound by then. */
  function Apply(r: Reader, keyInput: Option<string>): Result<Reader> {
    if r.key.None? then Err(UnboundLocalError)
    else
      var o :- Store(KeyFrom(r.key.value), keyInput, r.options);
      Ok(Reader(r.key, keyInput, o))
  }

  /** The loop over `lines` from `start`, stopping at the first exception. */
  function Run(start: Reader, lines: seq<string>): Result<Reader> {
    if lines == [] then Ok(start)
    else
      var r :- Run(start, lines[..|lines| - 1]);
      Step(r, lines[|lines| - 1])
  }

  /** `read_options` on a file with these lines. */
  function Parse(lines: seq<string>): Result<Options> {
    var r :- Run(Initial(), lines);
    Ok(r.options)
  }

  /** `read_options(opf)`, with the file given as its lines. */
  method ReadOptions(lines: seq<string>) returns (r: Result<Options>)
    ensures r == Parse(lines)
  {
    var optionData := Defaults();
    var key: Option<string> := None;
    var keyInput: Option<string> := None;
    var i := 0;
    while i < |lines|
      invariant 0 <= i <= |lines|
      invariant Run(Initial(), lines[..i]) == Ok(Reader(key, keyInput, optionData))
    {
      var line := lines[i];
      assert lines[..i + 1][..i] == lines[..i];
      if line == [] {
        RunStops(Initial(), lines, i + 1);
        return Err(IndexError);
      }
      if line[0] == '<' {
        var k := FirstToken(Before(line[1..], '<'));
        if k.None? {
          RunStops(Initial(), lines, i + 1);
          return Err(IndexError);
        }
        key := k;
        i := i + 1;
        continue;
      } else if line[0] == ' ' {
        var t := FirstToken(line);
        if t.None? {
          RunStops(Initial(), lines, i + 1);
          return Err(IndexError);
        }
        keyInput := t;
      }
      if key.None? {
        RunStops(Initial(), lines, i + 1);
        return Err(UnboundLocalError);
      }
      var stored := Dispatch(KeyFrom(key.value), keyInput, optionData);
      if stored.Err? {
        RunStops(Initial(), lines, i + 1);
        return Err(stored.error);
      }
      optionData := stored.value;
      i := i + 1;
    }
    assert lines[..i] == lines;
    return Ok(optionData);
  }

  /** The `if key == ...` chain of the loop body: the value token stored under one key. */
  method Dispatch(k: Key, keyInput: Option<string>, optionData: Options) returns (r: Result<Options>)
    ensures r == Store(k, keyInput, optionData)
  {
    if k == Unknown {
      return Ok(optionData);
    }
    if keyInput.None? {
      return Err(UnboundLocalError);
    }
    var t := keyInput.value;
    match k {
      case Files =>
        r := Ok(optionData.(files := optionData.files + [t]));
      case Offset =>
        var n := ParseInt(t);
        if n.None? {
          return Err(ValueError);
        }
        r := Ok(optionData.(offset := optionData.offset + [n.value]));
      case Colors =>
        r := Ok(optionData.(colors := optionData.colors + [t]));
      case NFiles =>
        var n := ParseInt(t);
        if n.None? {
          return Err(ValueError);
        }
        r := Ok(optionData.(nfiles := n.value));
      case PlotTitles =>
        r := Ok(optionData.(plotTitles := PyBool(t)));
      case Titles =>
        r := Ok(optionData.(titles := optionData.titles + [t]));
      case PlotLabels =>
        r := Ok(optionData.(plotLabels := PyBool(t)));
      case FontSize =>
        var x := ParseFloat(t);
        if x.None? {
          return Err(ValueError);
        }
        r := Ok(optionData.(fontsize := x.value));
      case YMin =>
        var x := ParseFloat(t);
        if x.None? {
          return Err(ValueError);
        }
        r := Ok(optionData.(ymin := x.value));
      case YMax =>
        var x := ParseFloat(t);
        if x.None? {
          return Err(ValueError);
        }
        r := Ok(optionData.(ymax := x.value));
      case YLabelKey =>
        var x := ParseFloat(t);
        if x.None? {
          return Err(ValueError);
        }
        r := Ok(optionData.(ylabel := LabelNumber(x.value)));
    }
  }

  // ---------------------------------------------------------------------------
  // The loop as a fold

  /** An exception ends the loop: the prefix's error is the outcome of the whole file. */
  lemma {:induction false} RunStops(start: Reader, lines: seq<string>, k: nat)
    requires k <= |lines| && Run(start, lines[..k]).Err?
    ensures Run(start, lines) == Run(start, lines[..k])
    decreases |lines|
  {
    if k < |lines| {
      var init := lines[..|lines| - 1];
      assert init[..k] == lines[..k];
      RunStops(start, init, k);
    } else {
      assert lines[..k] == lines;
    }
  }

  /** Reading `a` and then `b` is reading `a + b`. */
  lemma {:induction false} RunAppend(start: Reader, a: seq<string>, b: seq<string>)
    ensures Run(start, a + b) == (var m :- Run(start, a); Run(m, b))
    decreases |b|
  {
    if b == [] {
      assert a + b == a;
    } else {
      assert (a + b)[..|a + b| - 1] == a + b[..|b| - 1];
      RunAppend(start, a, b[..|b| - 1]);
    }
  }

  /** A value token is never empty. */
  lemma {:induction false} KeyInputNonEmpty(start: Reader, lines: seq<string>)
    requires start.keyInput.Some? ==> start.keyInput.value != [] && NoSpace(start.keyInput.value)
    requires Run(start, lines).Ok?
    ensures var r := Run(start, lines).value;
      r.keyInput.Some? ==> r.keyInput.value != [] && NoSpace(r.keyInput.value)
    decreases |lines|
  {
    if lines != [] {
      var init := lines[..|lines| - 1];
      KeyInputNonEmpty(start, init);
      var line := lines[|lines| - 1];
      if line[0] == ' ' {
        var _ := FirstTokenIsFirstRun(line);
      }
    }
  }

  // ---------------------------------------------------------------------------
  // What the options file means

  /** A line `<key ...` that opens a section. */
  predicate IsKeyLine(line: string) {
    line != [] && line[0] == '<' && KeyOf(line).Some?
  }

  /** A file of section lines only yields the defaults. */
  lemma {:induction false} OnlyKeysGiveDefaults(lines: seq<string>)
    requires forall i :: 0 <= i < |lines| ==> IsKeyLine(lines[i])
    ensures Parse(lines) == Ok(Defaults())
    ensures Run(Initial(), lines).Ok? && Run(Initial(), lines).value.keyInput.None?
    decreases |lines|
  {
    if lines != [] {
      OnlyKeysGiveDefaults(lines[..|lines| - 1]);
    }
  }

  /** The defaults: empty lists, `nfiles` -1, `fontsize` 7, a zero y-window,
      both switches off and the Gibbs-energy axis label. */
  lemma DefaultValues()
    ensures var d := Defaults();
      && d.files == [] && d.offset == [] && d.colors == [] && d.titles == []
      && d.nfiles == -1 && d.fontsize == 7.0 && d.ymin == 0.0 && d.ymax == 0.0
      && !d.plotTitles && !d.plotLabels && d.ylabel == LabelText("$\\mathrm{\\Delta} G$ (kJ/mol)")
      && Parse([]) == Ok(d)
  {
  }

  /** The text of a well-formed section line `<key` followed by whitespace. */
  lemma KeyLineSetsKey(r: Reader, k: string, rest: string)
    requires k != [] && NoSpace(k) && forall i :: 0 <= i < |k| ==> k[i] != '<'
    requires rest == [] || IsSpace(rest[0])
    ensures Step(r, "<" + k + rest) == Ok(r.(key := Some(k)))
  {
    var line := "<" + k + rest;
    assert line[1..] == k + rest;
    BeforeOfToken(k, rest);
    var b := Before(k + rest, '<');
    var tail := b[|k|..];
    assert b == k + tail;
    assert tail == [] || IsSpace(tail[0]);
    FirstTokenOf([], k, tail);
    assert [] + k + tail == b;
  }

  lemma {:induction false} BeforeOfToken(k: string, rest: string)
    requires forall i :: 0 <= i < |k| ==> k[i] != '<'
    ensures Before(k + rest, '<') == k + Before(rest, '<')
  {
    if k != [] {
      assert (k + rest)[1..] == k[1..] + rest;
      BeforeOfToken(k[1..], rest);
    } else {
      assert k + rest == rest;
    }
  }

  /** A value line: a space, the token, a line break. */
  function ValueLine(t: string): string { " " + t + "\n" }

  function ValueLines(ts: seq<string>): (r: seq<string>)
    ensures |r| == |ts| && forall i :: 0 <= i < |ts| ==> r[i] == ValueLine(ts[i])
  {
    if ts == [] then [] else ValueLines(ts[..|ts| - 1]) + [ValueLine(ts[|ts| - 1])]
  }

  predicate Token(t: string) { t != [] && NoSpace(t) }

  lemma ValueLineToken(t: string)
    requires Token(t)
    ensures FirstToken(ValueLine(t)) == Some(t)
  {
    assert IsSpace('\n');
    assert ValueLine(t) == " " + t + "\n";
    FirstTokenOf(" ", t, "\n");
  }

  /** A value line stores its token under the current key. */
  lemma ValueStep(r: Reader, t: string)
    requires Token(t)
    ensures Step(r, ValueLine(t)) == Apply(r, Some(t))
  {
    ValueLineToken(t);
  }

  /** Storing value tokens one after the other under the current key. */
  function Feed(r: Reader, ts: seq<string>): Result<Reader> {
    if ts == [] then Ok(r)
    else
      var m :- Feed(r, ts[..|ts| - 1]);
      Apply(m, Some(ts[|ts| - 1]))
  }

  /** Reading a run of value lines stores their tokens in order. */
  lemma {:induction false} RunValueLines(r: Reader, ts: seq<string>)
    requires forall i :: 0 <= i < |ts| ==> Token(ts[i])
    ensures Run(r, ValueLines(ts)) == Feed(r, ts)
    decreases |ts|
  {
    if ts != [] {
      var init := ts[..|ts| - 1];
      var lines := ValueLines(ts);
      assert lines[..|lines| - 1] == ValueLines(init);
      RunValueLines(r, init);
      var m := Feed(r, init);
      if m.Ok? {
        ValueStep(m.value, ts[|ts| - 1]);
      }
    }
  }

  /** The list a list-valued key appends to. */
  function ListOf(o: Options, key: Key): seq<string>
    requires key in {Files, Colors, Titles}
  {
    if key == Files then o.files else if key == Colors then o.colors else o.titles
  }

  /** The dictionary without the list `key` names. */
  function Cleared(o: Options, key: Key): Options
    requires key in {Files, Colors, Titles}
  {
    if key == Files then o.(files := []) else if key == Colors then o.(colors := []) else o.(titles := [])
  }

  lemma StoreList(key: Key, t: string, o: Options)
    requires key in {Files, Colors, Titles}
    ensures Store(key, Some(t), o).Ok?
    ensures ListOf(Store(key, Some(t), o).value, key) == ListOf(o, key) + [t]
    ensures Cleared(Store(key, Some(t), o).value, key) == Cleared(o, key)
  {
  }

  lemma {:induction false} FeedList(r: Reader, key: Key, ts: seq<string>)
    requires key in {Files, Colors, Titles} && r.key.Some? && KeyFrom(r.key.value) == key
    ensures Feed(r, ts).Ok? && Feed(r, ts).value.key == r.key
    ensures var o := Feed(r, ts).value.options;
      ListOf(o, key) == ListOf(r.options, key) + ts && Cleared(o, key) == Cleared(r.options, key)
    decreases |ts|
  {
    if ts != [] {
      var init, t := ts[..|ts| - 1], ts[|ts| - 1];
      FeedList(r, key, init);
      var m := Feed(r, init).value;
      StoreList(key, t, m.options);
      assert Feed(r, ts) == Apply(m, Some(t));
      assert ts == init + [t];
    }
  }

  /** Under `files`, `colors` and `titles` every value token is appended, in line
      order, and nothing else in the dictionary changes. */
  lemma ListSectionAppends(r: Reader, key: Key, ts: seq<string>)
    requires key in {Files, Colors, Titles} && r.key.Some? && KeyFrom(r.key.value) == key
    requires forall i :: 0 <= i < |ts| ==> Token(ts[i])
    ensures Run(r, ValueLines(ts)).Ok?
    ensures var o := Run(r, ValueLines(ts)).value.options;
      && ListOf(o, key) == ListOf(r.options, key) + ts
      && Cleared(o, key) == Cleared(r.options, key)
    ensures Run(r, ValueLines(ts)).value.key == r.key
  {
    RunValueLines(r, ts);
    FeedList(r, key, ts);
  }

  lemma StoreOffset(t: string, n: int, o: Options)
    requires ParseInt(t) == Some(n)
    ensures Store(Offset, Some(t), o) == Ok(o.(offset := o.offset + [n]))
  {
  }

  /** The dictionary without its `offset` list. */
  function OffsetCleared(o: Options): Options {
    o.(offset := [])
  }

  lemma {:induction false} FeedOffset(r: Reader, ts: seq<string>, ns: seq<int>)
    requires r.key.Some? && KeyFrom(r.key.value) == Offset
    requires |ts| == |ns| && forall i :: 0 <= i < |ts| ==> ParseInt(ts[i]) == Some(ns[i])
    ensures Feed(r, ts).Ok? && Feed(r, ts).value.key == r.key
    ensures var o := Feed(r, ts).value.options;
      o.offset == r.options.offset + ns && OffsetCleared(o) == OffsetCleared(r.options)
    decreases |ts|
  {
    if ts != [] {
      var t, n := ts[|ts| - 1], ns[|ns| - 1];
      FeedOffset(r, ts[..|ts| - 1], ns[..|ns| - 1]);
      var m := Feed(r, ts[..|ts| - 1]).value;
      ApplyOffset(m, t, n);
      assert Feed(r, ts) == Apply(m, Some(t));
      OffsetExtended(r.options, m.options, ns);
    }
  }

  lemma ApplyOffset(m: Reader, t: string, n: int)
    requires m.key.Some? && KeyFrom(m.key.value) == Offset && ParseInt(t) == Some(n)
    ensures Apply(m, Some(t)) == Ok(Reader(m.key, Some(t), m.options.(offset := m.options.offset + [n])))
  {
    StoreOffset(t, n, m.options);
  }

  lemma OffsetExtended(base: Options, o: Options, ns: seq<int>)
    requires ns != []
    requires o.offset == base.offset + ns[..|ns| - 1] && OffsetCleared(o) == OffsetCleared(base)
    ensures var o' := o.(offset := o.offset + [ns[|ns| - 1]]);
      o'.offset == base.offset + ns && OffsetCleared(o') == OffsetCleared(base)
  {
    assert ns == ns[..|ns| - 1] + [ns[|ns| - 1]];
  }

  lemma OffsetRebuilt(o: Options, base: Options, ns: seq<int>)
    requires o.offset == base.offset + ns && OffsetCleared(o) == OffsetCleared(base)
    ensures o == base.(offset := base.offset + ns)
  {
  }

  /** Under `offset` every value token is appended as an int, in line order, and
      nothing else in the dictionary changes. */
  lemma OffsetSectionAppends(r: Reader, ts: seq<string>, ns: seq<int>)
    requires r.key.Some? && KeyFrom(r.key.value) == Offset
    requires |ts| == |ns| && forall i :: 0 <= i < |ts| ==> Token(ts[i]) && ParseInt(ts[i]) == Some(ns[i])
    ensures Run(r, ValueLines(ts)).Ok? && Run(r, ValueLines(ts)).value.key == r.key
    ensures Run(r, ValueLines(ts)).value.options == r.options.(offset := r.options.offset + ns)
  {
    RunValueLines(r, ts);
    FeedOffset(r, ts, ns);
    OffsetRebuilt(Feed(r, ts).value.options, r.options, ns);
  }

  /** The scalar a numeric key overwrites, as a real. */
  function ScalarOf(o: Options, key: Key): real
    requires key in {NFiles, FontSize, YMin, YMax}
  {
    if key == NFiles then o.nfiles as real
    else if key == FontSize then o.fontsize
    else if key == YMin then o.ymin
    else o.ymax
  }

  /** The conversion a numeric key applies to its token: `int()` for `nfiles`,
      `float()` for the others. */
  function ScalarToken(key: Key, t: string): Option<real>
    requires key in {NFiles, FontSize, YMin, YMax}
  {
    if key == NFiles then (if ParseInt(t).Some? then Some(ParseInt(t).value as real) else None)
    else ParseFloat(t)
  }

  /** The dictionary with the scalar `key` names set from the token `t`. */
  function SetScalar(o: Options, key: Key, t: string): Options
    requires key in {NFiles, FontSize, YMin, YMax} && ScalarToken(key, t).Some?
  {
    if key == NFiles then o.(nfiles := ParseInt(t).value)
    else if key == FontSize then o.(fontsize := ParseFloat(t).value)
    else if key == YMin then o.(ymin := ParseFloat(t).value)
    else o.(ymax := ParseFloat(t).value)
  }

  /** The dictionary without the scalar `key` names. */
  function ScalarCleared(o: Options, key: Key): Options
    requires key in {NFiles, FontSize, YMin, YMax}
  {
    if key == NFiles then o.(nfiles := 0)
    else if key == FontSize then o.(fontsize := 0.0)
    else if key == YMin then o.(ymin := 0.0)
    else o.(ymax := 0.0)
  }

  lemma ApplyScalar(m: Reader, key: Key, t: string)
    requires key in {NFiles, FontSize, YMin, YMax} && m.key.Some? && KeyFrom(m.key.value) == key
    requires ScalarToken(key, t).Some?
    ensures Apply(m, Some(t)) == Ok(Reader(m.key, Some(t), SetScalar(m.options, key, t)))
  {
  }

  lemma SetScalarParts(o: Options, key: Key, t: string)
    requires key in {NFiles, FontSize, YMin, YMax} && ScalarToken(key, t).Some?
    ensures ScalarOf(SetScalar(o, key, t), key) == ScalarToken(key, t).value
    ensures ScalarCleared(SetScalar(o, key, t), key) == ScalarCleared(o, key)
  {
  }

  lemma ScalarRebuilt(o: Options, base: Options, key: Key, t: string)
    requires key in {NFiles, FontSize, YMin, YMax} && ScalarToken(key, t).Some?
    requires ScalarOf(o, key) == ScalarToken(key, t).value && ScalarCleared(o, key) == ScalarCleared(base, key)
    ensures o == SetScalar(base, key, t)
  {
  }

  lemma {:induction false} FeedScalar(r: Reader, key: Key, ts: seq<string>)
    requires key in {NFiles, FontSize, YMin, YMax} && r.key.Some? && KeyFrom(r.key.value) == key
    requires ts != [] && forall i :: 0 <= i < |ts| ==> ScalarToken(key, ts[i]).Some?
    ensures Feed(r, ts).Ok? && Feed(r, ts).value.key == r.key
    ensures var o := Feed(r, ts).value.options;
      ScalarOf(o, key) == ScalarToken(key, ts[|ts| - 1]).value && ScalarCleared(o, key) == ScalarCleared(r.options, key)
    decreases |ts|
  {
    var init, t := ts[..|ts| - 1], ts[|ts| - 1];
    var m := r;
    if init != [] {
      FeedScalar(r, key, init);
      m := Feed(r, init).value;
    } else {
      assert Feed(r, init) == Ok(r);
    }
    ApplyScalar(m, key, t);
    assert Feed(r, ts) == Apply(m, Some(t));
    SetScalarParts(m.options, key, t);
  }

  /** `nfiles`, `fontsize`, `ymin` and `ymax` are overwritten: after a section of
      values the last one holds, converted by `int()` or `float()`, and nothing else
      in the dictionary changes. */
  lemma ScalarLastWins(r: Reader, key: Key, ts: seq<string>)
    requires key in {NFiles, FontSize, YMin, YMax} && r.key.Some? && KeyFrom(r.key.value) == key
    requires ts != [] && forall i :: 0 <= i < |ts| ==> Token(ts[i]) && ScalarToken(key, ts[i]).Some?
    ensures Run(r, ValueLines(ts)).Ok? && Run(r, ValueLines(ts)).value.key == r.key
    ensures Run(r, ValueLines(ts)).value.options == SetScalar(r.options, key, ts[|ts| - 1])
  {
    RunValueLines(r, ts);
    FeedScalar(r, key, ts);
    ScalarRebuilt(Feed(r, ts).value.options, r.options, key, ts[|ts| - 1]);
  }

  /** `plot_titles` and `plot_labels` become True on any value line, whatever its token. */
  lemma SwitchOnAnyToken(lines: seq<string>, line: string)
    requires Run(Initial(), lines).Ok?
    requires Run(Initial(), lines).value.key.Some?
    requires KeyFrom(Run(Initial(), lines).value.key.value) in {PlotTitles, PlotLabels}
    requires Step(Run(Initial(), lines).value, line).Ok?
    requires line != [] && line[0] != '<'
    ensures var o := Step(Run(Initial(), lines).value, line).value.options;
      if KeyFrom(Run(Initial(), lines).value.key.value) == PlotTitles then o.plotTitles else o.plotLabels
  {
    KeyInputNonEmpty(Initial(), lines);
    SwitchStep(Run(Initial(), lines).value, line);
  }

  lemma SwitchStep(r: Reader, line: string)
    requires r.keyInput.Some? ==> r.keyInput.value != []
    requires r.key.Some? && KeyFrom(r.key.value) in {PlotTitles, PlotLabels}
    requires line != [] && line[0] != '<' && Step(r, line).Ok?
    ensures var o := Step(r, line).value.options;
      if KeyFrom(r.key.value) == PlotTitles then o.plotTitles else o.plotLabels
  {
    var keyInput := if line[0] != ' ' then r.keyInput else FirstToken(line);
    assert Step(r, line) == Apply(r, keyInput);
    if line[0] == ' ' {
      var _ := FirstTokenIsFirstRun(line);
    }
    StoreSwitch(KeyFrom(r.key.value), keyInput, r.options);
  }

  lemma StoreSwitch(key: Key, keyInput: Option<string>, o: Options)
    requires key in {PlotTitles, PlotLabels} && (keyInput.Some? ==> keyInput.value != [])
    requires Store(key, keyInput, o).Ok?
    ensures if key == PlotTitles then Store(key, keyInput, o).value.plotTitles else Store(key, keyInput, o).value.plotLabels
  {
  }

  /** A line that starts with neither `<` nor a space re-uses the last value token:
      it acts exactly like a value line carrying that token again. */
  lemma RepeatsLastToken(r: Reader, line: string)
    requires line != [] && line[0] != '<' && line[0] != ' '
    requires r.keyInput.Some? && Token(r.keyInput.value)
    ensures Step(r, line) == Step(r, ValueLine(r.keyInput.value))
  {
    ValueLineToken(r.keyInput.value);
  }

  /** A value line before any section line fails: `key` is not yet bound
      (or, for a blank line of spaces, `split()` finds no token). */
  lemma ValueBeforeKey(line: string, rest: seq<string>)
    requires line != [] && line[0] != '<'
    ensures Parse([line] + rest).Err?
    ensures Parse([line] + rest).error == (if line[0] == ' ' && FirstToken(line).None? then IndexError else UnboundLocalError)
  {
    assert ([line] + rest)[..1] == [line];
    assert [line][..0] == [];
    RunStops(Initial(), [line] + rest, 1);
  }

  /** A section whose key has no branch leaves the dictionary as it is. */
  lemma UnknownKeyIgnored(r: Reader, line: string)
    requires r.key.Some? && KeyFrom(r.key.value) == Unknown
    requires line != [] && line[0] != '<'
    requires line[0] == ' ' ==> FirstToken(line).Some?
    ensures Step(r, line).Ok? && Step(r, line).value.options == r.options
  {
  }

  /** `ylabel` is converted with `float()`: a token that is not a number is a ValueError. */
  lemma TextYLabelFails(r: Reader, t: string)
    requires r.key.Some? && KeyFrom(r.key.value) == YLabelKey && Token(t) && ParseFloat(t).None?
    ensures Step(r, ValueLine(t)) == Err(ValueError)
  {
    ValueStep(r, t);
    StoreYLabel(t, r.options);
  }

  lemma StoreYLabel(t: string, o: Options)
    requires ParseFloat(t).None?
    ensures Store(YLabelKey, Some(t), o) == Err(ValueError)
  {
  }

  /** The section name that selects `k`, as written in the options file. */
  function KeyName(k: Key): string
    requires k != Unknown
  {
    match k
    case Files => "files"
    case Offset => "offset"
    case Colors => "colors"
    case NFiles => "nfiles"
    case PlotTitles => "plot_titles"
    case Titles => "titles"
    case PlotLabels => "plot_labels"
    case FontSize => "fontsize"
    case YMin => "ymin"
    case YMax => "ymax"
    case YLabelKey => "ylabel"
  }

  /** Exactly eleven names select a branch of the dispatch, and each selects its own:
      a name that selects `k` is `KeyName(k)`, so two names never share a branch. */
  lemma SectionNames(s: string)
    ensures KeyFrom(s) != Unknown <==>
      s in {"files", "offset", "colors", "nfiles", "plot_titles", "titles", "plot_labels",
            "fontsize", "ymin", "ymax", "ylabel"}
    ensures KeyFrom(s) != Unknown ==> KeyName(KeyFrom(s)) == s
  {
  }

  /** Every branch is selected by its own name. */
  lemma KeyNameSelects(k: Key)
    requires k != Unknown
    ensures KeyFrom(KeyName(k)) == k
  {
  }
}
