/// `read_options` of general.py, the older options reader the Gibbs diagram
/// uses: the same loop as endiplot/utils_io.py, with fewer defaults and a
/// dispatch that knows only files, offset, colors, nfiles, plot_titles,
/// titles and plot_labels. `plot_labels` has no default: the key exists only
/// once a value has been read for it.
module General {
  import opened Py
  import UtilsIo

  /** The options dictionary; `plotLabels` is None while the key is absent. */
  datatype GeneralOptions = GeneralOptions(
    files: seq<string>, offset: seq<int>, colors: seq<string>, titles: seq<string>,
    nfiles: int, plotTitles: bool, plotLabels: Option<bool>)

  function Defaults(): GeneralOptions {
    GeneralOptions([], [], [], [], -1, false, None)
  }

  datatype Reader = Reader(key: Option<string>, keyInput: Option<string>, options: GeneralOptions)

  function Initial(): Reader { Reader(None, None, Defaults()) }

  /** The keys with a branch in this dispatch; every other key falls through. */
  predicate Handled(k: UtilsIo.Key) {
    k in {UtilsIo.Files, UtilsIo.Offset, UtilsIo.Colors, UtilsIo.NFiles,
          UtilsIo.PlotTitles, UtilsIo.Titles, UtilsIo.PlotLabels}
  }

  /** The dispatch on `key` for the current value token. */
  function Store(key: UtilsIo.Key, keyInput: Option<string>, o: GeneralOptions): Result<GeneralOptions> {
    if !Handled(key) then Ok(o)
    else
      var t :- UtilsIo.Bound(keyInput);
      match key
      case Files => Ok(o.(files := o.files + [t]))
      case Offset => var n :- UtilsIo.ToInt(t); Ok(o.(offset := o.offset + [n]))
      case Colors => Ok(o.(colors := o.colors + [t]))
      case NFiles => var n :- UtilsIo.ToInt(t); Ok(o.(nfiles := n))
      case PlotTitles => Ok(o.(plotTitles := PyBool(t)))
      case Titles => Ok(o.(titles := o.titles + [t]))
      case PlotLabels => Ok(o.(plotLabels := Some(PyBool(t))))
      case _ => Ok(o)
  }

  /** One pass of the loop body. */
  function Step(r: Reader, line: string): Result<Reader> {
    if line == [] then Err(IndexError)
    else if line[0] == '<' then
      var k := UtilsIo.KeyOf(line);
      if k.None? then Err(IndexError) else Ok(r.(key := k))
    else
      var keyInput :-
        if line[0] != ' ' then Ok(r.keyInput)
        else if FirstToken(line).None? then Err(IndexError)
        else Ok(FirstToken(line));
      Apply(r, keyInput)
  }

  /** The second half of the loop body: the token stored under the current key. */
  function Apply(r: Reader, keyInput: Option<string>): Result<Reader> {
    if r.key.None? then Err(UnboundLocalError)
    else
      var o :- Store(UtilsIo.KeyFrom(r.key.value), keyInput, r.options);
      Ok(Reader(r.key, keyInput, o))
  }

  function Run(start: Reader, lines: seq<string>): Result<Reader> {
    if lines == [] then Ok(start)
    else
      var r :- Run(start, lines[..|lines| - 1]);
      Step(r, lines[|lines| - 1])
  }

  function Parse(lines: seq<string>): Result<GeneralOptions> {
    var r :- Run(Initial(), lines);
    Ok(r.options)
  }

  /** `read_options(opf)` of general.py, with the file given as its lines. */
  method ReadOptions(lines: seq<string>) returns (r: Result<GeneralOptions>)
    ensures r == Parse(lines)
  {
    var optionData := Defaults();
    var key: Option<string> := None;
    var keyInput: Option<string> := None;
    var i := 0;
    while i < |lines|
      invariant 0 <= i <= |lines|
      invariant Run(Initial(), lines[..i]) == Ok(Reader(key, keyInput, optionData))
    {
      var line := lines[i];
      ghost var before := Reader(key, keyInput, optionData);
      assert lines[..i + 1][..i] == lines[..i];
      if line == [] {
        RunStops(Initial(), lines, i + 1);
        return Err(IndexError);
      }
      if line[0] == '<' {
        var k := FirstToken(Before(line[1..], '<'));
        if k.None? {
          RunStops(Initial(), lines, i + 1);
          return Err(IndexError);
        }
        key := k;
        i := i + 1;
        continue;
      } else if line[0] == ' ' {
        var t := FirstToken(line);
        if t.None? {
          RunStops(Initial(), lines, i + 1);
          return Err(IndexError);
        }
        keyInput := t;
      }
      assert Step(before, line) == Apply(before, keyInput);
      if key.None? {
        RunStops(Initial(), lines, i + 1);
        return Err(UnboundLocalError);
      }
      var stored := Dispatch(UtilsIo.KeyFrom(key.value), keyInput, optionData);
      if stored.Err? {
        RunStops(Initial(), lines, i + 1);
        return Err(stored.error);
      }
      assert Apply(before, keyInput) == Ok(Reader(key, keyInput, stored.value));
      optionData := stored.value;
      i := i + 1;
    }
    assert lines[..i] == lines;
    return Ok(optionData);
  }

  /** The `if key == ...` chain of the loop body. */
  method Dispatch(k: UtilsIo.Key, keyInput: Option<string>, optionData: GeneralOptions)
    returns (r: Result<GeneralOptions>)
    ensures r == Store(k, keyInput, optionData)
  {
    if !Handled(k) {
      return Ok(optionData);
    }
    if keyInput.None? {
      return Err(UnboundLocalError);
    }
    var t := keyInput.value;
    match k {
      case Files =>
        r := Ok(optionData.(files := optionData.files + [t]));
      case Offset =>
        var n := ParseInt(t);
        if n.None? {
          return Err(ValueError);
        }
        r := Ok(optionData.(offset := optionData.offset + [n.value]));
      case Colors =>
        r := Ok(optionData.(colors := optionData.colors + [t]));
      case NFiles =>
        var n := ParseInt(t);
        if n.None? {
          return Err(ValueError);
        }
        r := Ok(optionData.(nfiles := n.value));
      case PlotTitles =>
        r := Ok(optionData.(plotTitles := PyBool(t)));
      case Titles =>
        r := Ok(optionData.(titles := optionData.titles + [t]));
      case PlotLabels =>
        r := Ok(optionData.(plotLabels := Some(PyBool(t))));
    }
  }

  lemma {:induction false} RunStops(start: Reader, lines: seq<string>, k: nat)
    requires k <= |lines| && Run(start, lines[..k]).Err?
    ensures Run(start, lines) == Run(start, lines[..k])
    decreases |lines|
  {
    if k < |lines| {
      var init := lines[..|lines| - 1];
      assert init[..k] == lines[..k];
      RunStops(start, init, k);
    } else {
      assert lines[..k] == lines;
    }
  }

  // ---------------------------------------------------------------------------
  // Properties

  /** The defaults: empty lists, `nfiles` -1, `plot_titles` False and no `plot_labels`. */
  lemma DefaultValues()
    ensures var d := Defaults();
      && d.files == [] && d.offset == [] && d.colors == [] && d.titles == []
      && d.nfiles == -1 && !d.plotTitles && d.plotLabels.None?
      && Parse([]) == Ok(d)
  {
  }

  /** `plot_labels` is present exactly when a value line was read under it, and then True. */
  lemma {:induction false} PlotLabelsOnlyTrue(lines: seq<string>)
    requires Run(Initial(), lines).Ok?
    ensures Run(Initial(), lines).value.options.plotLabels != Some(false)
    ensures var r := Run(Initial(), lines).value; r.keyInput.Some? ==> UtilsIo.Token(r.keyInput.value)
    decreases |lines|
  {
    if lines != [] {
      PlotLabelsOnlyTrue(lines[..|lines| - 1]);
      StepKeepsLabels(Run(Initial(), lines[..|lines| - 1]).value, lines[|lines| - 1]);
    }
  }

  lemma StepKeepsLabels(r: Reader, line: string)
    requires r.options.plotLabels != Some(false)
    requires r.keyInput.Some? ==> UtilsIo.Token(r.keyInput.value)
    requires Step(r, line).Ok?
    ensures Step(r, line).value.options.plotLabels != Some(false)
    ensures var m := Step(r, line).value; m.keyInput.Some? ==> UtilsIo.Token(m.keyInput.value)
  {
    if line[0] != '<' {
      var keyInput := if line[0] != ' ' then r.keyInput else FirstToken(line);
      assert Step(r, line) == Apply(r, keyInput);
      if line[0] == ' ' {
        var _ := FirstTokenIsFirstRun(line);
      }
      StoreKeepsLabels(UtilsIo.KeyFrom(r.key.value), keyInput, r.options);
    }
  }

  lemma StoreKeepsLabels(key: UtilsIo.Key, keyInput: Option<string>, o: GeneralOptions)
    requires o.plotLabels != Some(false) && (keyInput.Some? ==> keyInput.value != [])
    requires Store(key, keyInput, o).Ok?
    ensures Store(key, keyInput, o).value.plotLabels != Some(false)
  {
  }

  /** The keys only the newer reader knows (`fontsize`, `ymin`, `ymax`, `ylabel`)
      fall through every branch here and change nothing. */
  lemma NewerKeysIgnored(r: Reader, line: string)
    requires r.key.Some? && UtilsIo.KeyFrom(r.key.value) in {UtilsIo.FontSize, UtilsIo.YMin, UtilsIo.YMax, UtilsIo.YLabelKey}
    requires line != [] && line[0] != '<'
    requires line[0] == ' ' ==> FirstToken(line).Some?
    ensures Step(r, line).Ok? && Step(r, line).value.options == r.options
  {
    var keyInput := if line[0] != ' ' then r.keyInput else FirstToken(line);
    ApplyIgnored(r, keyInput);
    assert Step(r, line) == Apply(r, keyInput);
  }

  /** Under a key `general.py` has no branch for, storing leaves the options as they are. */
  lemma ApplyIgnored(r: Reader, keyInput: Option<string>)
    requires r.key.Some? && !Handled(UtilsIo.KeyFrom(r.key.value))
    ensures Apply(r, keyInput) == Ok(Reader(r.key, keyInput, r.options))
  {
  }

  /** Storing value tokens one after the other under the current key. */
  function Feed(r: Reader, ts: seq<string>): Result<Reader> {
    if ts == [] then Ok(r)
    else
      var m :- Feed(r, ts[..|ts| - 1]);
      Apply(m, Some(ts[|ts| - 1]))
  }

  /** Reading a run of value lines stores their tokens in order. */
  lemma {:induction false} RunValueLines(r: Reader, ts: seq<string>)
    requires forall i :: 0 <= i < |ts| ==> UtilsIo.Token(ts[i])
    ensures Run(r, UtilsIo.ValueLines(ts)) == Feed(r, ts)
    decreases |ts|
  {
    if ts != [] {
      var init := ts[..|ts| - 1];
      var lines := UtilsIo.ValueLines(ts);
      assert lines[..|lines| - 1] == UtilsIo.ValueLines(init);
      RunValueLines(r, init);
      var m := Feed(r, init);
      if m.Ok? {
        ValueStep(m.value, ts[|ts| - 1]);
      }
    }
  }

  /** A value line stores its token under the current key. */
  lemma ValueStep(r: Reader, t: string)
    requires UtilsIo.Token(t)
    ensures Step(r, UtilsIo.ValueLine(t)) == Apply(r, Some(t))
  {
    UtilsIo.ValueLineToken(t);
  }

  lemma ApplyNFiles(m: Reader, t: string)
    requires m.key.Some? && UtilsIo.KeyFrom(m.key.value) == UtilsIo.NFiles && ParseInt(t).Some?
    ensures Apply(m, Some(t)) == Ok(Reader(m.key, Some(t), m.options.(nfiles := ParseInt(t).value)))
  {
  }

  lemma NFilesParts(o: GeneralOptions, n: int)
    ensures o.(nfiles := n).nfiles == n && o.(nfiles := n).(nfiles := 0) == o.(nfiles := 0)
  {
  }

  lemma NFilesRebuilt(o: GeneralOptions, base: GeneralOptions, n: int)
    requires o.nfiles == n && o.(nfiles := 0) == base.(nfiles := 0)
    ensures o == base.(nfiles := n)
  {
  }

  lemma {:induction false} FeedNFiles(r: Reader, ts: seq<string>)
    requires r.key.Some? && UtilsIo.KeyFrom(r.key.value) == UtilsIo.NFiles
    requires ts != [] && forall i :: 0 <= i < |ts| ==> ParseInt(ts[i]).Some?
    ensures Feed(r, ts).Ok? && Feed(r, ts).value.key == r.key
    ensures var o := Feed(r, ts).value.options;
      o.nfiles == ParseInt(ts[|ts| - 1]).value && o.(nfiles := 0) == r.options.(nfiles := 0)
    decreases |ts|
  {
    var init, t := ts[..|ts| - 1], ts[|ts| - 1];
    var m := r;
    if init != [] {
      FeedNFiles(r, init);
      m := Feed(r, init).value;
    } else {
      assert Feed(r, init) == Ok(r);
    }
    ApplyNFiles(m, t);
    assert Feed(r, ts) == Apply(m, Some(t));
    NFilesParts(m.options, ParseInt(t).value);
  }

  /** `nfiles` is overwritten: after a section of values the last one holds, converted
      by `int()`, and nothing else in the dictionary changes. */
  lemma NFilesLastWins(r: Reader, ts: seq<string>)
    requires r.key.Some? && UtilsIo.KeyFrom(r.key.value) == UtilsIo.NFiles
    requires ts != [] && forall i :: 0 <= i < |ts| ==> UtilsIo.Token(ts[i]) && ParseInt(ts[i]).Some?
    ensures Run(r, UtilsIo.ValueLines(ts)).Ok? && Run(r, UtilsIo.ValueLines(ts)).value.key == r.key
    ensures Run(r, UtilsIo.ValueLines(ts)).value.options == r.options.(nfiles := ParseInt(ts[|ts| - 1]).value)
  {
    RunValueLines(r, ts);
    FeedNFiles(r, ts);
    NFilesRebuilt(Feed(r, ts).value.options, r.options, ParseInt(ts[|ts| - 1]).value);
  }

  // ---------------------------------------------------------------------------
  // The two readers agree

  /** The two dictionaries hold the same shared entries, and `plot_labels` is
      True in the newer one exactly when this one holds True. */
  predicate OptionsAgree(a: UtilsIo.Options, b: GeneralOptions) {
    && a.files == b.files && a.offset == b.offset
    && a.colors == b.colors && a.titles == b.titles
    && a.nfiles == b.nfiles && a.plotTitles == b.plotTitles
    && (a.plotLabels <==> b.plotLabels == Some(true))
    && b.plotLabels != Some(false)
  }

  /** The two loops are in matching states: the same key and token and agreeing dictionaries. */
  predicate Agree(a: UtilsIo.Reader, b: Reader) {
    && a.key == b.key && a.keyInput == b.keyInput
    && (a.keyInput.Some? ==> UtilsIo.Token(a.keyInput.value))
    && OptionsAgree(a.options, b.options)
  }

  lemma StoreAgrees(k: UtilsIo.Key, keyInput: Option<string>, a: UtilsIo.Options, b: GeneralOptions)
    requires OptionsAgree(a, b) && (keyInput.Some? ==> UtilsIo.Token(keyInput.value))
    requires UtilsIo.Store(k, keyInput, a).Ok?
    ensures Store(k, keyInput, b).Ok? && OptionsAgree(UtilsIo.Store(k, keyInput, a).value, Store(k, keyInput, b).value)
  {
  }

  lemma StepAgrees(a: UtilsIo.Reader, b: Reader, line: string)
    requires Agree(a, b) && UtilsIo.Step(a, line).Ok?
    ensures Step(b, line).Ok? && Agree(UtilsIo.Step(a, line).value, Step(b, line).value)
  {
    if line[0] != '<' {
      var keyInput := if line[0] != ' ' then a.keyInput else FirstToken(line);
      assert UtilsIo.Step(a, line) == UtilsIo.Apply(a, keyInput);
      assert Step(b, line) == Apply(b, keyInput);
      if line[0] == ' ' {
        var _ := FirstTokenIsFirstRun(line);
      }
      StoreAgrees(UtilsIo.KeyFrom(a.key.value), keyInput, a.options, b.options);
    }
  }

  /** Whenever the newer reader accepts a file, the older one accepts it too
      and reads the same files, offsets, colors, titles, `nfiles` and
      `plot_titles`; its `plot_labels` is True where the newer one's is, and
      absent (never False) where the newer one's is False. */
  lemma {:induction false} ReadersAgree(lines: seq<string>)
    requires UtilsIo.Run(UtilsIo.Initial(), lines).Ok?
    ensures Run(Initial(), lines).Ok?
    ensures Agree(UtilsIo.Run(UtilsIo.Initial(), lines).value, Run(Initial(), lines).value)
    decreases |lines|
  {
    if lines != [] {
      var init := lines[..|lines| - 1];
      ReadersAgree(init);
      StepAgrees(UtilsIo.Run(UtilsIo.Initial(), init).value, Run(Initial(), init).value, lines[|lines| - 1]);
    }
  }
}
