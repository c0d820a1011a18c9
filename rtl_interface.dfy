/** The RTL-SDR session: options merged over defaults, the filetype checked
    before any device or directory work, one recorder chosen by filetype,
    file names derived from the output directory, an optional recording
    name and the sample window, and a bounded run of the continuous loop. */
module RtlInterface {
  import opened Common
  import opened Storage
  import opened Recorder
  import CsvRecorder
  import Hdf5Recorder

  /** `AVAILABLE_FILETYPES`. */
  const AvailableFiletypes: seq<string> := ["csv", "hdf5"]

  /** The constructor's defaults; `1024 * 256` is 262144. They name the
      eight options and their filetype passes the filetype check. */
  function Defaults(): (d: map<string, Value>)
    ensures d.Keys == {"center_freq", "sample_rate", "freq_correction", "gain",
                       "record_delay", "sample_window", "filetype", "output_dir"}
    ensures d["filetype"].VText? && d["filetype"].s in AvailableFiletypes
    ensures DelayOk(d["record_delay"])
  {
    map[
      "center_freq" := VReal(100700000.0),
      "sample_rate" := VReal(2400000.0),
      "freq_correction" := VInt(60),
      "gain" := VText("auto"),
      "record_delay" := VInt(2),
      "sample_window" := VInt(1024 * 256),
      "filetype" := VText("csv"),
      "output_dir" := VText("outputs")
    ]
  }

  /** The caller's value for `key`, or `default` when the caller gave none. */
  function OptionOr(options: map<string, Value>, key: string, default: Value): Value
  {
    if key in options then options[key] else default
  }

  /** `{**defaults, **options}`: every key of either, the caller's value
      winning. */
  function MergeOptions(options: map<string, Value>): (m: map<string, Value>)
    ensures m.Keys == Defaults().Keys + options.Keys
    ensures forall k :: k in options ==> m[k] == options[k]
    ensures forall k :: k in Defaults() && k !in options ==> m[k] == Defaults()[k]
  {
    Defaults() + options
  }

  /** The settings the constructor reads out of the merged options; the
      filetype is one of the available ones by then. */
  datatype Settings = Settings(
    centerFreq: Value,
    sampleRate: Value,
    freqCorrection: Value,
    gain: Value,
    recordDelay: Value,
    sampleWindow: Value,
    filetype: string,
    outputDir: Value)

  datatype InitError =
    | InvalidFiletype(filetype: Value)  // the `ValueError` of the filetype check
    | MakedirsFailed(dir: Value)        // `os.makedirs` of an empty or non-text path

  predicate FiletypeAccepted(v: Value)
  {
    v.VText? && v.s in AvailableFiletypes
  }

  /** Merging and the filetype check: an unavailable filetype is refused,
      otherwise every setting is the caller's value or its default. */
  function Configure(options: map<string, Value>): (r: Result<Settings, InitError>)
    ensures var ft := OptionOr(options, "filetype", VText("csv"));
      (r.Ok? <==> ft == VText("csv") || ft == VText("hdf5"))
      && (r.Err? ==> r.error == InvalidFiletype(ft))
      && (r.Ok? ==> VText(r.value.filetype) == ft)
    ensures r.Ok? ==>
      && r.value.centerFreq == OptionOr(options, "center_freq", VReal(100700000.0))
      && r.value.sampleRate == OptionOr(options, "sample_rate", VReal(2400000.0))
      && r.value.freqCorrection == OptionOr(options, "freq_correction", VInt(60))
      && r.value.gain == OptionOr(options, "gain", VText("auto"))
      && r.value.recordDelay == OptionOr(options, "record_delay", VInt(2))
      && r.value.sampleWindow == OptionOr(options, "sample_window", VInt(262144))
      && r.value.outputDir == OptionOr(options, "output_dir", VText("outputs"))
  {
    var m := MergeOptions(options);
    if !FiletypeAccepted(m["filetype"]) then Err(InvalidFiletype(m["filetype"]))
    else
      Ok(Settings(m["center_freq"], m["sample_rate"], m["freq_correction"], m["gain"],
                  m["record_delay"], m["sample_window"], m["filetype"].s, m["output_dir"]))
  }

  /** Construction with no options gives the defaults. */
  lemma DefaultSettings()
    ensures Configure(map[]) == Ok(Settings(VReal(100700000.0), VReal(2400000.0), VInt(60), VText("auto"),
                                            VInt(2), VInt(262144), "csv", VText("outputs")))
  {
  }

  /** The device as `_setup_rtl_sdr` configures it: centre frequency,
      frequency correction and gain (the sample rate is not set). */
  datatype Device = Device(centerFreq: Value, freqCorrection: Value, gain: Value)

  function SetupDevice(s: Settings): (d: Device)
    ensures d.centerFreq == s.centerFreq && d.freqCorrection == s.freqCorrection && d.gain == s.gain
  {
    Device(s.centerFreq, s.freqCorrection, s.gain)
  }

  /** The device does not depend on the sample rate, the delay, the window,
      the filetype or the output directory. */
  lemma SetupUsesRadioSettingsOnly(s: Settings, t: Settings)
    requires s.centerFreq == t.centerFreq && s.freqCorrection == t.freqCorrection && s.gain == t.gain
    ensures SetupDevice(s) == SetupDevice(t)
  {
  }

  /** `os.makedirs(path, exist_ok=True)` succeeds for a non-empty text path. */
  predicate DirOk(v: Value)
  {
    v.VText? && |v.s| > 0
  }

  /** The radio parameters an HDF5 recorder is built with. */
  function ParamsOf(s: Settings): Hdf5Recorder.Params
  {
    Hdf5Recorder.Params(s.centerFreq, s.sampleRate, s.freqCorrection, s.gain)
  }

  /** The recorder the session holds. */
  datatype AnyRecorder = Csv(csv: CsvRecorder.CSVRecorder) | Hdf5(hdf5: Hdf5Recorder.HDF5Recorder)
  {
    function Obj(): object
    {
      match this
      case Csv(c) => c
      case Hdf5(h) => h
    }
  }

  // --------------------------------------------------------------- file names

  /** The file a single recording goes to: with a name,
      `{dir}/{name}-sample_window{N}.{filetype}`, without one
      `{dir}/sample_window{N}.{filetype}`. */
  function Filename(fmt: Formatter, dir: Value, name: Option<Value>, window: Value, filetype: string): (r: string)
    ensures var d := ValueText(fmt, dir) + "/";
      |d| <= |r| && r[..|d|] == d
    ensures var e := "." + filetype;
      |e| <= |r| && r[|r| - |e|..] == e
  {
    var tail := "sample_window" + ValueText(fmt, window) + "." + filetype;
    if name.Some? then ValueText(fmt, dir) + "/" + ValueText(fmt, name.value) + "-" + tail
    else ValueText(fmt, dir) + "/" + tail
  }

  /** The recording name can be read back from a named file name: it is the
      text between the directory's "/" and "-sample_window". */
  lemma FilenameNameSegment(fmt: Formatter, dir: Value, name: Value, window: Value, filetype: string)
    ensures var r := Filename(fmt, dir, Some(name), window, filetype);
      var a := |ValueText(fmt, dir)| + 1;
      var n := ValueText(fmt, name);
      a + |n| + 14 <= |r| && r[a..a + |n|] == n && r[a + |n|..a + |n| + 14] == "-sample_window"
  {
    var r := Filename(fmt, dir, Some(name), window, filetype);
    var d := ValueText(fmt, dir) + "/";
    var n := ValueText(fmt, name);
    var t := "-sample_window" + ValueText(fmt, window) + "." + filetype;
    assert r == d + (n + t);
  }

  /** Different recording names (as text) give different files. */
  lemma FilenameInjective(fmt: Formatter, dir: Value, n1: Value, n2: Value, window: Value, filetype: string)
    requires Filename(fmt, dir, Some(n1), window, filetype) == Filename(fmt, dir, Some(n2), window, filetype)
    ensures ValueText(fmt, n1) == ValueText(fmt, n2)
  {
    FilenameNameSegment(fmt, dir, n1, window, filetype);
    FilenameNameSegment(fmt, dir, n2, window, filetype);
  }

  /** A named recording never shares its file with an unnamed one. */
  lemma NamedNotUnnamed(fmt: Formatter, dir: Value, name: Value, window: Value, filetype: string)
    ensures Filename(fmt, dir, Some(name), window, filetype) != Filename(fmt, dir, None, window, filetype)
  {
    assert |Filename(fmt, dir, Some(name), window, filetype)| > |Filename(fmt, dir, None, window, filetype)|;
  }

  // ------------------------------------------------------ saves by recorder

  /** The clock readings a save takes: the CSV writer one per sample, the
      HDF5 writer none beyond the first. */
  predicate ClockFits(r: AnyRecorder, call: Call)
  {
    r.Csv? ==> OneTickPerSample(call)
  }

  /** What one `recorder.save` does to the target file. */
  function SaveSpec(r: AnyRecorder, before: Option<File>, fmt: Formatter, call: Call): (o: SaveOutcome)
    requires ClockFits(r, call)
    ensures AppendMode(before, o.file)
  {
    match r
    case Csv(_) => CsvRecorder.SaveFile(before, fmt, call)
    case Hdf5(h) => Hdf5Recorder.SaveFile(before, h.params, fmt, call)
  }

  /** A run of saves to one file, stopping at the first exception. It keeps
      whatever the file held before it, and leaves no file only when there
      was none and nothing was saved. */
  function Replay(r: AnyRecorder, before: Option<File>, fmt: Formatter, calls: seq<Call>): (t: Trace)
    requires forall i :: 0 <= i < |calls| ==> ClockFits(r, calls[i])
    ensures before.Some? ==> t.file.Some? && Kept(before.value, t.file.value)
    ensures t.file.None? ==> before.None? && calls == []
    decreases |calls|
  {
    if calls == [] then
      if before.Some? then KeptReflexive(before.value); Trace(before, None) else Trace(before, None)
    else
      var prev := Replay(r, before, fmt, calls[..|calls| - 1]);
      if prev.error.Some? then prev
      else
        var o := SaveSpec(r, prev.file, fmt, calls[|calls| - 1]);
        if before.Some? then KeptTransitive(before.value, prev.file.value, o.file); Trace(Some(o.file), o.error)
        else Trace(Some(o.file), o.error)
  }

  /** The run is each recorder's own run of saves, so what is proved about
      those carries over to the session. */
  lemma {:induction false} ReplayIsSaveMany(r: AnyRecorder, before: Option<File>, fmt: Formatter, calls: seq<Call>)
    requires forall i :: 0 <= i < |calls| ==> ClockFits(r, calls[i])
    ensures r.Csv? ==> Replay(r, before, fmt, calls) == CsvRecorder.SaveMany(before, fmt, calls)
    ensures r.Hdf5? ==> Replay(r, before, fmt, calls) == Hdf5Recorder.SaveMany(before, r.hdf5.params, fmt, calls)
    decreases |calls|
  {
    if calls != [] {
      ReplayIsSaveMany(r, before, fmt, calls[..|calls| - 1]);
    }
  }

  lemma KeptReflexive(f: File)
    ensures Kept(f, f)
  {
    if f.TextFile? {
      assert f.lines[..|f.lines|] == f.lines;
    } else {
      forall k | k in f.groups ensures GroupKept(f.groups[k], f.groups[k]) {
        var g := f.groups[k];
        if g.reals.Some? { assert g.reals.value[..|g.reals.value|] == g.reals.value; }
        if g.imags.Some? { assert g.imags.value[..|g.imags.value|] == g.imags.value; }
        if g.timestamps.Some? { assert g.timestamps.value[..|g.timestamps.value|] == g.timestamps.value; }
      }
    }
  }

  /** A run that has stopped at an exception stays stopped. */
  lemma {:induction false} ReplayStops(r: AnyRecorder, before: Option<File>, fmt: Formatter, calls: seq<Call>, k: nat)
    requires forall i :: 0 <= i < |calls| ==> ClockFits(r, calls[i])
    requires k <= |calls|
    requires Replay(r, before, fmt, calls[..k]).error.Some?
    ensures Replay(r, before, fmt, calls) == Replay(r, before, fmt, calls[..k])
    decreases |calls|
  {
    if k < |calls| {
      var init := calls[..|calls| - 1];
      assert init[..k] == calls[..k];
      ReplayStops(r, before, fmt, init, k);
    } else {
      assert calls[..k] == calls;
    }
  }

  /** A continuous CSV session into a new or text file, with a delay the
      sleep accepts, never raises, and the file ends with one block (header
      and rows) per iteration and so holds one header per iteration more
      than before. */
  lemma ContinuousCsvRun(r: AnyRecorder, before: Option<File>, fmt: Formatter, calls: seq<Call>, delay: Value)
    requires r.Csv?
    requires forall i :: 0 <= i < |calls| ==> ClockFits(r, calls[i])
    requires before.None? || before.value.TextFile?
    requires calls != [] && DelayOk(delay)
    ensures var t := ContinuousRun(r, before, fmt, calls, delay);
      && t.error.None?
      && t.file == Some(TextFile(CsvRecorder.LinesOf(before) + CsvRecorder.Blocks(fmt, calls)))
      && CsvRecorder.CountHeaders(t.file.value.lines) == CsvRecorder.CountHeaders(CsvRecorder.LinesOf(before)) + |calls|
  {
    DelayOkRunsEverySave(r, before, fmt, calls, delay);
    ReplayIsSaveMany(r, before, fmt, calls);
    CsvRecorder.RepeatedSaves(before, fmt, calls);
    CsvRecorder.BlocksShape(fmt, calls);
    CsvRecorder.CountHeadersAppend(CsvRecorder.LinesOf(before), CsvRecorder.Blocks(fmt, calls));
  }

  /** A continuous HDF5 session of non-empty batches into a new file, with a
      delay the sleep accepts, never raises and leaves one group whose
      datasets are the batches in order. */
  lemma ContinuousHdf5Run(r: AnyRecorder, fmt: Formatter, calls: seq<Call>, delay: Value)
    requires r.Hdf5?
    requires forall i :: 0 <= i < |calls| ==> |calls[i].samples| > 0
    requires calls != [] && DelayOk(delay)
    ensures ContinuousRun(r, None, fmt, calls, delay)
      == RunTrace(Some(Hdf5File(map[Hdf5Recorder.GroupName := Hdf5Recorder.Collected(r.hdf5.params, fmt, calls)])), None)
    ensures |Hdf5Recorder.AllReals(calls)| == TotalSamples(calls)
  {
    DelayOkRunsEverySave(r, None, fmt, calls, delay);
    ReplayIsSaveMany(r, None, fmt, calls);
    Hdf5Recorder.RepeatedSaves(r.hdf5.params, fmt, calls);
  }

  /** `read_samples(sample_window)` returns a batch of exactly that many
      samples: for a whole-number window, the batch length is the window. */
  predicate FullWindow(window: Value, samples: seq<Sample>)
  {
    window.VInt? && window.i >= 0 ==> |samples| == window.i
  }

  /** Iterations that each read a full window save `k` windows of samples. */
  lemma {:induction false} WindowTotal(calls: seq<Call>, w: nat)
    requires forall i :: 0 <= i < |calls| ==> FullWindow(VInt(w), calls[i].samples)
    ensures TotalSamples(calls) == |calls| * w
    decreases |calls|
  {
    if calls != [] {
      WindowTotal(calls[..|calls| - 1], w);
    }
  }

  /** One more iteration of a run that has not stopped is one more save. */
  lemma ReplayNext(r: AnyRecorder, before: Option<File>, fmt: Formatter, calls: seq<Call>, i: nat)
    requires forall j :: 0 <= j < |calls| ==> ClockFits(r, calls[j])
    requires i < |calls|
    ensures var prev := Replay(r, before, fmt, calls[..i]);
      prev.error.None? ==>
        var o := SaveSpec(r, prev.file, fmt, calls[i]);
        Replay(r, before, fmt, calls[..i + 1]) == Trace(Some(o.file), o.error)
  {
    assert calls[..i + 1][..i] == calls[..i];
  }

  // ------------------------------------------------------ the continuous loop

  /** `time.sleep(int(record_delay))` returns: `int` accepts the value and
      the length it gives is not negative. */
  predicate DelayOk(v: Value)
    ensures v.VInt? ==> (DelayOk(v) <==> v.i >= 0)
    ensures v.VReal? ==> (DelayOk(v) <==> v.r > -1.0)
    ensures v.VText? ==> (DelayOk(v) ==> IntText(v.s))
    ensures v.VText? && IntText(v.s) && v.s[0] != '-' ==> DelayOk(v)
  {
    var n := IntOf(v);
    n.Some? && n.value >= 0
  }

  /** How a run of the continuous loop ends: with the exception a save
      raised, or with the `ValueError` of the sleep after a save. */
  datatype RunError = SaveFailed(cause: SaveError) | DelayRefused(delay: Value)

  datatype RunTrace = RunTrace(file: Option<File>, error: Option<RunError>)

  function Lift(t: Trace): RunTrace
  {
    RunTrace(t.file, if t.error.Some? then Some(SaveFailed(t.error.value)) else None)
  }

  /** The given iterations of the continuous loop with record delay `delay`:
      every iteration is one save followed by the sleep, so with a delay the
      sleep refuses the run ends right after its first save. */
  function ContinuousRun(r: AnyRecorder, before: Option<File>, fmt: Formatter, calls: seq<Call>, delay: Value): (t: RunTrace)
    requires forall i :: 0 <= i < |calls| ==> ClockFits(r, calls[i])
    ensures calls == [] ==> t == RunTrace(before, None)
    ensures before.Some? ==> t.file.Some? && Kept(before.value, t.file.value)
    ensures t.file.None? ==> before.None? && calls == []
    ensures calls != [] && !DelayOk(delay) ==> t.error.Some?
  {
    if DelayOk(delay) then Lift(Replay(r, before, fmt, calls))
    else if calls == [] then RunTrace(before, None)
    else
      var first := Replay(r, before, fmt, calls[..1]);
      RunTrace(first.file, Some(if first.error.Some? then SaveFailed(first.error.value) else DelayRefused(delay)))
  }

  /** With a delay the sleep accepts, the run is every save in turn and ends
      only at an exception of a save. */
  lemma DelayOkRunsEverySave(r: AnyRecorder, before: Option<File>, fmt: Formatter, calls: seq<Call>, delay: Value)
    requires forall i :: 0 <= i < |calls| ==> ClockFits(r, calls[i])
    requires DelayOk(delay)
    ensures var t := ContinuousRun(r, before, fmt, calls, delay);
      var s := Replay(r, before, fmt, calls);
      t.file == s.file && (t.error.None? <==> s.error.None?)
      && (s.error.Some? ==> t.error == Some(SaveFailed(s.error.value)))
  {
  }

  /** With a delay the sleep refuses (a text that is not a whole number, a
      negative length), exactly one save happens and the run always ends in
      an exception: the save's own, or the sleep's. */
  lemma RefusedDelayStopsAfterFirstSave(r: AnyRecorder, before: Option<File>, fmt: Formatter, calls: seq<Call>, delay: Value)
    requires forall i :: 0 <= i < |calls| ==> ClockFits(r, calls[i])
    requires !DelayOk(delay) && calls != []
    ensures var t := ContinuousRun(r, before, fmt, calls, delay);
      var o := SaveSpec(r, before, fmt, calls[0]);
      && t.file == Some(o.file)
      && t.error == Some(if o.error.Some? then SaveFailed(o.error.value) else DelayRefused(delay))
  {
    var one := calls[..1];
    assert one[..|one| - 1] == [];
    assert one[|one| - 1] == calls[0];
    assert Replay(r, before, fmt, one) == Trace(Some(SaveSpec(r, before, fmt, calls[0]).file), SaveSpec(r, before, fmt, calls[0]).error);
  }

  /** One more iteration of a run that has not stopped is one more save,
      then the sleep. */
  lemma ContinuousRunNext(r: AnyRecorder, before: Option<File>, fmt: Formatter, calls: seq<Call>, delay: Value, i: nat)
    requires forall j :: 0 <= j < |calls| ==> ClockFits(r, calls[j])
    requires i < |calls|
    requires ContinuousRun(r, before, fmt, calls[..i], delay).error.None?
    ensures var o := SaveSpec(r, ContinuousRun(r, before, fmt, calls[..i], delay).file, fmt, calls[i]);
      ContinuousRun(r, before, fmt, calls[..i + 1], delay)
        == RunTrace(Some(o.file), if o.error.Some? then Some(SaveFailed(o.error.value))
                                  else if !DelayOk(delay) then Some(DelayRefused(delay)) else None)
  {
    ReplayNext(r, before, fmt, calls, i);
    if !DelayOk(delay) {
      assert i == 0;
      RefusedDelayStopsAfterFirstSave(r, before, fmt, calls[..1], delay);
    }
  }

  /** A run that has stopped stays stopped. */
  lemma ContinuousRunStops(r: AnyRecorder, before: Option<File>, fmt: Formatter, calls: seq<Call>, delay: Value, i: nat)
    requires forall j :: 0 <= j < |calls| ==> ClockFits(r, calls[j])
    requires i <= |calls|
    requires ContinuousRun(r, before, fmt, calls[..i], delay).error.Some?
    ensures ContinuousRun(r, before, fmt, calls, delay) == ContinuousRun(r, before, fmt, calls[..i], delay)
  {
    if DelayOk(delay) {
      ReplayStops(r, before, fmt, calls, i);
    } else {
      assert calls[..i][..1] == calls[..1];
    }
  }

  /** The default delay of 2 seconds never stops the loop; the text "auto"
      or a negative length does, after the first save. */
  lemma DelayExamples()
    ensures DelayOk(VInt(2)) && DelayOk(VText("+3")) && DelayOk(VReal(0.5))
    ensures !DelayOk(VText("auto")) && !DelayOk(VInt(-1)) && !DelayOk(VText("-4")) && !DelayOk(VText(""))
  {
    assert "+3"[1..] == "3" && "-4"[1..] == "4";
    assert DigitsValue("3") == 3 by { assert "3"[..0] == []; }
    assert DigitsValue("4") == 4 by { assert "4"[..0] == []; }
    assert IntText("+3") by { assert "+3"[0] == '+' && "3"[0] == '3'; }
    assert IntText("-4") by { assert "-4"[0] == '-' && "4"[0] == '4'; }
    assert IntOf(VText("-4")) == Some(-4);
    assert !IntText("auto") by { assert "auto"[0] == 'a'; }
  }

  /** The file map after a run: the target path holds the run's file, if
      there is one. */
  function Store(files: map<string, File>, path: string, f: Option<File>): map<string, File>
  {
    if f.Some? then files[path := f.value] else files
  }

  lemma StoreNext(files: map<string, File>, path: string, f: Option<File>, x: File)
    ensures Store(files, path, f)[path := x] == Store(files, path, Some(x))
  {
  }

  // ---------------------------------------------------------------- session

  class RTLSDRInterface {
    const options: map<string, Value>
    const settings: Settings
    const recorder: AnyRecorder
    var sdr: Option<Device>

    /** The recorder matches the filetype, and an HDF5 recorder carries the
        session's radio parameters. */
    predicate Valid()
    {
      && settings.filetype in AvailableFiletypes
      && (recorder.Hdf5? <==> settings.filetype == "hdf5")
      && (recorder.Hdf5? ==> recorder.hdf5.params == ParamsOf(settings))
    }

    constructor (options: map<string, Value>, settings: Settings, sdr: Device, recorder: AnyRecorder)
      ensures this.options == options && this.settings == settings
      ensures this.sdr == Some(sdr) && this.recorder == recorder
    {
      this.options := options;
      this.settings := settings;
      this.sdr := Some(sdr);
      this.recorder := recorder;
    }

    /** `RTLSDRInterface(sdr, **options)`. The filetype is checked first; an
        unavailable one raises before any device is set up or directory made.
        Then the caller's device is kept or a new one set up, the output
        directory made, and the recorder chosen by filetype. */
    static method New(sdr: Option<Device>, options: map<string, Value>, disk: Disk)
      returns (r: Result<RTLSDRInterface, InitError>)
      modifies disk
      ensures disk.files == old(disk.files)
      ensures var c := Configure(options);
        && (c.Err? ==> r == Err(c.error) && disk.dirs == old(disk.dirs))
        && (c.Ok? && !DirOk(c.value.outputDir) ==> r == Err(MakedirsFailed(c.value.outputDir)) && disk.dirs == old(disk.dirs))
        && (c.Ok? && DirOk(c.value.outputDir) ==> r.Ok? && disk.dirs == old(disk.dirs) + {c.value.outputDir.s})
      ensures r.Ok? ==>
        var s := r.value;
        && fresh(s) && fresh(s.recorder.Obj()) && s.Valid()
        && s.options == MergeOptions(options)
        && s.settings == Configure(options).value
        && s.sdr == (if sdr.Some? then sdr else Some(SetupDevice(s.settings)))
        && (s.recorder.Hdf5? <==> s.settings.filetype == "hdf5")
        && (s.recorder.Csv? ==> s.recorder.csv.startRecordingTime.None? && s.recorder.csv.stopRecordingTime.None?)
        && (s.recorder.Hdf5? ==> s.recorder.hdf5.startRecordingTime.None? && s.recorder.hdf5.stopRecordingTime.None?)
    {
      var c := Configure(options);
      if c.Err? {
        return Err(c.error);
      }
      var settings := c.value;
      var device := if sdr.None? then SetupDevice(settings) else sdr.value;
      if !DirOk(settings.outputDir) {
        return Err(MakedirsFailed(settings.outputDir));
      }
      disk.dirs := disk.dirs + {settings.outputDir.s};
      var recorder: AnyRecorder;
      if settings.filetype == "hdf5" {
        var h := new Hdf5Recorder.HDF5Recorder(ParamsOf(settings));
        recorder := Hdf5(h);
      } else {
        var c := new CsvRecorder.CSVRecorder();
        recorder := Csv(c);
      }
      var s := new RTLSDRInterface(MergeOptions(options), settings, device, recorder);
      r := Ok(s);
    }

    /** The file `record_single_sample(name)` writes. */
    function FileFor(fmt: Formatter, name: Option<Value>): string
    {
      Filename(fmt, settings.outputDir, name, settings.sampleWindow, settings.filetype)
    }

    /** `record_single_sample(name)` with the batch the device returns and the
        clock readings the save takes. With no device it only sets one up:
        nothing is read or saved. Otherwise it makes exactly one save of the
        batch to the derived file. */
    method RecordSingleSample(name: Option<Value>, samples: seq<Sample>, clock: Clock, disk: Disk, fmt: Formatter)
      returns (err: Option<SaveError>)
      requires Valid()
      requires recorder.Csv? ==> |clock.ticks| == |samples|
      requires sdr.Some? ==> FullWindow(settings.sampleWindow, samples)
      modifies this, disk
      ensures disk.dirs == old(disk.dirs)
      ensures old(sdr).None? ==> sdr == Some(SetupDevice(settings)) && err.None? && disk.files == old(disk.files)
      ensures old(sdr).Some? ==>
        && sdr == old(sdr)
        && var path := FileFor(fmt, name);
        && var o := SaveSpec(recorder, FileAt(old(disk.files), path), fmt, Call(samples, clock));
        && err == o.error && disk.files == old(disk.files)[path := o.file]
    {
      var filename := FileFor(fmt, name);
      if sdr.None? {
        sdr := Some(SetupDevice(settings));
        err := None;
      } else {
        match recorder
        case Csv(c) => err := c.Save(disk, samples, filename, clock, fmt);
        case Hdf5(h) => err := h.Save(disk, samples, filename, clock, fmt);
      }
    }

    /** `start_recording_continuous_samples` run for the given iterations:
        the recorder's start time is set once, a missing device is set up, and
        every iteration saves under the start time as recording name and then
        sleeps `int(record_delay)` seconds, so the whole run goes to one file
        and stops at the first exception of a save or of the sleep. */
    method StartRecordingContinuousSamples(start: real, calls: seq<Call>, disk: Disk, fmt: Formatter)
      returns (err: Option<RunError>)
      requires Valid()
      requires forall i :: 0 <= i < |calls| ==> ClockFits(recorder, calls[i])
      requires forall i :: 0 <= i < |calls| ==> FullWindow(settings.sampleWindow, calls[i].samples)
      modifies this, disk, recorder.Obj()
      ensures sdr == (if old(sdr).Some? then old(sdr) else Some(SetupDevice(settings)))
      ensures recorder.Csv? ==>
        recorder.csv.startRecordingTime == Some(start) && recorder.csv.stopRecordingTime == old(recorder.csv.stopRecordingTime)
      ensures recorder.Hdf5? ==>
        recorder.hdf5.startRecordingTime == Some(start) && recorder.hdf5.stopRecordingTime == old(recorder.hdf5.stopRecordingTime)
      ensures disk.dirs == old(disk.dirs)
      ensures var path := FileFor(fmt, Some(VReal(start)));
        var t := ContinuousRun(recorder, FileAt(old(disk.files), path), fmt, calls, settings.recordDelay);
        err == t.error && disk.files == Store(old(disk.files), path, t.file)
    {
      match recorder {
        case Csv(c) => c.StartRecording(start);
        case Hdf5(h) => h.StartRecording(start);
      }
      if sdr.None? {
        sdr := Some(SetupDevice(settings));
      }
      err := Iterate(start, calls, disk, fmt);
    }

    /** The iterations of the continuous loop once the device is set up: a
        save under the start time as recording name, then the sleep, until
        one of the two raises. */
    method Iterate(start: real, calls: seq<Call>, disk: Disk, fmt: Formatter)
      returns (err: Option<RunError>)
      requires Valid() && sdr.Some?
      requires forall i :: 0 <= i < |calls| ==> ClockFits(recorder, calls[i])
      requires forall i :: 0 <= i < |calls| ==> FullWindow(settings.sampleWindow, calls[i].samples)
      modifies this, disk
      ensures sdr == old(sdr)
      ensures disk.dirs == old(disk.dirs)
      ensures var path := FileFor(fmt, Some(VReal(start)));
        var t := ContinuousRun(recorder, FileAt(old(disk.files), path), fmt, calls, settings.recordDelay);
        err == t.error && disk.files == Store(old(disk.files), path, t.file)
    {
      var path := FileFor(fmt, Some(VReal(start)));
      ghost var before := FileAt(disk.files, path);
      ghost var files0 := disk.files;
      ghost var f := before;
      ghost var delay := settings.recordDelay;
      err := None;
      var i := 0;
      assert calls[..0] == [];
      while i < |calls| && err.None?
        invariant 0 <= i <= |calls|
        invariant sdr == old(sdr)
        invariant disk.dirs == old(disk.dirs)
        invariant ContinuousRun(recorder, before, fmt, calls[..i], delay) == RunTrace(f, err)
        invariant disk.files == Store(files0, path, f)
        invariant FileAt(disk.files, path) == f
      {
        ContinuousRunNext(recorder, before, fmt, calls, delay, i);
        var saveErr := RecordSingleSample(Some(VReal(start)), calls[i].samples, calls[i].clock, disk, fmt);
        StoreNext(files0, path, f, disk.files[path]);
        f := Some(disk.files[path]);
        i := i + 1;
        if saveErr.Some? {
          err := Some(SaveFailed(saveErr.value));
        } else if !DelayOk(settings.recordDelay) {
          err := Some(DelayRefused(settings.recordDelay));
        }
      }
      if i < |calls| {
        ContinuousRunStops(recorder, before, fmt, calls, delay, i);
      } else {
        assert calls[..i] == calls;
      }
    }
  }
}
