/** The CSV recorder: each save opens the file in append mode, writes the
    header line, then one line per sample. */
module CsvRecorder {
  import opened Common
  import opened Timestamps
  import opened Storage
  import opened Recorder

  const Header: string := "Real Value,Imaginary Value,TimeStamp"

  /** One data line, `f"{sample.real},{sample.imag},{timestamp}"`. */
  function Row(fmt: Formatter, s: Sample, stamp: Stamp): (r: string)
    requires 0 <= stamp.micro <= 999999
    ensures |r| > 0 && IsDigit(r[|r| - 1])
  {
    var t := StampText(fmt, stamp);
    assert t[|t| - 1] == DigitChar(stamp.micro % 10);
    fmt.number(s.re) + "," + fmt.number(s.im) + "," + t
  }

  /** The line written for sample `i` of a call. */
  function RowAt(fmt: Formatter, call: Call, i: nat): string
    requires |call.clock.ticks| == |call.samples| && i < |call.samples|
  {
    Row(fmt, call.samples[i], CsvStamp(call.clock.start, call.clock.ticks[i]))
  }

  /** Everything one save writes: the header, then one line per sample, in
      sample order. */
  function Block(fmt: Formatter, call: Call): (b: seq<string>)
    requires OneTickPerSample(call)
    ensures |b| == 1 + |call.samples|
    ensures b[0] == Header
    ensures forall i :: 0 <= i < |call.samples| ==> b[1 + i] == RowAt(fmt, call, i)
  {
    [Header] + seq(|call.samples|, i requires 0 <= i < |call.samples| => RowAt(fmt, call, i))
  }

  /** One more data line extends a prefix of the block by that line. */
  lemma BlockPrefixStep(fmt: Formatter, call: Call, i: nat)
    requires OneTickPerSample(call) && i < |call.samples|
    ensures Block(fmt, call)[..2 + i] == Block(fmt, call)[..1 + i] + [RowAt(fmt, call, i)]
  {
  }

  function LinesOf(f: Option<File>): seq<string>
  {
    if f.Some? && f.value.TextFile? then f.value.lines else []
  }

  /** The file after one save, given the file before (absent if none). */
  function SaveFile(before: Option<File>, fmt: Formatter, call: Call): (o: SaveOutcome)
    requires OneTickPerSample(call)
    ensures AppendMode(before, o.file)
    ensures o.error.None? <==> !(before.Some? && before.value.Hdf5File?)
    ensures o.error.None? ==>
      && o.file.TextFile?
      && o.file.lines[..|LinesOf(before)|] == LinesOf(before)
      && o.file.lines[|LinesOf(before)|..] == Block(fmt, call)
    ensures o.error.Some? ==> o.error == Some(NotText) && Some(o.file) == before
  {
    if before.Some? && before.value.Hdf5File? then SaveOutcome(before.value, Some(NotText))
    else
      var lines := LinesOf(before) + Block(fmt, call);
      assert lines[..|LinesOf(before)|] == LinesOf(before);
      SaveOutcome(TextFile(lines), None)
  }

  // ------------------------------------------------------- header counting

  function CountHeaders(lines: seq<string>): nat
  {
    if lines == [] then 0
    else CountHeaders(lines[..|lines| - 1]) + (if lines[|lines| - 1] == Header then 1 else 0)
  }

  lemma {:induction false} CountHeadersAppend(a: seq<string>, b: seq<string>)
    ensures CountHeaders(a + b) == CountHeaders(a) + CountHeaders(b)
  {
    if b != [] {
      assert (a + b)[..|a + b| - 1] == a + b[..|b| - 1];
      CountHeadersAppend(a, b[..|b| - 1]);
    } else {
      assert a + b == a;
    }
  }

  /** Lines none of which is the header hold no header line. */
  lemma {:induction false} NoHeaders(lines: seq<string>)
    requires forall i :: 0 <= i < |lines| ==> lines[i] != Header
    ensures CountHeaders(lines) == 0
    decreases |lines|
  {
    if lines != [] {
      var init := lines[..|lines| - 1];
      assert forall i :: 0 <= i < |init| ==> init[i] == lines[i];
      NoHeaders(init);
    }
  }

  /** A line ending in a digit is not the header, which ends in 'p'. */
  lemma RowIsNotHeader(line: string)
    requires |line| > 0 && IsDigit(line[|line| - 1])
    ensures line != Header
  {
    assert Header[|Header| - 1] == 'p';
  }

  /** One save adds exactly one header line and `1 + len(samples)` lines. */
  lemma BlockHasOneHeader(fmt: Formatter, call: Call)
    requires OneTickPerSample(call)
    ensures CountHeaders(Block(fmt, call)) == 1
  {
    var b := Block(fmt, call);
    forall i | 1 <= i < |b| ensures b[i] != Header {
      RowIsNotHeader(b[i]);
    }
    OnlyFirstIsHeader(b, |b| - 1);
    assert b[..|b|] == b;
  }

  /** Lines that start with the header and have no other header line hold
      one header line in every non-empty prefix. */
  lemma {:induction false} OnlyFirstIsHeader(lines: seq<string>, k: nat)
    requires k < |lines| && lines[0] == Header
    requires forall i :: 1 <= i < |lines| ==> lines[i] != Header
    ensures CountHeaders(lines[..1 + k]) == 1
  {
    if k == 0 {
      assert lines[..1][..0] == [];
    } else {
      assert lines[..1 + k][..k] == lines[..k];
      OnlyFirstIsHeader(lines, k - 1);
    }
  }

  /** On a fresh file one save leaves the header first and exactly one data
      line per sample after it. */
  lemma FreshFileSave(fmt: Formatter, call: Call)
    requires OneTickPerSample(call)
    ensures var o := SaveFile(None, fmt, call);
      && o.error.None? && o.file.TextFile?
      && |o.file.lines| == 1 + |call.samples| && o.file.lines[0] == Header
      && CountHeaders(o.file.lines) == 1
      && CountHeaders(o.file.lines[1..]) == 0
  {
    AppendsBlock(None, fmt, call);
    assert LinesOf(None) + Block(fmt, call) == Block(fmt, call);
    BlockCounts(fmt, call);
  }

  /** The block holds one header line, and none after its first line. */
  lemma BlockCounts(fmt: Formatter, call: Call)
    requires OneTickPerSample(call)
    ensures CountHeaders(Block(fmt, call)) == 1
    ensures CountHeaders(Block(fmt, call)[1..]) == 0
  {
    BlockHasOneHeader(fmt, call);
    var rows := Block(fmt, call)[1..];
    forall i | 0 <= i < |rows| ensures rows[i] != Header {
      RowIsNotHeader(rows[i]);
    }
    NoHeaders(rows);
  }

  // --------------------------------------------------------- repeated saves

  function SaveMany(before: Option<File>, fmt: Formatter, calls: seq<Call>): (t: Trace)
    requires forall i :: 0 <= i < |calls| ==> OneTickPerSample(calls[i])
    decreases |calls|
  {
    if calls == [] then Trace(before, None)
    else
      var prev := SaveMany(before, fmt, calls[..|calls| - 1]);
      if prev.error.Some? then prev
      else
        var o := SaveFile(prev.file, fmt, calls[|calls| - 1]);
        Trace(Some(o.file), o.error)
  }

  /** The lines `calls` write, one block after another. */
  function Blocks(fmt: Formatter, calls: seq<Call>): seq<string>
    requires forall i :: 0 <= i < |calls| ==> OneTickPerSample(calls[i])
    decreases |calls|
  {
    if calls == [] then [] else Blocks(fmt, calls[..|calls| - 1]) + Block(fmt, calls[|calls| - 1])
  }

  /** `k` saves write `k` header lines (one per call, since the header is
      written unconditionally) and `k + ` (total samples) lines in all. */
  lemma {:induction false} BlocksShape(fmt: Formatter, calls: seq<Call>)
    requires forall i :: 0 <= i < |calls| ==> OneTickPerSample(calls[i])
    ensures CountHeaders(Blocks(fmt, calls)) == |calls|
    ensures |Blocks(fmt, calls)| == |calls| + TotalSamples(calls)
    decreases |calls|
  {
    if calls != [] {
      var init := calls[..|calls| - 1];
      BlocksShape(fmt, init);
      BlockHasOneHeader(fmt, calls[|calls| - 1]);
      CountHeadersAppend(Blocks(fmt, init), Block(fmt, calls[|calls| - 1]));
    }
  }

  /** Saving repeatedly to a text file (or to a path with no file) never
      fails, keeps the earlier lines as a prefix and appends the blocks in
      call order. */
  lemma {:induction false} RepeatedSaves(before: Option<File>, fmt: Formatter, calls: seq<Call>)
    requires forall i :: 0 <= i < |calls| ==> OneTickPerSample(calls[i])
    requires before.None? || before.value.TextFile?
    ensures var t := SaveMany(before, fmt, calls);
      && t.error.None?
      && t.file == (if calls == [] then before else Some(TextFile(LinesOf(before) + Blocks(fmt, calls))))
    decreases |calls|
  {
    if calls != [] {
      var init, last := calls[..|calls| - 1], calls[|calls| - 1];
      RepeatedSaves(before, fmt, init);
      var prev := SaveMany(before, fmt, init);
      var l := LinesOf(before) + Blocks(fmt, init);
      assert prev.error.None? && prev.file == (if init == [] then before else Some(TextFile(l)));
      assert LinesOf(prev.file) == l by {
        if init == [] { assert Blocks(fmt, init) == []; }
      }
      AppendsBlock(prev.file, fmt, last);
      assert SaveMany(before, fmt, calls) == Trace(Some(SaveFile(prev.file, fmt, last).file), None);
      var l0, bi, b := LinesOf(before), Blocks(fmt, init), Block(fmt, last);
      assert Blocks(fmt, calls) == bi + b;
      ConcatAssoc(l0, bi, b);
    }
  }

  lemma AppendsBlock(before: Option<File>, fmt: Formatter, call: Call)
    requires OneTickPerSample(call)
    requires before.None? || before.value.TextFile?
    ensures SaveFile(before, fmt, call) == SaveOutcome(TextFile(LinesOf(before) + Block(fmt, call)), None)
  {
    var o := SaveFile(before, fmt, call);
    var l := LinesOf(before);
    assert o.file.lines == o.file.lines[..|l|] + o.file.lines[|l|..];
  }

  /** `k` saves to a new file leave `k` header lines, because the header is
      written on every call, and one data line per sample saved. */
  lemma KSavesKHeaders(fmt: Formatter, calls: seq<Call>)
    requires forall i :: 0 <= i < |calls| ==> OneTickPerSample(calls[i])
    requires calls != []
    ensures var t := SaveMany(None, fmt, calls);
      && t.error.None? && t.file.Some? && t.file.value.TextFile?
      && CountHeaders(t.file.value.lines) == |calls|
      && |t.file.value.lines| - CountHeaders(t.file.value.lines) == TotalSamples(calls)
  {
    RepeatedSaves(None, fmt, calls);
    BlocksShape(fmt, calls);
    assert LinesOf(None) + Blocks(fmt, calls) == Blocks(fmt, calls);
  }

  // ---------------------------------------------------------- reading back

  /** Splitting a line at its commas, as a CSV reader does. */
  function Fields(s: string): (r: seq<string>)
    ensures |r| >= 1
  {
    if s == [] then [""]
    else
      var rest := Fields(s[1..]);
      if s[0] == ',' then [""] + rest else [[s[0]] + rest[0]] + rest[1..]
  }

  lemma {:induction false} FieldsOfPlain(a: string)
    requires ',' !in a
    ensures Fields(a) == [a]
  {
    if a != [] {
      assert ',' !in a[1..] by { assert forall i :: 0 <= i < |a| - 1 ==> a[1..][i] == a[i + 1]; }
      FieldsOfPlain(a[1..]);
      assert [a[0]] + a[1..] == a;
    }
  }

  lemma {:induction false} FieldsOfJoin(a: string, b: string)
    requires ',' !in a
    ensures Fields(a + "," + b) == [a] + Fields(b)
  {
    if a == [] {
      assert a + "," + b == [','] + b;
      assert ([','] + b)[1..] == b;
    } else {
      assert (a + "," + b)[1..] == a[1..] + "," + b;
      FieldsOfJoin(a[1..], b);
      assert [a[0]] + a[1..] == a;
    }
  }

  /** The renderings contain no comma. */
  ghost predicate CommaFree(fmt: Formatter)
  {
    && (forall x: real :: ',' !in fmt.number(x))
    && (forall s: int :: ',' !in fmt.datePrefix(s))
  }

  /** A data line reads back as three fields: the real part, the imaginary
      part and the timestamp, each as rendered. */
  lemma RowReadsBack(fmt: Formatter, s: Sample, stamp: Stamp)
    requires CommaFree(fmt)
    requires 0 <= stamp.micro <= 999999
    ensures Fields(Row(fmt, s, stamp)) == [fmt.number(s.re), fmt.number(s.im), StampText(fmt, stamp)]
  {
    var a, b, t := fmt.number(s.re), fmt.number(s.im), StampText(fmt, stamp);
    assert ',' !in fmt.datePrefix(stamp.second);
    var p := PadDigits(stamp.micro, 6);
    assert forall i :: 0 <= i < |p| ==> IsDigit(p[i]);
    assert ',' !in t;
    assert Row(fmt, s, stamp) == a + "," + (b + "," + t);
    FieldsOfJoin(a, b + "," + t);
    FieldsOfJoin(b, t);
    FieldsOfPlain(t);
  }

  // -------------------------------------------------------------- the class

  class CSVRecorder {
    var startRecordingTime: Option<real>
    var stopRecordingTime: Option<real>

    constructor ()
      ensures startRecordingTime == None && stopRecordingTime == None
    {
      startRecordingTime := None;
      stopRecordingTime := None;
    }

    method StartRecording(t: real)
      modifies this
      ensures startRecordingTime == Some(t) && stopRecordingTime == old(stopRecordingTime)
    {
      startRecordingTime := Some(t);
    }

    method StopRecording(t: real)
      modifies this
      ensures stopRecordingTime == Some(t) && startRecordingTime == old(startRecordingTime)
    {
      stopRecordingTime := Some(t);
    }

    /** Opens `filename` for appending, writes the header, then one line per
        sample, each with the clock reading taken for it. */
    method Save(disk: Disk, samples: seq<Sample>, filename: string, clock: Clock, fmt: Formatter)
      returns (err: Option<SaveError>)
      requires |clock.ticks| == |samples|
      modifies disk
      ensures var o := SaveFile(FileAt(old(disk.files), filename), fmt, Call(samples, clock));
        err == o.error && disk.files == old(disk.files)[filename := o.file]
      ensures disk.dirs == old(disk.dirs)
    {
      ghost var call := Call(samples, clock);
      if filename in disk.files && disk.files[filename].Hdf5File? {
        err := Some(NotText);
        assert disk.files == disk.files[filename := disk.files[filename]];
        return;
      }
      ghost var before := LinesOf(FileAt(disk.files, filename));
      var lines := if filename in disk.files then disk.files[filename].lines else [];
      lines := lines + [Header];
      disk.files := disk.files[filename := TextFile(lines)];
      assert Block(fmt, call)[..1] == [Header];
      for i := 0 to |samples|
        invariant lines == before + Block(fmt, call)[..1 + i]
        invariant disk.files == old(disk.files)[filename := TextFile(lines)]
        invariant disk.dirs == old(disk.dirs)
      {
        var stamp := CsvStamp(clock.start, clock.ticks[i]);
        var row := Row(fmt, samples[i], stamp);
        assert row == RowAt(fmt, call, i);
        BlockPrefixStep(fmt, call, i);
        ConcatAssoc(before, Block(fmt, call)[..1 + i], [row]);
        lines := lines + [row];
        disk.files := disk.files[filename := TextFile(lines)];
      }
      assert Block(fmt, call)[..1 + |samples|] == Block(fmt, call);
      AppendsBlock(FileAt(old(disk.files), filename), fmt, call);
      err := None;
    }
  }
}
