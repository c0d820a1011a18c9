/** The HDF5 recorder: each save opens the container in append mode, works
    in the group `recording_data`, creates the datasets `real`, `imag` and
    `timestamps` at the batch length or grows each by the batch length and
    writes the batch into the tail, then writes each metadata attribute that
    is still absent. */
module Hdf5Recorder {
  import opened Common
  import opened Timestamps
  import opened Storage
  import opened Recorder

  const GroupName: string := "recording_data"

  /** The radio parameters stored as the group's metadata. */
  datatype Params = Params(centerFreq: Value, sampleRate: Value, freqCorrection: Value, gain: Value)

  const MetadataKeys: set<string> := {"center_freq", "sample_rate", "freq_correction", "gain"}

  /** The group after a save, and the exception, if any. */
  datatype GroupOutcome = GroupOutcome(group: Group, error: Option<SaveError>)

  /** `if key not in attrs: attrs[key] = v`. */
  function SetOnce(attrs: map<string, Value>, key: string, v: Value): map<string, Value>
  {
    if key in attrs then attrs else attrs[key := v]
  }

  /** The four guarded attribute writes: afterwards all four are present, an
      attribute already there keeps its value, and only the absent ones take
      this recorder's parameters. */
  function WriteMetadata(attrs: map<string, Value>, p: Params): (r: map<string, Value>)
    ensures r.Keys == attrs.Keys + MetadataKeys
    ensures forall k :: k in attrs ==> r[k] == attrs[k]
    ensures "center_freq" !in attrs ==> r["center_freq"] == p.centerFreq
    ensures "sample_rate" !in attrs ==> r["sample_rate"] == p.sampleRate
    ensures "freq_correction" !in attrs ==> r["freq_correction"] == p.freqCorrection
    ensures "gain" !in attrs ==> r["gain"] == p.gain
  {
    var a1 := SetOnce(attrs, "center_freq", p.centerFreq);
    var a2 := SetOnce(a1, "sample_rate", p.sampleRate);
    var a3 := SetOnce(a2, "freq_correction", p.freqCorrection);
    SetOnce(a3, "gain", p.gain)
  }

  /** `dataset.resize((dataset.shape[0] + n,))`: `n` new entries holding the
      fill value. */
  function Resize<T>(col: seq<T>, n: nat, fill: T): (r: seq<T>)
    ensures |r| == |col| + n && r[..|col|] == col
  {
    col + seq(n, _ => fill)
  }

  /** `dataset[-len(data):] = data`. In Python `-0` is `0`, so for empty
      data the slice is the whole dataset, and h5py refuses to write no
      values into a non-empty selection. */
  function WriteTail<T>(col: seq<T>, data: seq<T>): (r: Option<seq<T>>)
    requires |data| <= |col|
    ensures r.Some? <==> (|data| > 0 || |col| == 0)
    ensures r.Some? ==>
      && |r.value| == |col|
      && r.value[..|col| - |data|] == col[..|col| - |data|]
      && r.value[|col| - |data|..] == data
  {
    var start := if |data| == 0 then 0 else |col| - |data|;
    if |col| - start != |data| then None
    else
      var r := col[..start] + data;
      assert r[..start] == col[..start];
      Some(r)
  }

  function ColumnLength<T>(c: Option<seq<T>>): nat { if c.Some? then |c.value| else 0 }

  /** When a save of `n` samples into group `g` raises nothing: either `real`
      is absent and so are the two others (they are created), or `real` is
      present and so are the two others (they are grown), and a batch of no
      samples meets only empty datasets. */
  predicate SaveSucceeds(g: Group, n: nat)
  {
    if g.reals.None? then g.imags.None? && g.timestamps.None?
    else
      && g.imags.Some? && g.timestamps.Some?
      && (n == 0 ==> ColumnLength(g.reals) == 0 && ColumnLength(g.imags) == 0 && ColumnLength(g.timestamps) == 0)
  }

  /** One save into the group, following the source statement by statement. */
  function SaveGroup(g: Group, p: Params, batch: seq<Sample>, stamps: seq<string>): (o: GroupOutcome)
    requires |stamps| == |batch|
    // earlier entries and attributes never change, error or not
    ensures GroupKept(g, o.group)
    ensures o.error.None? <==> SaveSucceeds(g, |batch|)
    // the grow branch is chosen by `real` alone; a missing partner fails the lookup
    ensures g.reals.Some? && g.imags.None? ==> o == GroupOutcome(g, Some(MissingColumn("imag")))
    ensures g.reals.Some? && g.imags.Some? && g.timestamps.None? ==>
      o == GroupOutcome(g, Some(MissingColumn("timestamps")))
    // create branch
    ensures g.reals.None? ==> o.group.reals == Some(Reals(batch))
    ensures g.reals.None? && g.imags.None? ==> o.group.imags == Some(Imags(batch))
    ensures g.reals.None? && o.error.None? ==> o.group.timestamps == Some(stamps)
    // grow branch: every dataset gets exactly the batch after its old entries
    ensures g.reals.Some? && o.error.None? ==>
      && o.group.reals == Some(g.reals.value + Reals(batch))
      && o.group.imags == Some(g.imags.value + Imags(batch))
      && o.group.timestamps == Some(g.timestamps.value + stamps)
    // set-once metadata
    ensures o.error.None? ==> o.group.attrs == WriteMetadata(g.attrs, p)
    ensures o.error.Some? ==> o.group.attrs == g.attrs
  {
    var n := |batch|;
    if g.reals.Some? then
      if g.imags.None? then GroupOutcome(g, Some(MissingColumn("imag")))
      else if g.timestamps.None? then GroupOutcome(g, Some(MissingColumn("timestamps")))
      else
        var r := Resize(g.reals.value, n, 0.0);
        var i := Resize(g.imags.value, n, 0.0);
        var t := Resize(g.timestamps.value, n, "");
        var grown := g.(reals := Some(r), imags := Some(i), timestamps := Some(t));
        var r' := WriteTail(r, Reals(batch));
        if r'.None? then GroupOutcome(grown, Some(BroadcastError("real")))
        else
          var i' := WriteTail(i, Imags(batch));
          if i'.None? then GroupOutcome(grown.(reals := r'), Some(BroadcastError("imag")))
          else
            var t' := WriteTail(t, stamps);
            if t'.None? then GroupOutcome(grown.(reals := r', imags := i'), Some(BroadcastError("timestamps")))
            else
              assert r'.value == g.reals.value + Reals(batch) by {
                assert r'.value == r'.value[..|g.reals.value|] + r'.value[|g.reals.value|..];
              }
              assert i'.value == g.imags.value + Imags(batch) by {
                assert i'.value == i'.value[..|g.imags.value|] + i'.value[|g.imags.value|..];
              }
              assert t'.value == g.timestamps.value + stamps by {
                assert t'.value == t'.value[..|g.timestamps.value|] + t'.value[|g.timestamps.value|..];
              }
              GroupOutcome(Group(r', i', t', WriteMetadata(g.attrs, p)), None)
    else
      var created := g.(reals := Some(Reals(batch)));
      if g.imags.Some? then GroupOutcome(created, Some(ColumnExists("imag")))
      else
        var created' := created.(imags := Some(Imags(batch)));
        if g.timestamps.Some? then GroupOutcome(created', Some(ColumnExists("timestamps")))
        else GroupOutcome(created'.(timestamps := Some(stamps), attrs := WriteMetadata(g.attrs, p)), None)
  }

  function GroupsOf(f: Option<File>): map<string, Group>
  {
    if f.Some? && f.value.Hdf5File? then f.value.groups else map[]
  }

  /** `recording_data` of the file, or a fresh group if it has none. */
  function DataGroup(f: Option<File>): Group
  {
    var gs := GroupsOf(f);
    if GroupName in gs then gs[GroupName] else EmptyGroup
  }

  /** The timestamp column of one save whose clock reading is `now`, as
      written: sample `i` gets the stamp of its instant `now + i / n`. */
  function SaveStamps(fmt: Formatter, now: real, n: nat): (r: seq<string>)
    ensures |r| == n
    ensures forall i :: 0 <= i < n ==> |r[i]| <= 26
    ensures forall i :: 0 <= i < n ==> r[i] == FixedS26(StampText(fmt, SourceStamp(BatchTimes(now, n)[i])))
  {
    var stamps := SourceStamps(now, n);
    var r := StampColumn(fmt, stamps);
    forall i | 0 <= i < n ensures |r[i]| <= 26 { StoredStampShape(fmt, stamps[i]); }
    r
  }

  /** The file after one save, given the file before (absent if none): the
      save always works in `recording_data`, creating it if absent and
      reusing it otherwise, and leaves every other group alone. */
  function SaveFile(before: Option<File>, p: Params, fmt: Formatter, call: Call): (o: SaveOutcome)
    ensures AppendMode(before, o.file)
    ensures before.Some? && before.value.TextFile? ==> o == SaveOutcome(before.value, Some(NotHdf5))
    ensures !(before.Some? && before.value.TextFile?) ==>
      var go := SaveGroup(DataGroup(before), p, call.samples, SaveStamps(fmt, call.clock.start, |call.samples|));
      && o.file == Hdf5File(GroupsOf(before)[GroupName := go.group])
      && o.error == go.error
  {
    if before.Some? && before.value.TextFile? then SaveOutcome(before.value, Some(NotHdf5))
    else
      var stamps := SaveStamps(fmt, call.clock.start, |call.samples|);
      var go := SaveGroup(DataGroup(before), p, call.samples, stamps);
      SaveOutcome(Hdf5File(GroupsOf(before)[GroupName := go.group]), go.error)
  }

  /** A save into a group whose four attributes are all set leaves them as
      they were, whatever parameters this recorder was built with. */
  lemma MetadataSetOnce(g: Group, p: Params, batch: seq<Sample>, stamps: seq<string>)
    requires |stamps| == |batch|
    requires MetadataKeys <= g.attrs.Keys
    ensures SaveGroup(g, p, batch, stamps).group.attrs == g.attrs
  {
    var o := SaveGroup(g, p, batch, stamps);
    if o.error.None? {
      assert o.group.attrs.Keys == g.attrs.Keys;
    }
  }

  /** A successful save leaves the three datasets equal in length, if they
      were, each grown by the batch length. */
  lemma ColumnsStayAligned(g: Group, p: Params, batch: seq<Sample>, stamps: seq<string>)
    requires |stamps| == |batch|
    requires ColumnLength(g.reals) == ColumnLength(g.imags) == ColumnLength(g.timestamps)
    requires SaveSucceeds(g, |batch|)
    ensures var h := SaveGroup(g, p, batch, stamps).group;
      && h.reals.Some? && h.imags.Some? && h.timestamps.Some?
      && |h.reals.value| == |h.imags.value| == |h.timestamps.value| == ColumnLength(g.reals) + |batch|
  {
  }

  // --------------------------------------------------------- repeated saves

  function SaveMany(before: Option<File>, p: Params, fmt: Formatter, calls: seq<Call>): (t: Trace)
    decreases |calls|
  {
    if calls == [] then Trace(before, None)
    else
      var prev := SaveMany(before, p, fmt, calls[..|calls| - 1]);
      if prev.error.Some? then prev
      else
        var o := SaveFile(prev.file, p, fmt, calls[|calls| - 1]);
        Trace(Some(o.file), o.error)
  }

  function AllReals(calls: seq<Call>): seq<real>
    decreases |calls|
  {
    if calls == [] then [] else AllReals(calls[..|calls| - 1]) + Reals(calls[|calls| - 1].samples)
  }

  function AllImags(calls: seq<Call>): seq<real>
    decreases |calls|
  {
    if calls == [] then [] else AllImags(calls[..|calls| - 1]) + Imags(calls[|calls| - 1].samples)
  }

  function AllStamps(fmt: Formatter, calls: seq<Call>): seq<string>
    decreases |calls|
  {
    if calls == [] then []
    else
      var last := calls[|calls| - 1];
      AllStamps(fmt, calls[..|calls| - 1]) + SaveStamps(fmt, last.clock.start, |last.samples|)
  }

  lemma {:induction false} AllLengths(fmt: Formatter, calls: seq<Call>)
    ensures |AllReals(calls)| == |AllImags(calls)| == |AllStamps(fmt, calls)| == TotalSamples(calls)
    decreases |calls|
  {
    if calls != [] { AllLengths(fmt, calls[..|calls| - 1]); }
  }

  /** The group `k` saves are expected to build: each dataset the
      concatenation of the batches, and this recorder's metadata. */
  function Collected(p: Params, fmt: Formatter, calls: seq<Call>): Group
  {
    Group(Some(AllReals(calls)), Some(AllImags(calls)), Some(AllStamps(fmt, calls)), WriteMetadata(map[], p))
  }

  /** The first save of a non-empty batch to a new file creates the group
      with the batch's datasets and the metadata. */
  lemma FirstSave(p: Params, fmt: Formatter, call: Call)
    requires |call.samples| > 0
    ensures SaveFile(None, p, fmt, call) == SaveOutcome(Hdf5File(map[GroupName := Collected(p, fmt, [call])]), None)
  {
    assert [call][..0] == [];
    assert AllReals([call]) == Reals(call.samples);
    assert AllImags([call]) == Imags(call.samples);
    assert AllStamps(fmt, [call]) == SaveStamps(fmt, call.clock.start, |call.samples|);
  }

  /** A later save of a non-empty batch appends it to every dataset and
      leaves the metadata as it was. */
  lemma NextSave(p: Params, fmt: Formatter, calls: seq<Call>)
    requires |calls| > 1 && |calls[|calls| - 1].samples| > 0
    requires var init := calls[..|calls| - 1];
      |AllReals(init)| == |AllImags(init)| == |AllStamps(fmt, init)|
    ensures var init, last := calls[..|calls| - 1], calls[|calls| - 1];
      SaveFile(Some(Hdf5File(map[GroupName := Collected(p, fmt, init)])), p, fmt, last)
      == SaveOutcome(Hdf5File(map[GroupName := Collected(p, fmt, calls)]), None)
  {
    var init, last := calls[..|calls| - 1], calls[|calls| - 1];
    var g := Collected(p, fmt, init);
    var stamps := SaveStamps(fmt, last.clock.start, |last.samples|);
    MetadataSetOnce(g, p, last.samples, stamps);
    var go := SaveGroup(g, p, last.samples, stamps);
    assert go.group == Collected(p, fmt, calls);
    assert map[GroupName := g][GroupName := go.group] == map[GroupName := go.group];
  }

  /** After `k` non-empty saves to a new file, `recording_data` holds in each
      dataset the concatenation of the `k` batches, all of length equal to
      the number of samples saved, and the metadata of this recorder; it is
      the file's only group. */
  lemma {:induction false} RepeatedSaves(p: Params, fmt: Formatter, calls: seq<Call>)
    requires calls != []
    requires forall i :: 0 <= i < |calls| ==> |calls[i].samples| > 0
    ensures SaveMany(None, p, fmt, calls) == Trace(Some(Hdf5File(map[GroupName := Collected(p, fmt, calls)])), None)
    ensures |AllReals(calls)| == |AllImags(calls)| == |AllStamps(fmt, calls)| == TotalSamples(calls)
    decreases |calls|
  {
    AllLengths(fmt, calls);
    var init, last := calls[..|calls| - 1], calls[|calls| - 1];
    if init == [] {
      assert calls == [last];
      FirstSave(p, fmt, last);
    } else {
      RepeatedSaves(p, fmt, init);
      NextSave(p, fmt, calls);
    }
  }

  // -------------------------------------------------------------- the class

  class HDF5Recorder {
    var startRecordingTime: Option<real>
    var stopRecordingTime: Option<real>
    const params: Params

    constructor (params: Params)
      ensures startRecordingTime == None && stopRecordingTime == None
      ensures this.params == params
    {
      startRecordingTime := None;
      stopRecordingTime := None;
      this.params := params;
    }

    method StartRecording(t: real)
      modifies this
      ensures startRecordingTime == Some(t) && stopRecordingTime == old(stopRecordingTime)
    {
      startRecordingTime := Some(t);
    }

    method StopRecording(t: real)
      modifies this
      ensures stopRecordingTime == Some(t) && startRecordingTime == old(startRecordingTime)
    {
      stopRecordingTime := Some(t);
    }

    /** Computes the batch's timestamps from one clock reading, opens the
        container in append mode and writes the batch into `recording_data`. */
    method Save(disk: Disk, samples: seq<Sample>, filename: string, clock: Clock, fmt: Formatter)
      returns (err: Option<SaveError>)
      modifies disk
      ensures var o := SaveFile(FileAt(old(disk.files), filename), params, fmt, Call(samples, clock));
        err == o.error && disk.files == old(disk.files)[filename := o.file]
      ensures disk.dirs == old(disk.dirs)
    {
      var n := |samples|;
      var stamps := SaveStamps(fmt, clock.start, n);
      if filename in disk.files && disk.files[filename].TextFile? {
        err := Some(NotHdf5);
        assert disk.files == disk.files[filename := disk.files[filename]];
        return;
      }
      var groups := if filename in disk.files then disk.files[filename].groups else map[];
      var group := if GroupName in groups then groups[GroupName] else EmptyGroup;
      ghost var g0 := group;
      err := None;
      if group.reals.Some? {
        if group.imags.None? {
          err := Some(MissingColumn("imag"));
        } else if group.timestamps.None? {
          err := Some(MissingColumn("timestamps"));
        } else {
          var realData, imagData, timestampData := group.reals.value, group.imags.value, group.timestamps.value;
          realData := Resize(realData, n, 0.0);
          imagData := Resize(imagData, n, 0.0);
          timestampData := Resize(timestampData, n, "");
          group := group.(reals := Some(realData), imags := Some(imagData), timestamps := Some(timestampData));
          var written := WriteTail(realData, Reals(samples));
          if written.None? {
            err := Some(BroadcastError("real"));
          } else {
            group := group.(reals := written);
            written := WriteTail(imagData, Imags(samples));
            if written.None? {
              err := Some(BroadcastError("imag"));
            } else {
              group := group.(imags := written);
              var writtenStamps := WriteTail(timestampData, stamps);
              if writtenStamps.None? {
                err := Some(BroadcastError("timestamps"));
              } else {
                group := group.(timestamps := writtenStamps);
              }
            }
          }
        }
      } else {
        group := group.(reals := Some(Reals(samples)));
        if group.imags.Some? {
          err := Some(ColumnExists("imag"));
        } else {
          group := group.(imags := Some(Imags(samples)));
          if group.timestamps.Some? {
            err := Some(ColumnExists("timestamps"));
          } else {
            group := group.(timestamps := Some(stamps));
          }
        }
      }
      if err.None? {
        if "center_freq" !in group.attrs { group := group.(attrs := group.attrs["center_freq" := params.centerFreq]); }
        if "sample_rate" !in group.attrs { group := group.(attrs := group.attrs["sample_rate" := params.sampleRate]); }
        if "freq_correction" !in group.attrs {
          group := group.(attrs := group.attrs["freq_correction" := params.freqCorrection]);
        }
        if "gain" !in group.attrs { group := group.(attrs := group.attrs["gain" := params.gain]); }
      }
      assert GroupOutcome(group, err) == SaveGroup(g0, params, samples, stamps);
      disk.files := disk.files[filename := Hdf5File(groups[GroupName := group])];
    }
  }
}
