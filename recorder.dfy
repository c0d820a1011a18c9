/** What every recorder shares: the two recording-time fields that start
    absent, and the `save` contract, which appends to a file in append mode
    and creates it when it does not exist. */
module Recorder {
  import opened Common
  import opened Storage

  /** The exceptions a save can raise in the model. */
  datatype SaveError =
    | NotText                   // the CSV writer met an HDF5 file
    | NotHdf5                   // `h5py.File` cannot open a text file
    | MissingColumn(name: string)  // `group[name]` of an absent dataset
    | ColumnExists(name: string)   // `create_dataset` of a name already there
    | BroadcastError(name: string) // a tail write whose data does not fit the slice

  /** The file at the target path after a save, and the exception, if any. */
  datatype SaveOutcome = SaveOutcome(file: File, error: Option<SaveError>)

  /** One save call: the batch and the clock readings it takes. */
  datatype Call = Call(samples: seq<Sample>, clock: Clock)

  /** The file after a run of saves (absent if none created it), and the
      exception that ended the run, if any. */
  datatype Trace = Trace(file: Option<File>, error: Option<SaveError>)

  predicate PrefixOf<T(==)>(a: seq<T>, b: seq<T>)
  {
    |a| <= |b| && b[..|a|] == a
  }

  /** A dataset keeps its entries: once present it stays, and grows only at
      the end. */
  predicate ColumnKept<T(==)>(a: Option<seq<T>>, b: Option<seq<T>>)
  {
    a.Some? ==> b.Some? && PrefixOf(a.value, b.value)
  }

  predicate GroupKept(g: Group, h: Group)
  {
    && ColumnKept(g.reals, h.reals)
    && ColumnKept(g.imags, h.imags)
    && ColumnKept(g.timestamps, h.timestamps)
    && forall k :: k in g.attrs ==> k in h.attrs && h.attrs[k] == g.attrs[k]
  }

  /** `after` keeps everything `before` held: the same kind of file, with
      earlier lines, groups, entries and attributes unchanged. */
  predicate Kept(before: File, after: File)
  {
    match before
    case TextFile(a) => after.TextFile? && PrefixOf(a, after.lines)
    case Hdf5File(gs) =>
      && after.Hdf5File?
      && gs.Keys <= after.groups.Keys
      && forall k :: k in gs ==> GroupKept(gs[k], after.groups[k])
  }

  /** The append-mode contract of `save`: the file exists afterwards and
      whatever it held before is still there. */
  predicate AppendMode(before: Option<File>, after: File)
  {
    before.Some? ==> Kept(before.value, after)
  }

  lemma KeptTransitive(a: File, b: File, c: File)
    requires Kept(a, b) && Kept(b, c)
    ensures Kept(a, c)
  {
    match a
    case TextFile(x) =>
      assert c.lines[..|b.lines|][..|x|] == c.lines[..|x|];
    case Hdf5File(gs) =>
      forall k | k in gs ensures GroupKept(gs[k], c.groups[k]) {
        var g, h, i := gs[k], b.groups[k], c.groups[k];
        if g.reals.Some? { assert i.reals.value[..|h.reals.value|][..|g.reals.value|] == i.reals.value[..|g.reals.value|]; }
        if g.imags.Some? { assert i.imags.value[..|h.imags.value|][..|g.imags.value|] == i.imags.value[..|g.imags.value|]; }
        if g.timestamps.Some? {
          assert i.timestamps.value[..|h.timestamps.value|][..|g.timestamps.value|] == i.timestamps.value[..|g.timestamps.value|];
        }
      }
  }

  /** The clock readings fit the batch: one per sample, as the CSV writer
      takes them. */
  predicate OneTickPerSample(call: Call) { |call.clock.ticks| == |call.samples| }

  /** The number of samples a run of saves writes. */
  function TotalSamples(calls: seq<Call>): nat
    decreases |calls|
  {
    if calls == [] then 0 else TotalSamples(calls[..|calls| - 1]) + |calls[|calls| - 1].samples|
  }

  lemma ConcatAssoc<T>(a: seq<T>, b: seq<T>, c: seq<T>)
    ensures (a + b) + c == a + (b + c)
  {
  }
}
