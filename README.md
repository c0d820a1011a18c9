# sdrcap recorders and RTL-SDR session, modelled in Dafny

sdrcap reads batches of IQ samples from an RTL-SDR receiver and appends
them to a file. A `CSVRecorder` writes a header line and then one
`real,imag,timestamp` row per sample. An `HDF5Recorder` writes into the
group `recording_data` of an HDF5 container. Each save either creates
the datasets `real`, `imag` and `timestamps` or grows them by the batch
length, and it writes four radio-parameter attributes only when they are
still absent. `RTLSDRInterface` does the following:

- merges caller options over defaults;
- refuses a filetype other than `csv` or `hdf5` before it sets up a
  device or makes a directory;
- picks the recorder;
- derives the file name from the output directory, an optional recording
  name and the sample window;
- in continuous mode, saves every batch under the start time taken once,
  and sleeps `int(record_delay)` seconds after each save.

The model has these modules:

- `Common`: samples, option values, Option/Result, digit rendering.
- `Timestamps`: the per-sample stamps and their text.
- `Storage`: the disk as a class holding a path-to-file map. A file is
  either a text file (its lines) or an HDF5 file (groups of optional
  datasets plus attributes).
- `Recorder`: the append-mode contract that both recorders share.
- `CsvRecorder` and `Hdf5Recorder`: a pure function for each save, a
  fold over repeated saves, and a class whose `Save` method does the
  mutation step by step and is proved equal to that function.
- `RtlInterface`: the session class, with a static `New` in place of
  `__init__`, because a failed construction must be a value here.

Some things are passed in as parameters rather than computed:

- the clock;
- the text of `strftime` for a whole UTC second;
- Python's `str(float)`, as a `Formatter`.

`utcfromtimestamp` rounds to the nearest microsecond, ties to even, and
this is modelled exactly. The HDF5 save stores its stamps as the code
builds them: the second is rounded, while the field is truncated (see
Findings). Two further modelling choices follow the code, not the
comments:

- The CSV header is written on every save, as `csv_recorder.py:74` does.
- The CSV microsecond field comes from the time elapsed since the batch
  started, while the date and second come from the current reading, as
  `csv_recorder.py:76-81` does.

## Model

| member | source | states |
|---|---|---|
| Timestamps.BatchTimes | sdrcap/recorders/hdf5_recorder.py:77-84 | one instant per sample, the first at the clock reading, all within one second after it and non-decreasing |
| Timestamps.MicroOf | sdrcap/recorders/hdf5_recorder.py:81-83 | `int((x % 1) * 1_000_000)` lies in [0, 999999] and is the fraction of a second in whole microseconds, truncated |
| Timestamps.UtcSecond | sdrcap/recorders/hdf5_recorder.py:78 | the second `utcfromtimestamp` shows is the instant's own whole second, or the next one exactly when the instant lies within half a microsecond of that next second |
| Timestamps.RoundedSecond | sdrcap/recorders/csv_recorder.py:78 | the microsecond count an instant rounds to stays inside the instant's second unless it is within half a microsecond of the next, and is then that next second's first microsecond |
| Timestamps.SourceStamp | sdrcap/recorders/hdf5_recorder.py:77-83 | as written, the field is the truncated one and the second is the truncated one or the next |
| Timestamps.SourceAgreesBelowLastMicro | sdrcap/recorders/hdf5_recorder.py:77-83 | the as-written stamp is the truncating stamp exactly when the instant is not within half a microsecond of the next second, in particular whenever its field is below 999999 |
| Timestamps.SourceStamps | sdrcap/recorders/hdf5_recorder.py:77-85 | one as-written stamp per sample, from its instant; each equals the corrected stamp of `BatchStamps` unless its instant is within half a microsecond of the next second |
| Timestamps.BatchStamps | sdrcap/recorders/hdf5_recorder.py:77-85 | the corrected reference of Findings: one truncating stamp per sample, in order, each not before the reading's stamp and at most one second past it |
| Timestamps.FloorStamp | sdrcap/recorders/hdf5_recorder.py:81-83 | the microsecond field lies in [0, 999999], and second and field together are the instant truncated to the microsecond |
| Timestamps.FloorStampMonotone | sdrcap/recorders/hdf5_recorder.py:77-85 | a later instant never gets an earlier stamp when both parts are truncated |
| Timestamps.SourceStampRunsBackward | sdrcap/recorders/hdf5_recorder.py:77-83 | as written (rounded second, truncated field), instant 5.9999996 gets stamp (6, 999999), after the stamp (6, 0) of the later instant 6.0 |
| Timestamps.CsvStamp | sdrcap/recorders/csv_recorder.py:76-81 | the second is what `utcfromtimestamp` of the reading shows; the field is in [0, 999999] and equals the elapsed microseconds when less than a second has elapsed |
| Timestamps.StampText | sdrcap/recorders/hdf5_recorder.py:78-83 | the text is the date prefix plus six characters, and it ends in the last digit of the field |
| Timestamps.FixedS26 | sdrcap/recorders/hdf5_recorder.py:86-88 | at most 26 characters; shorter text unchanged, longer text cut at 26 |
| Timestamps.StoredStampShape | sdrcap/recorders/hdf5_recorder.py:77-88 | a stored stamp has at most 26 characters; with a four-digit year it has exactly 26, and its last six are the zero-padded field, which reads back as the microsecond count |
| Timestamps.StampColumn | sdrcap/recorders/hdf5_recorder.py:86-88 | one stored string per stamp, in order |
| Common.PadDigitsRoundTrip | sdrcap/recorders/csv_recorder.py:81 | `:06d` of a count below 10^6 is six digits that read back as the count |
| Common.NatTextReadsBack | sdrcap/rtl_interface.py:133 | the text of a natural number is all digits and reads back as the number |
| Common.TruncToZero | sdrcap/rtl_interface.py:152 | `int` of a float is the whole number next to it toward zero |
| Common.IntOf | sdrcap/rtl_interface.py:152 | `int` keeps an int, truncates a float, and accepts exactly the texts made of an optional sign and decimal digits; an accepted text without a minus sign gives a non-negative number |
| Common.DigitsValueNat | sdrcap/rtl_interface.py:152 | a string of decimal digits denotes a natural number |
| Common.ValueText | sdrcap/rtl_interface.py:132-136 | `f"{v}"` of a text is the text and of a float its `str`; of an int it is an optional minus sign, present exactly for a negative int, followed by one or more digits |
| Common.IntOfValueText | sdrcap/rtl_interface.py:152 | `int` of the text of an int gives that int back |
| Recorder.KeptTransitive | sdrcap/recorders/recorder.py:24-27 | keeping earlier content composes over successive saves |
| CsvRecorder.Row | sdrcap/recorders/csv_recorder.py:82 | a row ends in a digit of the timestamp's field |
| CsvRecorder.RowReadsBack | sdrcap/recorders/csv_recorder.py:82 | when the renderings hold no comma, splitting a row on commas gives exactly the real part, the imaginary part and the timestamp |
| CsvRecorder.Block | sdrcap/recorders/csv_recorder.py:74-82 | one save writes 1 + n lines: the header first, then row i for sample i, in sample order |
| CsvRecorder.SaveFile | sdrcap/recorders/csv_recorder.py:73-82 | append mode: earlier lines are an unchanged prefix, the new lines are exactly the block, and a missing file is created; an HDF5 file is refused and left unchanged |
| CsvRecorder.CountHeadersAppend | sdrcap/recorders/csv_recorder.py:74 | header counts add over concatenation |
| CsvRecorder.RowIsNotHeader | sdrcap/recorders/csv_recorder.py:74-82 | a data row, which ends in a digit, never equals the header line |
| CsvRecorder.NoHeaders | sdrcap/recorders/csv_recorder.py:74 | lines none of which is the header count no header |
| CsvRecorder.OnlyFirstIsHeader | sdrcap/recorders/csv_recorder.py:74-82 | lines whose only header is the first count one header in every non-empty prefix |
| CsvRecorder.BlockHasOneHeader | sdrcap/recorders/csv_recorder.py:74-82 | each save contributes exactly one header line |
| CsvRecorder.BlockCounts | sdrcap/recorders/csv_recorder.py:74-82 | a block holds one header line, and none after its first line |
| CsvRecorder.FreshFileSave | sdrcap/recorders/csv_recorder.py:73-82 | on a new file the first line is the header, it is the only header, and there are exactly n data rows |
| CsvRecorder.BlocksShape | sdrcap/recorders/csv_recorder.py:74-82 | k saves write k headers and k + (total samples) lines |
| CsvRecorder.RepeatedSaves | sdrcap/recorders/csv_recorder.py:73-82 | k saves to a new or text file never fail, and leave the earlier lines followed by the k blocks in call order |
| CsvRecorder.AppendsBlock | sdrcap/recorders/csv_recorder.py:73-82 | a save to a new or text file is the old lines followed by its block |
| CsvRecorder.KSavesKHeaders | sdrcap/recorders/csv_recorder.py:73-82 | because the header is written on every call, k saves to a new file give k header lines, and the other lines number the samples saved |
| CsvRecorder.CSVRecorder.constructor | sdrcap/recorders/csv_recorder.py:39-45 | both recording times start absent |
| CsvRecorder.CSVRecorder.StartRecording | sdrcap/recorders/csv_recorder.py:47-54 | sets the start time and leaves the stop time unchanged |
| CsvRecorder.CSVRecorder.StopRecording | sdrcap/recorders/csv_recorder.py:56-63 | sets the stop time and leaves the start time unchanged |
| CsvRecorder.CSVRecorder.Save | sdrcap/recorders/csv_recorder.py:65-82 | the header, then a loop of row appends, leaves the file map exactly as `SaveFile` describes, with the same exception, and directories unchanged |
| Hdf5Recorder.WriteMetadata | sdrcap/recorders/hdf5_recorder.py:120-127 | afterwards all four attributes are present, an existing one keeps its value, and only the absent ones take this recorder's parameters |
| Hdf5Recorder.Resize | sdrcap/recorders/hdf5_recorder.py:102-107 | the dataset grows by exactly n and its old entries are unchanged |
| Hdf5Recorder.WriteTail | sdrcap/recorders/hdf5_recorder.py:109-111 | the write succeeds exactly when the batch is non-empty or the dataset is empty; the last n entries are then the data, and the earlier ones are unchanged |
| Hdf5Recorder.SaveGroup | sdrcap/recorders/hdf5_recorder.py:97-127 | the branch is chosen by `real` alone and a missing `imag`/`timestamps` raises; create gives the batch's reals, imags and stamps exactly; grow gives the old entries followed by the batch; earlier entries and attributes never change; metadata is set once; a save succeeds iff the conditions of `SaveSucceeds` hold |
| Hdf5Recorder.SaveStamps | sdrcap/recorders/hdf5_recorder.py:76-88 | one stored stamp per sample, each of at most 26 characters; it is the as-written stamp of that sample's instant, cut to 26 characters |
| Hdf5Recorder.SaveFile | sdrcap/recorders/hdf5_recorder.py:90-127 | append mode; the save always works in `recording_data`, creates it if absent, reuses it otherwise, and leaves other groups alone; a text file is refused unchanged |
| Hdf5Recorder.MetadataSetOnce | sdrcap/recorders/hdf5_recorder.py:120-127 | once all four attributes exist, no later save changes them, whatever the recorder's parameters |
| Hdf5Recorder.ColumnsStayAligned | sdrcap/recorders/hdf5_recorder.py:97-118 | equal-length datasets stay equal in length, each grown by n |
| Hdf5Recorder.AllLengths | sdrcap/recorders/hdf5_recorder.py:97-118 | the concatenated reals, imags and stamps of k batches each have the total sample count |
| Hdf5Recorder.FirstSave | sdrcap/recorders/hdf5_recorder.py:90-127 | the first non-empty save to a new file creates `recording_data` holding exactly the batch's datasets and this recorder's metadata |
| Hdf5Recorder.NextSave | sdrcap/recorders/hdf5_recorder.py:97-127 | a later non-empty save appends the batch to each aligned dataset and leaves the metadata unchanged |
| Hdf5Recorder.RepeatedSaves | sdrcap/recorders/hdf5_recorder.py:90-127 | k non-empty saves to a new file never fail and give a file whose only group is `recording_data`: its datasets are the concatenation of the k batches, each of the total length, and it holds this recorder's metadata |
| Hdf5Recorder.HDF5Recorder.constructor | sdrcap/recorders/hdf5_recorder.py:42-49 | both recording times start absent, and the parameters are kept |
| Hdf5Recorder.HDF5Recorder.StartRecording | sdrcap/recorders/hdf5_recorder.py:51-58 | sets the start time and leaves the stop time unchanged |
| Hdf5Recorder.HDF5Recorder.StopRecording | sdrcap/recorders/hdf5_recorder.py:60-67 | sets the stop time and leaves the start time unchanged |
| Hdf5Recorder.HDF5Recorder.Save | sdrcap/recorders/hdf5_recorder.py:69-127 | the step-by-step lookups, resizes, tail writes and guarded attribute writes leave the file map exactly as `SaveFile` describes, with the same exception |
| RtlInterface.Defaults | sdrcap/rtl_interface.py:67-76 | the defaults name exactly the eight options; their filetype passes the filetype check and their delay is one the sleep accepts |
| RtlInterface.MergeOptions | sdrcap/rtl_interface.py:67-77 | the keys are those of the defaults and the options; a caller's key overrides, and every other key takes its default |
| RtlInterface.Configure | sdrcap/rtl_interface.py:77-92 | refuses exactly the filetypes other than "csv" and "hdf5", with that filetype; otherwise every setting is the caller's value or its default |
| RtlInterface.DefaultSettings | sdrcap/rtl_interface.py:67-86 | with no options the settings are the documented defaults |
| RtlInterface.SetupDevice | sdrcap/rtl_interface.py:116-122 | the device gets the session's centre frequency, frequency correction and gain |
| RtlInterface.SetupUsesRadioSettingsOnly | sdrcap/rtl_interface.py:116-122 | two sessions that agree on those three settings get the same device; the sample rate is not set on it |
| RtlInterface.Filename | sdrcap/rtl_interface.py:131-137 | the name starts with the output directory and "/", and ends with "." and the filetype |
| RtlInterface.FilenameNameSegment | sdrcap/rtl_interface.py:131-133 | the recording name sits between the directory's "/" and "-sample_window" |
| RtlInterface.FilenameInjective | sdrcap/rtl_interface.py:131-133 | recording names with different texts give different files |
| RtlInterface.NamedNotUnnamed | sdrcap/rtl_interface.py:131-137 | a named recording never shares its file with an unnamed one |
| RtlInterface.SaveSpec | sdrcap/rtl_interface.py:142 | whichever recorder is chosen, its save keeps the file's earlier content |
| RtlInterface.ReplayIsSaveMany | sdrcap/rtl_interface.py:150-151 | the session's run of saves is the chosen recorder's own run of saves |
| RtlInterface.Replay | sdrcap/rtl_interface.py:150-151 | a run of saves keeps whatever the file held before it, and leaves no file only when there was none and nothing was saved |
| RtlInterface.ReplayStops | sdrcap/rtl_interface.py:150-151 | once a save raises, the run ends there |
| RtlInterface.ReplayNext | sdrcap/rtl_interface.py:150-151 | an iteration of a run that has not stopped is one more save to the same file |
| RtlInterface.ContinuousCsvRun | sdrcap/rtl_interface.py:146-152 | a continuous CSV session with a delay the sleep accepts never raises; the file ends with one block per iteration, so it holds one more header per iteration |
| RtlInterface.ContinuousHdf5Run | sdrcap/rtl_interface.py:146-152 | a continuous HDF5 session of non-empty batches into a new file, with a delay the sleep accepts, never raises; the file's one group holds the batches in order, of the total length |
| RtlInterface.WindowTotal | sdrcap/rtl_interface.py:141 | k iterations that each read a full window of w samples save k × w samples in all |
| RtlInterface.DelayOk | sdrcap/rtl_interface.py:152 | `time.sleep(int(delay))` returns for an int exactly when it is not negative, for a float exactly when it is above -1, and for a text only when `int` accepts it, always when it has no minus sign |
| RtlInterface.ContinuousRun | sdrcap/rtl_interface.py:150-152 | the loop's outcome: with no iterations the file is as before and nothing is raised; earlier content is always kept; with a refused delay a non-empty run always ends in an exception |
| RtlInterface.DelayOkRunsEverySave | sdrcap/rtl_interface.py:150-152 | with a delay the sleep accepts, the loop is the run of saves and raises only what a save raises |
| RtlInterface.RefusedDelayStopsAfterFirstSave | sdrcap/rtl_interface.py:150-152 | with a delay `int` or `sleep` refuses, exactly the first save happens and the loop then always ends in an exception: that save's own, or the sleep's |
| RtlInterface.DelayExamples | sdrcap/rtl_interface.py:152 | the default delay 2, "+3" and 0.5 are accepted; "auto", "", -1 and "-4" are refused |
| RtlInterface.ContinuousRunNext | sdrcap/rtl_interface.py:150-152 | an iteration of a loop that has not stopped is one more save to the same file, then the sleep, which raises exactly when the delay is refused |
| RtlInterface.ContinuousRunStops | sdrcap/rtl_interface.py:150-152 | once a save or the sleep raises, the loop ends there |
| RtlInterface.RTLSDRInterface.New | sdrcap/rtl_interface.py:60-114 | an unavailable filetype fails with files and directories untouched; otherwise the caller's device is kept or a new one set up, the directory is made, and an HDF5 recorder with the four radio parameters or a CSV recorder is chosen, with fresh recording times |
| RtlInterface.RTLSDRInterface.RecordSingleSample | sdrcap/rtl_interface.py:124-142 | with no device it sets one up and saves nothing; otherwise the batch read is a full `sample_window`, and exactly one save of it goes to the derived file |
| RtlInterface.RTLSDRInterface.StartRecordingContinuousSamples | sdrcap/rtl_interface.py:144-152 | the recorder's start time is set once; a missing device is set up; every iteration reads a full `sample_window` and saves it to the one file named after the start time, then sleeps, and the run stops at the first exception of a save or of the sleep |
| RtlInterface.RTLSDRInterface.Iterate | sdrcap/rtl_interface.py:150-152 | the loop of saves and sleeps leaves the file map and the exception exactly as `ContinuousRun` describes, with the device and directories unchanged |

## Left out

- Real I/O: `open`, `h5py.File` and numpy arrays are foreign libraries.
  They are replaced by the `Disk` file map. The model has no file-system
  errors other than those listed in `SaveError` and `InitError`.
- The RTL-SDR hardware (`RtlSdr`, `read_samples`): the device is the
  `Device` value `_setup_rtl_sdr` would configure. The batch is a
  parameter. For a whole-number `sample_window` its length is that window
  (`FullWindow`). What `read_samples` does with any other window value is
  not modelled.
- Clocks: `time.time` and `datetime.now` readings are parameters
  (`Clock`, `start`).
- Calendar rendering: `strftime` and `str(float)` are foreign, so they
  are passed in as `Formatter`.
- Floating-point arithmetic: times are exact reals.
- The pause of `time.sleep`: it has no effect on the files. Its two
  `ValueError`s (a delay `int` refuses, a negative length) are modelled.
  Its `OverflowError` for a length too large for the platform's clock
  (beyond about 2^63 nanoseconds) is not: `DelayOk` accepts every
  non-negative length.
- Common.IntOf: `int` of a text also strips surrounding whitespace and
  accepts `_` between digits and non-ASCII digits; here such texts are
  refused. `int` of an infinite or NaN float cannot arise, because times
  and options are exact reals.
- The infinite `while True` loop (sdrcap/rtl_interface.py:150-152): it is
  modelled for a given finite list of iterations.
- RtlInterface.RTLSDRInterface.New: the second `ValueError`
  (sdrcap/rtl_interface.py:110-114) cannot be reached once the filetype
  check has passed, so it is not modelled.
- RtlInterface.RTLSDRInterface.New: `os.makedirs` is modelled as adding
  the one path to `dirs`. Parent directories and OS errors are not
  modelled. Only an empty or non-text path fails.
- Hdf5Recorder.SaveGroup: the `isinstance(..., h5py.Dataset)` guards
  (sdrcap/recorders/hdf5_recorder.py:102-107) are taken as always true.
  A non-dataset object under those names is not modelled.
- Hdf5Recorder.SaveGroup: attribute values are kept as the caller's
  option values. HDF5 type conversion is not modelled.
- CsvRecorder.SaveFile: where Python would write text into an HDF5 file,
  the model raises `NotText` and leaves the file unchanged.
- Python's dynamic typing of options: values are reals, integers or text
  (`Value`).
- CsvRecorder.CSVRecorder.Save and Hdf5Recorder.HDF5Recorder.Save: the
  disk keeps files and directories apart, so a save to a path that is a
  directory creates a file there. Python's `IsADirectoryError` is not
  modelled.

## Findings

| source | as written | input that shows it | evidently intended | confidence | as-written member | corrected member |
|---|---|---|---|---|---|---|
| sdrcap/recorders/hdf5_recorder.py:77-83 | the second comes from `utcfromtimestamp(t)` (rounded to the microsecond), the field from `int((t % 1) * 1_000_000)` (truncated) | t = 5.9999996 (with current_time 5.9999996 and i = 0) shows second 6 and field 999999, i.e. "…:06.999999", later than t = 6.0, which shows "…:06.000000" | both parts taken from the same truncated instant, so stamps never run backward; the save stores the as-written stamps, which agree with these except within half a microsecond of a second (`Timestamps.SourceAgreesBelowLastMicro`) | not executed | Timestamps.SourceStampRunsBackward | Timestamps.FloorStampMonotone |
