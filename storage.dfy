/** The files the recorders write, held abstractly: a text file is its
    sequence of lines, an HDF5 file its groups. */
module Storage {
  import opened Common

  /** An HDF5 group as the HDF5 writer uses it: its one-dimensional datasets
      `real`, `imag` and `timestamps` (fields `reals`, `imags`, `timestamps`),
      each absent or present, and its attributes. */
  datatype Group = Group(
    reals: Option<seq<real>>,
    imags: Option<seq<real>>,
    timestamps: Option<seq<string>>,
    attrs: map<string, Value>)

  /** A group just made by `create_group`. */
  const EmptyGroup := Group(None, None, None, map[])

  datatype File = TextFile(lines: seq<string>) | Hdf5File(groups: map<string, Group>)

  /** The file system: the file at each path, and the directories made. */
  class Disk {
    var files: map<string, File>
    var dirs: set<string>
  }

  function FileAt(files: map<string, File>, path: string): Option<File>
  {
    if path in files then Some(files[path]) else None
  }
}
