/**
 Publishing a file by temp file and rename, as writeTasksSnapshot, WriteResponse and writeIPC do it:
 create a temp file, write it, close it, rename it over the destination, and remove it on an error.
 */
module AtomicFile {

  type Path = string
  type Data = seq<nat>
  type Files = map<Path, Data>

  /** The operation that fails, if any; a failing write leaves a prefix of the data behind. */
  datatype Fault = NoFault | CreateFails | WriteFails(written: nat) | CloseFails | RenameFails

  /** The directory after each file system operation of one publication. */
  function Stages(files: Files, tmp: Path, dest: Path, data: Data, fault: Fault): (r: seq<Files>)
    ensures r != []
  {
    var empty := files[tmp := []];
    var full := files[tmp := data];
    match fault
    case CreateFails => [files]
    case WriteFails(n) => [files, empty, files[tmp := data[..if n <= |data| then n else |data|]], files - {tmp}]
    case CloseFails => [files, empty, full, files - {tmp}]
    case RenameFails => [files, empty, full, files - {tmp}]
    case NoFault => [files, empty, full, files[dest := data] - {tmp}]
  }

  /**
   At every moment of a publication, finished or cut short by a crash, each path but the temp file
   holds what it held before, or is the destination holding the whole new data; the destination is
   replaced exactly when no operation failed, and a publication that ran to its end leaves no temp file.
   */
  lemma ReadersSeeWholeFiles(files: Files, tmp: Path, dest: Path, data: Data, fault: Fault, n: nat)
    requires tmp !in files && tmp != dest && n < |Stages(files, tmp, dest, data, fault)|
    ensures
      var at := Stages(files, tmp, dest, data, fault)[n];
      var last := Stages(files, tmp, dest, data, fault)[|Stages(files, tmp, dest, data, fault)| - 1];
      && (forall p :: p != tmp && p != dest ==> (p in at <==> p in files) && (p in files ==> at[p] == files[p]))
      && ((dest in at && at[dest] == data)
          || ((dest in at <==> dest in files) && (dest in files ==> at[dest] == files[dest])))
      && last == if fault.NoFault? then files[dest := data] else files
  {
    var last := Stages(files, tmp, dest, data, fault)[|Stages(files, tmp, dest, data, fault)| - 1];
    if fault.NoFault? {
      assert last == files[dest := data];
    } else {
      assert last == files;
    }
  }

  class Directory {
    var files: Files

    constructor ()
      ensures files == map[]
    {
      files := map[];
    }

    /** One publication; `seen` are the states a reader can meet. */
    method Publish(tmp: Path, dest: Path, data: Data, fault: Fault) returns (ok: bool, ghost seen: seq<Files>)
      requires tmp !in files && tmp != dest
      modifies this
      ensures seen == Stages(old(files), tmp, dest, data, fault) && files == seen[|seen| - 1]
      ensures ok == fault.NoFault? && files == if ok then old(files)[dest := data] else old(files)
    {
      seen := [files];
      if fault.CreateFails? { return false, seen; }
      files := files[tmp := []];
      seen := seen + [files];
      if fault.WriteFails? {
        files := files[tmp := data[..if fault.written <= |data| then fault.written else |data|]];
        assert files == Stages(old(files), tmp, dest, data, fault)[2];
        seen := seen + [files];
        files := files - {tmp};
        assert files == old(files) && files == old(files) - {tmp};
        seen := seen + [files];
        return false, seen;
      }
      files := files[tmp := data];
      assert files == old(files)[tmp := data];
      seen := seen + [files];
      if fault.CloseFails? || fault.RenameFails? {
        files := files - {tmp};
        assert files == old(files) && files == old(files) - {tmp};
        seen := seen + [files];
        return false, seen;
      }
      files := files[dest := files[tmp]] - {tmp};
      assert files == old(files)[dest := data] && files == old(files)[dest := data] - {tmp};
      seen := seen + [files];
      return true, seen;
    }
  }
}
