/** VMInfo.Write: a temporary file, a sync, a rename that commits, a directory sync that may only warn.
    The resize, port and stop proofs take from it that an error means the record is unchanged. */
module VmInfoFile {
  type Name = nat
  datatype Content = Torn | Whole(data: int)

  // Which step fails. `cleanup` is the removal of the temporary file after an earlier failure.
  datatype Faults = Faults(create: bool, write: bool, sync: bool, openDir: bool, rename: bool,
                           cleanup: bool, dirSync: bool)

  class Directory {
    var files: map<Name, Content>
    // What a crash would have left under each name, after every step so far.
    ghost var history: seq<map<Name, Content>>

    constructor (files: map<Name, Content>)
      ensures this.files == files && history == [files]
    {
      this.files := files;
      history := [files];
    }

    method Set(name: Name, c: Content)
      modifies this
      ensures files == old(files)[name := c] && history == old(history) + [files]
    {
      files := files[name := c];
      history := history + [files];
    }

    method Remove(name: Name, fault: bool)
      modifies this
      ensures files == if fault then old(files) else old(files) - {name}
      ensures history == old(history) + [files]
    {
      if !fault {
        files := files - {name};
      }
      history := history + [files];
    }

    method Rename(src: Name, dst: Name)
      requires src in files
      modifies this
      ensures files == (old(files) - {src})[dst := old(files)[src]] && history == old(history) + [files]
    {
      files := (files - {src})[dst := files[src]];
      history := history + [files];
    }

    /** Fails exactly when a step before the commit or the commit itself fails; then `path` is as it was.
        Otherwise `path` has the new content, even if the directory could not be synced. No other name is
        touched, save a temporary file that could not be removed; and a crash at any point finds under
        `path` the old record or the whole new one. */
    method Write(path: Name, tmp: Name, data: int, f: Faults) returns (ok: bool)
      requires tmp !in files && tmp != path
      modifies this
      ensures ok == !(f.create || f.write || f.sync || f.openDir || f.rename)
      ensures ok ==> files == old(files)[path := Whole(data)]
      ensures !ok ==> files - {tmp} == old(files) && (tmp in files ==> f.cleanup)
      ensures old(history) <= history
      ensures forall i :: |old(history)| <= i < |history| ==>
        history[i] - {tmp} == old(files) || history[i] - {tmp} == old(files)[path := Whole(data)]
    {
      ghost var before := files;
      if f.create {
        assert files - {tmp} == files;
        return false;
      }
      Set(tmp, Torn);
      assert files - {tmp} == before;
      if f.write {
        Remove(tmp, f.cleanup);
        assert files - {tmp} == before;
        return false;
      }
      Set(tmp, Whole(data));
      assert files - {tmp} == before;
      if f.sync || f.openDir || f.rename {
        Remove(tmp, f.cleanup);
        assert files - {tmp} == before;
        return false;
      }
      Rename(tmp, path);
      assert files == before[path := Whole(data)] && files - {tmp} == files;
      return true;
    }
  }
}
