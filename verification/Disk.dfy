/** The file system as one transfer sees it, and the small steps in which code changes it.

    A thread that is about to change the disk announces the whole list of operations (`Exec.todo`)
    and then performs them one by one. `ExecStep` says everything one step can do: complete, leave
    a partly written file behind while it is still writing, or fail. Methods run on `Disk` and the
    state machine in Transfer use the same steps, so a crash between or inside the operations of a
    method is a crash of the state machine. */
module Storage {
  import opened Wire

  /** The paths of one transfer; Paths shows that their strings do not clash. */
  datatype Name = Part(index: nat) | MetaFile | TmpFile | OutFile

  type Files = map<Name, Bytes>

  datatype Op =
    | Write(name: Name, data: Bytes)      // fs::write, File::create: truncate, then fill
    | Copy(src: Name, off: nat)           // the copy loop of one part into the output file
    | Remove(name: Name)                  // fs::remove_file whose error is ignored
    | MustRemove(name: Name)              // fs::remove_file(..)?
    | Rename(src: Name, dst: Name)        // fs::rename, undone by removing the source

  /** What a thread has still to do, and whether nothing has failed so far. */
  datatype Exec = Exec(todo: seq<Op>, ok: bool)

  const BUFFER: nat := 65536

  const FAILED := Exec([], false)

  /** One step of a thread that still has something to do. */
  ghost predicate ExecStep(fs: Files, e: Exec, fs': Files, e': Exec)
  {
    && e.todo != []
    && var rest := e.(todo := e.todo[1..]);
       match e.todo[0]
       case Write(n, d) =>
         || (fs' == fs[n := d] && e' == rest)
         || (n in fs' && fs'[n] <= d && fs' == fs[n := fs'[n]] && (e' == e || e' == FAILED))
         || (fs' == fs && e' == FAILED)
       case Copy(src, off) =>
         if src !in fs then fs' == fs && e' == FAILED
         else if off >= |fs[src]| then fs' == fs && (e' == rest || e' == FAILED)
         else
           && Appended(fs, fs', src, off)
           && var m := |fs'[OutFile]| - |fs[OutFile]|;
              || e' == FAILED
              || (0 < m <= BUFFER && e' == e.(todo := [Copy(src, off + m)] + e.todo[1..]))
       case Remove(n) => (fs' == fs - {n} || fs' == fs) && e' == rest
       case MustRemove(n) =>
         || (n in fs && fs' == fs - {n} && e' == rest)
         || (fs' == fs && e' == FAILED)
       case Rename(a, b) =>
         || (a in fs && fs' == (fs - {a})[b := fs[a]] && e' == rest)
         || (fs' == fs && e' == Exec([Remove(a)], false))
  }

  /** Some bytes of `src` from `off` on were appended to the output file. */
  ghost predicate Appended(fs: Files, fs': Files, src: Name, off: nat)
  {
    && src in fs && OutFile in fs && OutFile in fs' && fs' == fs[OutFile := fs'[OutFile]]
    && var m := |fs'[OutFile]| - |fs[OutFile]|;
       0 <= m <= |fs[src]| - off && fs'[OutFile] == fs[OutFile] + fs[src][off..off + m]
  }

  /** Two disks agree on every name outside `names`. */
  ghost predicate SameExcept(fs: Files, fs': Files, names: set<Name>)
  {
    forall n :: n !in names ==> (n in fs <==> n in fs') && (n in fs && n in fs' ==> fs[n] == fs'[n])
  }

  /** The operation when it succeeds. */
  function Applied(op: Op, fs: Files): Files
  {
    match op
    case Write(n, d) => fs[n := d]
    case Copy(src, off) =>
      if src in fs && OutFile in fs && off <= |fs[src]| then fs[OutFile := fs[OutFile] + fs[src][off..]] else fs
    case Remove(n) => fs - {n}
    case MustRemove(n) => fs - {n}
    case Rename(a, b) => if a in fs then (fs - {a})[b := fs[a]] else fs
  }

  function AppliedAll(ops: seq<Op>, fs: Files): Files
    decreases |ops|
  {
    if ops == [] then fs else AppliedAll(ops[1..], Applied(ops[0], fs))
  }

  class Disk {
    var files: Files
    ghost var exec: Exec
    ghost var announced: seq<Op>
    /** Operations that failed although nothing but the disk was in the way. */
    ghost var faults: nat

    /** A thread says what it is about to do; it must have finished what it said before. */
    ghost method Announce(script: seq<Op>)
      requires exec.todo == []
      modifies `exec, `announced
      ensures exec == Exec(script, true) && announced == script
    {
      exec, announced := Exec(script, true), script;
    }

    /** The copy loop finds its part missing and gives up. */
    ghost method Abandon(src: Name)
      requires exec.todo != [] && exec.todo[0] == Op.Copy(src, 0) && src !in files
      modifies `exec
      ensures ExecStep(files, old(exec), files, exec) && exec == FAILED
    {
      exec := FAILED;
    }

    method Write(n: Name, d: Bytes) returns (ok: bool)
      requires exec.todo != [] && exec.todo[0] == Op.Write(n, d)
      modifies `files, `exec, `faults
      ensures ExecStep(old(files), old(exec), files, exec)
      ensures ok ==> files == old(files)[n := d] && exec == old(exec).(todo := old(exec).todo[1..])
      ensures !ok ==> exec == FAILED && SameExcept(old(files), files, {n})
      ensures faults == if ok then old(faults) else old(faults) + 1
    {
      var canOpen: bool := *;
      if !canOpen {
        exec, faults := FAILED, faults + 1;
        return false;
      }
      files := files[n := []];
      var written: nat :| written <= |d|;
      files := files[n := d[..written]];
      ok := written == |d|;
      assert d[..|d|] == d;
      if ok {
        exec := exec.(todo := exec.todo[1..]);
      } else {
        exec, faults := FAILED, faults + 1;
      }
    }

    /** One round of the copy loop: reads a piece (empty at the end of the part) and appends it. */
    method CopyPiece(src: Name, off: nat) returns (r: Result<Bytes>)
      requires exec.todo != [] && exec.todo[0] == Op.Copy(src, off)
      requires OutFile in files && src in files && src != OutFile
      modifies `files, `exec, `faults
      ensures ExecStep(old(files), old(exec), files, exec)
      ensures r.Err? ==> exec == FAILED && (files == old(files) || Appended(old(files), files, src, off))
      ensures r == Ok([]) ==>
                && files == old(files) && off >= |files[src]|
                && exec == old(exec).(todo := old(exec).todo[1..])
      ensures r.Ok? && r.value != [] ==>
                && off + |r.value| <= |old(files)[src]|
                && r.value == old(files)[src][off..off + |r.value|]
                && files == old(files)[OutFile := old(files)[OutFile] + r.value]
                && exec == old(exec).(todo := [Copy(src, off + |r.value|)] + old(exec).todo[1..])
      ensures faults == if r.Ok? then old(faults) else old(faults) + 1
    {
      var fail: bool := *;
      if off >= |files[src]| {
        if fail {
          exec, faults := FAILED, faults + 1;
          return Err;
        }
        exec := exec.(todo := exec.todo[1..]);
        return Ok([]);
      }
      var m: nat :| 0 < m <= BUFFER && off + m <= |files[src]|;
      if fail {
        var partial: nat :| partial <= m;
        files := files[OutFile := files[OutFile] + files[src][off..off + partial]];
        exec, faults := FAILED, faults + 1;
        return Err;
      }
      var piece := files[src][off..off + m];
      files := files[OutFile := files[OutFile] + piece];
      exec := exec.(todo := [Copy(src, off + m)] + exec.todo[1..]);
      return Ok(piece);
    }

    /** Removes a file; one that is not there counts as removed. */
    method Remove(n: Name) returns (ok: bool)
      requires exec.todo != [] && exec.todo[0] == Op.Remove(n)
      modifies `files, `exec, `faults
      ensures ExecStep(old(files), old(exec), files, exec)
      ensures exec == old(exec).(todo := old(exec).todo[1..])
      ensures files == if ok then old(files) - {n} else old(files)
      ensures faults == if ok then old(faults) else old(faults) + 1
    {
      ok := *;
      ok := ok || n !in files;
      if ok {
        files := files - {n};
      } else {
        faults := faults + 1;
      }
      exec := exec.(todo := exec.todo[1..]);
    }

    method MustRemove(n: Name) returns (ok: bool)
      requires exec.todo != [] && exec.todo[0] == Op.MustRemove(n)
      modifies `files, `exec, `faults
      ensures ExecStep(old(files), old(exec), files, exec)
      ensures ok ==> n in old(files) && files == old(files) - {n} && exec == old(exec).(todo := old(exec).todo[1..])
      ensures !ok ==> files == old(files) && exec == FAILED
      ensures faults == if ok || n !in old(files) then old(faults) else old(faults) + 1
    {
      ok := *;
      ok := ok && n in files;
      if ok {
        files := files - {n};
        exec := exec.(todo := exec.todo[1..]);
      } else {
        faults := if n in files then faults + 1 else faults;
        exec := FAILED;
      }
    }

    method Rename(a: Name, b: Name) returns (ok: bool)
      requires exec.todo != [] && exec.todo[0] == Op.Rename(a, b)
      modifies `files, `exec, `faults
      ensures ExecStep(old(files), old(exec), files, exec)
      ensures ok ==> a in old(files) && files == (old(files) - {a})[b := old(files)[a]]
      ensures ok ==> exec == old(exec).(todo := old(exec).todo[1..])
      ensures !ok ==> files == old(files) && exec == Exec([Op.Remove(a)], false)
      ensures faults == if ok || a !in old(files) then old(faults) else old(faults) + 1
    {
      ok := *;
      ok := ok && a in files;
      if ok {
        files := (files - {a})[b := files[a]];
        exec := exec.(todo := exec.todo[1..]);
      } else {
        faults := if a in files then faults + 1 else faults;
        exec := Exec([Op.Remove(a)], false);
      }
    }
  }
}
