/**
 * The local file system as the server and the command-line tool see it: the
 * set of paths that exist, and the paths whose removal fails (a permission
 * error, say) with the message the failure carries. Writes always succeed.
 */
module Disk {
  import opened Wrappers

  /** What `unlink` / `os.remove` raises for a path, if anything. */
  function UnlinkError(files: set<string>, failing: map<string, string>, p: string): (err: Option<string>)
    ensures err.None? <==> p in files && p !in failing
  {
    if p !in files then Some("[Errno 2] No such file or directory: '" + p + "'")
    else if p in failing then Some(failing[p])
    else None
  }

  /** The files after an attempt to remove `p`, whether or not it raised. */
  function AfterUnlink(files: set<string>, failing: map<string, string>, p: string): (after: set<string>)
    ensures after <= files
    ensures forall q :: q != p ==> (q in after <==> q in files)
    ensures p in after <==> p in files && p in failing
  {
    if UnlinkError(files, failing, p).None? then files - {p} else files
  }

  /** The files after `shutil.move(src, dst)` succeeded. */
  function AfterMove(files: set<string>, src: string, dst: string): (after: set<string>)
    ensures dst in after
    ensures src != dst ==> src !in after
    ensures forall q :: q != src && q != dst ==> (q in after <==> q in files)
  {
    files - {src} + {dst}
  }

  class FileSystem {
    var files: set<string>
    const failing: map<string, string>

    constructor (initial: set<string>, failures: map<string, string>)
      ensures files == initial && failing == failures
    {
      files := initial;
      failing := failures;
    }

    predicate Exists(p: string)
      reads this
    {
      p in files
    }

    /** `Path.unlink()` / `os.remove(p)`: removes `p`, or raises and changes nothing. */
    method Unlink(p: string) returns (err: Option<string>)
      modifies this
      ensures err == UnlinkError(old(files), failing, p)
      ensures files == AfterUnlink(old(files), failing, p)
    {
      err := UnlinkError(files, failing, p);
      if err.None? {
        files := files - {p};
      }
    }

    /** Writing a file creates it (or replaces its contents). */
    method Write(p: string)
      modifies this
      ensures files == old(files) + {p}
    {
      files := files + {p};
    }

    /** `shutil.move(src, dst)`; `fault` is the error the move raises, if any. */
    method Move(src: string, dst: string, fault: Option<string>) returns (err: Option<string>)
      modifies this
      ensures err == (if src !in old(files) then UnlinkError(old(files), failing, src) else fault)
      ensures files == if err.None? then AfterMove(old(files), src, dst) else old(files)
    {
      if src !in files {
        err := UnlinkError(files, failing, src);
      } else {
        err := fault;
      }
      if err.None? {
        files := AfterMove(files, src, dst);
      }
    }
  }
}
