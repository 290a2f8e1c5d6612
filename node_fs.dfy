/** The part of Node's `fs` module the tool uses, over an abstract file system:
    paths are opaque strings (no parent/child relation), each existing path has
    a kind, regular files have a content, and some paths make `stat` fail with
    an errno code other than ENOENT (EACCES, ENOTDIR, ...). */
module NodeFs {
  import opened Outcomes

  type Path = string

  /** `path.join(a, b)`, as a plain concatenation with `/`: the
      normalisation of `..` and repeated separators is not modelled. */
  function PathJoin(a: Path, b: string): (r: Path)
    ensures |r| == |a| + 1 + |b| && r[..|a|] == a && r[|a|] == '/' && r[|a| + 1..] == b
  {
    a + "/" + b
  }

  /** What `stat` reports about an existing path. */
  datatype Kind = RegularFile | Directory | OtherKind

  /** A snapshot of the file system. */
  datatype Disk = Disk(kinds: map<Path, Kind>, statErrors: map<Path, string>, contents: map<Path, string>)
  {
    /** Exactly the regular files have a content. */
    ghost predicate Valid() {
      forall p :: p in contents <==> p in kinds && kinds[p] == RegularFile
    }

    predicate IsFile(p: Path) {
      p in kinds && kinds[p] == RegularFile && p !in statErrors
    }

    /** The same paths, kinds and stat failures; contents may differ. */
    predicate SameShape(other: Disk) {
      kinds == other.kinds && statErrors == other.statErrors
    }
  }

  const ENOENT := "ENOENT"

  /** `fs.stat(p)`: fails with the path's recorded error, with ENOENT when the
      path does not exist, and otherwise reports its kind. */
  function Stat(d: Disk, p: Path): (r: Result<Kind>)
    ensures r.Err? ==> r.error.SystemError? && r.error.path == p
    ensures r.Err? && r.error.code == ENOENT && p !in d.statErrors ==> p !in d.kinds
    ensures r.Ok? ==> p in d.kinds && r.value == d.kinds[p]
  {
    if p in d.statErrors then Err(SystemError(d.statErrors[p], p))
    else if p in d.kinds then Ok(d.kinds[p])
    else Err(SystemError(ENOENT, p))
  }

  /** `fs.mkdir(p, { recursive: true })`: an existing directory is left as it
      is, a path taken by something else fails with EEXIST, and a path whose
      stat fails fails with that error. */
  function MadeDirectory(d: Disk, p: Path): (r: (Disk, Outcome))
    requires d.Valid()
    ensures r.0.Valid() && r.0.statErrors == d.statErrors && r.0.contents == d.contents
    ensures r.1.Pass? <==> p !in d.statErrors && (p !in d.kinds || d.kinds[p] == Directory)
    ensures r.1.Pass? ==> r.0.kinds == d.kinds[p := Directory]
    ensures r.1.Fail? ==> r.0 == d
  {
    if p in d.statErrors then (d, Fail(SystemError(d.statErrors[p], p)))
    else if p in d.kinds && d.kinds[p] != Directory then (d, Fail(SystemError("EEXIST", p)))
    else (d.(kinds := d.kinds[p := Directory]), Pass)
  }

  /** Creating a folder depends only on the shape of the disk. */
  lemma MadeDirectoryIgnoresContents(d: Disk, e: Disk, p: Path)
    requires d.Valid() && e.Valid() && d.SameShape(e)
    ensures MadeDirectory(d, p).1 == MadeDirectory(e, p).1 && MadeDirectory(d, p).0.SameShape(MadeDirectory(e, p).0)
  {
  }

  /** `fs.copyFile(src, dst)`: the source must be a readable regular file and
      the destination must not be a directory or special file; on success the
      destination is a regular file holding the source's content, whatever it
      held before. */
  function Copied(d: Disk, src: Path, dst: Path): (r: (Disk, Outcome))
    requires d.Valid()
    ensures r.0.Valid() && r.0.statErrors == d.statErrors
    ensures r.1.Pass? <==> d.IsFile(src) && dst !in d.statErrors && (dst !in d.kinds || d.kinds[dst] == RegularFile)
    ensures r.1.Pass? ==> r.0.kinds == d.kinds[dst := RegularFile]
                          && r.0.contents == d.contents[dst := d.contents[src]]
                          && r.0.IsFile(dst)
    ensures r.1.Fail? ==> r.0 == d
  {
    match Stat(d, src)
    case Err(e) => (d, Fail(e))
    case Ok(k) =>
      if k == Directory then (d, Fail(SystemError("EISDIR", src)))
      else if k == OtherKind then (d, Fail(SystemError("EINVAL", src)))
      else if dst in d.statErrors then (d, Fail(SystemError(d.statErrors[dst], dst)))
      else if dst in d.kinds && d.kinds[dst] == Directory then (d, Fail(SystemError("EISDIR", dst)))
      else if dst in d.kinds && d.kinds[dst] == OtherKind then (d, Fail(SystemError("EINVAL", dst)))
      else (Disk(d.kinds[dst := RegularFile], d.statErrors, d.contents[dst := d.contents[src]]), Pass)
  }

  /** Copying a file succeeds or fails depending only on the shape of the
      disk, and leaves disks of the same shape. */
  lemma CopiedIgnoresContents(d: Disk, e: Disk, src: Path, dst: Path)
    requires d.Valid() && e.Valid() && d.SameShape(e)
    ensures Copied(d, src, dst).1 == Copied(e, src, dst).1 && Copied(d, src, dst).0.SameShape(Copied(e, src, dst).0)
  {
  }

  /** `fs.appendFile(p, text)` on an existing regular file. */
  function Appended(d: Disk, p: Path, text: string): (r: Disk)
    requires d.Valid() && p in d.contents
    ensures r.Valid() && r.SameShape(d)
    ensures p in r.contents && r.contents[p] == d.contents[p] + text
    ensures forall q :: q in d.contents && q != p ==> q in r.contents && r.contents[q] == d.contents[q]
  {
    d.(contents := d.contents[p := d.contents[p] + text])
  }

  lemma AppendedNothing(d: Disk, p: Path)
    requires d.Valid() && p in d.contents
    ensures Appended(d, p, "") == d
  {
    assert d.contents[p] + "" == d.contents[p];
    assert d.contents[p := d.contents[p]] == d.contents;
  }

  /** Two appends to one file are one append of both texts. */
  lemma AppendedTwice(d: Disk, p: Path, a: string, b: string)
    requires d.Valid() && p in d.contents
    ensures Appended(Appended(d, p, a), p, b) == Appended(d, p, a + b)
  {
    assert d.contents[p] + a + b == d.contents[p] + (a + b);
  }

  /** `fs.appendFile(p, text)`: a missing path is created as a regular file
      holding `text`, an existing regular file gains `text` at its end, and
      a directory, a special file or a path that cannot be reached fails
      without change. */
  function AppendedFile(d: Disk, p: Path, text: string): (r: (Disk, Outcome))
    requires d.Valid()
    ensures r.0.Valid()
    ensures d.IsFile(p) ==> r == (Appended(d, p, text), Pass)
    ensures p !in d.kinds && p !in d.statErrors ==>
              r.1 == Pass && r.0.IsFile(p) && r.0.contents == d.contents[p := text]
    ensures r.1.Pass? <==> p !in d.statErrors && (p !in d.kinds || d.kinds[p] == RegularFile)
    ensures r.1.Fail? ==> r.0 == d
  {
    if p in d.statErrors then (d, Fail(SystemError(d.statErrors[p], p)))
    else if p !in d.kinds then (Disk(d.kinds[p := RegularFile], d.statErrors, d.contents[p := text]), Pass)
    else if d.kinds[p] == Directory then (d, Fail(SystemError("EISDIR", p)))
    else if d.kinds[p] == OtherKind then (d, Fail(SystemError("EINVAL", p)))
    else (Appended(d, p, text), Pass)
  }

  /** The host file system, changed in place by the tool. */
  class FileSystem {
    var kinds: map<Path, Kind>
    var statErrors: map<Path, string>
    var contents: map<Path, string>

    function Snapshot(): Disk
      reads this
    {
      Disk(kinds, statErrors, contents)
    }

    ghost predicate Valid()
      reads this
    {
      Snapshot().Valid()
    }

    constructor (d: Disk)
      requires d.Valid()
      ensures Valid() && Snapshot() == d
    {
      kinds, statErrors, contents := d.kinds, d.statErrors, d.contents;
    }

    /** `fs.promises.appendFile(p, text)`. */
    method Append(p: Path, text: string) returns (r: Outcome)
      requires Valid()
      modifies this
      ensures Valid()
      ensures (Snapshot(), r) == AppendedFile(old(Snapshot()), p, text)
    {
      if p in statErrors {
        return Fail(SystemError(statErrors[p], p));
      }
      if p !in kinds {
        kinds := kinds[p := RegularFile];
        contents := contents[p := text];
        return Pass;
      }
      if kinds[p] == Directory {
        return Fail(SystemError("EISDIR", p));
      } else if kinds[p] == OtherKind {
        return Fail(SystemError("EINVAL", p));
      }
      contents := contents[p := contents[p] + text];
      r := Pass;
    }

    /** `fs.promises.mkdir(p, { recursive: true })`. */
    method MakeDirectory(p: Path) returns (r: Outcome)
      requires Valid()
      modifies this
      ensures Valid()
      ensures (Snapshot(), r) == MadeDirectory(old(Snapshot()), p)
    {
      if p in statErrors {
        return Fail(SystemError(statErrors[p], p));
      }
      if p in kinds && kinds[p] != Directory {
        return Fail(SystemError("EEXIST", p));
      }
      kinds := kinds[p := Directory];
      r := Pass;
    }

    /** `fs.promises.copyFile(src, dst)`. */
    method CopyFile(src: Path, dst: Path) returns (r: Outcome)
      requires Valid()
      modifies this
      ensures Valid()
      ensures (Snapshot(), r) == Copied(old(Snapshot()), src, dst)
    {
      var s := Stat(Snapshot(), src);
      if s.Err? {
        return Fail(s.error);
      }
      if s.value == Directory {
        return Fail(SystemError("EISDIR", src));
      } else if s.value == OtherKind {
        return Fail(SystemError("EINVAL", src));
      }
      if dst in statErrors {
        return Fail(SystemError(statErrors[dst], dst));
      }
      if dst in kinds && kinds[dst] == Directory {
        return Fail(SystemError("EISDIR", dst));
      } else if dst in kinds && kinds[dst] == OtherKind {
        return Fail(SystemError("EINVAL", dst));
      }
      kinds := kinds[dst := RegularFile];
      contents := contents[dst := contents[src]];
      r := Pass;
    }
  }
}
