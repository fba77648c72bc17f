/**
 * Items the queue accepts: an inline `RawDatum` whose bytes are already in
 * memory, and a lazy `File` that only reads the disk when realized.
 */
module DataItems {
  import opened Wrappers
  import opened Bytes
  import opened QueueErrors

  /** A Unix file-system path, as text. */
  type Path = string

  /** What `std::fs::read` returns for each path at the moment it is called. */
  type FileSystem = Path -> Result<Bytes, IoError>

  const UnknownFileName: string := "<unknown filename>"

  datatype DataItem =
    | RawDatum(dname: string, content: Bytes)
    | File(path: Path)

  /** What realizing an item yields: `(name, path, content)`. */
  datatype Realized = Realized(name: string, path: Option<Path>, content: Bytes)

  /** A "normal" path component: what `Path::file_name` can return. */
  predicate IsNormalComponent(s: string) {
    s != "" && s != "." && s != ".." && '/' !in s
  }

  /** The longest suffix of `p` that holds no separator. */
  function LastSegment(p: Path): (s: string)
    ensures '/' !in s
    ensures |s| <= |p| && s == p[|p| - |s|..]
    ensures |s| < |p| ==> p[|p| - |s| - 1] == '/'
  {
    if p == [] || p[|p| - 1] == '/' then []
    else LastSegment(p[..|p| - 1]) + [p[|p| - 1]]
  }

  /**
   * `Path::file_name` on Unix: the last component of `p` when it is a normal
   * one. Trailing separators and `.` components are skipped; a path ending in
   * `..`, the root and the empty path have none.
   */
  function FileName(p: Path): (r: Option<string>)
    ensures r.Some? ==> IsNormalComponent(r.value)
    decreases |p|
  {
    if p == [] then None
    else if p[|p| - 1] == '/' then FileName(p[..|p| - 1])
    else
      var segment := LastSegment(p);
      if segment == "." then FileName(p[..|p| - 1])
      else if segment == ".." then None
      else Some(segment)
  }

  lemma {:induction false} LastSegmentOfJoin(dir: Path, name: string)
    requires '/' !in name
    ensures LastSegment(dir + "/" + name) == name
    decreases |name|
  {
    var p := dir + "/" + name;
    if name != [] {
      var init := name[..|name| - 1];
      assert p[..|p| - 1] == dir + "/" + init;
      LastSegmentOfJoin(dir, init);
      assert name == init + [name[|name| - 1]];
    }
  }

  lemma {:induction false} LastSegmentOfName(name: string)
    requires '/' !in name
    ensures LastSegment(name) == name
    decreases |name|
  {
    if name != [] {
      var init := name[..|name| - 1];
      assert name[..|name| - 1] == init;
      LastSegmentOfName(init);
      assert name == init + [name[|name| - 1]];
    }
  }

  /** Joining a normal component onto a directory and taking the file name gives it back. */
  lemma FileNameOfJoin(dir: Path, name: string)
    requires IsNormalComponent(name)
    ensures FileName(dir + "/" + name) == Some(name)
    ensures FileName(dir + "/" + name + "/") == Some(name)
    ensures FileName(name) == Some(name)
  {
    var p := dir + "/" + name;
    LastSegmentOfJoin(dir, name);
    LastSegmentOfName(name);
    assert (p + "/")[..|p + "/"| - 1] == p;
  }

  /** A path whose last component is `..` (or the root, or nothing) has no file name. */
  lemma NoFileName(dir: Path)
    ensures FileName(dir + "/..") == None
    ensures FileName("/") == None
    ensures FileName("") == None
  {
    LastSegmentOfJoin(dir, "..");
    assert dir + "/.." == dir + "/" + "..";
    assert "/"[..0] == "";
  }

  /** `RawDatum::new`: stores the name and content as given. */
  function NewRawDatum(name: string, content: Bytes): (d: DataItem)
    ensures Name(d) == name && PathOf(d) == None
  {
    RawDatum(name, content)
  }

  /** `File::new`: stores the path and nothing else; no file system is consulted. */
  function NewFile(path: Path): (d: DataItem)
    ensures PathOf(d) == Some(path)
    ensures FileName(path).Some? ==> Name(d) == FileName(path).value
    ensures FileName(path).None? ==> Name(d) == UnknownFileName
  {
    File(path)
  }

  /** `DataItem::name`. */
  function Name(d: DataItem): (n: string)
    ensures d.File? ==> n != "" && '/' !in n
  {
    match d
    case RawDatum(dname, _) => dname
    case File(path) =>
      match FileName(path)
      case Some(name) => name
      case None => UnknownFileName
  }

  /** `DataItem::path`. */
  function PathOf(d: DataItem): (p: Option<Path>)
    ensures p.Some? <==> d.File?
  {
    match d
    case RawDatum(_, _) => None
    case File(path) => Some(path)
  }

  /**
   * `DataItem::realize`. An inline item never fails; a file item is read
   * once, here, and a read failure becomes `IOError`.
   */
  function Realize(d: DataItem, fs: FileSystem): (r: Result<Realized, Error>)
    ensures r.Success? ==> r.value.name == Name(d) && r.value.path == PathOf(d)
    ensures d.RawDatum? ==> r == Success(Realized(d.dname, None, d.content))
    ensures d.File? ==> (r.Success? <==> fs(d.path).Success?)
    ensures d.File? && r.Success? ==> r.value.content == fs(d.path).value
    ensures r.Failure? ==> d.File? && r.error == IOError(fs(d.path).error)
  {
    match d
    case RawDatum(dname, content) => Success(Realized(dname, None, content))
    case File(path) =>
      var name := Name(d);
      match fs(path)
      case Success(contents) => Success(Realized(name, Some(path), contents))
      case Failure(error) => Failure(IOError(error))
  }

  /** A file item's realization depends on the file system only through its own path. */
  lemma RealizeReadsOnlyItsPath(d: DataItem, fs1: FileSystem, fs2: FileSystem)
    requires d.File? && fs1(d.path) == fs2(d.path)
    ensures Realize(d, fs1) == Realize(d, fs2)
  {
  }
}
