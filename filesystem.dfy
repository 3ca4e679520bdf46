/**
 * The destination filesystem as the engine sees it through fs-extra: files
 * (path to text) and directories, with the two primitive writes the engine
 * performs, `ensureDir` (mkdir -p) and writing one file, each with the
 * error the host filesystem raises when something stands in the way.
 */
module FileSystem {
  import opened Wrappers

  /** An absolute path as its list of segments; `[]` is the filesystem root. */
  type Path = seq<string>

  datatype FsError =
    | NotADirectory(path: Path)    // a file stands where a directory is needed
    | IsADirectory(path: Path)     // a directory stands where a file is written or read
    | NoSuchDirectory(path: Path)  // the directory that should hold a written file is missing
    | InvalidJson(path: Path)      // a manifest that does not parse

  datatype Fs = Fs(files: map<Path, string>, dirs: set<Path>)

  /**
   * The state after an operation and the error that stopped it, if any.
   * A failed operation keeps whatever it wrote before failing: nothing is
   * rolled back.
   */
  datatype Outcome = Outcome(fs: Fs, err: Option<FsError>)

  function Parent(p: Path): Path
    requires |p| > 0
  {
    p[..|p| - 1]
  }

  /** `q` is `p` or lies below it. */
  predicate Under(q: Path, p: Path) {
    |p| <= |q| && q[..|p|] == p
  }

  /**
   * A well-formed tree: the root is a directory, every directory but the
   * root and every file sits in a directory, and no path is both.
   */
  predicate Valid(fs: Fs) {
    && [] in fs.dirs
    && (forall d :: d in fs.dirs && |d| > 0 ==> Parent(d) in fs.dirs)
    && (forall f :: f in fs.files ==> |f| > 0 && Parent(f) in fs.dirs)
    && (forall f :: f in fs.files ==> f !in fs.dirs)
  }

  /** All prefixes of `p`, `p` included: the directories `mkdir -p p` needs. */
  function Prefixes(p: Path): (ps: set<Path>)
    ensures forall k :: 0 <= k <= |p| ==> p[..k] in ps
    ensures forall q :: q in ps ==> |q| <= |p| && q == p[..|q|]
  {
    set k | 0 <= k <= |p| :: p[..k]
  }

  /** The shortest prefix of `p`, from length `k` on, that is a file. */
  function FilePrefixFrom(files: map<Path, string>, p: Path, k: nat): (r: Option<Path>)
    ensures r.None? <==> forall j :: k <= j <= |p| ==> p[..j] !in files
    ensures r.Some? ==> k <= |r.value| <= |p| && r.value == p[..|r.value|] && r.value in files
    decreases |p| + 1 - k
  {
    if k > |p| then None
    else if p[..k] in files then Some(p[..k])
    else FilePrefixFrom(files, p, k + 1)
  }

  /** `fs.ensureDir(p)`: creates `p` and its missing ancestors, or fails on a file in the way. */
  function EnsureDir(fs: Fs, p: Path): (r: Outcome)
    ensures r.err.None? <==> forall k :: 0 <= k <= |p| ==> p[..k] !in fs.files
    ensures r.err.None? ==> r.fs == Fs(fs.files, fs.dirs + Prefixes(p))
    ensures r.err.Some? ==> r.fs == fs && r.err.value.NotADirectory?
  {
    match FilePrefixFrom(fs.files, p, 0)
    case Some(q) => Outcome(fs, Some(NotADirectory(q)))
    case None => Outcome(Fs(fs.files, fs.dirs + Prefixes(p)), None)
  }

  /** `fs.writeFile(p, text)`: writes (or overwrites) one file whose directory exists. */
  function WriteFile(fs: Fs, p: Path, text: string): (r: Outcome)
    ensures r.err.None? <==> |p| > 0 && p !in fs.dirs && Parent(p) in fs.dirs && Parent(p) !in fs.files
    ensures r.err.None? ==> r.fs == Fs(fs.files[p := text], fs.dirs)
    ensures r.err.Some? ==> r.fs == fs
  {
    if p in fs.dirs || |p| == 0 then Outcome(fs, Some(IsADirectory(p)))
    else if Parent(p) in fs.files then Outcome(fs, Some(NotADirectory(Parent(p))))
    else if Parent(p) !in fs.dirs then Outcome(fs, Some(NoSuchDirectory(p)))
    else Outcome(fs.(files := fs.files[p := text]), None)
  }

  lemma EnsureDirValid(fs: Fs, p: Path)
    requires Valid(fs)
    ensures Valid(EnsureDir(fs, p).fs)
  {
    var r := EnsureDir(fs, p);
    if r.err.None? {
      forall d | d in r.fs.dirs && |d| > 0
        ensures Parent(d) in r.fs.dirs
      {
        if d in Prefixes(p) {
          assert Parent(d) == p[..|d| - 1];
        }
      }
    }
  }

  lemma WriteFileValid(fs: Fs, p: Path, text: string)
    requires Valid(fs)
    ensures Valid(WriteFile(fs, p, text).fs)
  {
  }

  /** Once `ensureDir(p)` succeeded on a well-formed tree, `p` and all its ancestors are directories. */
  lemma EnsureDirMakesDirectories(fs: Fs, p: Path)
    requires Valid(fs) && EnsureDir(fs, p).err.None?
    ensures forall q :: Under(p, q) ==> q in EnsureDir(fs, p).fs.dirs
  {
    forall q | Under(p, q)
      ensures q in EnsureDir(fs, p).fs.dirs
    {
      assert q == p[..|q|];
    }
  }

  /** `ensureDir` a second time changes nothing. */
  lemma EnsureDirIdempotent(fs: Fs, p: Path)
    requires EnsureDir(fs, p).err.None?
    ensures EnsureDir(EnsureDir(fs, p).fs, p) == EnsureDir(fs, p)
  {
    var once := EnsureDir(fs, p).fs;
    assert once.dirs + Prefixes(p) == once.dirs;
  }
}
