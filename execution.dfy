/**
 * The steps a scaffold issues against the destination filesystem, their
 * meaning as functions of the filesystem state, and `Disk`, which carries
 * them out one write at a time. The first failing step ends the run and
 * whatever was written before it stays on disk.
 */
module Execution {
  import opened Wrappers
  import opened FileSystem
  import opened Templates
  import Copier
  import opened Manifests

  /** `copyTemplate(templatesDir/src, dest, config, exclude)`. */
  datatype CopyJob = CopyJob(src: Path, dest: Path, exclude: seq<string>)

  datatype Step =
    | MakeDir(dir: Path)                           // fs.ensureDir
    | CopyTree(job: CopyJob)                       // copyTemplate
    | WriteText(path: Path, text: string)          // fs.writeFile, or fs.writeJson of a fixed document
    | WriteManifest(path: Path, manifest: Manifest) // fs.writeJson of a manifest built from the config
      /** A dependency layer: when `path` exists, read it, patch it, run `during`, write it back, run `after`. */
    | EditManifest(path: Path, patch: Patch, during: seq<CopyJob>, after: seq<CopyJob>)

  /**
   * What the engine takes from its host: the template store, `ejs.render`
   * with the configuration already supplied, the copier's blank-render
   * policy, and JSON serialization of manifests (`writeJson`/`readJson`;
   * `decode` answers `None` where `readJson` throws).
   */
  datatype Env = Env(store: Node, render: string -> string, dropBlank: bool,
                     encode: Manifest -> string, decode: string -> Option<Manifest>)

  function RunCopy(fs: Fs, env: Env, job: CopyJob): Outcome {
    Copier.CopyTemplate(fs, env.store, job.src, job.dest, env.render, env.dropBlank, job.exclude)
  }

  function RunCopies(fs: Fs, env: Env, jobs: seq<CopyJob>): Outcome
    decreases |jobs|
  {
    if jobs == [] then Outcome(fs, None)
    else
      var before := RunCopies(fs, env, jobs[..|jobs| - 1]);
      if before.err.Some? then before else RunCopy(before.fs, env, jobs[|jobs| - 1])
  }

  /**
   * A missing manifest makes the whole layer a no-op, its copies included;
   * a directory in its place or text that does not parse is an error.
   */
  function RunEdit(fs: Fs, env: Env, path: Path, patch: Patch, during: seq<CopyJob>, after: seq<CopyJob>): (r: Outcome)
    ensures path !in fs.dirs && path !in fs.files ==> r == Outcome(fs, None)
  {
    if path in fs.dirs then Outcome(fs, Some(IsADirectory(path)))
    else if path !in fs.files then Outcome(fs, None)
    else match env.decode(fs.files[path])
      case None => Outcome(fs, Some(InvalidJson(path)))
      case Some(m) =>
        var copied := RunCopies(fs, env, during);
        if copied.err.Some? then copied
        else
          var written := WriteFile(copied.fs, path, env.encode(ApplyPatch(m, patch)));
          if written.err.Some? then written else RunCopies(written.fs, env, after)
  }

  function RunStep(fs: Fs, env: Env, step: Step): Outcome {
    match step
    case MakeDir(dir) => EnsureDir(fs, dir)
    case CopyTree(job) => RunCopy(fs, env, job)
    case WriteText(path, text) => WriteFile(fs, path, text)
    case WriteManifest(path, m) => WriteFile(fs, path, env.encode(m))
    case EditManifest(path, patch, during, after) => RunEdit(fs, env, path, patch, during, after)
  }

  /** The steps in order, stopping at the first error. */
  function RunSteps(fs: Fs, env: Env, steps: seq<Step>): Outcome
    decreases |steps|
  {
    if steps == [] then Outcome(fs, None)
    else
      var before := RunSteps(fs, env, steps[..|steps| - 1]);
      if before.err.Some? then before else RunStep(before.fs, env, steps[|steps| - 1])
  }

  // ---------------------------------------------------------------------
  // Properties of running steps

  /** A run of `a` then `b` is the run of `a + b`; an error in `a` skips `b`. */
  lemma {:induction false} RunStepsAppend(fs: Fs, env: Env, a: seq<Step>, b: seq<Step>)
    ensures RunSteps(fs, env, a + b)
         == (var first := RunSteps(fs, env, a);
             if first.err.Some? then first else RunSteps(first.fs, env, b))
    decreases |b|
  {
    if b == [] {
      assert a + b == a;
    } else {
      RunStepsAppend(fs, env, a, b[..|b| - 1]);
      assert (a + b)[..|a + b| - 1] == a + b[..|b| - 1];
    }
  }

  lemma {:induction false} RunCopiesValid(fs: Fs, env: Env, jobs: seq<CopyJob>)
    requires Valid(fs)
    ensures Valid(RunCopies(fs, env, jobs).fs)
    decreases |jobs|
  {
    if jobs != [] {
      RunCopiesValid(fs, env, jobs[..|jobs| - 1]);
      var before := RunCopies(fs, env, jobs[..|jobs| - 1]);
      var job := jobs[|jobs| - 1];
      Copier.CopyTemplateValid(before.fs, env.store, job.src, job.dest, env.render, env.dropBlank, job.exclude);
    }
  }

  lemma RunStepValid(fs: Fs, env: Env, step: Step)
    requires Valid(fs)
    ensures Valid(RunStep(fs, env, step).fs)
  {
    match step
    case MakeDir(dir) => EnsureDirValid(fs, dir);
    case CopyTree(job) =>
      Copier.CopyTemplateValid(fs, env.store, job.src, job.dest, env.render, env.dropBlank, job.exclude);
    case WriteText(path, text) => WriteFileValid(fs, path, text);
    case WriteManifest(path, m) => WriteFileValid(fs, path, env.encode(m));
    case EditManifest(path, patch, during, after) =>
      if path !in fs.dirs && path in fs.files && env.decode(fs.files[path]).Some? {
        var m := env.decode(fs.files[path]).value;
        RunCopiesValid(fs, env, during);
        var copied := RunCopies(fs, env, during);
        WriteFileValid(copied.fs, path, env.encode(ApplyPatch(m, patch)));
        var written := WriteFile(copied.fs, path, env.encode(ApplyPatch(m, patch)));
        RunCopiesValid(written.fs, env, after);
      }
  }

  /** A scaffold run keeps the destination a well-formed tree, whether it completes or stops at an error. */
  lemma {:induction false} RunStepsValid(fs: Fs, env: Env, steps: seq<Step>)
    requires Valid(fs)
    ensures Valid(RunSteps(fs, env, steps).fs)
    decreases |steps|
  {
    if steps != [] {
      RunStepsValid(fs, env, steps[..|steps| - 1]);
      RunStepValid(RunSteps(fs, env, steps[..|steps| - 1]).fs, env, steps[|steps| - 1]);
    }
  }

  /**
   * A dependency layer with no copies, on a manifest that parses and with a
   * serializer that `decode` reads back, leaves the patched manifest at its
   * path and changes no other file.
   */
  lemma EditWritesPatchedManifest(fs: Fs, env: Env, path: Path, patch: Patch, m: Manifest)
    requires path in fs.files && path !in fs.dirs && env.decode(fs.files[path]) == Some(m)
    requires env.decode(env.encode(ApplyPatch(m, patch))) == Some(ApplyPatch(m, patch))
    requires Valid(fs)
    ensures var r := RunEdit(fs, env, path, patch, [], []);
            && r.err.None?
            && path in r.fs.files && env.decode(r.fs.files[path]) == Some(ApplyPatch(m, patch))
            && r.fs.dirs == fs.dirs && r.fs.files.Keys == fs.files.Keys
            && (forall p :: p in fs.files && p != path ==> r.fs.files[p] == fs.files[p])
  {
  }

  // ---------------------------------------------------------------------
  // The destination filesystem, written one operation at a time

  class Disk {
    var files: map<Path, string>
    var dirs: set<Path>

    function State(): Fs
      reads this
    {
      Fs(files, dirs)
    }

    constructor (fs: Fs)
      ensures State() == fs
    {
      files := fs.files;
      dirs := fs.dirs;
    }

    /** `fs.ensureDir(p)`: checks the prefixes of `p` from the root down, then creates the missing ones. */
    method EnsureDir(p: Path) returns (err: Option<FsError>)
      modifies this
      ensures Outcome(State(), err) == FileSystem.EnsureDir(old(State()), p)
    {
      var k := 0;
      while k <= |p|
        invariant 0 <= k <= |p| + 1
        invariant FilePrefixFrom(files, p, 0) == FilePrefixFrom(files, p, k)
      {
        if p[..k] in files {
          return Some(NotADirectory(p[..k]));
        }
        k := k + 1;
      }
      dirs := dirs + Prefixes(p);
      err := None;
    }

    /** `fs.writeFile(p, text)`. */
    method WriteFile(p: Path, text: string) returns (err: Option<FsError>)
      modifies this
      ensures Outcome(State(), err) == FileSystem.WriteFile(old(State()), p, text)
    {
      if p in dirs || |p| == 0 {
        return Some(IsADirectory(p));
      }
      var parent := p[..|p| - 1];
      if parent in files {
        return Some(NotADirectory(parent));
      }
      if parent !in dirs {
        return Some(NoSuchDirectory(p));
      }
      files := files[p := text];
      err := None;
    }

    /** `copyTemplate(src, dest, config, exclude)`. */
    method CopyTemplate(env: Env, job: CopyJob) returns (err: Option<FsError>)
      modifies this
      ensures Outcome(State(), err) == RunCopy(old(State()), env, job)
    {
      var source := Lookup(env.store, job.src);
      if source.None? {
        return None;
      }
      err := EnsureDir(job.dest);
      if err.Some? {
        return;
      }
      match source.value
      case File(_, _) =>
        err := Some(NotADirectory(job.src));
      case Dir(_, kids) =>
        err := CopyChildren(kids, job.dest, env.render, env.dropBlank, job.exclude);
    }

    /** The `for (const file of files)` loop over one directory listing. */
    method CopyChildren(kids: seq<Node>, dest: Path, render: string -> string, dropBlank: bool, exclude: seq<string>)
      returns (err: Option<FsError>)
      modifies this
      ensures Outcome(State(), err) == Copier.CopyChildren(old(State()), kids, dest, render, dropBlank, exclude)
      decreases kids
    {
      ghost var start := State();
      for i := 0 to |kids|
        invariant Outcome(State(), None) == Copier.CopyChildren(start, kids[..i], dest, render, dropBlank, exclude)
      {
        assert kids[..i + 1][..i] == kids[..i];
        if kids[i].name in exclude {
          continue;
        }
        err := CopyEntry(kids[i], dest, render, dropBlank);
        if err.Some? {
          Copier.ErrorStops(start, kids, i + 1, dest, render, dropBlank, exclude);
          return;
        }
      }
      assert kids[..|kids|] == kids;
      err := None;
    }

    /** One directory entry: recurse into a directory, render a `.ejs` file, copy any other file. */
    method CopyEntry(kid: Node, dest: Path, render: string -> string, dropBlank: bool) returns (err: Option<FsError>)
      modifies this
      ensures Outcome(State(), err) == Copier.CopyEntry(old(State()), kid, dest, render, dropBlank)
      decreases kid
    {
      var target := JoinName(dest, DestName(kid.name));
      match kid
      case Dir(_, kids) =>
        err := EnsureDir(target);
        if err.None? {
          err := CopyChildren(kids, target, render, dropBlank, []);
        }
      case File(name, content) =>
        if IsEjs(name) {
          var rendered := render(content);
          if !(dropBlank && IsBlank(rendered)) {
            err := WriteFile(target, rendered);
          } else {
            err := None;
          }
        } else {
          err := WriteFile(target, content);
        }
    }

    method CopyAll(env: Env, jobs: seq<CopyJob>) returns (err: Option<FsError>)
      modifies this
      ensures Outcome(State(), err) == RunCopies(old(State()), env, jobs)
    {
      ghost var start := State();
      for i := 0 to |jobs|
        invariant Outcome(State(), None) == RunCopies(start, env, jobs[..i])
      {
        assert jobs[..i + 1][..i] == jobs[..i];
        err := CopyTemplate(env, jobs[i]);
        if err.Some? {
          CopiesStop(start, env, jobs, i + 1);
          return;
        }
      }
      assert jobs[..|jobs|] == jobs;
      err := None;
    }

    /** A dependency layer: read, patch key by key, run the copies around the write, write back. */
    method EditManifest(env: Env, path: Path, patch: Patch, during: seq<CopyJob>, after: seq<CopyJob>)
      returns (err: Option<FsError>)
      modifies this
      ensures Outcome(State(), err) == RunEdit(old(State()), env, path, patch, during, after)
    {
      if path in dirs {
        return Some(IsADirectory(path));
      }
      if path !in files {
        return None;
      }
      var parsed := env.decode(files[path]);
      if parsed.None? {
        return Some(InvalidJson(path));
      }
      var m := PatchManifest(parsed.value, patch);
      err := CopyAll(env, during);
      if err.Some? {
        return;
      }
      err := WriteFile(path, env.encode(m));
      if err.Some? {
        return;
      }
      err := CopyAll(env, after);
    }

    method Run(env: Env, step: Step) returns (err: Option<FsError>)
      modifies this
      ensures Outcome(State(), err) == RunStep(old(State()), env, step)
    {
      match step
      case MakeDir(dir) => err := EnsureDir(dir);
      case CopyTree(job) => err := CopyTemplate(env, job);
      case WriteText(path, text) => err := WriteFile(path, text);
      case WriteManifest(path, m) => err := WriteFile(path, env.encode(m));
      case EditManifest(path, patch, during, after) => err := EditManifest(env, path, patch, during, after);
    }

    /** Carries out a plan step by step, stopping at the first error. */
    method Execute(env: Env, steps: seq<Step>) returns (err: Option<FsError>)
      modifies this
      ensures Outcome(State(), err) == RunSteps(old(State()), env, steps)
    {
      ghost var start := State();
      for i := 0 to |steps|
        invariant Outcome(State(), None) == RunSteps(start, env, steps[..i])
      {
        assert steps[..i + 1][..i] == steps[..i];
        err := Run(env, steps[i]);
        if err.Some? {
          StepsStop(start, env, steps, i + 1);
          return;
        }
      }
      assert steps[..|steps|] == steps;
      err := None;
    }
  }

  lemma {:induction false} CopiesStop(fs: Fs, env: Env, jobs: seq<CopyJob>, k: nat)
    requires k <= |jobs| && RunCopies(fs, env, jobs[..k]).err.Some?
    ensures RunCopies(fs, env, jobs) == RunCopies(fs, env, jobs[..k])
    decreases |jobs|
  {
    if k < |jobs| {
      assert jobs[..|jobs| - 1][..k] == jobs[..k];
      CopiesStop(fs, env, jobs[..|jobs| - 1], k);
    } else {
      assert jobs[..k] == jobs;
    }
  }

  lemma {:induction false} StepsStop(fs: Fs, env: Env, steps: seq<Step>, k: nat)
    requires k <= |steps| && RunSteps(fs, env, steps[..k]).err.Some?
    ensures RunSteps(fs, env, steps) == RunSteps(fs, env, steps[..k])
    decreases |steps|
  {
    if k < |steps| {
      assert steps[..|steps| - 1][..k] == steps[..k];
      StepsStop(fs, env, steps[..|steps| - 1], k);
    } else {
      assert steps[..k] == steps;
    }
  }
}
