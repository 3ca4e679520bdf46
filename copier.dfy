/**
 * `copyTemplate`: copies a directory of the template store into a
 * destination directory, rendering `.ejs` files and copying every other
 * file as it is. One definition serves both variants of the engine:
 * `dropBlank` is the newer variant's rule that a render that trims to
 * nothing is not written, and `exclude` its list of top-level names to skip
 * (the older variant passes `false` and `[]`).
 */
module Copier {
  import opened Wrappers
  import opened FileSystem
  import opened Templates

  /**
   * Copies the store entry at `src` into `dest`. A missing source copies
   * nothing; `dest` is created before the source is listed, so a source that
   * is a file fails after creating `dest`.
   */
  function CopyTemplate(fs: Fs, store: Node, src: Path, dest: Path, render: string -> string,
                        dropBlank: bool, exclude: seq<string>): (r: Outcome)
    ensures Lookup(store, src).None? ==> r == Outcome(fs, None)
  {
    match Lookup(store, src)
    case None => Outcome(fs, None)
    case Some(File(_, _)) =>
      var made := EnsureDir(fs, dest);
      if made.err.Some? then made else Outcome(made.fs, Some(NotADirectory(src)))
    case Some(Dir(_, kids)) =>
      var made := EnsureDir(fs, dest);
      if made.err.Some? then made else CopyChildren(made.fs, kids, dest, render, dropBlank, exclude)
  }

  /** The loop over a directory listing, in listing order, stopping at the first error. */
  function CopyChildren(fs: Fs, kids: seq<Node>, dest: Path, render: string -> string,
                        dropBlank: bool, exclude: seq<string>): Outcome
    decreases kids
  {
    if kids == [] then Outcome(fs, None)
    else
      var before := CopyChildren(fs, kids[..|kids| - 1], dest, render, dropBlank, exclude);
      var kid := kids[|kids| - 1];
      if before.err.Some? || kid.name in exclude then before
      else CopyEntry(before.fs, kid, dest, render, dropBlank)
  }

  /** One listed entry: a directory recurses with no exclusions, a file is rendered or copied. */
  function CopyEntry(fs: Fs, kid: Node, dest: Path, render: string -> string, dropBlank: bool): Outcome
    decreases kid
  {
    var target := JoinName(dest, DestName(kid.name));
    match kid
    case Dir(_, kids) =>
      var made := EnsureDir(fs, target);
      if made.err.Some? then made else CopyChildren(made.fs, kids, target, render, dropBlank, [])
    case File(name, content) =>
      if IsEjs(name) then
        var rendered := render(content);
        if dropBlank && IsBlank(rendered) then Outcome(fs, None) else WriteFile(fs, target, rendered)
      else WriteFile(fs, target, content)
  }

  /**
   * What a file entry leaves at its output path when nothing later
   * overwrites it: its text, or its render for a `.ejs` file. Only a blank
   * render under the newer rule leaves nothing; the older variant writes
   * every file.
   */
  function FileOutput(name: string, content: string, render: string -> string, dropBlank: bool): (out: Option<string>)
    ensures out.None? <==> dropBlank && IsEjs(name) && IsBlank(render(content))
    ensures out.Some? ==> out.value == if IsEjs(name) then render(content) else content
  {
    if !IsEjs(name) then Some(content)
    else if dropBlank && IsBlank(render(content)) then None
    else Some(render(content))
  }

  /** The listing with the excluded names taken out. */
  function Without(kids: seq<Node>, exclude: seq<string>): (r: seq<Node>)
    ensures |r| <= |kids|
    ensures forall i :: 0 <= i < |r| ==> r[i] in kids && r[i].name !in exclude
    ensures forall i :: 0 <= i < |kids| && kids[i].name !in exclude ==> kids[i] in r
  {
    if kids == [] then []
    else
      var kid := kids[|kids| - 1];
      Without(kids[..|kids| - 1], exclude) + (if kid.name in exclude then [] else [kid])
  }

  /** Filtering keeps the listing's order: filtering two halves and joining them is filtering the whole. */
  lemma {:induction false} WithoutSplits(kids: seq<Node>, exclude: seq<string>, k: nat)
    requires k <= |kids|
    ensures Without(kids, exclude) == Without(kids[..k], exclude) + Without(kids[k..], exclude)
    decreases |kids|
  {
    if k == |kids| {
      assert kids[..k] == kids && kids[k..] == [];
    } else {
      var init := kids[..|kids| - 1];
      var kid := kids[|kids| - 1];
      WithoutSplits(init, exclude, k);
      assert init[..k] == kids[..k];
      assert kids[k..][..|kids[k..]| - 1] == init[k..] && kids[k..][|kids[k..]| - 1] == kid;
    }
  }

  // ---------------------------------------------------------------------
  // Errors stop the loop

  lemma {:induction false} ErrorStops(fs: Fs, kids: seq<Node>, k: nat, dest: Path, render: string -> string,
                                      dropBlank: bool, exclude: seq<string>)
    requires k <= |kids|
    requires CopyChildren(fs, kids[..k], dest, render, dropBlank, exclude).err.Some?
    ensures CopyChildren(fs, kids, dest, render, dropBlank, exclude)
         == CopyChildren(fs, kids[..k], dest, render, dropBlank, exclude)
    decreases |kids|
  {
    if k < |kids| {
      assert kids[..|kids| - 1][..k] == kids[..k];
      ErrorStops(fs, kids[..|kids| - 1], k, dest, render, dropBlank, exclude);
    } else {
      assert kids[..k] == kids;
    }
  }

  // ---------------------------------------------------------------------
  // Exclusion is a filter on the top-level listing only

  /** Skipping excluded names is the same as copying the listing with those entries removed. */
  lemma {:induction false} ExclusionFiltersListing(fs: Fs, kids: seq<Node>, dest: Path, render: string -> string,
                                                   dropBlank: bool, exclude: seq<string>)
    ensures CopyChildren(fs, kids, dest, render, dropBlank, exclude)
         == CopyChildren(fs, Without(kids, exclude), dest, render, dropBlank, [])
    decreases kids
  {
    if kids != [] {
      var init := kids[..|kids| - 1];
      var kid := kids[|kids| - 1];
      var w := Without(kids, exclude);
      var before := CopyChildren(fs, init, dest, render, dropBlank, exclude);
      ExclusionFiltersListing(fs, init, dest, render, dropBlank, exclude);
      assert before == CopyChildren(fs, Without(init, exclude), dest, render, dropBlank, []);
      if kid.name in exclude {
        assert w == Without(init, exclude);
        assert CopyChildren(fs, kids, dest, render, dropBlank, exclude) == before;
      } else {
        assert w == Without(init, exclude) + [kid];
        assert w != [] && w[..|w| - 1] == Without(init, exclude) && w[|w| - 1] == kid;
        assert CopyChildren(fs, w, dest, render, dropBlank, [])
            == if before.err.Some? then before else CopyEntry(before.fs, kid, dest, render, dropBlank);
      }
    }
  }

  // ---------------------------------------------------------------------
  // A copy keeps the destination tree well formed

  lemma {:induction false} CopyChildrenValid(fs: Fs, kids: seq<Node>, dest: Path, render: string -> string,
                                             dropBlank: bool, exclude: seq<string>)
    requires Valid(fs)
    ensures Valid(CopyChildren(fs, kids, dest, render, dropBlank, exclude).fs)
    decreases kids
  {
    if kids != [] {
      var init := kids[..|kids| - 1];
      CopyChildrenValid(fs, init, dest, render, dropBlank, exclude);
      var before := CopyChildren(fs, init, dest, render, dropBlank, exclude);
      if before.err.None? && kids[|kids| - 1].name !in exclude {
        CopyEntryValid(before.fs, kids[|kids| - 1], dest, render, dropBlank);
      }
    }
  }

  lemma {:induction false} CopyEntryValid(fs: Fs, kid: Node, dest: Path, render: string -> string, dropBlank: bool)
    requires Valid(fs)
    ensures Valid(CopyEntry(fs, kid, dest, render, dropBlank).fs)
    decreases kid
  {
    var target := JoinName(dest, DestName(kid.name));
    match kid
    case Dir(_, kids) =>
      EnsureDirValid(fs, target);
      var made := EnsureDir(fs, target);
      if made.err.None? {
        CopyChildrenValid(made.fs, kids, target, render, dropBlank, []);
      }
    case File(name, content) =>
      WriteFileValid(fs, target, if IsEjs(name) then render(content) else content);
  }

  /** Copying a template group into a well-formed destination leaves it well formed, even when the copy fails midway. */
  lemma CopyTemplateValid(fs: Fs, store: Node, src: Path, dest: Path, render: string -> string,
                          dropBlank: bool, exclude: seq<string>)
    requires Valid(fs)
    ensures Valid(CopyTemplate(fs, store, src, dest, render, dropBlank, exclude).fs)
  {
    EnsureDirValid(fs, dest);
    match Lookup(store, src)
    case None =>
    case Some(File(_, _)) =>
    case Some(Dir(_, kids)) =>
      var made := EnsureDir(fs, dest);
      if made.err.None? {
        CopyChildrenValid(made.fs, kids, dest, render, dropBlank, exclude);
      }
  }

  // ---------------------------------------------------------------------
  // A copy writes nothing outside its destination

  /** Files outside `root` are the same in both states. */
  ghost predicate SameOutside(a: Fs, b: Fs, root: Path) {
    forall p :: !Under(p, root) ==> (p in a.files <==> p in b.files) && (p in a.files ==> a.files[p] == b.files[p])
  }

  lemma {:induction false} CopyChildrenFrame(fs: Fs, kids: seq<Node>, dest: Path, render: string -> string,
                                             dropBlank: bool, exclude: seq<string>)
    requires forall i :: 0 <= i < |kids| ==> PlainNames(kids[i])
    ensures SameOutside(fs, CopyChildren(fs, kids, dest, render, dropBlank, exclude).fs, dest)
    decreases kids
  {
    if kids != [] {
      var init := kids[..|kids| - 1];
      CopyChildrenFrame(fs, init, dest, render, dropBlank, exclude);
      var before := CopyChildren(fs, init, dest, render, dropBlank, exclude);
      var kid := kids[|kids| - 1];
      if before.err.None? && kid.name !in exclude {
        CopyEntryFrame(before.fs, kid, dest, render, dropBlank);
        SameOutsideTrans(fs, before.fs, CopyEntry(before.fs, kid, dest, render, dropBlank).fs, dest, dest + [DestName(kid.name)]);
      }
    }
  }

  /** Two steps that each stay inside `root` (the second inside `sub`, below `root`) together stay inside `root`. */
  lemma SameOutsideTrans(a: Fs, b: Fs, c: Fs, root: Path, sub: Path)
    requires SameOutside(a, b, root) && SameOutside(b, c, sub) && Under(sub, root)
    ensures SameOutside(a, c, root)
  {
  }

  lemma {:induction false} CopyEntryFrame(fs: Fs, kid: Node, dest: Path, render: string -> string, dropBlank: bool)
    requires PlainNames(kid)
    ensures SameOutside(fs, CopyEntry(fs, kid, dest, render, dropBlank).fs, dest + [DestName(kid.name)])
    decreases kid
  {
    var target := JoinName(dest, DestName(kid.name));
    assert target == dest + [DestName(kid.name)];
    match kid
    case Dir(_, kids) =>
      var made := EnsureDir(fs, target);
      if made.err.None? {
        CopyChildrenFrame(made.fs, kids, target, render, dropBlank, []);
      }
    case File(_, _) =>
  }

  /**
   * The newer variant's top-level exclusion and the copy itself never touch
   * a file outside the destination directory of a template group whose
   * output names are plain.
   */
  lemma CopyTemplateFrame(fs: Fs, store: Node, src: Path, dest: Path, render: string -> string,
                          dropBlank: bool, exclude: seq<string>)
    requires Lookup(store, src).Some? ==> PlainNames(Lookup(store, src).value)
    ensures SameOutside(fs, CopyTemplate(fs, store, src, dest, render, dropBlank, exclude).fs, dest)
  {
    match Lookup(store, src)
    case None =>
    case Some(File(_, _)) =>
    case Some(Dir(_, kids)) =>
      var made := EnsureDir(fs, dest);
      if made.err.None? {
        CopyChildrenFrame(made.fs, kids, dest, render, dropBlank, exclude);
      }
  }

  // ---------------------------------------------------------------------
  // What each file of a listing leaves behind

  /** No two entries of a listing share an output name. */
  predicate DistinctOutputs(kids: seq<Node>) {
    forall j, k :: 0 <= j < k < |kids| ==> DestName(kids[j].name) != DestName(kids[k].name)
  }

  /** `r` holds `text` at `out`, or, for `None`, holds at `out` exactly what `before` held. */
  ghost predicate Holds(r: Fs, before: Fs, out: Path, text: Option<string>) {
    match text
    case Some(t) => out in r.files && r.files[out] == t
    case None => (out in r.files <==> out in before.files) && (out in before.files ==> r.files[out] == before.files[out])
  }

  /**
   * After a successful copy of a listing with distinct output names, the
   * output path of every file below an entry, at any depth, holds the file's
   * text (a plain file), its render (a `.ejs` file), or, when the render is
   * blank and blanks are dropped, whatever was there before.
   */
  lemma {:induction false} CopyChildrenFileOutput(fs: Fs, kids: seq<Node>, dest: Path, render: string -> string,
                                                  dropBlank: bool, exclude: seq<string>, i: nat, q: Path,
                                                  name: string, content: string)
    requires i < |kids| && kids[i].name !in exclude && Lookup(kids[i], q) == Some(File(name, content))
    requires forall j :: 0 <= j < |kids| ==> WellNamed(kids[j])
    requires DistinctOutputs(kids)
    requires CopyChildren(fs, kids, dest, render, dropBlank, exclude).err.None?
    ensures Holds(CopyChildren(fs, kids, dest, render, dropBlank, exclude).fs, fs,
                  dest + [DestName(kids[i].name)] + OutPath(q), FileOutput(name, content, render, dropBlank))
    decreases kids, 1
  {
    var init := kids[..|kids| - 1];
    var before := CopyChildren(fs, init, dest, render, dropBlank, exclude);
    var kid := kids[|kids| - 1];
    var out := dest + [DestName(kids[i].name)] + OutPath(q);
    var text := FileOutput(name, content, render, dropBlank);
    var r := CopyChildren(fs, kids, dest, render, dropBlank, exclude);
    assert before.err.None?;
    assert forall j :: 0 <= j < |init| ==> init[j] == kids[j];
    assert |out| > |dest| && out[..|dest|] == dest && out[|dest|] == DestName(kids[i].name);
    if i == |kids| - 1 {
      PrefixUnchangedAt(fs, init, dest, render, dropBlank, exclude, out);
      assert r == CopyEntry(before.fs, kid, dest, render, dropBlank);
      CopyEntryFileOutput(before.fs, kid, dest, render, dropBlank, q, name, content);
    } else {
      CopyChildrenFileOutput(fs, init, dest, render, dropBlank, exclude, i, q, name, content);
      if kid.name !in exclude {
        assert r == CopyEntry(before.fs, kid, dest, render, dropBlank);
        LaterEntryKeeps(fs, before.fs, kid, dest, render, dropBlank, out, text);
      }
    }
  }

  /** The same for a listing, with the file named by its path from the listing: `q[0]` is the entry's name. */
  lemma {:induction false} ListingFileOutput(fs: Fs, kids: seq<Node>, dest: Path, render: string -> string,
                                             dropBlank: bool, exclude: seq<string>, q: Path, name: string, content: string)
    requires q != [] && q[0] !in exclude && ChildNamed(kids, q[0]).Some?
    requires Lookup(ChildNamed(kids, q[0]).value, q[1..]) == Some(File(name, content))
    requires forall j :: 0 <= j < |kids| ==> WellNamed(kids[j])
    requires DistinctOutputs(kids)
    requires CopyChildren(fs, kids, dest, render, dropBlank, exclude).err.None?
    ensures Holds(CopyChildren(fs, kids, dest, render, dropBlank, exclude).fs, fs,
                  dest + OutPath(q), FileOutput(name, content, render, dropBlank))
    decreases kids, 2
  {
    var child := ChildNamed(kids, q[0]).value;
    var j :| 0 <= j < |kids| && kids[j] == child;
    CopyChildrenFileOutput(fs, kids, dest, render, dropBlank, exclude, j, q[1..], name, content);
    assert kids[j].name == q[0] && OutPath(q) == [DestName(q[0])] + OutPath(q[1..]);
    assert dest + [DestName(q[0])] + OutPath(q[1..]) == dest + ([DestName(q[0])] + OutPath(q[1..]));
  }

  /** The same for one entry: a file at path `q` below it lands at the entry's output path plus `q`'s output names. */
  lemma {:induction false} CopyEntryFileOutput(fs: Fs, kid: Node, dest: Path, render: string -> string, dropBlank: bool,
                                               q: Path, name: string, content: string)
    requires WellNamed(kid) && Lookup(kid, q) == Some(File(name, content))
    requires CopyEntry(fs, kid, dest, render, dropBlank).err.None?
    ensures Holds(CopyEntry(fs, kid, dest, render, dropBlank).fs, fs,
                  dest + [DestName(kid.name)] + OutPath(q), FileOutput(name, content, render, dropBlank))
    decreases kid, 0
  {
    var target := dest + [DestName(kid.name)];
    if q == [] {
      assert kid == File(name, content);
      assert target + OutPath(q) == target;
      FileEntryOutput(fs, fs, kid, dest, render, dropBlank);
    } else {
      assert kid.Dir?;
      var sub := kid.children;
      assert JoinName(dest, DestName(kid.name)) == target;
      var made := EnsureDir(fs, target);
      assert made.err.None?;
      assert CopyEntry(fs, kid, dest, render, dropBlank) == CopyChildren(made.fs, sub, target, render, dropBlank, []);
      ListingFileOutput(made.fs, sub, target, render, dropBlank, [], q, name, content);
      assert target + OutPath(q) == dest + [DestName(kid.name)] + OutPath(q);
    }
  }

  /**
   * `copyTemplate` recurses into every subdirectory: after a successful copy
   * of a well-named group, the file at store path `src + q` has left its
   * output at `dest` plus the output names of `q`.
   */
  lemma CopyTemplateFileOutput(fs: Fs, store: Node, src: Path, dest: Path, render: string -> string,
                               dropBlank: bool, exclude: seq<string>, q: Path, name: string, content: string)
    requires q != [] && q[0] !in exclude
    requires Lookup(store, src + q) == Some(File(name, content))
    requires Lookup(store, src).Some? && WellNamed(Lookup(store, src).value)
    requires CopyTemplate(fs, store, src, dest, render, dropBlank, exclude).err.None?
    ensures Holds(CopyTemplate(fs, store, src, dest, render, dropBlank, exclude).fs, fs,
                  dest + OutPath(q), FileOutput(name, content, render, dropBlank))
  {
    LookupConcat(store, src, q);
    var group := Lookup(store, src).value;
    assert group.Dir?;
    var made := EnsureDir(fs, dest);
    assert made.err.None?;
    assert CopyTemplate(fs, store, src, dest, render, dropBlank, exclude)
        == CopyChildren(made.fs, group.children, dest, render, dropBlank, exclude);
    ListingFileOutput(made.fs, group.children, dest, render, dropBlank, exclude, q, name, content);
  }

  /** A later entry with another output name leaves what earlier entries left at or below `out`. */
  lemma LaterEntryKeeps(base: Fs, fs: Fs, kid: Node, dest: Path, render: string -> string, dropBlank: bool,
                        out: Path, text: Option<string>)
    requires PlainNames(kid) && Holds(fs, base, out, text)
    requires |out| > |dest| && out[..|dest|] == dest && out[|dest|] != DestName(kid.name)
    ensures Holds(CopyEntry(fs, kid, dest, render, dropBlank).fs, base, out, text)
  {
    CopyEntryFrame(fs, kid, dest, render, dropBlank);
    HoldsOutside(fs, CopyEntry(fs, kid, dest, render, dropBlank).fs, base, out, text, dest + [DestName(kid.name)]);
  }

  /** A file entry leaves its output at its output path, over what the earlier state `base` held there. */
  lemma FileEntryOutput(base: Fs, fs: Fs, kid: Node, dest: Path, render: string -> string, dropBlank: bool)
    requires kid.File? && PlainName(DestName(kid.name))
    requires Holds(fs, base, dest + [DestName(kid.name)], None)
    requires CopyEntry(fs, kid, dest, render, dropBlank).err.None?
    ensures Holds(CopyEntry(fs, kid, dest, render, dropBlank).fs, base, dest + [DestName(kid.name)],
                  FileOutput(kid.name, kid.content, render, dropBlank))
  {
    var out := dest + [DestName(kid.name)];
    assert JoinName(dest, DestName(kid.name)) == out;
    var text := FileOutput(kid.name, kid.content, render, dropBlank);
    if text.Some? {
      assert CopyEntry(fs, kid, dest, render, dropBlank) == WriteFile(fs, out, text.value);
    } else {
      assert CopyEntry(fs, kid, dest, render, dropBlank).fs == fs;
    }
  }

  /** What a path holds survives a step that changes nothing outside `root`, when the path is not under it. */
  lemma HoldsOutside(a: Fs, b: Fs, base: Fs, out: Path, text: Option<string>, root: Path)
    requires Holds(a, base, out, text) && SameOutside(a, b, root) && !Under(out, root)
    ensures Holds(b, base, out, text)
  {
  }

  /** The earlier entries of a listing do not write at or below the output path of a later entry. */
  lemma {:induction false} PrefixUnchangedAt(fs: Fs, init: seq<Node>, dest: Path, render: string -> string,
                                             dropBlank: bool, exclude: seq<string>, out: Path)
    requires forall j :: 0 <= j < |init| ==> PlainNames(init[j])
    requires |out| > |dest| && out[..|dest|] == dest
    requires forall j :: 0 <= j < |init| ==> DestName(init[j].name) != out[|dest|]
    ensures Holds(CopyChildren(fs, init, dest, render, dropBlank, exclude).fs, fs, out, None)
    decreases init
  {
    if init != [] {
      var pre := init[..|init| - 1];
      PrefixUnchangedAt(fs, pre, dest, render, dropBlank, exclude, out);
      var before := CopyChildren(fs, pre, dest, render, dropBlank, exclude);
      var kid := init[|init| - 1];
      if before.err.None? && kid.name !in exclude {
        LaterEntryKeeps(fs, before.fs, kid, dest, render, dropBlank, out, None);
      }
    }
  }
}
