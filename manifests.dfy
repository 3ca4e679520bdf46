/**
 * The `package.json` manifest as the dependency layers see it, and the
 * edits they make: ordered key writes into the `dependencies` and
 * `devDependencies` maps, where a later write of a key wins and keys no
 * write names keep their values.
 */
module Manifests {
  import opened Wrappers

  /** Package name to version range. */
  type Deps = map<string, string>

  /** One write `pkg.dependencies[key] = version`. */
  type Entry = (string, string)

  /**
   * A manifest. `rest` holds every other top-level member, by key, as its
   * JSON text; the layers neither read nor change it.
   */
  datatype Manifest = Manifest(
    name: Option<string>,
    isPrivate: bool,
    scripts: map<string, string>,
    workspaces: Option<seq<string>>,
    dependencies: Option<Deps>,
    devDependencies: Option<Deps>,
    rest: map<string, string>)

  /**
   * One layer's edit: its writes into `dependencies`, and its writes into
   * `devDependencies` (`None`: the layer does not touch that member at all,
   * not even to default it to `{}`).
   */
  datatype Patch = Patch(dependencies: seq<Entry>, devDependencies: Option<seq<Entry>>)

  /** The keys a sequence of writes names. */
  function Keys(ws: seq<Entry>): set<string> {
    set e | e in ws :: e.0
  }

  lemma KeysConcat(a: seq<Entry>, b: seq<Entry>)
    ensures Keys(a + b) == Keys(a) + Keys(b)
  {
  }

  /** The writes applied in order to `m`. */
  function Write(m: Deps, ws: seq<Entry>): Deps
    decreases |ws|
  {
    if ws == [] then m
    else Write(m, ws[..|ws| - 1])[ws[|ws| - 1].0 := ws[|ws| - 1].1]
  }

  /** The value the last write of `k` in `ws` gives it. */
  function LastValue(ws: seq<Entry>, k: string): string
    requires k in Keys(ws)
    decreases |ws|
  {
    if ws[|ws| - 1].0 == k then ws[|ws| - 1].1
    else
      assert k in Keys(ws[..|ws| - 1]) by {
        var e :| e in ws && e.0 == k;
        assert e in ws[..|ws| - 1];
      }
      LastValue(ws[..|ws| - 1], k)
  }

  /** One more write decides the value of its own key and leaves every other key's. */
  lemma LastValueAppend(ws: seq<Entry>, e: Entry, k: string)
    requires k in Keys(ws + [e])
    ensures e.0 == k ==> LastValue(ws + [e], k) == e.1
    ensures e.0 != k ==> k in Keys(ws) && LastValue(ws + [e], k) == LastValue(ws, k)
  {
    assert (ws + [e])[..|ws|] == ws;
    KeysConcat(ws, [e]);
  }

  /** When every write of a key gives it the same value, that value is the key's last. */
  lemma {:induction false} AgreeingWrites(ws: seq<Entry>, i: int)
    requires 0 <= i < |ws|
    requires forall j :: 0 <= j < |ws| && ws[j].0 == ws[i].0 ==> ws[j].1 == ws[i].1
    ensures ws[i].0 in Keys(ws) && LastValue(ws, ws[i].0) == ws[i].1
    decreases |ws|
  {
    var init := ws[..|ws| - 1];
    assert ws == init + [ws[|ws| - 1]];
    LastValueAppend(init, ws[|ws| - 1], ws[i].0);
    if i < |ws| - 1 && ws[|ws| - 1].0 != ws[i].0 {
      AgreeingWrites(init, i);
    }
  }

  /** Writing adds exactly the named keys; a named key ends with its last write; others keep their value. */
  lemma {:induction false} WriteEffect(m: Deps, ws: seq<Entry>)
    ensures Write(m, ws).Keys == m.Keys + Keys(ws)
    ensures forall k :: k in Keys(ws) ==> Write(m, ws)[k] == LastValue(ws, k)
    ensures forall k :: k in m && k !in Keys(ws) ==> Write(m, ws)[k] == m[k]
    decreases |ws|
  {
    if ws != [] {
      var init := ws[..|ws| - 1];
      WriteEffect(m, init);
      assert Keys(ws) == Keys(init) + {ws[|ws| - 1].0} by {
        assert ws == init + [ws[|ws| - 1]];
      }
    }
  }

  /** Two layers applied one after the other are the layer of their concatenated writes. */
  lemma {:induction false} WriteLayers(m: Deps, a: seq<Entry>, b: seq<Entry>)
    ensures Write(Write(m, a), b) == Write(m, a + b)
    decreases |b|
  {
    if b != [] {
      WriteLayers(m, a, b[..|b| - 1]);
      assert (a + b)[..|a + b| - 1] == a + b[..|b| - 1];
    } else {
      assert a + b == a;
    }
  }

  /** `pkg.dependencies = pkg.dependencies || {}`, the same for dev, then the writes. */
  function ApplyPatch(m: Manifest, p: Patch): (r: Manifest)
    ensures r.name == m.name && r.isPrivate == m.isPrivate && r.scripts == m.scripts
    ensures r.workspaces == m.workspaces && r.rest == m.rest
    ensures r.dependencies.Some? && (p.devDependencies.Some? ==> r.devDependencies.Some?)
    ensures p.devDependencies.None? ==> r.devDependencies == m.devDependencies
  {
    var deps := Write(m.dependencies.GetOr(map[]), p.dependencies);
    var dev := match p.devDependencies
      case None => m.devDependencies
      case Some(ws) => Some(Write(m.devDependencies.GetOr(map[]), ws));
    m.(dependencies := Some(deps), devDependencies := dev)
  }

  /**
   * The dependency keys after a patch: the old ones plus the patched ones,
   * patched keys at their last written version, the rest as they were.
   */
  lemma PatchedDependencies(m: Manifest, p: Patch)
    ensures var d := ApplyPatch(m, p).dependencies.value;
            var old_ := m.dependencies.GetOr(map[]);
            && d.Keys == old_.Keys + Keys(p.dependencies)
            && (forall k :: k in Keys(p.dependencies) ==> d[k] == LastValue(p.dependencies, k))
            && (forall k :: k in old_ && k !in Keys(p.dependencies) ==> d[k] == old_[k])
  {
    WriteEffect(m.dependencies.GetOr(map[]), p.dependencies);
  }

  lemma PatchedDevDependencies(m: Manifest, p: Patch)
    requires p.devDependencies.Some?
    ensures var d := ApplyPatch(m, p).devDependencies.value;
            var old_ := m.devDependencies.GetOr(map[]);
            var ws := p.devDependencies.value;
            && d.Keys == old_.Keys + Keys(ws)
            && (forall k :: k in Keys(ws) ==> d[k] == LastValue(ws, k))
            && (forall k :: k in old_ && k !in Keys(ws) ==> d[k] == old_[k])
  {
    WriteEffect(m.devDependencies.GetOr(map[]), p.devDependencies.value);
  }

  /**
   * Two patches in a row, the second leaving `devDependencies` alone: the
   * dependencies are the old ones with both patches' writes in order, every
   * other key as it was; the development dependencies are the first's.
   */
  lemma PatchesCompose(m: Manifest, p: Patch, q: Patch)
    requires q.devDependencies.None?
    ensures var r := ApplyPatch(ApplyPatch(m, p), q);
            var ws := p.dependencies + q.dependencies;
            var old_ := m.dependencies.GetOr(map[]);
            && r.dependencies == Some(Write(old_, ws))
            && r.dependencies.value.Keys == old_.Keys + Keys(p.dependencies) + Keys(q.dependencies)
            && (forall k :: k in old_ && k !in Keys(ws) ==> r.dependencies.value[k] == old_[k])
            && r.devDependencies == ApplyPatch(m, p).devDependencies
  {
    var old_ := m.dependencies.GetOr(map[]);
    WriteLayers(old_, p.dependencies, q.dependencies);
    WriteEffect(old_, p.dependencies + q.dependencies);
    KeysConcat(p.dependencies, q.dependencies);
  }

  /** `pkg.dependencies[k] = v` for each write in turn, as the layers do it. */
  method SetAll(m: Deps, ws: seq<Entry>) returns (r: Deps)
    ensures r == Write(m, ws)
  {
    r := m;
    for i := 0 to |ws|
      invariant r == Write(m, ws[..i])
    {
      assert ws[..i + 1][..i] == ws[..i];
      r := r[ws[i].0 := ws[i].1];
    }
    assert ws[..|ws|] == ws;
  }

  /** The read-modify step of a dependency layer on a parsed manifest. */
  method PatchManifest(m: Manifest, p: Patch) returns (r: Manifest)
    ensures r == ApplyPatch(m, p)
  {
    var deps := SetAll(m.dependencies.GetOr(map[]), p.dependencies);
    r := m.(dependencies := Some(deps));
    if p.devDependencies.Some? {
      var dev := SetAll(m.devDependencies.GetOr(map[]), p.devDependencies.value);
      r := r.(devDependencies := Some(dev));
    }
  }
}
