/**
 * The older variant's `scaffold`: the layout of a flat or monorepo project,
 * the dependency layers for styling and state management, the component,
 * example and base template groups, and their order. `Plan` lists the
 * filesystem steps `scaffold` issues; `Scaffold` carries them out on a disk.
 */
module Legacy {
  import opened Wrappers
  import opened Options
  import opened Types
  import opened FileSystem
  import opened Templates
  import opened Manifests
  import opened Execution
  import Copier
  import opened Paths

  /** The workspace root's `package.json`. */
  function RootManifest(cfg: ProjectConfig): (m: Manifest)
    ensures m.name == Some(cfg.name) && m.isPrivate
    ensures m.scripts.Keys == {"dev", "build"}
    ensures m.workspaces.None? <==> cfg.packageManager == Pnpm
    ensures m.workspaces.Some? ==> m.workspaces.value == WorkspaceGlobs
    ensures m.dependencies.None? && m.devDependencies.None? && m.rest == map[]
  {
    Manifest(Some(cfg.name), true,
             map["dev" := "echo 'Run dev in apps/*'", "build" := "echo 'Run build in apps/*'"],
             if cfg.packageManager == Pnpm then None else Some(WorkspaceGlobs),
             None, None, map[])
  }

  /**
   * `setupMonorepo`: the workspace file (pnpm only), the root manifest, and
   * the `apps` and `packages` directories.
   */
  function SetupMonorepo(target: Path, cfg: ProjectConfig): (steps: seq<Step>)
    ensures WriteText(target + ["pnpm-workspace.yaml"], WorkspaceYaml) in steps <==> cfg.packageManager == Pnpm
    ensures WriteManifest(target + ["package.json"], RootManifest(cfg)) in steps
    ensures forall s :: s in steps ==> !s.CopyTree?
    ensures |steps| >= 3 && steps[|steps| - 2..] == [MakeDir(target + ["apps"]), MakeDir(target + ["packages"])]
  {
    (if cfg.packageManager == Pnpm then [WriteText(target + ["pnpm-workspace.yaml"], WorkspaceYaml)] else [])
    + [WriteManifest(target + ["package.json"], RootManifest(cfg)),
       MakeDir(target + ["apps"]),
       MakeDir(target + ["packages"])]
  }

  /** The workspace members: each platform's app under `apps`, then the backend package. */
  function Members(target: Path, cfg: ProjectConfig): (steps: seq<Step>)
    ensures forall s :: s in steps ==> s.MakeDir? || s.CopyTree?
    ensures forall s :: s in steps && s.CopyTree? ==> |s.job.dest| == |target| + 2
  {
    var platforms := Platforms(cfg.preset);
    (if MobileApp in platforms then [CopyTree(CopyJob(["mobile"], target + ["apps", "mobile"], []))] else [])
    + (if WebApp in platforms then [CopyTree(CopyJob(["web"], target + ["apps", "web"], []))] else [])
    + (if cfg.backend != NoBackend then
         [MakeDir(target + ["packages", "backend"]),
          CopyTree(CopyJob(["backend", BackendName(cfg.backend)], target + ["packages", "backend"], []))]
       else [])
  }

  /** The platform templates: the workspace and its members in a monorepo; the first platform's template into the target otherwise. */
  function Layout(target: Path, cfg: ProjectConfig): seq<Step> {
    if IsMonorepoPreset(cfg.preset) then SetupMonorepo(target, cfg) + Members(target, cfg)
    else [CopyTree(CopyJob([PlatformName(Platforms(cfg.preset)[0])], target, []))]
  }

  /** `addStyling`'s writes: nativewind adds its runtime and `tailwindcss` as a development tool. */
  function StylingPatch(s: Styling): (p: Patch)
    ensures Keys(p.dependencies) == (if s == Nativewind then {"nativewind"} else {})
    ensures p.devDependencies.Some?
    ensures Keys(p.devDependencies.value) == (if s == Nativewind then {"tailwindcss"} else {})
  {
    if s == Nativewind then Patch([("nativewind", "^4.0.0")], Some([("tailwindcss", "^3.4.0")]))
    else Patch([], Some([]))
  }

  /** `addStyling`: nothing for `none`; otherwise an edit of the app manifest, with the nativewind group copied in before the write. */
  function StylingLayer(app: Path, s: Styling): (steps: seq<Step>)
    ensures s == NoStyling <==> steps == []
    ensures s != NoStyling ==> |steps| == 1 && steps[0].EditManifest?
                               && steps[0].path == app + ["package.json"]
                               && steps[0].patch == StylingPatch(s) && steps[0].after == []
    ensures s != NoStyling ==>
              (steps[0].during == [CopyJob(["styling", "nativewind"], app, [])] <==> s == Nativewind)
    ensures s == Tailwind ==> steps[0].during == []
  {
    if s == NoStyling then []
    else
      [EditManifest(app + ["package.json"], StylingPatch(s),
                    if s == Nativewind then [CopyJob(["styling", "nativewind"], app, [])] else [],
                    [])]
  }

  /** `addStateManagement`'s writes; it leaves `devDependencies` alone. */
  function StatePatch(s: StateManager): (p: Patch)
    ensures Keys(p.dependencies) == (if s == Zustand then {"zustand"} else {"@reduxjs/toolkit", "react-redux"})
    ensures p.devDependencies.None?
  {
    if s == Zustand then Patch([("zustand", "^4.5.0")], None)
    else Patch([("@reduxjs/toolkit", "^2.0.0"), ("react-redux", "^9.0.0")], None)
  }

  /** The state group's destination. */
  function StoreDir(app: Path): Path {
    app + ["lib", "store"]
  }

  /** `addStateManagement`: the manifest edit, with the state group copied only after the write. */
  function StateLayer(app: Path, s: StateManager): (steps: seq<Step>)
    ensures |steps| == 1 && steps[0].EditManifest? && steps[0].path == app + ["package.json"]
    ensures steps[0].patch == StatePatch(s) && steps[0].during == []
    ensures |steps[0].after| == 1 && steps[0].after[0].dest == StoreDir(app)
    ensures steps[0].after[0].src == ["state", StateName(s)]
  {
    [EditManifest(app + ["package.json"], StatePatch(s), [], [CopyJob(["state", StateName(s)], StoreDir(app), [])])]
  }

  /** `addComponents`. */
  function ComponentsLayer(app: Path, c: Components): (steps: seq<Step>)
    ensures c == NoComponents <==> steps == []
    ensures c != NoComponents ==> |steps| == 1 && steps[0].CopyTree? && steps[0].job.dest == app + ["components", "ui"]
    ensures c != NoComponents ==> steps[0].job.src == ["components", ComponentsName(c)] && steps[0].job.exclude == []
  {
    if c == NoComponents then []
    else [CopyTree(CopyJob(["components", ComponentsName(c)], app + ["components", "ui"], []))]
  }

  /** `addExamples`: the examples of the first platform go to `app` on mobile and `app/examples` on web. */
  function ExamplesLayer(app: Path, platform: Platform): (step: Step)
    ensures step.CopyTree? && step.job.src == ["examples", PlatformName(platform)]
    ensures platform == MobileApp ==> step.job.dest == app + ["app"]
    ensures platform == WebApp ==> step.job.dest == app + ["app", "examples"]
  {
    var examples := ["examples", PlatformName(platform)];
    CopyTree(CopyJob(examples, if platform == MobileApp then app + ["app"] else app + ["app", "examples"], []))
  }

  /**
   * The customization layers, in their fixed order, ending with the base
   * group. They write no file directly, and apart from the base group every
   * copy lands under the app's `components` or `app` directory.
   */
  function Layers(target: Path, cfg: ProjectConfig): (steps: seq<Step>)
    ensures forall s :: s in steps ==> s.CopyTree? || s.EditManifest?
    ensures forall s :: s in steps && s.CopyTree? ==>
              var app := AppDir(target, cfg.preset);
              s.job.src == ["base"]
              || (|s.job.dest| > |app| && s.job.dest[..|app|] == app
                  && (s.job.dest[|app|] == "components" || s.job.dest[|app|] == "app"))
  {
    var app := AppDir(target, cfg.preset);
    StylingLayer(app, cfg.styling)
    + StateLayer(app, cfg.state)
    + ComponentsLayer(app, cfg.components)
    + [ExamplesLayer(app, Platforms(cfg.preset)[0]),
       CopyTree(CopyJob(["base"], if IsMonorepoPreset(cfg.preset) then target else app, []))]
  }

  /** Every step `scaffold` issues, in order. */
  function Plan(cwd: Path, cfg: ProjectConfig): (steps: seq<Step>)
    ensures |steps| >= 4 && steps[0] == MakeDir(TargetDir(cwd, cfg.name))
    ensures steps[|steps| - 1] == CopyTree(CopyJob(["base"], TargetDir(cwd, cfg.name), []))
  {
    var target := TargetDir(cwd, cfg.name);
    [MakeDir(target)] + Layout(target, cfg) + Layers(target, cfg)
  }

  /** The older copier writes every render, blank or not. */
  function LegacyEnv(store: Node, ejs: (string, ProjectConfig) -> string, encode: Manifest -> string,
                     decode: string -> Option<Manifest>, cfg: ProjectConfig): (env: Env)
    ensures !env.dropBlank && env.store == store
    ensures forall s :: env.render(s) == ejs(s, cfg)
  {
    Env(store, s => ejs(s, cfg), false, encode, decode)
  }

  /**
   * `scaffold(config)`: carries out the plan on `disk` and returns the
   * target directory. `cwd` is the process's working directory, `store` the
   * templates directory and `ejs` the renderer.
   */
  method Scaffold(disk: Disk, store: Node, ejs: (string, ProjectConfig) -> string, encode: Manifest -> string,
                  decode: string -> Option<Manifest>, cwd: Path, cfg: ProjectConfig)
    returns (target: Path, err: Option<FsError>)
    modifies disk
    ensures target == TargetDir(cwd, cfg.name)
    ensures Outcome(disk.State(), err) == RunSteps(old(disk.State()), LegacyEnv(store, ejs, encode, decode, cfg), Plan(cwd, cfg))
  {
    target := TargetDir(cwd, cfg.name);
    err := disk.Execute(LegacyEnv(store, ejs, encode, decode, cfg), Plan(cwd, cfg));
  }

  // ---------------------------------------------------------------------
  // Properties of the plan

  /** The workspace members: each app exactly for its platform, the backend package exactly when chosen. */
  lemma MembersCopies(target: Path, cfg: ProjectConfig)
    ensures CopyTree(CopyJob(["mobile"], target + ["apps", "mobile"], [])) in Members(target, cfg)
            <==> HasMobilePlatform(cfg.preset)
    ensures CopyTree(CopyJob(["web"], target + ["apps", "web"], [])) in Members(target, cfg)
            <==> HasWebPlatform(cfg.preset)
    ensures CopyTree(CopyJob(["backend", BackendName(cfg.backend)], target + ["packages", "backend"], [])) in Members(target, cfg)
            <==> cfg.backend != NoBackend
  {
    var platforms := Platforms(cfg.preset);
    var mobile := CopyTree(CopyJob(["mobile"], target + ["apps", "mobile"], []));
    var web := CopyTree(CopyJob(["web"], target + ["apps", "web"], []));
    var backend := CopyTree(CopyJob(["backend", BackendName(cfg.backend)], target + ["packages", "backend"], []));
    var m := if MobileApp in platforms then [mobile] else [];
    var w := if WebApp in platforms then [web] else [];
    var b := if cfg.backend != NoBackend then [MakeDir(target + ["packages", "backend"]), backend] else [];
    assert Members(target, cfg) == m + w + b;
    assert web !in m && backend !in m && mobile !in w && backend !in w && mobile !in b && web !in b;
  }

  /** A step of the plan is the target's creation, or belongs to the skeleton or to the layers. */
  lemma PlanParts(cwd: Path, cfg: ProjectConfig, x: Step)
    ensures var target := TargetDir(cwd, cfg.name);
            x in Plan(cwd, cfg) <==> x == MakeDir(target) || x in Layout(target, cfg) || x in Layers(target, cfg)
  {
    var target := TargetDir(cwd, cfg.name);
    assert Plan(cwd, cfg) == [MakeDir(target)] + Layout(target, cfg) + Layers(target, cfg);
  }

  /** The skeleton's platform and backend copies under `apps` and `packages`, which only a monorepo has. */
  lemma LayoutCopies(target: Path, cfg: ProjectConfig)
    ensures CopyTree(CopyJob(["mobile"], target + ["apps", "mobile"], [])) in Layout(target, cfg)
            <==> IsMonorepoPreset(cfg.preset) && HasMobilePlatform(cfg.preset)
    ensures CopyTree(CopyJob(["web"], target + ["apps", "web"], [])) in Layout(target, cfg)
            <==> IsMonorepoPreset(cfg.preset) && HasWebPlatform(cfg.preset)
    ensures CopyTree(CopyJob(["backend", BackendName(cfg.backend)], target + ["packages", "backend"], [])) in Layout(target, cfg)
            <==> IsMonorepoPreset(cfg.preset) && cfg.backend != NoBackend
  {
    if IsMonorepoPreset(cfg.preset) {
      MembersCopies(target, cfg);
      assert Layout(target, cfg) == SetupMonorepo(target, cfg) + Members(target, cfg);
    } else {
      assert |target + ["apps", "mobile"]| != |target|;
    }
  }

  /**
   * In a monorepo the platform templates go to `apps/mobile` and `apps/web`
   * exactly for the preset's platforms, and the backend template to
   * `packages/backend` exactly when a backend is chosen.
   */
  lemma MonorepoCopies(cwd: Path, cfg: ProjectConfig)
    ensures var target := TargetDir(cwd, cfg.name);
            var steps := Plan(cwd, cfg);
            && (CopyTree(CopyJob(["mobile"], target + ["apps", "mobile"], [])) in steps
                <==> IsMonorepoPreset(cfg.preset) && HasMobilePlatform(cfg.preset))
            && (CopyTree(CopyJob(["web"], target + ["apps", "web"], [])) in steps
                <==> IsMonorepoPreset(cfg.preset) && HasWebPlatform(cfg.preset))
            && (CopyTree(CopyJob(["backend", BackendName(cfg.backend)], target + ["packages", "backend"], [])) in steps
                <==> IsMonorepoPreset(cfg.preset) && cfg.backend != NoBackend)
  {
    var target := TargetDir(cwd, cfg.name);
    var mobile := CopyTree(CopyJob(["mobile"], target + ["apps", "mobile"], []));
    var web := CopyTree(CopyJob(["web"], target + ["apps", "web"], []));
    var backend := CopyTree(CopyJob(["backend", BackendName(cfg.backend)], target + ["packages", "backend"], []));
    assert mobile !in Layers(target, cfg) && web !in Layers(target, cfg) && backend !in Layers(target, cfg);
    LayoutCopies(target, cfg);
    PlanParts(cwd, cfg, mobile);
    PlanParts(cwd, cfg, web);
    PlanParts(cwd, cfg, backend);
  }

  /** The skeleton copies the platform template into the target exactly for a flat project. */
  lemma LayoutFlatCopy(target: Path, cfg: ProjectConfig)
    ensures CopyTree(CopyJob([PlatformName(Platforms(cfg.preset)[0])], target, [])) in Layout(target, cfg)
            <==> !IsMonorepoPreset(cfg.preset)
  {
    if IsMonorepoPreset(cfg.preset) {
      assert Layout(target, cfg) == SetupMonorepo(target, cfg) + Members(target, cfg);
    }
  }

  /**
   * A flat project gets its single platform's template copied into the
   * target directory; a monorepo never copies a platform template there.
   */
  lemma FlatCopy(cwd: Path, cfg: ProjectConfig)
    ensures var target := TargetDir(cwd, cfg.name);
            CopyTree(CopyJob([PlatformName(Platforms(cfg.preset)[0])], target, [])) in Plan(cwd, cfg)
            <==> !IsMonorepoPreset(cfg.preset)
  {
    var target := TargetDir(cwd, cfg.name);
    var flat := CopyTree(CopyJob([PlatformName(Platforms(cfg.preset)[0])], target, []));
    assert flat !in Layers(target, cfg);
    LayoutFlatCopy(target, cfg);
    PlanParts(cwd, cfg, flat);
  }

  /** The app directory is where the preset's first platform template was copied, in either layout. */
  lemma AppDirHoldsPlatformTemplate(cwd: Path, cfg: ProjectConfig)
    ensures var target := TargetDir(cwd, cfg.name);
            CopyTree(CopyJob([PlatformName(Platforms(cfg.preset)[0])], AppDir(target, cfg.preset), [])) in Plan(cwd, cfg)
  {
    var target := TargetDir(cwd, cfg.name);
    if IsMonorepoPreset(cfg.preset) {
      MonorepoCopies(cwd, cfg);
    } else {
      FlatCopy(cwd, cfg);
    }
  }

  /** The skeleton's workspace files, which only a monorepo has. */
  lemma LayoutWorkspaceFiles(target: Path, cfg: ProjectConfig)
    ensures WriteText(target + ["pnpm-workspace.yaml"], WorkspaceYaml) in Layout(target, cfg)
            <==> IsMonorepoPreset(cfg.preset) && cfg.packageManager == Pnpm
    ensures WriteManifest(target + ["package.json"], RootManifest(cfg)) in Layout(target, cfg)
            <==> IsMonorepoPreset(cfg.preset)
  {
    if IsMonorepoPreset(cfg.preset) {
      assert Layout(target, cfg) == SetupMonorepo(target, cfg) + Members(target, cfg);
    }
  }

  /**
   * The workspace root's manifest is written exactly for a monorepo, and the
   * workspace YAML exactly for a monorepo managed by pnpm.
   */
  lemma WorkspaceFiles(cwd: Path, cfg: ProjectConfig)
    ensures var target := TargetDir(cwd, cfg.name);
            var steps := Plan(cwd, cfg);
            && (WriteText(target + ["pnpm-workspace.yaml"], WorkspaceYaml) in steps
                <==> IsMonorepoPreset(cfg.preset) && cfg.packageManager == Pnpm)
            && (WriteManifest(target + ["package.json"], RootManifest(cfg)) in steps
                <==> IsMonorepoPreset(cfg.preset))
  {
    var target := TargetDir(cwd, cfg.name);
    var yaml := WriteText(target + ["pnpm-workspace.yaml"], WorkspaceYaml);
    var root := WriteManifest(target + ["package.json"], RootManifest(cfg));
    assert yaml !in Layers(target, cfg) && root !in Layers(target, cfg);
    LayoutWorkspaceFiles(target, cfg);
    PlanParts(cwd, cfg, yaml);
    PlanParts(cwd, cfg, root);
  }

  /**
   * Without a manifest in the app directory the state layer changes nothing:
   * its group is not copied and `lib/store` is not created.
   */
  lemma StateLayerNeedsManifest(fs: Fs, env: Env, app: Path, s: StateManager)
    requires app + ["package.json"] !in fs.files && app + ["package.json"] !in fs.dirs
    ensures RunSteps(fs, env, StateLayer(app, s)) == Outcome(fs, None)
    ensures StoreDir(app) !in RunSteps(fs, env, StateLayer(app, s)).fs.dirs <==> StoreDir(app) !in fs.dirs
  {
    assert StateLayer(app, s)[..0] == [];
  }

  /** The tailwind layer only defaults the two dependency maps; every entry stays as it was. */
  lemma TailwindKeepsDependencies(m: Manifest)
    ensures ApplyPatch(m, StylingPatch(Tailwind)).dependencies == Some(m.dependencies.GetOr(map[]))
    ensures ApplyPatch(m, StylingPatch(Tailwind)).devDependencies == Some(m.devDependencies.GetOr(map[]))
  {
  }

  /**
   * The styling layer followed by the state layer: the dependencies are the
   * old ones plus the keys both layers name (see `StylingPatch` and
   * `StatePatch` for which), each named key at the version
   * its last write gives, every other key as it was; the development
   * dependencies are the styling layer's alone.
   */
  lemma StylingThenState(m: Manifest, sty: Styling, st: StateManager)
    ensures var r := ApplyPatch(ApplyPatch(m, StylingPatch(sty)), StatePatch(st));
            var ws := StylingPatch(sty).dependencies + StatePatch(st).dependencies;
            var old_ := m.dependencies.GetOr(map[]);
            && r.dependencies == Some(Write(old_, ws))
            && r.dependencies.value.Keys == old_.Keys + Keys(StylingPatch(sty).dependencies) + Keys(StatePatch(st).dependencies)
            && (forall k :: k in old_ && k !in Keys(ws) ==> r.dependencies.value[k] == old_[k])
            && r.devDependencies == ApplyPatch(m, StylingPatch(sty)).devDependencies
  {
    PatchesCompose(m, StylingPatch(sty), StatePatch(st));
  }

  /** The older copier writes every file it lists: a `.ejs` file whose render is blank is written blank. */
  lemma WritesEveryRender(store: Node, ejs: (string, ProjectConfig) -> string, encode: Manifest -> string,
                          decode: string -> Option<Manifest>, cfg: ProjectConfig, name: string, content: string)
    ensures var env := LegacyEnv(store, ejs, encode, decode, cfg);
            Copier.FileOutput(name, content, env.render, env.dropBlank)
            == Some(if IsEjs(name) then ejs(content, cfg) else content)
  {
  }
}
