/**
 * The newer variant's `scaffold`: the flat or monorepo layout with the web
 * framework's template and the EAS build file, one dependency layer
 * (`addDependencies`) for state, animation, platform and backend, and the
 * state, component, backend-client and base groups. Its copier drops
 * renders that are blank.
 */
module DistScaffolder {
  import opened Wrappers
  import opened Options
  import opened DistOptions
  import opened FileSystem
  import opened Templates
  import opened Manifests
  import opened Execution
  import opened Paths
  import opened DistDependencies

  /** `eas.json`: the fixed build profiles, as `writeJson` with two-space indentation writes them. */
  const EasJson :=
    "{\n"
    + "  \"cli\": {\n    \"version\": \">= 7.0.0\"\n  },\n"
    + "  \"build\": {\n"
    + "    \"development\": {\n      \"developmentClient\": true,\n      \"distribution\": \"internal\"\n    },\n"
    + "    \"preview\": {\n      \"distribution\": \"internal\"\n    },\n"
    + "    \"production\": {}\n"
    + "  },\n"
    + "  \"submit\": {\n    \"production\": {}\n  }\n"
    + "}\n"

  /** The template group of the web app: `vite` for Vite, `web` for Next.js. */
  function WebTemplate(wf: WebFramework): (group: string)
    ensures group == "vite" <==> wf == Vite
  {
    if wf == Vite then "vite" else "web"
  }

  /** The workspace root's `package.json`: one development script per workspace member. */
  function RootManifest(cfg: Config): (m: Manifest)
    ensures m.name == Some(cfg.name) && m.isPrivate
    ensures m.scripts.Keys == {"dev:mobile", "dev:web", "dev:backend"}
    ensures m.workspaces.None? <==> cfg.packageManager == Pnpm
    ensures m.workspaces.Some? ==> m.workspaces.value == WorkspaceGlobs
    ensures m.dependencies.None? && m.devDependencies.None? && m.rest == map[]
  {
    Manifest(Some(cfg.name), true,
             map["dev:mobile" := "cd apps/mobile && npm run start",
                 "dev:web" := "cd apps/web && npm run dev",
                 "dev:backend" := "cd packages/backend && npm run start:dev"],
             if cfg.packageManager == Pnpm then None else Some(WorkspaceGlobs),
             None, None, map[])
  }

  /** `setupMonorepo`. */
  function SetupMonorepo(target: Path, cfg: Config): (steps: seq<Step>)
    ensures WriteText(target + ["pnpm-workspace.yaml"], WorkspaceYaml) in steps <==> cfg.packageManager == Pnpm
    ensures WriteManifest(target + ["package.json"], RootManifest(cfg)) in steps
    ensures |steps| >= 3 && steps[|steps| - 2..] == [MakeDir(target + ["apps"]), MakeDir(target + ["packages"])]
    ensures forall s :: s in steps ==> !s.CopyTree? && !s.EditManifest?
    ensures forall s :: s in steps && s.WriteText? ==> s.path == target + ["pnpm-workspace.yaml"]
  {
    (if cfg.packageManager == Pnpm then [WriteText(target + ["pnpm-workspace.yaml"], WorkspaceYaml)] else [])
    + [WriteManifest(target + ["package.json"], RootManifest(cfg)),
       MakeDir(target + ["apps"]),
       MakeDir(target + ["packages"])]
  }

  /** `scaffoldMobile` into `dir`, followed by `addEasConfig` when EAS is chosen. */
  function MobileGroup(dir: Path, cfg: Config): (steps: seq<Step>)
    ensures |steps| == (if cfg.eas then 2 else 1)
    ensures steps[0] == CopyTree(CopyJob(["mobile"], dir, []))
    ensures cfg.eas ==> steps[1] == WriteText(dir + ["eas.json"], EasJson)
  {
    [CopyTree(CopyJob(["mobile"], dir, []))] + (if cfg.eas then [WriteText(dir + ["eas.json"], EasJson)] else [])
  }

  /** The members of a workspace: the apps of the preset's platforms, then the backend package. */
  function Members(target: Path, cfg: Config): (steps: seq<Step>)
    ensures forall s :: s in steps ==> s.CopyTree? || s.WriteText?
    ensures forall s :: s in steps && s.CopyTree? ==> |s.job.dest| == |target| + 2
    ensures forall s :: s in steps && s.WriteText? ==>
              cfg.eas && HasMobilePlatform(cfg.preset) && s == WriteText(target + ["apps", "mobile", "eas.json"], EasJson)
  {
    var platforms := Platforms(cfg.preset);
    (if MobileApp in platforms then MobileGroup(target + ["apps", "mobile"], cfg) else [])
    + (if WebApp in platforms then [CopyTree(CopyJob([WebTemplate(cfg.webFramework)], target + ["apps", "web"], []))] else [])
    + (if cfg.backend != NoBackend then
         [CopyTree(CopyJob(["backend", BackendName(cfg.backend)], target + ["packages", "backend"], []))]
       else [])
  }

  /** A flat project: the first platform's app in the target directory itself. */
  function Flat(target: Path, cfg: Config): (steps: seq<Step>)
    ensures 1 <= |steps| <= 2 && steps[0].CopyTree? && steps[0].job.dest == target
    ensures forall s :: s in steps ==> s.CopyTree? || s.WriteText?
    ensures forall s :: s in steps && s.CopyTree? ==> s.job.dest == target
    ensures forall s :: s in steps && s.WriteText? ==>
              cfg.eas && HasMobilePlatform(cfg.preset) && s == WriteText(target + ["eas.json"], EasJson)
  {
    if Platforms(cfg.preset)[0] == MobileApp then MobileGroup(target, cfg)
    else [CopyTree(CopyJob([WebTemplate(cfg.webFramework)], target, []))]
  }

  /** The project skeleton: the workspace and its members, or the single app in the target. */
  function Layout(target: Path, cfg: Config): seq<Step> {
    if IsMonorepoPreset(cfg.preset) then [MakeDir(target)] + SetupMonorepo(target, cfg) + Members(target, cfg)
    else Flat(target, cfg)
  }


  /** The template group of the preset's first platform. */
  function AppTemplate(cfg: Config): string {
    if Platforms(cfg.preset)[0] == MobileApp then "mobile" else WebTemplate(cfg.webFramework)
  }

  /** The backend client group and the shared `lib` group, both only with a backend. */
  function ClientGroups(app: Path, b: Backend): (steps: seq<Step>)
    ensures steps == [] <==> b == NoBackend
  {
    if b != NoBackend then
      [CopyTree(CopyJob(["backend", BackendName(b)], app + ["lib", "backend"], [])),
       CopyTree(CopyJob(["lib"], app + ["lib"], []))]
    else []
  }

  /**
   * The groups copied into the app: state, components, and the backend
   * client with the shared `lib` group. Each lands under the app's `lib` or
   * `components` directory.
   */
  function AppGroups(app: Path, cfg: Config): (steps: seq<Step>)
    ensures forall s :: s in steps ==> s.CopyTree?
    ensures forall s :: s in steps ==>
              |s.job.dest| > |app| && s.job.dest[..|app|] == app
              && (s.job.dest[|app|] == "lib" || s.job.dest[|app|] == "components")
  {
    [CopyTree(CopyJob(["state", StateName(cfg.state)], app + ["lib", "store"], []))]
    + (if cfg.components != NoComponents then
         [CopyTree(CopyJob(["components", ComponentsName(cfg.components)], app + ["components", "ui"], []))]
       else [])
    + ClientGroups(app, cfg.backend)
  }

  /**
   * The layers after the skeleton, in their fixed order: the dependency
   * edit, the groups copied into the app, and the base group in the target.
   */
  function Layers(target: Path, cfg: Config): (steps: seq<Step>)
    ensures forall s :: s in steps ==> s.CopyTree? || s.EditManifest?
    ensures forall s :: s in steps && s.CopyTree? ==>
              var app := AppDir(target, cfg.preset);
              s.job == CopyJob(["base"], target, [])
              || (|s.job.dest| > |app| && s.job.dest[..|app|] == app
                  && (s.job.dest[|app|] == "lib" || s.job.dest[|app|] == "components"))
    ensures |steps| >= 2
    ensures steps[0] == EditManifest(AppDir(target, cfg.preset) + ["package.json"], DistPatch(cfg, Platforms(cfg.preset)[0]), [], [])
    ensures forall s :: s in steps && s.EditManifest? ==> s == steps[0]
  {
    var app := AppDir(target, cfg.preset);
    [EditManifest(app + ["package.json"], DistPatch(cfg, Platforms(cfg.preset)[0]), [], [])]
    + AppGroups(app, cfg)
    + [CopyTree(CopyJob(["base"], target, []))]
  }

  /** Every step `scaffold` issues, in order; a flat project's directory is created by its first copy. */
  function Plan(cwd: Path, cfg: Config): (steps: seq<Step>)
    ensures |steps| >= 4 && steps[|steps| - 1] == CopyTree(CopyJob(["base"], TargetDir(cwd, cfg.name), []))
    ensures IsMonorepoPreset(cfg.preset) <==> steps[0] == MakeDir(TargetDir(cwd, cfg.name))
  {
    var target := TargetDir(cwd, cfg.name);
    Layout(target, cfg) + Layers(target, cfg)
  }

  /** The newer copier drops blank renders. */
  function DistEnv(store: Node, ejs: (string, Config) -> string, encode: Manifest -> string,
                   decode: string -> Option<Manifest>, cfg: Config): (env: Env)
    ensures env.dropBlank && env.store == store
    ensures forall s :: env.render(s) == ejs(s, cfg)
  {
    Env(store, s => ejs(s, cfg), true, encode, decode)
  }

  /**
   * `scaffold(config)`: carries out the plan on `disk` and returns the
   * target directory. `cwd` is the process's working directory, `store` the
   * templates directory and `ejs` the renderer.
   */
  method Scaffold(disk: Disk, store: Node, ejs: (string, Config) -> string, encode: Manifest -> string,
                  decode: string -> Option<Manifest>, cwd: Path, cfg: Config)
    returns (target: Path, err: Option<FsError>)
    modifies disk
    ensures target == TargetDir(cwd, cfg.name)
    ensures Outcome(disk.State(), err) == RunSteps(old(disk.State()), DistEnv(store, ejs, encode, decode, cfg), Plan(cwd, cfg))
  {
    target := TargetDir(cwd, cfg.name);
    err := disk.Execute(DistEnv(store, ejs, encode, decode, cfg), Plan(cwd, cfg));
  }

  // ---------------------------------------------------------------------
  // Properties of the plan

  /** The backend client group never lands in the workspace's `packages/backend`. */
  lemma LayersMissBackendPackage(target: Path, cfg: Config)
    ensures forall s :: s in Layers(target, cfg) && s.CopyTree? ==> s.job.dest != target + ["packages", "backend"]
  {
    var app := AppDir(target, cfg.preset);
    assert app + ["lib", "backend"] != target + ["packages", "backend"] by {
      if app == target {
        assert (app + ["lib", "backend"])[|target|] == "lib";
      } else {
        assert |app + ["lib", "backend"]| != |target + ["packages", "backend"]|;
      }
    }
  }

  /** The workspace members: each app exactly for its platform, the backend package exactly when chosen. */
  lemma MembersCopies(target: Path, cfg: Config)
    ensures CopyTree(CopyJob(["mobile"], target + ["apps", "mobile"], [])) in Members(target, cfg)
            <==> HasMobilePlatform(cfg.preset)
    ensures CopyTree(CopyJob([WebTemplate(cfg.webFramework)], target + ["apps", "web"], [])) in Members(target, cfg)
            <==> HasWebPlatform(cfg.preset)
    ensures CopyTree(CopyJob(["backend", BackendName(cfg.backend)], target + ["packages", "backend"], [])) in Members(target, cfg)
            <==> cfg.backend != NoBackend
  {
    var platforms := Platforms(cfg.preset);
    var mobile := CopyTree(CopyJob(["mobile"], target + ["apps", "mobile"], []));
    var web := CopyTree(CopyJob([WebTemplate(cfg.webFramework)], target + ["apps", "web"], []));
    var backend := CopyTree(CopyJob(["backend", BackendName(cfg.backend)], target + ["packages", "backend"], []));
    var m := if MobileApp in platforms then MobileGroup(target + ["apps", "mobile"], cfg) else [];
    var w := if WebApp in platforms then [web] else [];
    var b := if cfg.backend != NoBackend then [backend] else [];
    assert Members(target, cfg) == m + w + b;
    assert mobile in m <==> MobileApp in platforms;
    assert web !in m && backend !in m && mobile !in w && backend !in w && mobile !in b && web !in b;
  }

  /** A step of the plan belongs to the skeleton or to the layers. */
  lemma PlanParts(cwd: Path, cfg: Config, x: Step)
    ensures var target := TargetDir(cwd, cfg.name);
            x in Plan(cwd, cfg) <==> x in Layout(target, cfg) || x in Layers(target, cfg)
  {
    assert Plan(cwd, cfg) == Layout(TargetDir(cwd, cfg.name), cfg) + Layers(TargetDir(cwd, cfg.name), cfg);
  }

  /** The skeleton's platform and backend copies under `apps` and `packages`, which only a monorepo has. */
  lemma LayoutCopies(target: Path, cfg: Config)
    ensures CopyTree(CopyJob(["mobile"], target + ["apps", "mobile"], [])) in Layout(target, cfg)
            <==> IsMonorepoPreset(cfg.preset) && HasMobilePlatform(cfg.preset)
    ensures CopyTree(CopyJob([WebTemplate(cfg.webFramework)], target + ["apps", "web"], [])) in Layout(target, cfg)
            <==> IsMonorepoPreset(cfg.preset) && HasWebPlatform(cfg.preset)
    ensures CopyTree(CopyJob(["backend", BackendName(cfg.backend)], target + ["packages", "backend"], [])) in Layout(target, cfg)
            <==> IsMonorepoPreset(cfg.preset) && cfg.backend != NoBackend
  {
    if IsMonorepoPreset(cfg.preset) {
      var setup := SetupMonorepo(target, cfg);
      MembersCopies(target, cfg);
      assert Layout(target, cfg) == [MakeDir(target)] + setup + Members(target, cfg);
    } else {
      assert |target + ["apps", "mobile"]| != |target|;
    }
  }

  /**
   * In a monorepo the mobile template goes to `apps/mobile` and the web
   * framework's template to `apps/web` exactly for the preset's platforms,
   * and the backend template to `packages/backend` exactly when a backend is
   * chosen.
   */
  lemma MonorepoCopies(cwd: Path, cfg: Config)
    ensures var target := TargetDir(cwd, cfg.name);
            var steps := Plan(cwd, cfg);
            && (CopyTree(CopyJob(["mobile"], target + ["apps", "mobile"], [])) in steps
                <==> IsMonorepoPreset(cfg.preset) && HasMobilePlatform(cfg.preset))
            && (CopyTree(CopyJob([WebTemplate(cfg.webFramework)], target + ["apps", "web"], [])) in steps
                <==> IsMonorepoPreset(cfg.preset) && HasWebPlatform(cfg.preset))
            && (CopyTree(CopyJob(["backend", BackendName(cfg.backend)], target + ["packages", "backend"], [])) in steps
                <==> IsMonorepoPreset(cfg.preset) && cfg.backend != NoBackend)
  {
    var target := TargetDir(cwd, cfg.name);
    var mobile := CopyTree(CopyJob(["mobile"], target + ["apps", "mobile"], []));
    var web := CopyTree(CopyJob([WebTemplate(cfg.webFramework)], target + ["apps", "web"], []));
    var backend := CopyTree(CopyJob(["backend", BackendName(cfg.backend)], target + ["packages", "backend"], []));
    LayersMissBackendPackage(target, cfg);
    assert mobile !in Layers(target, cfg) && web !in Layers(target, cfg) && backend !in Layers(target, cfg);
    LayoutCopies(target, cfg);
    PlanParts(cwd, cfg, mobile);
    PlanParts(cwd, cfg, web);
    PlanParts(cwd, cfg, backend);
  }

  /** The skeleton copies the first platform's template into the target exactly for a flat project. */
  lemma LayoutFlatCopy(target: Path, cfg: Config)
    ensures CopyTree(CopyJob([AppTemplate(cfg)], target, [])) in Layout(target, cfg) <==> !IsMonorepoPreset(cfg.preset)
  {
    if IsMonorepoPreset(cfg.preset) {
      var setup := SetupMonorepo(target, cfg);
      assert Layout(target, cfg) == [MakeDir(target)] + setup + Members(target, cfg);
    } else {
      assert Flat(target, cfg)[0] == CopyTree(CopyJob([AppTemplate(cfg)], target, []));
    }
  }

  /**
   * A flat project gets its first platform's template (mobile, or the web
   * framework's) copied into the target directory; a monorepo never copies a
   * platform template there.
   */
  lemma FlatCopy(cwd: Path, cfg: Config)
    ensures var target := TargetDir(cwd, cfg.name);
            CopyTree(CopyJob([AppTemplate(cfg)], target, [])) in Plan(cwd, cfg) <==> !IsMonorepoPreset(cfg.preset)
  {
    var target := TargetDir(cwd, cfg.name);
    var flat := CopyTree(CopyJob([AppTemplate(cfg)], target, []));
    assert flat !in Layers(target, cfg);
    LayoutFlatCopy(target, cfg);
    PlanParts(cwd, cfg, flat);
  }

  /** The preset's mobile platform, when it has one, is its first. */
  lemma MobileComesFirst(p: Preset)
    ensures HasMobilePlatform(p) <==> Platforms(p)[0] == MobileApp
  {
  }

  /** Within the workspace members, `eas.json` goes to `apps/mobile` exactly when EAS applies. */
  lemma MembersEas(target: Path, cfg: Config)
    ensures WriteText(target + ["apps", "mobile", "eas.json"], EasJson) in Members(target, cfg)
            <==> cfg.eas && HasMobilePlatform(cfg.preset)
  {
    if cfg.eas && HasMobilePlatform(cfg.preset) {
      var m := MobileGroup(target + ["apps", "mobile"], cfg);
      assert Members(target, cfg)[..|m|] == m;
      assert m[1] == WriteText(target + ["apps", "mobile", "eas.json"], EasJson);
    }
  }

  /** In a flat project `eas.json` goes to the target exactly when EAS applies. */
  lemma FlatEas(target: Path, cfg: Config)
    ensures WriteText(target + ["eas.json"], EasJson) in Flat(target, cfg)
            <==> cfg.eas && HasMobilePlatform(cfg.preset)
  {
    MobileComesFirst(cfg.preset);
    if cfg.eas && HasMobilePlatform(cfg.preset) {
      assert Flat(target, cfg)[1] == WriteText(target + ["eas.json"], EasJson);
    }
  }

  /** The skeleton writes `eas.json` into the app directory exactly when EAS applies. */
  lemma LayoutEas(target: Path, cfg: Config)
    ensures WriteText(AppDir(target, cfg.preset) + ["eas.json"], EasJson) in Layout(target, cfg)
            <==> cfg.eas && HasMobilePlatform(cfg.preset)
  {
    if IsMonorepoPreset(cfg.preset) {
      MonorepoEas(target, cfg);
    } else {
      FlatEas(target, cfg);
    }
  }

  /** In a monorepo `eas.json` goes to the mobile app exactly when EAS applies. */
  lemma MonorepoEas(target: Path, cfg: Config)
    requires IsMonorepoPreset(cfg.preset)
    ensures WriteText(AppDir(target, cfg.preset) + ["eas.json"], EasJson) in Layout(target, cfg)
            <==> cfg.eas && HasMobilePlatform(cfg.preset)
  {
    var eas := WriteText(AppDir(target, cfg.preset) + ["eas.json"], EasJson);
    MobileComesFirst(cfg.preset);
    MembersEas(target, cfg);
    var setup := SetupMonorepo(target, cfg);
    assert Layout(target, cfg) == [MakeDir(target)] + setup + Members(target, cfg);
    assert |eas.path| != |target + ["pnpm-workspace.yaml"]|;
    if HasMobilePlatform(cfg.preset) {
      assert AppDir(target, cfg.preset) + ["eas.json"] == target + ["apps", "mobile", "eas.json"];
    } else {
      assert eas !in Members(target, cfg);
    }
  }

  /**
   * `eas.json` is written into the app directory exactly when EAS is chosen
   * and the preset has a mobile app.
   */
  lemma EasFile(cwd: Path, cfg: Config)
    ensures var target := TargetDir(cwd, cfg.name);
            WriteText(AppDir(target, cfg.preset) + ["eas.json"], EasJson) in Plan(cwd, cfg)
            <==> cfg.eas && HasMobilePlatform(cfg.preset)
  {
    var target := TargetDir(cwd, cfg.name);
    LayoutEas(target, cfg);
    PlanParts(cwd, cfg, WriteText(AppDir(target, cfg.preset) + ["eas.json"], EasJson));
  }

  /** The skeleton's workspace files, which only a monorepo has. */
  lemma LayoutWorkspaceFiles(target: Path, cfg: Config)
    ensures WriteText(target + ["pnpm-workspace.yaml"], WorkspaceYaml) in Layout(target, cfg)
            <==> IsMonorepoPreset(cfg.preset) && cfg.packageManager == Pnpm
    ensures WriteManifest(target + ["package.json"], RootManifest(cfg)) in Layout(target, cfg)
            <==> IsMonorepoPreset(cfg.preset)
  {
    if IsMonorepoPreset(cfg.preset) {
      var setup := SetupMonorepo(target, cfg);
      assert Layout(target, cfg) == [MakeDir(target)] + setup + Members(target, cfg);
    } else {
      assert Layout(target, cfg) == Flat(target, cfg);
      assert (target + ["pnpm-workspace.yaml"])[|target|] != (target + ["eas.json"])[|target|];
    }
  }

  /**
   * `pnpm-workspace.yaml` is written exactly for a pnpm monorepo and the
   * root `package.json` exactly for a monorepo.
   */
  lemma WorkspaceFiles(cwd: Path, cfg: Config)
    ensures var target := TargetDir(cwd, cfg.name);
            WriteText(target + ["pnpm-workspace.yaml"], WorkspaceYaml) in Plan(cwd, cfg)
            <==> IsMonorepoPreset(cfg.preset) && cfg.packageManager == Pnpm
    ensures var target := TargetDir(cwd, cfg.name);
            WriteManifest(target + ["package.json"], RootManifest(cfg)) in Plan(cwd, cfg)
            <==> IsMonorepoPreset(cfg.preset)
  {
    var target := TargetDir(cwd, cfg.name);
    var yaml := WriteText(target + ["pnpm-workspace.yaml"], WorkspaceYaml);
    var root := WriteManifest(target + ["package.json"], RootManifest(cfg));
    assert yaml !in Layers(target, cfg) && root !in Layers(target, cfg);
    LayoutWorkspaceFiles(target, cfg);
    PlanParts(cwd, cfg, yaml);
    PlanParts(cwd, cfg, root);
  }

  /** The app directory receives the template of the preset's first platform. */
  lemma AppDirHoldsPlatformTemplate(cwd: Path, cfg: Config)
    ensures var target := TargetDir(cwd, cfg.name);
            CopyTree(CopyJob([AppTemplate(cfg)], AppDir(target, cfg.preset), [])) in Plan(cwd, cfg)
  {
    if IsMonorepoPreset(cfg.preset) {
      MonorepoCopies(cwd, cfg);
    } else {
      FlatCopy(cwd, cfg);
    }
  }

  /** Within the app groups, the backend client and `lib` groups are present exactly with a backend. */
  lemma AppGroupsClient(app: Path, cfg: Config)
    ensures CopyTree(CopyJob(["backend", BackendName(cfg.backend)], app + ["lib", "backend"], [])) in AppGroups(app, cfg)
            <==> cfg.backend != NoBackend
    ensures CopyTree(CopyJob(["lib"], app + ["lib"], [])) in AppGroups(app, cfg)
            <==> cfg.backend != NoBackend
  {
    var client := CopyTree(CopyJob(["backend", BackendName(cfg.backend)], app + ["lib", "backend"], []));
    var lib := CopyTree(CopyJob(["lib"], app + ["lib"], []));
    var front := [CopyTree(CopyJob(["state", StateName(cfg.state)], app + ["lib", "store"], []))]
      + (if cfg.components != NoComponents then
           [CopyTree(CopyJob(["components", ComponentsName(cfg.components)], app + ["components", "ui"], []))]
         else []);
    assert AppGroups(app, cfg) == front + ClientGroups(app, cfg.backend);
    assert client !in front && lib !in front;
  }

  /**
   * The backend client and the shared `lib` group are copied into the app's
   * `lib` directory exactly when a backend is chosen.
   */
  lemma BackendClientGroups(cwd: Path, cfg: Config)
    ensures var app := AppDir(TargetDir(cwd, cfg.name), cfg.preset);
            CopyTree(CopyJob(["backend", BackendName(cfg.backend)], app + ["lib", "backend"], [])) in Plan(cwd, cfg)
            <==> cfg.backend != NoBackend
    ensures var app := AppDir(TargetDir(cwd, cfg.name), cfg.preset);
            CopyTree(CopyJob(["lib"], app + ["lib"], [])) in Plan(cwd, cfg)
            <==> cfg.backend != NoBackend
  {
    var target := TargetDir(cwd, cfg.name);
    var app := AppDir(target, cfg.preset);
    var client := CopyTree(CopyJob(["backend", BackendName(cfg.backend)], app + ["lib", "backend"], []));
    var lib := CopyTree(CopyJob(["lib"], app + ["lib"], []));
    LayersClient(target, cfg);
    LayoutMissesAppLib(target, cfg);
    PlanParts(cwd, cfg, client);
    PlanParts(cwd, cfg, lib);
  }

  /** The layers hold the backend client and `lib` groups exactly with a backend. */
  lemma LayersClient(target: Path, cfg: Config)
    ensures var app := AppDir(target, cfg.preset);
            CopyTree(CopyJob(["backend", BackendName(cfg.backend)], app + ["lib", "backend"], [])) in Layers(target, cfg)
            <==> cfg.backend != NoBackend
    ensures var app := AppDir(target, cfg.preset);
            CopyTree(CopyJob(["lib"], app + ["lib"], [])) in Layers(target, cfg)
            <==> cfg.backend != NoBackend
  {
    var app := AppDir(target, cfg.preset);
    var edit := EditManifest(app + ["package.json"], DistPatch(cfg, Platforms(cfg.preset)[0]), [], []);
    assert Layers(target, cfg) == [edit] + AppGroups(app, cfg) + [CopyTree(CopyJob(["base"], target, []))];
    AppGroupsClient(app, cfg);
  }

  /** The skeleton copies nothing below the app's `lib` directory. */
  lemma LayoutMissesAppLib(target: Path, cfg: Config)
    ensures var app := AppDir(target, cfg.preset);
            forall s :: s in Layout(target, cfg) && s.CopyTree? ==> |s.job.dest| < |app + ["lib"]|
  {
    if IsMonorepoPreset(cfg.preset) {
      assert Layout(target, cfg) == [MakeDir(target)] + SetupMonorepo(target, cfg) + Members(target, cfg);
    } else {
      assert Layout(target, cfg) == Flat(target, cfg);
    }
  }

  /**
   * `addDependencies` runs once, on the first platform's `package.json`:
   * the plan holds exactly one manifest edit, and it adds that platform's
   * packages.
   */
  lemma DependenciesOnFirstApp(cwd: Path, cfg: Config)
    ensures var app := AppDir(TargetDir(cwd, cfg.name), cfg.preset);
            EditManifest(app + ["package.json"], DistPatch(cfg, Platforms(cfg.preset)[0]), [], []) in Plan(cwd, cfg)
    ensures forall s :: s in Plan(cwd, cfg) && s.EditManifest? ==>
              s == EditManifest(AppDir(TargetDir(cwd, cfg.name), cfg.preset) + ["package.json"],
                                DistPatch(cfg, Platforms(cfg.preset)[0]), [], [])
  {
    var target := TargetDir(cwd, cfg.name);
    LayoutMakesNoEdits(target, cfg);
    PlanParts(cwd, cfg, Layers(target, cfg)[0]);
    forall s | s in Plan(cwd, cfg) && s.EditManifest?
      ensures s == Layers(target, cfg)[0]
    {
      PlanParts(cwd, cfg, s);
    }
  }

  /** The skeleton edits no manifest. */
  lemma LayoutMakesNoEdits(target: Path, cfg: Config)
    ensures forall s :: s in Layout(target, cfg) ==> !s.EditManifest?
  {
    if IsMonorepoPreset(cfg.preset) {
      assert Layout(target, cfg) == [MakeDir(target)] + SetupMonorepo(target, cfg) + Members(target, cfg);
    }
  }

  /**
   * `--preset mobile` with the defaults: a flat project whose mobile
   * template is the first step, with `eas.json` in the target, the
   * nativewind runtime among the app's dependencies and no backend client.
   */
  lemma MobileDefaultsScenario(cwd: Path, yes: bool, name: Option<string>)
    ensures var cfg := FlagDefaults(yes, name, Some(Mobile)).value;
            var target := TargetDir(cwd, cfg.name);
            var ps := DependencyPackages(cfg, Platforms(cfg.preset)[0]);
            && !IsMonorepoPreset(cfg.preset)
            && Plan(cwd, cfg)[0] == CopyTree(CopyJob(["mobile"], target, []))
            && WriteText(target + ["eas.json"], EasJson) in Plan(cwd, cfg)
            && NativewindPkg in ps && SupabaseJsPkg !in ps && FirebasePkg !in ps
  {
    var cfg := FlagDefaults(yes, name, Some(Mobile)).value;
    var target := TargetDir(cwd, cfg.name);
    EasFile(cwd, cfg);
    PlatformPackagesChosen(cfg, MobileApp);
    BackendClientChosen(cfg, MobileApp);
    assert Plan(cwd, cfg)[..2] == Flat(target, cfg);
  }
}
