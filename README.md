# create-lightning-scaffold: the template composition engine

`create-lightning-scaffold` builds a new project directory from a project
configuration. The configuration names a preset, a web framework, a backend, a
styling system, a state manager, a component library, an animation library, the
EAS build flag and a package manager. The engine decides three things:

- which template groups of the template store are copied, in what order, and
  into which directories;
- how each `package.json` it edits is changed;
- how each template file is written (a `.ejs` file is rendered and loses its
  suffix; every other file is copied as it is).

The repository holds two variants of the engine, and both are modelled:

- the newer one, bundled in `dist/index.js`, is the modules `DistOptions`,
  `DistDependencies` and `DistScaffolder`;
- the older one, in `src/scaffolder.ts`, `src/utils/types.ts` and the flag
  defaults of `src/index.ts`, is the modules `Types`, `LegacyCli` and `Legacy`.

The shared modules are:

- `Options`: the option enumerations and the preset's platforms.
- `Helpers`: the project-name validator.
- `FileSystem`: the destination tree, with `ensureDir` and `writeFile` and the
  errors they raise.
- `Templates`: the template store as a tree, and `.ejs` naming.
- `Copier`: `copyTemplate`, with the newer variant's blank-render rule and
  exclusion list as parameters.
- `Manifests`: `package.json` and the ordered key writes of a dependency layer.
- `Execution`: the step language, its meaning `RunSteps`, and the class `Disk`,
  which carries out steps one write at a time.
- `Paths`: the target and app directories.

Each variant's `scaffold` is modelled in two halves:

- `Plan` is the list of filesystem steps it issues, as a function of the
  working directory and the configuration.
- `Scaffold` is a method that runs that plan on a `Disk`. Its postcondition
  ties the final disk and the returned error to `RunSteps` of the plan.

The lemmas then state what the plan contains: which template goes where, which
workspace files are written, where `eas.json` goes, and which dependency keys
end up in the app's manifest at which versions.

Where the code and the design description of the tool disagree, the model
follows the code:

- **The base group is not guarded.** It is copied last into the target
  directory with plain `writeFile`/`copy`, and both overwrite. A base file with
  the same path as an earlier file replaces it. The description says earlier
  files are kept.
- **The newer variant skips two groups.** Its `scaffold` copies neither the
  `styling/<option>` group nor the `examples/<platform>` group. Only the older
  variant copies them.
- **Only the first platform gets dependencies.** `addDependencies` runs once,
  on the app of the preset's first platform. In the `monorepo` preset,
  `apps/web` gets no dependency edit.
- **The exclusion list is never passed.** The newer `copyTemplate` takes one,
  but no caller passes it. It is modelled for completeness.
- **A flat newer-variant project gets no separate `ensureDir` of its root.**
  The first template copy creates the root. The newer `packages/backend` is
  likewise created by its copy, with no separate `ensureDir`.
- **The older flag defaults set no `gitInit`.** That `undefined` is `false`
  here.

## Model

| member | source | states |
|---|---|---|
| Options.Platforms | src/utils/types.ts:19-25 | every preset has one or two distinct platforms; the mobile platform exactly for mobile, fullstack-mobile and monorepo, the web platform exactly for web, fullstack-web and monorepo |
| Options.IsMonorepoPreset | dist/index.js:35-37 | a preset is laid out as a workspace exactly when it is neither `mobile` nor `web` |
| Options.HasBackendIsMonorepo | dist/index.js:26-37 | the string test `preset.includes("fullstack") \|\| preset === "monorepo"` agrees with `isMonorepoPreset` on every preset |
| Types.PresetInfoOf | src/utils/types.ts:19-25 | the preset table's platforms are `Platforms(p)` |
| Types.GetCompatibleOptions | src/utils/types.ts:27-39 | mobile presets never offer tailwind or shadcn, the others never nativewind or nativewind-ui; styling and components lists have two entries, a real default first and `none` last; backends are `[supabase, firebase]` exactly for workspace presets and `[none]` otherwise; state is always `[zustand, redux]` |
| Types.BackendChoiceIffMonorepo | src/utils/types.ts:27-43 | a backend can be chosen exactly when the preset is a monorepo preset, and exactly when it passes the backend string test |
| LegacyCli.FlagDefaults | src/index.ts:20-34 | a configuration exists exactly with `--yes` or `--preset`; the name defaults to `my-lightning-app`, the preset to `mobile`; nativewind and nativewind-ui exactly for mobile and fullstack-mobile; supabase exactly for workspace presets, `none` otherwise; zustand and npm always |
| LegacyCli.DefaultsCompatible | src/index.ts:20-34 | for every preset but `monorepo` the defaults are options the preset allows |
| LegacyCli.MonorepoDefaultsIncompatible | src/index.ts:23-32 | for `monorepo` the default styling tailwind and components shadcn are outside the preset's options |
| DistOptions.PresetInfoOf | dist/index.js:15-21 | the newer preset table has the same platforms as the older one |
| DistOptions.GetCompatibleOptions | dist/index.js:22-34 | mobile presets get `[nativewind, none]`, `[nativewind-ui, none]`, `[reanimated, moti, none]`, the others `[tailwind, none]`, `[shadcn, none]`, `[framer, none]`; the four backends exactly for workspace presets, `[none]` otherwise; state `[zustand, redux]` |
| DistOptions.WebFrameworkIrrelevant | dist/index.js:22-34 | the option lists do not depend on the web framework argument |
| DistOptions.FlagDefaults | dist/index.js:384-402 | a configuration exists exactly with `--yes` or `--preset`; name and preset defaults; nativewind, nativewind-ui and EAS exactly for mobile and fullstack-mobile; reanimated for those two presets and framer for the others; nestjs-postgres exactly for workspace presets; nextjs, zustand, npm and git init always |
| DistOptions.DefaultsCompatible | dist/index.js:384-402 | for every preset but `monorepo` the defaults are options the preset allows |
| DistOptions.MonorepoDefaultsIncompatible | dist/index.js:387-398 | for `monorepo` the default styling, components and animation are outside the preset's options |
| Helpers.ValidateProjectName | src/utils/helpers.ts:4-9 | accepted exactly for a non-empty name of `[A-Za-z0-9_-]` whose directory does not exist; otherwise the message of the first failing check in the order empty, charset, exists |
| FileSystem.EnsureDir | dist/index.js:335 | `ensureDir` succeeds exactly when no prefix of the path is a file, and then adds every prefix as a directory; on failure nothing changes |
| FileSystem.WriteFile | dist/index.js:348 | `writeFile` succeeds exactly when the path is not a directory and its parent is an existing directory, and then sets that one file; on failure nothing changes |
| FileSystem.EnsureDirValid | dist/index.js:335 | `ensureDir` keeps the tree well formed |
| FileSystem.WriteFileValid | dist/index.js:348 | `writeFile` keeps the tree well formed |
| FileSystem.EnsureDirMakesDirectories | dist/index.js:335 | after a successful `ensureDir` the path and all its ancestors are directories |
| FileSystem.EnsureDirIdempotent | dist/index.js:335 | a second `ensureDir` of the same path changes nothing |
| Templates.DestName | dist/index.js:340 | the output name is the name without a trailing `.ejs`, and any other name unchanged |
| Templates.OutPath | dist/index.js:340-343 | a store path below a group maps to an output path of the same length, each segment by `DestName` |
| Templates.LookupConcat | dist/index.js:339-343 | the entry at store path `a + b` is the entry at `b` below the entry at `a`, and missing when that is |
| Templates.DestNameStripsSuffixOnly | dist/index.js:340 | the output name equals the name exactly when the name does not end in `.ejs`, and is four characters shorter when it does |
| Copier.CopyTemplate | dist/index.js:333-334 | a source missing from the store copies nothing and raises nothing |
| Copier.FileOutput | dist/index.js:344-352 | a file leaves nothing exactly when blanks are dropped, it is `.ejs` and its render is blank; otherwise it leaves its render (`.ejs`) or its text |
| Copier.Without | dist/index.js:338 | the filtered listing holds every entry of the listing whose name is not excluded and no other entry |
| Copier.WithoutSplits | dist/index.js:337-338 | the filter keeps the listing's order: filtering any two halves and joining them is filtering the whole |
| Copier.ErrorStops | dist/index.js:337-353 | once an entry fails, the later entries of the listing change nothing |
| Copier.ExclusionFiltersListing | dist/index.js:337-343 | skipping excluded names equals copying the listing with those entries removed, and the recursion passes no exclusions |
| Copier.CopyChildrenValid | dist/index.js:337-353 | copying a listing keeps the destination tree well formed |
| Copier.CopyEntryValid | dist/index.js:339-352 | copying one entry keeps the destination tree well formed |
| Copier.CopyTemplateValid | dist/index.js:333-354 | a template copy keeps the tree well formed, even when it fails midway |
| Copier.CopyChildrenFrame | dist/index.js:337-353 | copying a listing whose output names are plain changes no file outside the destination |
| Copier.CopyEntryFrame | dist/index.js:339-343 | copying an entry whose output names are plain changes no file outside its output path |
| Copier.CopyTemplateFrame | dist/index.js:333-354 | a template copy of a group whose output names are plain changes no file outside its destination directory; sibling names may collide |
| Copier.CopyChildrenFileOutput | dist/index.js:337-353 | after a successful copy of a well-named listing, every file at any depth below entry `i` has left what `FileOutput` says at the entry's output path plus its output names: its text, its render, or (a dropped blank render) what was there before |
| Copier.ListingFileOutput | src/scaffolder.ts:130-136 | the same for the file reached from a listing by a store path whose first segment names the entry |
| Copier.CopyEntryFileOutput | src/scaffolder.ts:135-143 | the same for one entry: a file found below a directory entry lands below the directory's output path, a file entry at its own |
| Copier.CopyTemplateFileOutput | src/scaffolder.ts:124-145 | the copy recurses into every subdirectory: after a successful copy of a well-named group, the file at store path `src + q` has left what `FileOutput` says at `dest` plus the output names of `q` |
| Manifests.WriteEffect | dist/index.js:269-318 | key writes add exactly the named keys, a named key ends with its last written value, every other key keeps its value |
| Manifests.WriteLayers | src/scaffolder.ts:69-108 | two layers of writes one after the other equal the layer of their concatenated writes |
| Manifests.ApplyPatch | dist/index.js:268-270 | a patch defaults `dependencies` (and `devDependencies` if it writes any) to `{}`, and leaves name, scripts, workspaces and all other members unchanged |
| Manifests.PatchedDependencies | dist/index.js:269-318 | after a patch the dependency keys are the old ones plus the written ones, each written key at its last value, the rest as before |
| Manifests.PatchedDevDependencies | dist/index.js:270 | the same for `devDependencies` when the patch writes them |
| Manifests.PatchesCompose | src/scaffolder.ts:75-101 | two patches in a row, the second leaving `devDependencies` alone, give the old dependencies with both patches' writes in order; the development dependencies are the first patch's |
| Manifests.SetAll | dist/index.js:271-318 | setting `pkg.dependencies[k] = v` key by key yields `Write(m, ws)` |
| Manifests.PatchManifest | dist/index.js:268-318 | the in-place read-modify step yields `ApplyPatch(m, p)` |
| Execution.RunEdit | dist/index.js:266-267 | with no manifest at the path the whole dependency layer, copies included, changes nothing and raises nothing |
| Execution.RunStepsAppend | dist/index.js:193-232 | running `a` then `b` is running `a + b`; an error in `a` skips `b` |
| Execution.RunCopiesValid | src/scaffolder.ts:83-107 | a layer's copies keep the tree well formed |
| Execution.RunStepValid | dist/index.js:193-232 | every step keeps the tree well formed |
| Execution.RunStepsValid | dist/index.js:193-232 | a whole scaffold keeps the destination a well-formed tree, whether it completes or stops at an error |
| Execution.EditWritesPatchedManifest | dist/index.js:266-319 | a dependency layer on a parsing manifest leaves the patched manifest at its path and changes no other file or directory |
| Execution.Disk.EnsureDir | dist/index.js:335 | the loop over the path's prefixes ends in the state and error of `FileSystem.EnsureDir` |
| Execution.Disk.WriteFile | dist/index.js:348 | the disk ends in the state and error of `FileSystem.WriteFile` |
| Execution.Disk.CopyTemplate | dist/index.js:333-336 | the disk ends in the state and error of `Copier.CopyTemplate` |
| Execution.Disk.CopyChildren | dist/index.js:337-353 | the `for` loop over the listing ends in the state and error of `Copier.CopyChildren` |
| Execution.Disk.CopyEntry | dist/index.js:339-352 | one entry ends in the state and error of `Copier.CopyEntry` |
| Execution.Disk.CopyAll | src/scaffolder.ts:83-107 | a layer's copies in order end in the state and error of `RunCopies` |
| Execution.Disk.EditManifest | src/scaffolder.ts:72-87 | read, patch, copy, write back ends in the state and error of `RunEdit` |
| Execution.Disk.Run | dist/index.js:193-232 | one step ends in the state and error of `RunStep` |
| Execution.Disk.Execute | dist/index.js:193-232 | the steps in order, stopping at the first error, end in the state and error of `RunSteps` |
| Paths.TargetDir | dist/index.js:194 | for a name that is one path segment (not empty, `.` or `..`, no `/`) the target is the working directory plus that name |
| Paths.AppDir | dist/index.js:219 | the app directory is `apps/<first platform>` in a workspace and the target otherwise |
| Legacy.RootManifest | src/scaffolder.ts:49-62 | the root manifest is private and named after the project; it has the scripts `dev` and `build`; it has `workspaces` exactly when the package manager is not pnpm |
| Legacy.SetupMonorepo | src/scaffolder.ts:48-67 | the workspace YAML is written exactly with pnpm, the root manifest always, `apps` and `packages` created last; no template is copied |
| Legacy.Members | src/scaffolder.ts:18-27 | the members are directory creations and copies, each copy two levels below the target |
| Legacy.StylingPatch | src/scaffolder.ts:76-81 | nativewind writes exactly the `nativewind` dependency and the `tailwindcss` development dependency; tailwind writes no key |
| Legacy.StylingLayer | src/scaffolder.ts:69-88 | `none` issues nothing; otherwise one edit of the app manifest, copying the nativewind styling group into the app exactly for nativewind |
| Legacy.StatePatch | src/scaffolder.ts:95-102 | zustand writes `zustand`, redux writes `@reduxjs/toolkit` and `react-redux`; `devDependencies` is left alone |
| Legacy.StateLayer | src/scaffolder.ts:90-108 | one edit of the app manifest whose state group is copied to `lib/store` only after the write |
| Legacy.ComponentsLayer | src/scaffolder.ts:110-114 | nothing for `none`, otherwise the components group to `components/ui` |
| Legacy.ExamplesLayer | src/scaffolder.ts:116-122 | the first platform's examples go to `app` on mobile and `app/examples` on web |
| Legacy.Layers | src/scaffolder.ts:38-43 | the layers only copy and edit; every top-level copy step but the base group lands under the app's `components` or `app` directory (the copies inside the edits, the nativewind group into the app and the state group into `lib/store`, are stated by `StylingLayer` and `StateLayer`) |
| Legacy.Plan | src/scaffolder.ts:7-46 | the plan starts by creating the target and ends with the base group copied into the target |
| Legacy.LegacyEnv | src/scaffolder.ts:137-140 | the older copier renders with the configuration and writes blank renders |
| Legacy.Scaffold | src/scaffolder.ts:7-46 | returns the target and leaves the disk in the state and error of `RunSteps` of the plan |
| Legacy.MembersCopies | src/scaffolder.ts:18-27 | the members copy `mobile` to `apps/mobile` and `web` to `apps/web` exactly for the preset's platforms, and the backend to `packages/backend` exactly with a backend |
| Legacy.LayoutCopies | src/scaffolder.ts:15-32 | the skeleton holds those copies exactly in a workspace |
| Legacy.MonorepoCopies | src/scaffolder.ts:15-27 | the whole plan copies into `apps/mobile`, `apps/web` and `packages/backend` exactly for workspace presets with that platform or backend |
| Legacy.LayoutFlatCopy | src/scaffolder.ts:28-32 | the skeleton copies the first platform's template into the target exactly for a flat project |
| Legacy.FlatCopy | src/scaffolder.ts:28-32 | the whole plan does so exactly for a flat project |
| Legacy.AppDirHoldsPlatformTemplate | src/scaffolder.ts:15-36 | the app directory always receives the first platform's template |
| Legacy.LayoutWorkspaceFiles | src/scaffolder.ts:58-64 | the skeleton writes the workspace YAML exactly for a pnpm workspace and the root manifest exactly for a workspace |
| Legacy.WorkspaceFiles | src/scaffolder.ts:58-64 | the whole plan does so |
| Legacy.StateLayerNeedsManifest | src/scaffolder.ts:90-108 | without an app manifest the state layer changes nothing, so `lib/store` is not created |
| Legacy.TailwindKeepsDependencies | src/scaffolder.ts:76-85 | the tailwind layer only defaults the two maps; every entry stays |
| Legacy.StylingThenState | src/scaffolder.ts:39-40 | styling then state: the dependencies are the old ones with both layers' writes in order, unnamed keys kept; the development dependencies are the styling layer's |
| Legacy.WritesEveryRender | src/scaffolder.ts:137-140 | the older copier leaves every file, its render or its text, even when the render is blank |
| DistScaffolder.WebTemplate | dist/index.js:239 | the web group is `vite` exactly for Vite |
| DistScaffolder.RootManifest | dist/index.js:247-260 | private, named after the project, the scripts `dev:mobile`, `dev:web` and `dev:backend`, and `workspaces` exactly when the package manager is not pnpm |
| DistScaffolder.SetupMonorepo | dist/index.js:246-264 | the workspace YAML is written exactly with pnpm, the root manifest always, `apps` and `packages` created last; no copy, no edit, and no other text file |
| DistScaffolder.MobileGroup | dist/index.js:201-204 | the mobile template, then `eas.json` in the app exactly when EAS is chosen |
| DistScaffolder.Members | dist/index.js:201-210 | the members are copies two levels below the target and, only with EAS on a mobile preset, `eas.json` in `apps/mobile` |
| DistScaffolder.Flat | dist/index.js:212-217 | a flat project copies one template into the target first, then `eas.json` there only with EAS on a mobile preset |
| DistScaffolder.ClientGroups | dist/index.js:226-229 | the backend client and `lib` groups are issued exactly with a backend |
| DistScaffolder.AppGroups | dist/index.js:222-229 | every group copied into the app lands under its `lib` or `components` directory |
| DistScaffolder.Layers | dist/index.js:219-230 | the layers start with the one dependency edit of the first platform's app manifest and hold no other edit; every copy is the base group into the target or lands under the app's `lib` or `components` |
| DistScaffolder.Plan | dist/index.js:193-231 | the plan creates the target first exactly in a workspace, and ends with the base group copied into the target |
| DistScaffolder.DistEnv | dist/index.js:345-349 | the newer copier renders with the configuration and drops blank renders |
| DistScaffolder.Scaffold | dist/index.js:193-232 | returns the target and leaves the disk in the state and error of `RunSteps` of the plan |
| DistScaffolder.LayersMissBackendPackage | dist/index.js:209-227 | the app's backend client never goes to `packages/backend` |
| DistScaffolder.MembersCopies | dist/index.js:201-210 | the members copy `mobile` and the web framework's template into `apps/` exactly for the preset's platforms, and the backend to `packages/backend` exactly with a backend |
| DistScaffolder.LayoutCopies | dist/index.js:198-218 | the skeleton holds those copies exactly in a workspace |
| DistScaffolder.MonorepoCopies | dist/index.js:198-211 | the whole plan copies into `apps/mobile`, `apps/web` and `packages/backend` exactly for workspace presets with that platform or backend |
| DistScaffolder.LayoutFlatCopy | dist/index.js:212-217 | the skeleton copies the first platform's template into the target exactly for a flat project |
| DistScaffolder.FlatCopy | dist/index.js:212-217 | the whole plan does so exactly for a flat project |
| DistScaffolder.MobileComesFirst | dist/index.js:15-21 | a preset has the mobile platform exactly when mobile is its first platform |
| DistScaffolder.MembersEas | dist/index.js:201-204 | the members write `apps/mobile/eas.json` exactly with EAS on a mobile preset |
| DistScaffolder.FlatEas | dist/index.js:212-214 | a flat project writes `eas.json` into the target exactly with EAS on a mobile preset |
| DistScaffolder.MonorepoEas | dist/index.js:198-204 | a workspace writes `eas.json` into the app directory exactly with EAS on a mobile preset |
| DistScaffolder.LayoutEas | dist/index.js:198-219 | the skeleton writes `eas.json` into the app directory exactly with EAS on a mobile preset |
| DistScaffolder.EasFile | dist/index.js:321-332 | the plan writes the fixed `eas.json` into the app directory exactly when EAS is chosen and the preset has the mobile platform |
| DistScaffolder.LayoutWorkspaceFiles | dist/index.js:256-261 | the skeleton writes the workspace YAML exactly for a pnpm workspace and the root manifest exactly for a workspace |
| DistScaffolder.WorkspaceFiles | dist/index.js:256-261 | the whole plan does so |
| DistScaffolder.AppDirHoldsPlatformTemplate | dist/index.js:198-220 | the app directory always receives the first platform's template |
| DistScaffolder.AppGroupsClient | dist/index.js:226-229 | the app groups hold the backend client and `lib` groups exactly with a backend |
| DistScaffolder.LayersClient | dist/index.js:226-229 | so do the layers |
| DistScaffolder.BackendClientGroups | dist/index.js:226-229 | the whole plan copies the backend client to `lib/backend` and the `lib` group to `lib` exactly with a backend |
| DistScaffolder.DependenciesOnFirstApp | dist/index.js:219-221 | the plan holds exactly one manifest edit, on the first platform's app manifest with that platform's packages |
| DistScaffolder.MobileDefaultsScenario | dist/index.js:384-402 | `--preset mobile` with the defaults gives a flat project whose first step copies the mobile template into the target; `eas.json` is written; nativewind is a dependency and no backend client is |
| DistDependencies.NamesDistinct | dist/index.js:271-318 | two packages have the same `package.json` key exactly when they are the same package |
| DistDependencies.EntriesKeys | dist/index.js:271-318 | the keys written are exactly the keys of the listed packages |
| DistDependencies.EntriesValues | dist/index.js:271-318 | every listed package's key ends at that package's version |
| DistDependencies.StateLibraryChosen | dist/index.js:271-276 | zustand is written exactly for zustand; `@reduxjs/toolkit` and `react-redux` exactly for redux |
| DistDependencies.AnimationLibrariesChosen | dist/index.js:277-285 | reanimated exactly for reanimated or moti, gesture-handler exactly for reanimated, moti exactly for moti, framer-motion exactly for framer; `none` adds none |
| DistDependencies.PlatformPackagesChosen | dist/index.js:286-304 | nativewind exactly on mobile with nativewind styling, the mobile adapter exactly on mobile, the web wallet exactly on web, web3.js and buffer always |
| DistDependencies.BackendClientChosen | dist/index.js:314-318 | `@supabase/supabase-js` exactly for supabase, `firebase` exactly for firebase |
| DistDependencies.DevPackagesChosen | dist/index.js:296-312 | tailwindcss exactly with nativewind on mobile or tailwind and Vite on web; the node-polyfills plugin exactly on web with Vite; postcss and autoprefixer exactly on web with tailwind and Vite; nothing else |
| DistDependencies.AddDependenciesEffect | dist/index.js:265-320 | after `addDependencies` both maps exist, the keys are the old ones plus the written packages' keys, each written package at its version, every other key as before |

## Left out

- Interactive prompts, cancellation, the banner, spinners, console output and `process.exit` are user interface and process control, not composition.
- `installDependencies` and `initGit` spawn child processes; they run after the scaffold and are not part of this model.
- `getTemplatesDir` depends on the host's module location. The template store is the parameter `store` instead.
- `ejs.render` is a foreign library. It is the parameter `ejs`, already applied to the configuration.
- A render that throws (a template error) is not modelled: `ejs` is total. In the source the throw aborts `copyTemplate`, and with it the scaffold, leaving the files written so far; the model's host errors behave that way (`Copier.ErrorStops`), but a render never fails.
- JSON serialization (`writeJson` with two-space indentation, `readJson`) is the parameter pair `encode`/`decode`. `decode` answers `None` where `readJson` throws. `eas.json` is written as its fixed two-space text.
- An unknown `--preset` string crashes at the preset table. `Preset` is a closed datatype, so that crash is not modelled.
- File contents are strings. Binary files, permissions, timestamps and symbolic links under `fs.copy` are not modelled.
- Host errors other than a file or directory in the way, a missing parent or unparsable JSON are not modelled: permissions, a full disk and I/O failures.
- `readdir` order is the order of the store tree's listing, taken as given.
- The asynchronous `await` sequencing is modelled as sequential steps. Nothing runs concurrently in the source.
- Paths.TargetDir: states the result only for a name that is one path segment. `path.resolve` of an absolute name, or of a name with separators, is outside the model.
- Copier.CopyChildrenFileOutput: requires distinct output names among siblings at every depth. With both `a` and `a.ejs` in one directory, the later entry overwrites the earlier; that case is not stated. The same holds for `Copier.ListingFileOutput`, `Copier.CopyEntryFileOutput` and `Copier.CopyTemplateFileOutput`.
- Copier.CopyTemplateFrame: requires plain output names. An entry named `..` or `.` makes `path.join` leave the destination; that case is not stated.
- The older configuration type restricts `backend` to `supabase`, `firebase` and `none` (`Types.LegacyBackend`). The two NestJS backends belong only to the newer variant.
- Execution.EditWritesPatchedManifest: requires `decode` to read back what `encode` writes. JSON round-tripping belongs to the serializer, not to the engine.
- Legacy.Plan and DistScaffolder.Plan: the order of the middle layers is given by their definitions, and only the first and last steps are stated in the contract.
