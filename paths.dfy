/**
 * The destination paths both variants of `scaffold` agree on: the project
 * directory, the app directory the layers write into, and the workspace
 * globs of a monorepo.
 */
module Paths {
  import opened Options
  import opened FileSystem
  import opened Templates

  /** A name `path.resolve` appends as one new segment: not empty, not `.` or `..`, and without a separator. */
  predicate Segment(name: string) {
    PlainName(name) && '/' !in name
  }

  /** `path.resolve(cwd, name)` for a name that is a single path segment. */
  function TargetDir(cwd: Path, name: string): (target: Path)
    ensures Segment(name) ==> target == cwd + [name]
  {
    JoinName(cwd, name)
  }

  /**
   * `appDir`: in a monorepo, the `apps` entry of the preset's first
   * platform; otherwise the project directory itself.
   */
  function AppDir(target: Path, p: Preset): (app: Path)
    ensures |app| >= |target| && app[..|target|] == target
    ensures IsMonorepoPreset(p) ==> app == target + ["apps", PlatformName(Platforms(p)[0])]
    ensures !IsMonorepoPreset(p) ==> app == target
  {
    if IsMonorepoPreset(p) then
      target + ["apps", if Platforms(p)[0] == MobileApp then "mobile" else "web"]
    else target
  }

  /** `pnpm-workspace.yaml` as both variants write it. */
  const WorkspaceYaml := "packages:\n  - 'apps/*'\n  - 'packages/*'\n"

  /** The root manifest's `workspaces` for every other package manager. */
  const WorkspaceGlobs := ["apps/*", "packages/*"]
}
