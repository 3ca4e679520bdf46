/**
 * The closed option families of a scaffolded project and the predicates both
 * variants of the engine derive from a preset: the platforms it targets and
 * whether it carries a backend.
 */
module Options {
  datatype Preset = Mobile | Web | FullstackMobile | FullstackWeb | Monorepo
  datatype Platform = MobileApp | WebApp
  datatype WebFramework = NextJs | Vite
  datatype Backend = NoBackend | Supabase | Firebase | NestjsPostgres | NestjsMongodb
  datatype Styling = Tailwind | Nativewind | NoStyling
  datatype StateManager = Zustand | Redux
  datatype Components = Shadcn | NativewindUi | NoComponents
  datatype Animation = Reanimated | Moti | Framer | NoAnimation
  datatype PackageManager = Npm | Pnpm | Yarn | Bun

  /** The string a preset has on the command line and as a key of the preset table. */
  function PresetName(p: Preset): string {
    match p
    case Mobile => "mobile"
    case Web => "web"
    case FullstackMobile => "fullstack-mobile"
    case FullstackWeb => "fullstack-web"
    case Monorepo => "monorepo"
  }

  function PlatformName(p: Platform): string {
    match p
    case MobileApp => "mobile"
    case WebApp => "web"
  }

  /** The directory name of a backend under the template store's `backend/` group. */
  function BackendName(b: Backend): string {
    match b
    case NoBackend => "none"
    case Supabase => "supabase"
    case Firebase => "firebase"
    case NestjsPostgres => "nestjs-postgres"
    case NestjsMongodb => "nestjs-mongodb"
  }

  function StateName(s: StateManager): string {
    match s
    case Zustand => "zustand"
    case Redux => "redux"
  }

  function ComponentsName(c: Components): string {
    match c
    case Shadcn => "shadcn"
    case NativewindUi => "nativewind-ui"
    case NoComponents => "none"
  }

  function StylingName(s: Styling): string {
    match s
    case Tailwind => "tailwind"
    case Nativewind => "nativewind"
    case NoStyling => "none"
  }

  /** `t` occurs in `s` starting at some position: JavaScript's `s.includes(t)`. */
  predicate Includes(s: string, t: string)
    decreases |s|
  {
    (|t| <= |s| && s[..|t|] == t) || (|s| > 0 && Includes(s[1..], t))
  }

  lemma {:induction false} IncludesNeedsRoom(s: string, t: string)
    requires Includes(s, t)
    ensures |t| <= |s|
    decreases |s|
  {
    if !(|t| <= |s| && s[..|t|] == t) {
      IncludesNeedsRoom(s[1..], t);
    }
  }

  /**
   * The backend test every layer of the source writes out the same way:
   * `preset.includes("fullstack") || preset === "monorepo"`.
   */
  predicate HasBackend(p: Preset) {
    Includes(PresetName(p), "fullstack") || p == Monorepo
  }

  // The presets laid out as a workspace of `apps` and `packages` directories.
  predicate IsMonorepoPreset(p: Preset)
    ensures IsMonorepoPreset(p) <==> p !in {Mobile, Web}
  {
    p == FullstackMobile || p == FullstackWeb || p == Monorepo
  }

  /** The string test for a backend and the monorepo test agree on every preset. */
  lemma HasBackendIsMonorepo(p: Preset)
    ensures HasBackend(p) <==> IsMonorepoPreset(p)
  {
    match p
    case Mobile =>
      if Includes("mobile", "fullstack") { IncludesNeedsRoom("mobile", "fullstack"); }
    case Web =>
      if Includes("web", "fullstack") { IncludesNeedsRoom("web", "fullstack"); }
    case FullstackMobile =>
      assert "fullstack-mobile"[..9] == "fullstack";
    case FullstackWeb =>
      assert "fullstack-web"[..9] == "fullstack";
    case Monorepo =>
  }

  /** The platforms each preset targets; the same table in both variants of the source. */
  function Platforms(p: Preset): (ps: seq<Platform>)
    ensures 1 <= |ps| <= 2 && (|ps| == 2 ==> ps[0] != ps[1])
    ensures MobileApp in ps <==> p in {Mobile, FullstackMobile, Monorepo}
    ensures WebApp in ps <==> p in {Web, FullstackWeb, Monorepo}
  {
    match p
    case Mobile => [MobileApp]
    case Web => [WebApp]
    case FullstackMobile => [MobileApp]
    case FullstackWeb => [WebApp]
    case Monorepo => [MobileApp, WebApp]
  }

  predicate HasMobilePlatform(p: Preset) { MobileApp in Platforms(p) }

  predicate HasWebPlatform(p: Preset) { WebApp in Platforms(p) }
}
