/**
 * The older variant's configuration model: its project configuration,
 * preset table and compatibility function.
 */
module Types {
  import opened Options

  /** The backends the older configuration type admits: `supabase`, `firebase` and `none`. */
  type LegacyBackend = b: Backend | b == NoBackend || b == Supabase || b == Firebase witness NoBackend

  datatype ProjectConfig = ProjectConfig(
    name: string,
    preset: Preset,
    backend: LegacyBackend,
    styling: Styling,
    state: StateManager,
    components: Components,
    packageManager: PackageManager,
    gitInit: bool)

  datatype PresetInfo = PresetInfo(labelText: string, hint: string, platforms: seq<Platform>)

  /** `PRESET_INFO[preset]`. */
  function PresetInfoOf(p: Preset): (info: PresetInfo)
    ensures info.platforms == Platforms(p)
  {
    match p
    case Mobile => PresetInfo("Mobile App", "React Native + Expo", [MobileApp])
    case Web => PresetInfo("Web App", "Next.js", [WebApp])
    case FullstackMobile => PresetInfo("Full-Stack Mobile", "React Native + Backend", [MobileApp])
    case FullstackWeb => PresetInfo("Full-Stack Web", "Next.js + Backend", [WebApp])
    case Monorepo => PresetInfo("Monorepo", "Mobile + Web + Backend", [MobileApp, WebApp])
  }

  /** The legal values of each option for a preset; the first of each list is its default. */
  datatype CompatibleOptions = CompatibleOptions(
    styling: seq<Styling>,
    components: seq<Components>,
    backend: seq<LegacyBackend>,
    state: seq<StateManager>)

  function GetCompatibleOptions(p: Preset): (o: CompatibleOptions)
    ensures HasMobilePlatform(p) ==> Tailwind !in o.styling && Shadcn !in o.components
    ensures !HasMobilePlatform(p) ==> Nativewind !in o.styling && NativewindUi !in o.components
    ensures |o.styling| == 2 && o.styling[0] != NoStyling && o.styling[1] == NoStyling
    ensures |o.components| == 2 && o.components[0] != NoComponents && o.components[1] == NoComponents
    ensures o.backend == if IsMonorepoPreset(p) then [Supabase, Firebase] else [NoBackend]
    ensures o.state == [Zustand, Redux]
  {
    var info := PresetInfoOf(p);
    var hasMobile := MobileApp in info.platforms;
    var hasBackend := HasBackend(p);
    HasBackendIsMonorepo(p);
    CompatibleOptions(
      if hasMobile then [Nativewind, NoStyling] else [Tailwind, NoStyling],
      if hasMobile then [NativewindUi, NoComponents] else [Shadcn, NoComponents],
      if hasBackend then [Supabase, Firebase] else [NoBackend],
      [Zustand, Redux])
  }

  /** Every option of `cfg` is one its preset allows. */
  predicate Compatible(cfg: ProjectConfig) {
    var o := GetCompatibleOptions(cfg.preset);
    && cfg.styling in o.styling
    && cfg.components in o.components
    && cfg.backend in o.backend
    && cfg.state in o.state
  }

  /** A backend can be chosen exactly for the presets laid out as a monorepo. */
  lemma BackendChoiceIffMonorepo(p: Preset)
    ensures NoBackend !in GetCompatibleOptions(p).backend <==> IsMonorepoPreset(p)
    ensures NoBackend !in GetCompatibleOptions(p).backend <==> HasBackend(p)
  {
    HasBackendIsMonorepo(p);
  }
}
