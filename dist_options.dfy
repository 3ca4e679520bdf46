/**
 * The newer variant's configuration model: web framework, four backends
 * with the NestJS ones first, animation libraries and the EAS build file,
 * and the defaults the `--yes`/`--preset` flags build.
 */
module DistOptions {
  import opened Wrappers
  import opened Options

  datatype Config = Config(
    name: string,
    preset: Preset,
    webFramework: WebFramework,
    backend: Backend,
    styling: Styling,
    state: StateManager,
    components: Components,
    animation: Animation,
    eas: bool,
    packageManager: PackageManager,
    gitInit: bool)

  datatype PresetInfo = PresetInfo(labelText: string, hint: string, platforms: seq<Platform>)

  /** `PRESET_INFO[preset]`: the platform table is the older variant's, two hints changed. */
  function PresetInfoOf(p: Preset): (info: PresetInfo)
    ensures info.platforms == Platforms(p)
  {
    match p
    case Mobile => PresetInfo("Mobile App", "React Native + Expo", [MobileApp])
    case Web => PresetInfo("Web App", "Next.js or Vite", [WebApp])
    case FullstackMobile => PresetInfo("Full-Stack Mobile", "React Native + Backend", [MobileApp])
    case FullstackWeb => PresetInfo("Full-Stack Web", "Web + Backend", [WebApp])
    case Monorepo => PresetInfo("Monorepo", "Mobile + Web + Backend", [MobileApp, WebApp])
  }

  datatype CompatibleOptions = CompatibleOptions(
    styling: seq<Styling>,
    components: seq<Components>,
    backend: seq<Backend>,
    state: seq<StateManager>,
    animation: seq<Animation>)

  const AllBackends := [NestjsPostgres, NestjsMongodb, Supabase, Firebase]

  /** The legal values of each option; the web framework is accepted but plays no part. */
  function GetCompatibleOptions(p: Preset, wf: WebFramework): (o: CompatibleOptions)
    ensures HasMobilePlatform(p) ==> o.styling == [Nativewind, NoStyling] && o.components == [NativewindUi, NoComponents]
                                     && o.animation == [Reanimated, Moti, NoAnimation]
    ensures !HasMobilePlatform(p) ==> o.styling == [Tailwind, NoStyling] && o.components == [Shadcn, NoComponents]
                                      && o.animation == [Framer, NoAnimation]
    ensures o.backend == if IsMonorepoPreset(p) then AllBackends else [NoBackend]
    ensures NoBackend in o.backend <==> !IsMonorepoPreset(p)
    ensures o.state == [Zustand, Redux]
  {
    var info := PresetInfoOf(p);
    var hasMobile := MobileApp in info.platforms;
    var hasBackend := HasBackend(p);
    HasBackendIsMonorepo(p);
    CompatibleOptions(
      if hasMobile then [Nativewind, NoStyling] else [Tailwind, NoStyling],
      if hasMobile then [NativewindUi, NoComponents] else [Shadcn, NoComponents],
      if hasBackend then AllBackends else [NoBackend],
      [Zustand, Redux],
      if hasMobile then [Reanimated, Moti, NoAnimation] else [Framer, NoAnimation])
  }

  /** The lists do not depend on the web framework. */
  lemma WebFrameworkIrrelevant(p: Preset, a: WebFramework, b: WebFramework)
    ensures GetCompatibleOptions(p, a) == GetCompatibleOptions(p, b)
  {
  }

  /** Every option of `cfg` is one its preset allows. */
  predicate Compatible(cfg: Config) {
    var o := GetCompatibleOptions(cfg.preset, cfg.webFramework);
    && cfg.styling in o.styling && cfg.components in o.components && cfg.backend in o.backend
    && cfg.state in o.state && cfg.animation in o.animation
  }

  const DefaultName := "my-lightning-app"

  /**
   * The configuration the flags produce, or `None` when the prompts run
   * instead; `name` and `preset` are `None` when absent or empty.
   */
  function FlagDefaults(yes: bool, name: Option<string>, preset: Option<Preset>): (cfg: Option<Config>)
    ensures cfg.Some? <==> yes || preset.Some?
    ensures cfg.Some? ==> cfg.value.name == (if name.Some? && name.value != "" then name.value else DefaultName)
    ensures cfg.Some? ==> cfg.value.preset == (if preset.Some? then preset.value else Mobile)
    ensures cfg.Some? ==> (cfg.value.styling == Nativewind <==> cfg.value.preset in {Mobile, FullstackMobile})
    ensures cfg.Some? ==> (cfg.value.components == NativewindUi <==> cfg.value.preset in {Mobile, FullstackMobile})
    ensures cfg.Some? ==> cfg.value.animation == if cfg.value.preset in {Mobile, FullstackMobile} then Reanimated else Framer
    ensures cfg.Some? ==> (cfg.value.eas <==> cfg.value.preset in {Mobile, FullstackMobile})
    ensures cfg.Some? ==> cfg.value.styling != NoStyling && cfg.value.components != NoComponents
                          && cfg.value.animation != NoAnimation
    ensures cfg.Some? ==> (cfg.value.backend == NestjsPostgres <==> IsMonorepoPreset(cfg.value.preset))
    ensures cfg.Some? ==> cfg.value.backend in {NestjsPostgres, NoBackend}
    ensures cfg.Some? ==> cfg.value.webFramework == NextJs && cfg.value.state == Zustand
                          && cfg.value.packageManager == Npm && cfg.value.gitInit
  {
    if !(yes || preset.Some?) then None
    else
      var n := if name.Some? && name.value != "" then name.value else DefaultName;
      var p := if preset.Some? then preset.value else Mobile;
      var isMobile := p == Mobile || p == FullstackMobile;
      var hasBackend := HasBackend(p);
      HasBackendIsMonorepo(p);
      Some(Config(
        n, p, NextJs,
        if hasBackend then NestjsPostgres else NoBackend,
        if isMobile then Nativewind else Tailwind,
        Zustand,
        if isMobile then NativewindUi else Shadcn,
        if isMobile then Reanimated else Framer,
        isMobile,
        Npm,
        true))
  }

  /** For every preset but `monorepo` the defaults are options the preset allows. */
  lemma DefaultsCompatible(yes: bool, name: Option<string>, preset: Option<Preset>)
    requires FlagDefaults(yes, name, preset).Some?
    requires FlagDefaults(yes, name, preset).value.preset != Monorepo
    ensures Compatible(FlagDefaults(yes, name, preset).value)
  {
  }

  /**
   * For `monorepo` the web defaults for styling, components and animation
   * are not among the options the preset allows, since the preset includes
   * the mobile platform.
   */
  lemma MonorepoDefaultsIncompatible(yes: bool, name: Option<string>)
    ensures var cfg := FlagDefaults(yes, name, Some(Monorepo)).value;
            var o := GetCompatibleOptions(Monorepo, cfg.webFramework);
            && cfg.styling !in o.styling && cfg.components !in o.components && cfg.animation !in o.animation
            && !Compatible(cfg)
  {
  }
}
