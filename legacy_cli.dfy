/**
 * The older command's flag defaults: with `--yes` or `--preset` the
 * configuration is built from the preset alone instead of by prompting.
 */
module LegacyCli {
  import opened Wrappers
  import opened Options
  import opened Types

  const DefaultName := "my-lightning-app"

  /**
   * The configuration the flags produce, or `None` when the interactive
   * prompts run instead. `name` and `preset` are the option values, `None`
   * when the option is absent or empty (both are falsy in the source).
   * The source's object literal sets no `gitInit`; that `undefined` is
   * `false` here.
   */
  function FlagDefaults(yes: bool, name: Option<string>, preset: Option<Preset>): (cfg: Option<ProjectConfig>)
    ensures cfg.Some? <==> yes || preset.Some?
    ensures cfg.Some? ==> cfg.value.name == (if name.Some? && name.value != "" then name.value else DefaultName)
    ensures cfg.Some? ==> cfg.value.preset == (if preset.Some? then preset.value else Mobile)
    ensures cfg.Some? ==> (cfg.value.styling == Nativewind <==> cfg.value.preset in {Mobile, FullstackMobile})
    ensures cfg.Some? ==> (cfg.value.components == NativewindUi <==> cfg.value.preset in {Mobile, FullstackMobile})
    ensures cfg.Some? ==> cfg.value.styling != NoStyling && cfg.value.components != NoComponents
    ensures cfg.Some? ==> (cfg.value.backend == Supabase <==> IsMonorepoPreset(cfg.value.preset))
    ensures cfg.Some? ==> cfg.value.backend in {Supabase, NoBackend}
    ensures cfg.Some? ==> cfg.value.state == Zustand && cfg.value.packageManager == Npm
  {
    if !(yes || preset.Some?) then None
    else
      var n := if name.Some? && name.value != "" then name.value else DefaultName;
      var p := if preset.Some? then preset.value else Mobile;
      var isMobile := p == Mobile || p == FullstackMobile;
      var hasBackend := HasBackend(p);
      HasBackendIsMonorepo(p);
      Some(ProjectConfig(
        n, p,
        if hasBackend then Supabase else NoBackend,
        if isMobile then Nativewind else Tailwind,
        Zustand,
        if isMobile then NativewindUi else Shadcn,
        Npm,
        false))
  }

  /** For every preset but `monorepo` the defaults are options the preset allows. */
  lemma DefaultsCompatible(yes: bool, name: Option<string>, preset: Option<Preset>)
    requires FlagDefaults(yes, name, preset).Some?
    requires FlagDefaults(yes, name, preset).value.preset != Monorepo
    ensures Compatible(FlagDefaults(yes, name, preset).value)
  {
  }

  /**
   * For `monorepo` the defaults (web styling and components) are not among
   * the options the preset allows, since the preset includes the mobile
   * platform.
   */
  lemma MonorepoDefaultsIncompatible(yes: bool, name: Option<string>)
    ensures var cfg := FlagDefaults(yes, name, Some(Monorepo)).value;
            && cfg.styling == Tailwind && cfg.styling !in GetCompatibleOptions(Monorepo).styling
            && cfg.components == Shadcn && cfg.components !in GetCompatibleOptions(Monorepo).components
            && !Compatible(cfg)
  {
  }
}
