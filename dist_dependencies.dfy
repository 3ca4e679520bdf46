/**
 * The entries the newer variant's `addDependencies` writes, layer by layer:
 * the state library, the animation libraries, the app platform's wallet
 * adapter and polyfills with its styling runtime, and the client of a
 * hosted backend; and, separately, the development tools. Every package is
 * written at one fixed version wherever it appears, so a layer is a list
 * of packages and the version table says what each is written as.
 */
module DistDependencies {
  import opened Wrappers
  import opened Options
  import opened Manifests
  import opened DistOptions

  datatype Package =
    | ZustandPkg | ReduxToolkitPkg | ReactReduxPkg
    | ReanimatedPkg | GestureHandlerPkg | MotiPkg | FramerMotionPkg
    | WalletMobileAdapterPkg | SolanaWeb3Pkg | GetRandomValuesPkg | UrlPolyfillPkg | BufferPkg
    | ExpoCryptoPkg | ExpoLinkingPkg | ExpoWebBrowserPkg | ExpoClipboardPkg | NativewindPkg
    | WalletPkg | AnchorPkg
    | SupabaseJsPkg | FirebasePkg
    | TailwindcssPkg | NodePolyfillsPkg | PostcssPkg | AutoprefixerPkg

  /** The package's key in `package.json`. */
  function PackageName(p: Package): string {
    match p
    case ZustandPkg => "zustand"
    case ReduxToolkitPkg => "@reduxjs/toolkit"
    case ReactReduxPkg => "react-redux"
    case ReanimatedPkg => "react-native-reanimated"
    case GestureHandlerPkg => "react-native-gesture-handler"
    case MotiPkg => "moti"
    case FramerMotionPkg => "framer-motion"
    case WalletMobileAdapterPkg => "@lazorkit/wallet-mobile-adapter"
    case SolanaWeb3Pkg => "@solana/web3.js"
    case GetRandomValuesPkg => "react-native-get-random-values"
    case UrlPolyfillPkg => "react-native-url-polyfill"
    case BufferPkg => "buffer"
    case ExpoCryptoPkg => "expo-crypto"
    case ExpoLinkingPkg => "expo-linking"
    case ExpoWebBrowserPkg => "expo-web-browser"
    case ExpoClipboardPkg => "expo-clipboard"
    case NativewindPkg => "nativewind"
    case WalletPkg => "@lazorkit/wallet"
    case AnchorPkg => "@coral-xyz/anchor"
    case SupabaseJsPkg => "@supabase/supabase-js"
    case FirebasePkg => "firebase"
    case TailwindcssPkg => "tailwindcss"
    case NodePolyfillsPkg => "vite-plugin-node-polyfills"
    case PostcssPkg => "postcss"
    case AutoprefixerPkg => "autoprefixer"
  }

  /** The version range the package is written with. */
  function Version(p: Package): string {
    match p
    case ZustandPkg => "^4.5.0"
    case ReduxToolkitPkg => "^2.0.0"
    case ReactReduxPkg => "^9.0.0"
    case ReanimatedPkg => "^3.10.0"
    case GestureHandlerPkg => "^2.16.0"
    case MotiPkg => "^0.29.0"
    case FramerMotionPkg => "^11.0.0"
    case WalletMobileAdapterPkg => "latest"
    case SolanaWeb3Pkg => "^1.95.0"
    case GetRandomValuesPkg => "~1.11.0"
    case UrlPolyfillPkg => "^2.0.0"
    case BufferPkg => "^6.0.3"
    case ExpoCryptoPkg => "~15.0.0"
    case ExpoLinkingPkg => "~8.0.11"
    case ExpoWebBrowserPkg => "~15.0.10"
    case ExpoClipboardPkg => "~7.0.0"
    case NativewindPkg => "^4.0.0"
    case WalletPkg => "latest"
    case AnchorPkg => "^0.30.0"
    case SupabaseJsPkg => "^2.39.0"
    case FirebasePkg => "^10.7.0"
    case TailwindcssPkg => "^3.4.0"
    case NodePolyfillsPkg => "^0.22.0"
    case PostcssPkg => "^8.4.0"
    case AutoprefixerPkg => "^10.4.0"
  }

  /** The state and animation libraries. */
  predicate IsLibrary(p: Package) {
    p in {ZustandPkg, ReduxToolkitPkg, ReactReduxPkg, ReanimatedPkg, GestureHandlerPkg, MotiPkg, FramerMotionPkg}
  }

  /** The packages of a mobile app: its wallet adapter, polyfills, Expo modules and styling runtime. */
  predicate IsMobilePackage(p: Package) {
    p in {WalletMobileAdapterPkg, SolanaWeb3Pkg, GetRandomValuesPkg, UrlPolyfillPkg, BufferPkg,
          ExpoCryptoPkg, ExpoLinkingPkg, ExpoWebBrowserPkg, ExpoClipboardPkg, NativewindPkg}
  }

  // Distinct packages have distinct keys: the key of each package, taken a
  // pair at a time, differs from the key of every other package.

  lemma KeysApartZustand(p: Package, q: Package)
    requires (p == ZustandPkg || p == ReduxToolkitPkg) && p != q
    ensures PackageName(p) != PackageName(q)
  {
  }

  lemma KeysApartReactRedux(p: Package, q: Package)
    requires (p == ReactReduxPkg || p == ReanimatedPkg) && p != q
    ensures PackageName(p) != PackageName(q)
  {
  }

  lemma KeysApartGestureHandler(p: Package, q: Package)
    requires (p == GestureHandlerPkg || p == MotiPkg) && p != q
    ensures PackageName(p) != PackageName(q)
  {
  }

  lemma KeysApartFramerMotion(p: Package, q: Package)
    requires (p == FramerMotionPkg || p == WalletMobileAdapterPkg) && p != q
    ensures PackageName(p) != PackageName(q)
  {
  }

  lemma KeysApartSolanaWeb3(p: Package, q: Package)
    requires (p == SolanaWeb3Pkg || p == GetRandomValuesPkg) && p != q
    ensures PackageName(p) != PackageName(q)
  {
  }

  lemma KeysApartUrlPolyfill(p: Package, q: Package)
    requires (p == UrlPolyfillPkg || p == BufferPkg) && p != q
    ensures PackageName(p) != PackageName(q)
  {
  }

  lemma KeysApartExpoCrypto(p: Package, q: Package)
    requires (p == ExpoCryptoPkg || p == ExpoLinkingPkg) && p != q
    ensures PackageName(p) != PackageName(q)
  {
  }

  lemma KeysApartExpoWebBrowser(p: Package, q: Package)
    requires (p == ExpoWebBrowserPkg || p == ExpoClipboardPkg) && p != q
    ensures PackageName(p) != PackageName(q)
  {
  }

  lemma KeysApartNativewind(p: Package, q: Package)
    requires (p == NativewindPkg || p == WalletPkg) && p != q
    ensures PackageName(p) != PackageName(q)
  {
  }

  lemma KeysApartAnchor(p: Package, q: Package)
    requires (p == AnchorPkg || p == SupabaseJsPkg) && p != q
    ensures PackageName(p) != PackageName(q)
  {
  }

  lemma KeysApartFirebase(p: Package, q: Package)
    requires (p == FirebasePkg || p == TailwindcssPkg) && p != q
    ensures PackageName(p) != PackageName(q)
  {
  }

  lemma KeysApartNodePolyfills(p: Package, q: Package)
    requires (p == NodePolyfillsPkg || p == PostcssPkg) && p != q
    ensures PackageName(p) != PackageName(q)
  {
  }

  lemma KeysApartAutoprefixer(p: Package, q: Package)
    requires (p == AutoprefixerPkg) && p != q
    ensures PackageName(p) != PackageName(q)
  {
  }

  /** Two packages with the same key are the same package. */
  lemma NamesDistinct(p: Package, q: Package)
    ensures PackageName(p) == PackageName(q) <==> p == q
  {
    if p == q {
    } else if p == ZustandPkg || p == ReduxToolkitPkg {
      KeysApartZustand(p, q);
    } else if p == ReactReduxPkg || p == ReanimatedPkg {
      KeysApartReactRedux(p, q);
    } else if p == GestureHandlerPkg || p == MotiPkg {
      KeysApartGestureHandler(p, q);
    } else if p == FramerMotionPkg || p == WalletMobileAdapterPkg {
      KeysApartFramerMotion(p, q);
    } else if p == SolanaWeb3Pkg || p == GetRandomValuesPkg {
      KeysApartSolanaWeb3(p, q);
    } else if p == UrlPolyfillPkg || p == BufferPkg {
      KeysApartUrlPolyfill(p, q);
    } else if p == ExpoCryptoPkg || p == ExpoLinkingPkg {
      KeysApartExpoCrypto(p, q);
    } else if p == ExpoWebBrowserPkg || p == ExpoClipboardPkg {
      KeysApartExpoWebBrowser(p, q);
    } else if p == NativewindPkg || p == WalletPkg {
      KeysApartNativewind(p, q);
    } else if p == AnchorPkg || p == SupabaseJsPkg {
      KeysApartAnchor(p, q);
    } else if p == FirebasePkg || p == TailwindcssPkg {
      KeysApartFirebase(p, q);
    } else if p == NodePolyfillsPkg || p == PostcssPkg {
      KeysApartNodePolyfills(p, q);
    } else {
      KeysApartAutoprefixer(p, q);
    }
  }

  // ---------------------------------------------------------------------
  // The layers

  function StateLayer(s: StateManager): seq<Package> {
    if s == Zustand then [ZustandPkg] else [ReduxToolkitPkg, ReactReduxPkg]
  }

  function AnimationLayer(a: Animation): seq<Package> {
    match a
    case Reanimated => [ReanimatedPkg, GestureHandlerPkg]
    case Moti => [MotiPkg, ReanimatedPkg]
    case Framer => [FramerMotionPkg]
    case NoAnimation => []
  }

  /** The wallet adapter and polyfills of the app's platform; nativewind only on mobile. */
  function PlatformLayer(pl: Platform, styling: Styling): seq<Package> {
    if pl == MobileApp then
      [WalletMobileAdapterPkg, SolanaWeb3Pkg, GetRandomValuesPkg, UrlPolyfillPkg, BufferPkg,
       ExpoCryptoPkg, ExpoLinkingPkg, ExpoWebBrowserPkg, ExpoClipboardPkg]
      + (if styling == Nativewind then [NativewindPkg] else [])
    else
      [WalletPkg, SolanaWeb3Pkg, AnchorPkg, BufferPkg]
  }

  function BackendLayer(b: Backend): seq<Package> {
    match b
    case Supabase => [SupabaseJsPkg]
    case Firebase => [FirebasePkg]
    case _ => []
  }

  /** The development tools: tailwind for nativewind on mobile; the Vite plugins, and tailwind's toolchain under Vite, on the web. */
  function DevLayer(pl: Platform, styling: Styling, wf: WebFramework): seq<Package> {
    if pl == MobileApp then
      (if styling == Nativewind then [TailwindcssPkg] else [])
    else
      (if wf == Vite then [NodePolyfillsPkg] else [])
      + (if styling == Tailwind && wf == Vite then [TailwindcssPkg, PostcssPkg, AutoprefixerPkg] else [])
  }

  /** The dependency writes in the source's order: state, animation, platform, backend. */
  function DependencyPackages(cfg: Config, pl: Platform): seq<Package> {
    StateLayer(cfg.state) + AnimationLayer(cfg.animation) + PlatformLayer(pl, cfg.styling) + BackendLayer(cfg.backend)
  }

  /** `pkg.dependencies[name] = version` for each package in turn. */
  function Entries(ps: seq<Package>): (ws: seq<Entry>)
    ensures |ws| == |ps|
    decreases |ps|
  {
    if ps == [] then []
    else Entries(ps[..|ps| - 1]) + [(PackageName(ps[|ps| - 1]), Version(ps[|ps| - 1]))]
  }

  /** `addDependencies`' edit of the manifest of an app on platform `pl`. */
  function DistPatch(cfg: Config, pl: Platform): Patch {
    Patch(Entries(DependencyPackages(cfg, pl)), Some(Entries(DevLayer(pl, cfg.styling, cfg.webFramework))))
  }

  /** The keys the writes name are the packages' keys. */
  lemma {:induction false} EntriesKeys(ps: seq<Package>)
    ensures Keys(Entries(ps)) == set p | p in ps :: PackageName(p)
    decreases |ps|
  {
    if ps != [] {
      var init := ps[..|ps| - 1];
      EntriesKeys(init);
      var last := (PackageName(ps[|ps| - 1]), Version(ps[|ps| - 1]));
      KeysConcat(Entries(init), [last]);
      assert ps == init + [ps[|ps| - 1]];
    }
  }

  /** The `i`-th write is the `i`-th package's key and version. */
  lemma {:induction false} EntryAt(ps: seq<Package>, i: int)
    requires 0 <= i < |ps|
    ensures Entries(ps)[i] == (PackageName(ps[i]), Version(ps[i]))
    decreases |ps|
  {
    if i < |ps| - 1 {
      EntryAt(ps[..|ps| - 1], i);
    }
  }

  /** A written package's key ends with the package's version. */
  lemma EntriesValues(ps: seq<Package>, p: Package)
    requires p in ps
    ensures PackageName(p) in Keys(Entries(ps))
    ensures LastValue(Entries(ps), PackageName(p)) == Version(p)
  {
    var ws := Entries(ps);
    var i :| 0 <= i < |ps| && ps[i] == p;
    EntryAt(ps, i);
    forall j | 0 <= j < |ws| && ws[j].0 == ws[i].0
      ensures ws[j].1 == ws[i].1
    {
      EntryAt(ps, j);
      NamesDistinct(ps[j], p);
    }
    AgreeingWrites(ws, i);
  }

  // ---------------------------------------------------------------------
  // What the layers write

  /** A package is among the dependency writes exactly when one of the four layers names it. */
  lemma InSomeLayer(cfg: Config, pl: Platform, q: Package)
    ensures q in DependencyPackages(cfg, pl)
            <==> q in StateLayer(cfg.state) || q in AnimationLayer(cfg.animation)
                 || q in PlatformLayer(pl, cfg.styling) || q in BackendLayer(cfg.backend)
  {
  }

  /** A state or animation library is written exactly when its own layer holds it. */
  lemma LibraryFromItsLayer(cfg: Config, pl: Platform, q: Package)
    requires IsLibrary(q)
    ensures q in DependencyPackages(cfg, pl) <==> q in StateLayer(cfg.state) + AnimationLayer(cfg.animation)
  {
    var others := PlatformLayer(pl, cfg.styling) + BackendLayer(cfg.backend);
    assert DependencyPackages(cfg, pl) == StateLayer(cfg.state) + AnimationLayer(cfg.animation) + others;
    assert forall r :: r in others ==> !IsLibrary(r);
  }

  /** Only the chosen state library is written: Zustand, or both Redux packages. */
  lemma StateLibraryChosen(cfg: Config, pl: Platform)
    ensures var ps := DependencyPackages(cfg, pl);
            && (ZustandPkg in ps <==> cfg.state == Zustand)
            && (ReduxToolkitPkg in ps <==> cfg.state == Redux)
            && (ReactReduxPkg in ps <==> cfg.state == Redux)
  {
    LibraryFromItsLayer(cfg, pl, ZustandPkg);
    LibraryFromItsLayer(cfg, pl, ReduxToolkitPkg);
    LibraryFromItsLayer(cfg, pl, ReactReduxPkg);
  }

  /**
   * Only the chosen animation libraries are written; Moti brings Reanimated
   * along, and animation `none` adds none.
   */
  lemma AnimationLibrariesChosen(cfg: Config, pl: Platform)
    ensures var ps := DependencyPackages(cfg, pl);
            && (ReanimatedPkg in ps <==> cfg.animation in {Reanimated, Moti})
            && (GestureHandlerPkg in ps <==> cfg.animation == Reanimated)
            && (MotiPkg in ps <==> cfg.animation == Moti)
            && (FramerMotionPkg in ps <==> cfg.animation == Framer)
  {
    LibraryFromItsLayer(cfg, pl, ReanimatedPkg);
    LibraryFromItsLayer(cfg, pl, GestureHandlerPkg);
    LibraryFromItsLayer(cfg, pl, MotiPkg);
    LibraryFromItsLayer(cfg, pl, FramerMotionPkg);
  }

  /**
   * The platform layer: the mobile wallet adapter exactly on mobile, the web
   * wallet exactly on the web, nativewind only on mobile with nativewind
   * styling, the Solana client and `buffer` always.
   */
  lemma PlatformPackagesChosen(cfg: Config, pl: Platform)
    ensures var ps := DependencyPackages(cfg, pl);
            && (NativewindPkg in ps <==> pl == MobileApp && cfg.styling == Nativewind)
            && (WalletMobileAdapterPkg in ps <==> pl == MobileApp)
            && (WalletPkg in ps <==> pl == WebApp)
            && SolanaWeb3Pkg in ps && BufferPkg in ps
  {
    PlatformFromItsLayer(cfg, pl, NativewindPkg);
    PlatformFromItsLayer(cfg, pl, WalletMobileAdapterPkg);
    PlatformFromItsLayer(cfg, pl, WalletPkg);
    PlatformFromItsLayer(cfg, pl, SolanaWeb3Pkg);
    PlatformFromItsLayer(cfg, pl, BufferPkg);
  }

  /** A platform package is written exactly when the platform layer holds it. */
  lemma PlatformFromItsLayer(cfg: Config, pl: Platform, q: Package)
    requires IsMobilePackage(q) || q in {WalletPkg, SolanaWeb3Pkg, AnchorPkg, BufferPkg}
    ensures q in DependencyPackages(cfg, pl) <==> q in PlatformLayer(pl, cfg.styling)
  {
    InSomeLayer(cfg, pl, q);
  }

  /** The client of a hosted backend is written exactly for Supabase or Firebase. */
  lemma BackendClientChosen(cfg: Config, pl: Platform)
    ensures var ps := DependencyPackages(cfg, pl);
            && (SupabaseJsPkg in ps <==> cfg.backend == Supabase)
            && (FirebasePkg in ps <==> cfg.backend == Firebase)
  {
    var front := StateLayer(cfg.state) + AnimationLayer(cfg.animation) + PlatformLayer(pl, cfg.styling);
    assert DependencyPackages(cfg, pl) == front + BackendLayer(cfg.backend);
    assert forall q :: q in front ==> q !in {SupabaseJsPkg, FirebasePkg};
  }

  /**
   * Which development tools are written: `tailwindcss` for nativewind on
   * mobile or for tailwind under Vite on the web, the Node polyfills plugin
   * exactly for a Vite web app, `postcss` and `autoprefixer` exactly with
   * tailwind under Vite.
   */
  lemma DevPackagesChosen(cfg: Config, pl: Platform)
    ensures var ps := DevLayer(pl, cfg.styling, cfg.webFramework);
            && (TailwindcssPkg in ps <==> (pl == MobileApp && cfg.styling == Nativewind)
                                          || (pl == WebApp && cfg.styling == Tailwind && cfg.webFramework == Vite))
            && (NodePolyfillsPkg in ps <==> pl == WebApp && cfg.webFramework == Vite)
            && (PostcssPkg in ps <==> pl == WebApp && cfg.styling == Tailwind && cfg.webFramework == Vite)
            && (AutoprefixerPkg in ps <==> pl == WebApp && cfg.styling == Tailwind && cfg.webFramework == Vite)
            && (forall p :: p in ps ==> p in {TailwindcssPkg, NodePolyfillsPkg, PostcssPkg, AutoprefixerPkg})
  {
  }

  /**
   * The manifest after `addDependencies`: both maps exist; each written
   * package's key holds its version; every other key keeps its value; no
   * key is removed and no other key is added.
   */
  lemma AddDependenciesEffect(m: Manifest, cfg: Config, pl: Platform)
    ensures var r := ApplyPatch(m, DistPatch(cfg, pl));
            var deps := DependencyPackages(cfg, pl);
            var dev := DevLayer(pl, cfg.styling, cfg.webFramework);
            var oldDeps := m.dependencies.GetOr(map[]);
            var oldDev := m.devDependencies.GetOr(map[]);
            && r.dependencies.Some? && r.devDependencies.Some?
            && r.dependencies.value.Keys == oldDeps.Keys + (set p | p in deps :: PackageName(p))
            && r.devDependencies.value.Keys == oldDev.Keys + (set p | p in dev :: PackageName(p))
            && (forall p :: p in deps ==> r.dependencies.value[PackageName(p)] == Version(p))
            && (forall p :: p in dev ==> r.devDependencies.value[PackageName(p)] == Version(p))
            && (forall k :: k in oldDeps && (forall p :: p in deps ==> PackageName(p) != k)
                  ==> r.dependencies.value[k] == oldDeps[k])
            && (forall k :: k in oldDev && (forall p :: p in dev ==> PackageName(p) != k)
                  ==> r.devDependencies.value[k] == oldDev[k])
  {
    var patch := DistPatch(cfg, pl);
    var deps := DependencyPackages(cfg, pl);
    var dev := DevLayer(pl, cfg.styling, cfg.webFramework);
    PatchedDependencies(m, patch);
    PatchedDevDependencies(m, patch);
    EntriesKeys(deps);
    EntriesKeys(dev);
    forall p | p in deps
      ensures LastValue(Entries(deps), PackageName(p)) == Version(p)
    {
      EntriesValues(deps, p);
    }
    forall p | p in dev
      ensures LastValue(Entries(dev), PackageName(p)) == Version(p)
    {
      EntriesValues(dev, p);
    }
  }
}
