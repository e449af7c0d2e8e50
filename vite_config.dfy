/** The library-build configuration that `createViteConfig` derives from
    its options (src/config/vite.config.ts): defaults, the runtime-dependent
    aliases, the output file name per module format, the declaration-file
    plugin and its path-flattening hook. Vite's `mergeConfig` is a
    parameter: nothing is assumed about it. */
module Vite {
  import opened Wrappers
  import opened Strings
  import opened Paths

  /** The runtime major version a build targets (`vueVersion: 2 | 3`). */
  datatype VueVersion = V2 | V3 {
    /** The number as the alias path spells it. */
    function Digit(): string { if V2? then "2" else "3" }
  }

  datatype Mode = Development | Production

  /** A user-supplied Vite configuration (`viteConfig`); only `mergeConfig`
      looks inside it. */
  datatype UserConfig = UserConfig(entries: seq<(string, string)>)

  /** `CreateViteConfigOptions`: `None` is an absent (undefined) key. */
  datatype Options = Options(
    root: string,
    mode: Mode,
    vueVersion: VueVersion,
    outDir: Option<string>,
    target: Option<seq<string>>,
    formats: Option<seq<string>>,
    css: Option<bool>,
    sourcemap: Option<bool>,
    dts: Option<bool>,
    viteConfig: Option<UserConfig>)

  /** The options after destructuring with defaults. */
  datatype Resolved = Resolved(
    root: string,
    mode: Mode,
    vueVersion: VueVersion,
    target: seq<string>,
    formats: seq<string>,
    css: bool,
    sourcemap: bool,
    dts: bool,
    outDir: string,
    viteConfig: UserConfig)

  const DefaultTarget: seq<string> := ["es2015"]
  const DefaultFormats: seq<string> := ["es", "cjs", "umd"]
  const DefaultOutDir := "dist"

  /** The regular expression `/\.vue$/`, kept as its source text. */
  const VueFileRegex := "/\\.vue$/"

  // ---------------------------------------------------------------------
  // The records createViteConfig builds

  datatype VuePluginOptions =
    | Vue2PluginOptions(jsx: bool, includes: seq<string>)
    | Vue3PluginOptions(
        includes: seq<string>,
        whitespace: string,
        comments: bool,
        defineModel: bool,
        propsDestructure: bool,
        babelParserPlugins: seq<string>,
        trimStyle: bool,
        customElement: bool)
  {
    /** `template.compilerOptions.isCustomElement` of the Vue 3 options. */
    predicate IsCustomElement(tag: string)
      requires Vue3PluginOptions?
    {
      StartsWith(tag, "v-")
    }
  }

  /** Options of vite-plugin-dts. `outDir` is the build's output directory,
      which the `beforeWriteFile` hook captures. */
  datatype DtsOptions = DtsOptions(
    includes: seq<string>,
    exclude: seq<string>,
    outDir: string,
    tsConfigFilePath: string,
    logLevel: string)
  {
    /** `outputDir`: declarations go to `<outDir>/types`. */
    function OutputDir(): string { outDir + "/types" }

    /** The `beforeWriteFile` hook: keep the content, keep only the file
        name of the path and put it directly under `<outDir>/types`. */
    function BeforeWriteFile(filePath: string, content: string): (string, string) {
      (outDir + "/types/" + Basename(filePath), content)
    }
  }

  datatype Plugin =
    | VuePlugin(version: VueVersion, options: VuePluginOptions)
    | DtsPlugin(dts: DtsOptions)

  datatype Lib = Lib(entry: string, formats: seq<string>, name: string) {
    /** `build.lib.fileName`. */
    function FileName(format: string): string {
      if format == "es" then "index.mjs"
      else if format == "cjs" then "index.js"
      else if format == "umd" then "index.umd.js"
      else "index.js"
    }
  }

  datatype BuildSection = BuildSection(
    target: seq<string>,
    outDir: string,
    lib: Lib,
    external: seq<string>,
    globals: seq<(string, string)>,
    cssCodeSplit: bool,
    sourcemap: bool,
    minify: bool)

  datatype ResolveSection = ResolveSection(
    mainFields: seq<string>,
    alias: map<string, string>,
    dedupe: seq<string>)

  datatype OptimizeDeps = OptimizeDeps(exclude: seq<string>, includes: seq<string>)

  datatype ViteConfig = ViteConfig(
    root: string,
    mode: Mode,
    resolve: ResolveSection,
    optimizeDeps: OptimizeDeps,
    build: BuildSection,
    postcssPlugins: seq<string>,
    plugins: seq<Plugin>)

  // ---------------------------------------------------------------------
  // Operations

  /** `createVuePluginOptions(vueVersion)`. */
  function CreateVuePluginOptions(v: VueVersion): (r: VuePluginOptions)
    ensures r.Vue2PluginOptions? <==> v == V2
    ensures v == V2 ==> r == Vue2PluginOptions(true, [VueFileRegex])
    ensures v == V3 ==> r.includes == [VueFileRegex]
    ensures v == V3 ==> forall tag :: r.IsCustomElement(tag) <==> |tag| >= 2 && tag[0] == 'v' && tag[1] == '-'
  {
    if v == V2 then Vue2PluginOptions(true, [VueFileRegex])
    else Vue3PluginOptions([VueFileRegex], "preserve", true, true, true, ["jsx", "typescript"], true, true)
  }

  /** The destructuring with defaults at the top of `createViteConfig`. */
  function ResolveOptions(o: Options): Resolved {
    Resolved(
      o.root, o.mode, o.vueVersion,
      o.target.GetOr(DefaultTarget),
      o.formats.GetOr(DefaultFormats),
      o.css.GetOr(true),
      o.sourcemap.GetOr(true),
      o.dts.GetOr(true),
      o.outDir.GetOr(DefaultOutDir),
      o.viteConfig.GetOr(UserConfig([])))
  }

  /** `[...].filter(Boolean)`: drop the `false` entries. */
  function Compact(xs: seq<Option<Plugin>>): (r: seq<Plugin>)
    ensures forall p :: p in r <==> Some(p) in xs
    ensures |r| <= |xs|
  {
    if xs == [] then []
    else (if xs[0].Some? then [xs[0].value] else []) + Compact(xs[1..])
  }

  function DtsOptionsFor(outDir: string, projectRoot: string): DtsOptions {
    DtsOptions(
      ["src/**/*.ts", "src/**/*.vue"],
      ["src/**/__tests__/**", "**/*.vue?*"],
      outDir,
      Join(projectRoot, "tsconfig.json"),
      "info")
  }

  /** Where the tool's own `vue-demi` package lies, and the build of it
      for each runtime. */
  const VueDemiDir := "node_modules/vue-demi/"
  function VueDemiEntry(v: VueVersion): string {
    "lib/v" + v.Digit() + "/index.mjs"
  }

  /** `resolve`: the `@` alias, the runtime-dependent `vue` alias and the
      `vue-demi` build of the matching version. */
  function ResolveSectionFor(r: Resolved, projectRoot: string): ResolveSection {
    var v := r.vueVersion;
    ResolveSection(
      ["module", "jsnext:main", "jsnext"],
      map[
        "@" := Join(r.root, "src"),
        "vue" := if v == V2 then "vue2" else "vue",
        "vue-demi" := Join(projectRoot, VueDemiDir + VueDemiEntry(v))],
      ["vue", "vue-demi"])
  }

  /** `build`: library mode with the runtime left external. */
  function BuildSectionFor(r: Resolved): BuildSection {
    BuildSection(
      r.target,
      r.outDir,
      Lib(Join(r.root, "src/index.ts"), r.formats, "Material"),
      ["vue", "vue-demi"],
      [("vue", "Vue"), ("vue-demi", "VueDemi")],
      false,
      r.sourcemap,
      false)
  }

  /** `plugins`: the Vue plugin, then the declaration plugin when `dts`. */
  function PluginsFor(r: Resolved, projectRoot: string): seq<Plugin> {
    var v := r.vueVersion;
    Compact([
      Some(VuePlugin(v, CreateVuePluginOptions(v))),
      if r.dts then Some(DtsPlugin(DtsOptionsFor(r.outDir, projectRoot))) else None])
  }

  /** `baseConfig`: the configuration before the user's `viteConfig` is
      merged in. `projectRoot` is the tool's own installation directory. */
  function BaseConfig(o: Options, projectRoot: string): ViteConfig {
    var r := ResolveOptions(o);
    ViteConfig(
      r.root,
      r.mode,
      ResolveSectionFor(r, projectRoot),
      OptimizeDeps(["vue-demi"], ["vue"]),
      BuildSectionFor(r),
      [],
      PluginsFor(r, projectRoot))
  }

  /** `createViteConfig(options)`: the base configuration merged with the
      user's `viteConfig` (default `{}`) by `merge`, Vite's `mergeConfig`. */
  function CreateViteConfig(o: Options, projectRoot: string, merge: (ViteConfig, UserConfig) -> ViteConfig): ViteConfig {
    merge(BaseConfig(o, projectRoot), ResolveOptions(o).viteConfig)
  }

  // ---------------------------------------------------------------------
  // Properties

  /** Absent options take their documented defaults; present ones are used
      as given. */
  lemma Defaults(o: Options, projectRoot: string)
    ensures var c := BaseConfig(o, projectRoot);
      && c.build.target == (if o.target.Some? then o.target.value else ["es2015"])
      && c.build.lib.formats == (if o.formats.Some? then o.formats.value else ["es", "cjs", "umd"])
      && c.build.outDir == (if o.outDir.Some? then o.outDir.value else "dist")
      && c.build.sourcemap == (o.sourcemap != Some(false))
  {
    var r := ResolveOptions(o);
    assert BaseConfig(o, projectRoot).build == BuildSectionFor(r);
    assert r.sourcemap == (o.sourcemap != Some(false));
  }

  /** The base configuration never looks at the user's `viteConfig`: that
      reaches the result only through the final merge, so two option sets
      that differ only there give results that differ only by what the
      merge makes of them. */
  lemma UserConfigOnlyMerged(o: Options, u: UserConfig, projectRoot: string,
                             merge: (ViteConfig, UserConfig) -> ViteConfig)
    ensures BaseConfig(o.(viteConfig := Some(u)), projectRoot) == BaseConfig(o.(viteConfig := None), projectRoot)
    ensures CreateViteConfig(o.(viteConfig := Some(u)), projectRoot, merge)
         == merge(BaseConfig(o.(viteConfig := None), projectRoot), u)
  {
  }

  /** Without a `viteConfig` the result is the base configuration itself,
      for any merge under which `{}` changes nothing (as `mergeConfig`
      does). */
  lemma AbsentUserConfigKeepsBase(o: Options, projectRoot: string, merge: (ViteConfig, UserConfig) -> ViteConfig)
    requires o.viteConfig.None?
    requires forall c :: merge(c, UserConfig([])) == c
    ensures CreateViteConfig(o, projectRoot, merge) == BaseConfig(o, projectRoot)
  {
  }

  /** The `vue` import resolves to the Vue 2 package exactly for Vue 2
      builds, and `vue-demi` to the build of the matching version. */
  lemma VueAliases(o: Options, projectRoot: string)
    ensures var alias := BaseConfig(o, projectRoot).resolve.alias;
      && "vue" in alias && "vue-demi" in alias
      && (alias["vue"] == "vue2" <==> o.vueVersion == V2)
      && (alias["vue"] == "vue" <==> o.vueVersion == V3)
      && EndsWith(alias["vue-demi"], VueDemiEntry(o.vueVersion))
  {
    var r := ResolveOptions(o);
    assert BaseConfig(o, projectRoot).resolve == ResolveSectionFor(r, projectRoot);
    VueDemiAlias(r, projectRoot);
  }

  /** The `vue-demi` alias ends in the build of the chosen runtime. */
  lemma VueDemiAlias(r: Resolved, projectRoot: string)
    ensures EndsWith(ResolveSectionFor(r, projectRoot).alias["vue-demi"], VueDemiEntry(r.vueVersion))
  {
    var tail := VueDemiEntry(r.vueVersion);
    var p := Join(projectRoot, VueDemiDir + tail);
    assert p == (projectRoot + "/" + VueDemiDir) + tail;
    assert p[|p| - |tail|..] == tail;
  }

  /** Only the ES-module format is named `.mjs`; every format gets one of
      the three names, and an unknown format falls back to `index.js`. */
  lemma FileNames(lib: Lib, format: string)
    ensures EndsWith(lib.FileName(format), ".mjs") <==> format == "es"
    ensures lib.FileName(format) in {"index.mjs", "index.js", "index.umd.js"}
    ensures format !in {"es", "cjs", "umd"} ==> lib.FileName(format) == "index.js"
  {
    var n := lib.FileName(format);
    if format != "es" {
      assert n == "index.js" || n == "index.umd.js";
      assert n[|n| - 4..] != ".mjs";
    }
  }

  /** The declaration plugin is present exactly when `dts` is on; the Vue
      plugin of the requested version always comes first; no `false` entry
      survives. */
  lemma Plugins(o: Options, projectRoot: string)
    ensures var ps := BaseConfig(o, projectRoot).plugins;
      && ps != []
      && ps[0] == VuePlugin(o.vueVersion, CreateVuePluginOptions(o.vueVersion))
      && ((exists p :: p in ps && p.DtsPlugin?) <==> o.dts != Some(false))
      && |ps| == (if o.dts == Some(false) then 1 else 2)
  {
    var r := ResolveOptions(o);
    var v := r.vueVersion;
    var second: Option<Plugin> := if r.dts then Some(DtsPlugin(DtsOptionsFor(r.outDir, projectRoot))) else None;
    var xs := [Some(VuePlugin(v, CreateVuePluginOptions(v))), second];
    assert xs[1..] == [second];
    var tail: seq<Option<Plugin>> := [second];
    assert |tail[1..]| == 0;
    assert Compact(xs) == [VuePlugin(v, CreateVuePluginOptions(v))] + Compact(tail);
    assert Compact(tail) == (if second.Some? then [second.value] else []);
  }

  /** `beforeWriteFile` flattens: the new path is `<outDir>/types/<file name>`,
      its directory is the plugin's output directory, its file name is the
      original one, the content is untouched, and running the hook again
      changes nothing. */
  lemma {:induction false} BeforeWriteFileFlattens(d: DtsOptions, filePath: string, content: string)
    ensures var (path, text) := d.BeforeWriteFile(filePath, content);
      && text == content
      && Dirname(path) == d.OutputDir()
      && Basename(path) == Basename(filePath)
      && d.BeforeWriteFile(path, text) == (path, text)
  {
    var path := d.BeforeWriteFile(filePath, content).0;
    assert path == Join(d.OutputDir(), Basename(filePath));
    JoinSplits(d.OutputDir(), Basename(filePath));
  }

  /** The `css` option is only logged: it never changes the configuration. */
  lemma CssOnlyLogged(o: Options, a: Option<bool>, b: Option<bool>, projectRoot: string,
                      merge: (ViteConfig, UserConfig) -> ViteConfig)
    ensures CreateViteConfig(o.(css := a), projectRoot, merge) == CreateViteConfig(o.(css := b), projectRoot, merge)
  {
    assert BaseConfig(o.(css := a), projectRoot) == BaseConfig(o.(css := b), projectRoot);
  }

  /** Settings that no option changes. */
  lemma FixedSettings(o: Options, projectRoot: string)
    ensures var c := BaseConfig(o, projectRoot);
      && c.build.external == ["vue", "vue-demi"]
      && !c.build.minify && !c.build.cssCodeSplit
      && c.build.lib.entry == Join(o.root, "src/index.ts")
      && c.postcssPlugins == []
      && c.root == o.root && c.mode == o.mode
  {
    var r := ResolveOptions(o);
    assert r.root == o.root;
    assert BaseConfig(o, projectRoot).build == BuildSectionFor(r);
  }
}
