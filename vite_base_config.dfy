/** The shared build configuration of a generated project
    (src/generators/templates/project/vite.base.config.ts): the shared
    plugins' version flag, the output directory per runtime, the library
    file names, where the stylesheet goes, and where test snapshots are
    kept. Which runtime `vue-demi` resolves to (`isVue2`) and the config
    file's directory (`__dirname`) are parameters. */
module ViteBase {
  import opened Strings
  import opened Paths

  /** The declaration plugin's settings in `getSharedPlugins`. */
  datatype DtsSettings = DtsSettings(
    root: string,
    skipLibCheck: bool,
    includes: seq<string>,
    skipDiagnostics: bool,
    noEmitOnError: bool)

  /** The shared plugins: the atomic-CSS plugin (opaque) and the
      declaration plugin. */
  datatype SharedPlugin = Unocss | Dts(settings: DtsSettings)

  /** `getSharedPlugins(vueVersion)`. */
  function GetSharedPlugins(vueVersion: string): (r: seq<SharedPlugin>)
    ensures |r| == 2 && r[0] == Unocss && r[1].Dts?
    ensures r[1].settings.skipDiagnostics == r[1].settings.noEmitOnError == StartsWith(vueVersion, "v2")
  {
    var isV2 := StartsWith(vueVersion, "v2");
    [Unocss, Dts(DtsSettings("..", true, ["src/**"], isV2, isV2))]
  }

  const OutputName := "index"

  /** `format => `${outputName}.${format}.js``. */
  function LibFileName(format: string): string {
    OutputName + "." + format + ".js"
  }

  /** The runtime's directory under `dist` and the assets. */
  function VersionTag(isVue2: bool): string {
    if isVue2 then "v2" else "v3"
  }

  /** `assetFileNames`: the stylesheet goes to the runtime's directory,
      every other asset keeps its plain name pattern. */
  function AssetFileName(assetName: string, isVue2: bool): string {
    if assetName == "style.css" then VersionTag(isVue2) + "/[name][extname]" else "[name][extname]"
  }

  /** The `build` section of `baseBuildConfig` that the rules above feed. */
  datatype BaseBuild = BaseBuild(
    outDir: string,
    emptyOutDir: bool,
    entry: string,
    formats: seq<string>,
    name: string,
    external: seq<string>)

  const CompositionApiMjs := "@vue/composition-api/dist/vue-composition-api.mjs"

  /** `baseBuildConfig.build` for the config file's directory `dir`. */
  function BaseBuildConfig(dir: string, isVue2: bool): (b: BaseBuild)
    ensures b.outDir == Join(Join(dir, "dist"), VersionTag(isVue2))
    ensures !b.emptyOutDir
    ensures b.formats == ["es", "cjs", "umd"]
  {
    BaseBuild(Join(Join(dir, "dist"), VersionTag(isVue2)), false, Join(Join(dir, "src"), "index.ts"),
              ["es", "cjs", "umd"], "VueDemiTemplateComponent",
              ["vue", "@vue/composition-api", CompositionApiMjs])
  }

  /** `resolveSnapshotPath(testPath, snapExtension)`. */
  function ResolveSnapshotPath(testPath: string, snapExtension: string, isVue2: bool): string {
    Join(Join(Dirname(testPath), if isVue2 then "__snapshots__" else "__snapshotsV3__"),
         Basename(testPath) + snapExtension)
  }

  // ---------------------------------------------------------------------
  // Properties

  /** `'v2'` and `'v2.7'` build as Vue 2, `'v3'` does not. */
  lemma SharedPluginsVersionFlag()
    ensures GetSharedPlugins("v2")[1].settings.skipDiagnostics
    ensures GetSharedPlugins("v2.7")[1].settings.noEmitOnError
    ensures !GetSharedPlugins("v3")[1].settings.skipDiagnostics
  {
    assert StartsWith("v2.7", "v2") by { assert "v2.7"[..2] == "v2"; }
    assert !StartsWith("v3", "v2") by { assert "v3"[1] != "v2"[1]; }
  }

  /** Every library file is `index.<format>.js`, and different formats
      never share a file. */
  lemma LibFileNames(f: string, g: string)
    ensures StartsWith(LibFileName(f), "index.") && EndsWith(LibFileName(f), ".js")
    ensures LibFileName(f) == LibFileName(g) <==> f == g
  {
    var a := LibFileName(f);
    var b := LibFileName(g);
    if a == b {
      assert |f| == |g|;
      assert forall i :: 0 <= i < |f| ==> f[i] == a[6 + i] && g[i] == b[6 + i];
    }
  }

  /** The Vue 2 and Vue 3 builds put their stylesheets in different
      directories and every other asset in the same place. */
  lemma AssetsPerRuntime(assetName: string)
    ensures assetName == "style.css" <==> AssetFileName(assetName, true) != AssetFileName(assetName, false)
    ensures assetName == "style.css" ==>
      (AssetFileName(assetName, true) == "v2/[name][extname]" && AssetFileName(assetName, false) == "v3/[name][extname]")
  {
    if assetName == "style.css" {
      assert AssetFileName(assetName, true)[1] != AssetFileName(assetName, false)[1];
    }
  }

  /** The snapshot of a test lies in the runtime's snapshot directory next
      to the test file and is named after it. */
  lemma SnapshotBesideTest(testPath: string, snapExtension: string, isVue2: bool)
    requires '/' !in snapExtension
    ensures var snap := ResolveSnapshotPath(testPath, snapExtension, isVue2);
      var snapDir := if isVue2 then "__snapshots__" else "__snapshotsV3__";
      && Dirname(snap) == Join(Dirname(testPath), snapDir)
      && Basename(snap) == Basename(testPath) + snapExtension
      && Basename(Dirname(snap)) == snapDir
      && Dirname(Dirname(snap)) == Dirname(testPath)
  {
    var snapDir := if isVue2 then "__snapshots__" else "__snapshotsV3__";
    var name := Basename(testPath) + snapExtension;
    assert '/' !in name by {
      assert forall i :: 0 <= i < |name| ==> name[i] != '/' by {
        forall i | 0 <= i < |name| ensures name[i] != '/' {
          if i < |Basename(testPath)| {
            assert name[i] == Basename(testPath)[i];
          } else {
            assert name[i] == snapExtension[i - |Basename(testPath)|];
          }
        }
      }
    }
    assert Dirname(testPath) != [];
    JoinSplits(Join(Dirname(testPath), snapDir), name);
    assert '/' !in snapDir;
    JoinSplits(Dirname(testPath), snapDir);
  }

  /** The two runtimes never share a snapshot file. */
  lemma SnapshotsKeptApart(testPath: string, snapExtension: string)
    requires '/' !in snapExtension
    ensures ResolveSnapshotPath(testPath, snapExtension, true) != ResolveSnapshotPath(testPath, snapExtension, false)
  {
    SnapshotBesideTest(testPath, snapExtension, true);
    SnapshotBesideTest(testPath, snapExtension, false);
    assert "__snapshots__" != "__snapshotsV3__" by { assert |"__snapshots__"| != |"__snapshotsV3__"|; }
  }
}
