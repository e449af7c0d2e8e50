/** The playground side of the `dev` command (src/commands/dev.ts): the
    per-version playground table, the merge of its dependencies into the
    copied template's `package.json` (`setupPlayground`), and the choice of
    a component's development directory (`startComponentDev`). File-system
    calls are modelled by what they are asked to do, in order; package
    installation is an opaque action. */
module DevPlayground {
  import opened Wrappers
  import opened Paths

  type Deps = map<string, string>

  /** One entry of `PLAYGROUND_CONFIGS`. */
  datatype PlaygroundConfig = PlaygroundConfig(template: string, dependencies: Deps, devDependencies: Deps)

  /** The parts of a `package.json` the command touches; `None` is an
      absent key. */
  datatype Package = Package(dependencies: Option<Deps>, devDependencies: Option<Deps>, scripts: Option<Deps>)

  /** `PLAYGROUND_CONFIGS[version]`, `None` for an unsupported version. */
  function PlaygroundConfigFor(version: string): (r: Option<PlaygroundConfig>)
    ensures r.Some? <==> version in {"2", "2.7", "3"}
  {
    if version == "2" then
      Some(PlaygroundConfig("vue2-playground",
        map["vue" := "~2.6.14", "vue-demi" := "^0.14.0", "@vue/composition-api" := "^1.7.2"],
        map["vite" := "^4.5.0", "vite-plugin-vue2" := "^2.0.3", "vue-template-compiler" := "~2.6.14",
            "unocss" := "^0.58.0", "vite-plugin-dts" := "^3.6.4"]))
    else if version == "2.7" then
      Some(PlaygroundConfig("vue2.7-playground",
        map["vue" := "^2.7.16", "vue-demi" := "^0.14.0"],
        map["vite" := "^4.5.0", "@vitejs/plugin-vue2" := "^2.3.1", "unocss" := "^0.58.0", "vite-plugin-dts" := "^3.6.4"]))
    else if version == "3" then
      Some(PlaygroundConfig("vue3-playground",
        map["vue" := "^3.5.0", "vue-demi" := "^0.14.0"],
        map["vite" := "^4.5.0", "@vitejs/plugin-vue" := "^4.5.0", "unocss" := "^0.58.0", "vite-plugin-dts" := "^3.6.4"]))
    else None
  }

  /** `{ ...(existing || {}), ...extra }`: keys of both, `extra` wins. */
  function MergeDeps(existing: Option<Deps>, extra: Deps): (r: Deps)
    ensures r.Keys == existing.GetOr(map[]).Keys + extra.Keys
    ensures forall k :: k in extra ==> r[k] == extra[k]
    ensures forall k :: k in existing.GetOr(map[]) && k !in extra ==> r[k] == existing.GetOr(map[])[k]
  {
    existing.GetOr(map[]) + extra
  }

  /** The package after the table's dependencies are merged in. */
  function WithPlaygroundDeps(pkg: Package, config: PlaygroundConfig): Package {
    pkg.(dependencies := Some(MergeDeps(pkg.dependencies, config.dependencies)),
         devDependencies := Some(MergeDeps(pkg.devDependencies, config.devDependencies)))
  }

  /** What the `dev` command asks of the file system, the package manager
      and the dev servers. `WriteScript` stands for the generated
      `sync-control.js`, reduced to its version label and its links (a
      version and its port, `None` where the port table has none). */
  datatype Action =
    | EnsureDir(dir: string)
    | CopyDir(from: string, to: string)
    | WriteJson(path: string, pkg: Package)
    | Remove(path: string)
    | Install(dir: string)
    | Link(dir: string, component: string)
    | WriteScript(path: string, version: string, links: seq<(string, Option<nat>)>)
    | WriteText(path: string, text: string)
    | StartServers(versions: seq<string>)

  /** The actions performed and, when one throws, the error. */
  datatype Outcome = Outcome(actions: seq<Action>, error: Option<string>)

  /** `setupPlayground()`: `present` answers `fs.existsSync`, `copied` is the
      `package.json` read back after the template was copied (`None` when
      the copy or the read throws, as when the template has no
      `package.json`), and `installs` says whether the final installation
      succeeds. */
  function SetupPlayground(vueVersion: Option<string>, playgroundDir: string, templateDir: string,
                           present: string -> bool, copied: Option<Package>, installs: bool): Outcome {
    var version := vueVersion.GetOr("3");
    var config := PlaygroundConfigFor(version);
    if config.None? then Outcome([], Some("Unsupported Vue version: " + version))
    else
      var templatePath := Join(templateDir, config.value.template);
      if !present(templatePath) then
        Outcome([EnsureDir(playgroundDir)], Some("Template directory not found: " + templatePath))
      else if copied.None? then
        Outcome([EnsureDir(playgroundDir), CopyDir(templatePath, playgroundDir)],
                Some("Cannot read " + Join(playgroundDir, "package.json")))
      else
        var nodeModules := Join(playgroundDir, "node_modules");
        Outcome([EnsureDir(playgroundDir), CopyDir(templatePath, playgroundDir),
                 WriteJson(Join(playgroundDir, "package.json"), WithPlaygroundDeps(copied.value, config.value))]
                + (if present(nodeModules) then [Remove(nodeModules)] else [])
                + [Install(playgroundDir)],
                if installs then None else Some("Installation failed in " + playgroundDir))
  }

  /** `startComponentDev`'s choice: `demo`, else `example`, else `dev`;
      when none exists a `demo` directory is created (`true`). `None`: the
      component directory itself is missing, which throws. */
  function DevelopmentDir(cwd: string, component: string, present: string -> bool): Option<(string, bool)> {
    var componentDir := Join(Join(cwd, "packages"), component);
    if !present(componentDir) then None
    else if present(Join(componentDir, "demo")) then Some((Join(componentDir, "demo"), false))
    else if present(Join(componentDir, "example")) then Some((Join(componentDir, "example"), false))
    else if present(Join(componentDir, "dev")) then Some((Join(componentDir, "dev"), false))
    else Some((Join(componentDir, "demo"), true))
  }

  // ---------------------------------------------------------------------
  // Properties

  /** Every supported version pins `vue` and `vue-demi`, the Vue 2.6
      playground alone adds the composition API, and every playground
      builds with Vite 4. */
  lemma ConfigTable(version: string)
    requires PlaygroundConfigFor(version).Some?
    ensures var c := PlaygroundConfigFor(version).value;
      && "vue" in c.dependencies && c.dependencies["vue-demi"] == "^0.14.0"
      && ("@vue/composition-api" in c.dependencies <==> version == "2")
      && c.devDependencies["vite"] == "^4.5.0"
      && c.template == "vue" + version + "-playground"
  {
    if version == "2" {
      assert "vue" + "2" + "-playground" == "vue2-playground";
    } else if version == "2.7" {
      assert "vue" + "2.7" + "-playground" == "vue2.7-playground";
    } else {
      assert "vue" + "3" + "-playground" == "vue3-playground";
    }
  }

  /** An unsupported version throws before anything is touched. */
  lemma UnsupportedTouchesNothing(vueVersion: Option<string>, playgroundDir: string, templateDir: string,
                                  present: string -> bool, copied: Option<Package>, installs: bool)
    requires vueVersion.Some? && vueVersion.value !in {"2", "2.7", "3"}
    ensures var o := SetupPlayground(vueVersion, playgroundDir, templateDir, present, copied, installs);
      o.actions == [] && o.error.Some?
  {
  }

  /** On success the directory is created, the version's template copied
      into it, and the written `package.json` is the copied one with the
      table's `dependencies` and `devDependencies` merged in (so every
      template dependency the table does not name keeps its version);
      `node_modules` is removed exactly when it existed, and installing
      comes last. Success needs a readable copied `package.json` and a
      successful installation. */
  lemma SetupWritesMergedDeps(vueVersion: Option<string>, playgroundDir: string, templateDir: string,
                              present: string -> bool, copied: Option<Package>, installs: bool)
    requires SetupPlayground(vueVersion, playgroundDir, templateDir, present, copied, installs).error.None?
    ensures copied.Some? && installs
    ensures var o := SetupPlayground(vueVersion, playgroundDir, templateDir, present, copied, installs);
      var config := PlaygroundConfigFor(vueVersion.GetOr("3")).value;
      && |o.actions| >= 4
      && o.actions[0] == EnsureDir(playgroundDir)
      && o.actions[1] == CopyDir(Join(templateDir, config.template), playgroundDir)
      && o.actions[2] == WriteJson(Join(playgroundDir, "package.json"), WithPlaygroundDeps(copied.value, config))
      && (Remove(Join(playgroundDir, "node_modules")) in o.actions <==> present(Join(playgroundDir, "node_modules")))
      && o.actions[|o.actions| - 1] == Install(playgroundDir)
  {
    var o := SetupPlayground(vueVersion, playgroundDir, templateDir, present, copied, installs);
    var nm := Join(playgroundDir, "node_modules");
    if !present(nm) {
      assert |o.actions| == 4 && o.actions[3] == Install(playgroundDir);
      assert forall i :: 0 <= i < 4 ==> !o.actions[i].Remove?;
    }
  }

  /** The merged package keeps every key of the copied one's two maps,
      adds the table's, and lets the table's versions win. */
  lemma MergedPackage(pkg: Package, config: PlaygroundConfig)
    ensures var m := WithPlaygroundDeps(pkg, config);
      && m.scripts == pkg.scripts
      && m.dependencies.value.Keys == pkg.dependencies.GetOr(map[]).Keys + config.dependencies.Keys
      && m.devDependencies.value.Keys == pkg.devDependencies.GetOr(map[]).Keys + config.devDependencies.Keys
      && (forall k :: k in config.dependencies ==> m.dependencies.value[k] == config.dependencies[k])
      && (forall k :: k in config.devDependencies ==> m.devDependencies.value[k] == config.devDependencies[k])
      && (forall k :: k in pkg.dependencies.GetOr(map[]) && k !in config.dependencies ==>
            m.dependencies.value[k] == pkg.dependencies.GetOr(map[])[k])
      && (forall k :: k in pkg.devDependencies.GetOr(map[]) && k !in config.devDependencies ==>
            m.devDependencies.value[k] == pkg.devDependencies.GetOr(map[])[k])
  {
  }

  /** For a supported version whose template exists: an unreadable copied
      `package.json` throws right after the copy, before anything is
      written, and a failing installation throws as the last action. */
  lemma SetupFailures(vueVersion: Option<string>, playgroundDir: string, templateDir: string,
                      present: string -> bool, copied: Option<Package>, installs: bool)
    requires PlaygroundConfigFor(vueVersion.GetOr("3")).Some?
    requires present(Join(templateDir, PlaygroundConfigFor(vueVersion.GetOr("3")).value.template))
    ensures var o := SetupPlayground(vueVersion, playgroundDir, templateDir, present, copied, installs);
      && (o.error.None? <==> copied.Some? && installs)
      && (copied.None? ==> o.actions == [EnsureDir(playgroundDir),
                                         CopyDir(Join(templateDir, PlaygroundConfigFor(vueVersion.GetOr("3")).value.template), playgroundDir)])
      && (copied.Some? ==> o.actions[|o.actions| - 1] == Install(playgroundDir))
  {
  }

  /** Merging is right-biased and repeatable: merging the same table twice
      gives what merging it once gives. */
  lemma MergeIdempotent(existing: Option<Deps>, extra: Deps)
    ensures MergeDeps(Some(MergeDeps(existing, extra)), extra) == MergeDeps(existing, extra)
  {
  }

  /** The development directory is the first existing one of `demo`,
      `example`, `dev`, and a new `demo` only when none exists. */
  lemma DevelopmentDirPriority(cwd: string, component: string, present: string -> bool)
    ensures var componentDir := Join(Join(cwd, "packages"), component);
      var r := DevelopmentDir(cwd, component, present);
      && (r.None? <==> !present(componentDir))
      && (r.Some? ==>
        && r.value.0 in {Join(componentDir, "demo"), Join(componentDir, "example"), Join(componentDir, "dev")}
        && (r.value.1 <==> !present(Join(componentDir, "demo")) && !present(Join(componentDir, "example"))
                           && !present(Join(componentDir, "dev")))
        && (r.value.0 == Join(componentDir, "demo") <==> present(Join(componentDir, "demo")) || r.value.1)
        && (present(r.value.0) || r.value.1))
  {
    var componentDir := Join(Join(cwd, "packages"), component);
    DistinctSubdirs(componentDir);
  }

  lemma DistinctSubdirs(dir: string)
    ensures Join(dir, "demo") != Join(dir, "example")
    ensures Join(dir, "demo") != Join(dir, "dev")
    ensures Join(dir, "example") != Join(dir, "dev")
  {
    var n := |dir| + 1;
    assert Join(dir, "demo")[n + 1] == 'e' && Join(dir, "example")[n] == 'e' && Join(dir, "demo")[n] == 'd';
    assert Join(dir, "dev")[n + 2] == 'v' && Join(dir, "demo")[n + 2] == 'm';
    assert Join(dir, "dev")[n] == 'd';
  }
}
