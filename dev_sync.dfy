/** Synchronised development of several Vue versions side by side
    (src/commands/dev.ts, `setupSyncDevelopment` and `createSyncIndexFile`):
    one playground per version under `.dev/playground-vue<version>`, each
    with the table's dependencies and a fixed dev-server port, a control
    script linking to the other versions, and an idempotent injection of
    that script into `index.html`. The servers themselves are started by
    one opaque action. */
module DevSync {
  import opened Wrappers
  import opened Strings
  import opened Paths
  import opened DevPlayground

  /** The versions used when `vueVersions` is not given. */
  const DefaultVersions: seq<string> := ["2", "3"]

  /** The `portMap` of `setupSyncDevelopment`; `None` is `undefined`. */
  function PortFor(version: string): (r: Option<nat>)
    ensures r.Some? <==> PlaygroundConfigFor(version).Some?
  {
    if version == "2" then Some(5173)
    else if version == "2.7" then Some(5174)
    else if version == "3" then Some(5175)
    else None
  }

  const DevScriptPrefix := "vite --port "

  /** `vite --port ${port}`. */
  function DevScript(port: nat): string {
    DevScriptPrefix + DecimalString(port)
  }

  /** `pkg.scripts = pkg.scripts || {}; pkg.scripts.dev = ...`: the other
      scripts are kept. */
  function WithDevScript(pkg: Package, port: nat): (r: Package)
    ensures r.dependencies == pkg.dependencies && r.devDependencies == pkg.devDependencies
    ensures r.scripts.Some? && r.scripts.value.Keys == pkg.scripts.GetOr(map[]).Keys + {"dev"}
    ensures r.scripts.value["dev"] == DevScript(port)
    ensures forall k :: k in pkg.scripts.GetOr(map[]) && k != "dev" ==> r.scripts.value[k] == pkg.scripts.value[k]
  {
    pkg.(scripts := Some(pkg.scripts.GetOr(map[])["dev" := DevScript(port)]))
  }

  const SyncScriptName := "sync-control.js"

  /** What replaces `</head>` in `index.html`. */
  const SyncScriptTag := "  <script src=\"/" + SyncScriptName + "\"></script>\n  </head>"

  /** The guard of `createSyncIndexFile`: the tag is put before the first
      `</head>` only when the page does not mention the script yet. */
  function InjectSyncScript(html: string): string {
    if Contains(html, SyncScriptName) then html else ReplaceFirst(html, "</head>", SyncScriptTag)
  }

  /** The links of the control panel: every listed version other than the
      current one, with its port, in list order. */
  function OtherVersionLinks(current: string, all: seq<string>): (r: seq<(string, Option<nat>)>)
    ensures forall v, p :: (v, p) in r <==> v in all && v != current && p == PortFor(v)
  {
    if all == [] then []
    else
      var rest := OtherVersionLinks(current, all[..|all| - 1]);
      var v := all[|all| - 1];
      assert all == all[..|all| - 1] + [v];
      if v == current then rest else rest + [(v, PortFor(v))]
  }

  /** `path.join(cwd, '.dev', 'playground-vue' + version)`. */
  function VersionDir(cwd: string, version: string): string {
    Join(Join(cwd, ".dev"), "playground-vue" + version)
  }

  /** What a sync run depends on: the working and template directories,
      `fs.existsSync` (`present`), the `package.json` and `index.html`
      found in a playground after the template was copied (`copied`,
      `page`; `None` when the copy or the read throws), whether the n-th installation attempt in a directory
      succeeds (`installs`), whether `linkComponent` succeeds for a
      directory and a component (`links`; it throws for a component missing
      from `packages`, an unreadable `package.json` or a failed
      installation), the component to link and the versions. */
  datatype SyncContext = SyncContext(
    cwd: string,
    templateDir: string,
    present: string -> bool,
    copied: string -> Option<Package>,
    page: string -> Option<string>,
    installs: (string, nat) -> bool,
    links: (string, string) -> bool,
    component: Option<string>,
    versions: seq<string>)

  /** `component ? component : ''`. */
  function LinkTarget(component: Option<string>): string {
    if component.Some? then component.value else ""
  }

  /** The `package.json` written for a supported version. */
  function VersionPackage(ctx: SyncContext, version: string): Package
    requires PlaygroundConfigFor(version).Some?
    requires ctx.copied(Join(VersionDir(ctx.cwd, version), "package.json")).Some?
  {
    var pkgPath := Join(VersionDir(ctx.cwd, version), "package.json");
    WithDevScript(WithPlaygroundDeps(ctx.copied(pkgPath).value, PlaygroundConfigFor(version).value), PortFor(version).value)
  }

  /** `installDependencies` when `node_modules` is missing: on failure
      `node_modules` is removed and the installation tried once more; a
      second failure propagates. */
  function InstallSteps(ctx: SyncContext, dir: string): Outcome {
    var nodeModules := Join(dir, "node_modules");
    if ctx.present(nodeModules) then Outcome([], None)
    else if ctx.installs(dir, 0) then Outcome([Install(dir)], None)
    else if ctx.installs(dir, 1) then Outcome([Install(dir), Remove(nodeModules), Install(dir)], None)
    else Outcome([Install(dir), Remove(nodeModules), Install(dir)], Some("Installation failed in " + dir))
  }

  /** `createSyncIndexFile` for one version; a missing `index.html` throws
      after `sync-control.js` was written. */
  function SyncIndexSteps(ctx: SyncContext, dir: string, version: string): Outcome {
    var public := Join(dir, "public");
    var indexPath := Join(dir, "index.html");
    var script := [EnsureDir(public), WriteScript(Join(public, SyncScriptName), version, OtherVersionLinks(version, ctx.versions))];
    var html := ctx.page(indexPath);
    if html.None? then Outcome(script, Some("Cannot read " + indexPath))
    else Outcome(script + (if Contains(html.value, SyncScriptName) then [] else [WriteText(indexPath, InjectSyncScript(html.value))]),
                 None)
  }

  /** One iteration of the loop of `setupSyncDevelopment`. Unlike
      `setupPlayground`, the directory is created before the version is
      checked. */
  function SyncVersion(ctx: SyncContext, version: string): Outcome {
    var dir := VersionDir(ctx.cwd, version);
    var config := PlaygroundConfigFor(version);
    if config.None? then Outcome([EnsureDir(dir)], Some("Unsupported Vue version: " + version))
    else
      var templatePath := Join(ctx.templateDir, config.value.template);
      if !ctx.present(templatePath) then
        Outcome([EnsureDir(dir)], Some("Template directory not found: " + templatePath))
      else if ctx.copied(Join(dir, "package.json")).None? then
        Outcome([EnsureDir(dir), CopyDir(templatePath, dir)], Some("Cannot read " + Join(dir, "package.json")))
      else
        var prefix := [EnsureDir(dir)] + [CopyDir(templatePath, dir),
                       WriteJson(Join(dir, "package.json"), VersionPackage(ctx, version))];
        var install := InstallSteps(ctx, dir);
        if install.error.Some? then Outcome(prefix + install.actions, install.error)
        else if !ctx.links(dir, LinkTarget(ctx.component)) then
          Outcome(prefix + install.actions + [Link(dir, LinkTarget(ctx.component))],
                  Some("Linking failed in " + dir))
        else
          var index := SyncIndexSteps(ctx, dir, version);
          Outcome(prefix + install.actions + [Link(dir, LinkTarget(ctx.component))] + index.actions, index.error)
  }

  /** A loop over `vs` that runs `step` on each element in turn and stops
      at the first one that throws. */
  function Run(step: string -> Outcome, vs: seq<string>): (o: Outcome)
    decreases |vs|
  {
    if vs == [] then Outcome([], None)
    else
      var before := Run(step, vs[..|vs| - 1]);
      if before.error.Some? then before
      else Outcome(before.actions + step(vs[|vs| - 1]).actions, step(vs[|vs| - 1]).error)
  }

  /** The loop body of `setupSyncDevelopment` as a step of `Run`. */
  function SyncStep(ctx: SyncContext): string -> Outcome {
    version => SyncVersion(ctx, version)
  }

  /** `setupSyncDevelopment`: every version, then the servers. */
  function SyncDevelopment(ctx: SyncContext): Outcome {
    var run := Run(SyncStep(ctx), ctx.versions);
    if run.error.Some? then run else Outcome(run.actions + [StartServers(ctx.versions)], None)
  }

  /** The body of the loop of `setupSyncDevelopment` for one version:
      the package object is updated step by step before it is written. */
  method SyncOneVersion(ctx: SyncContext, version: string) returns (step: Outcome)
    ensures step == SyncVersion(ctx, version)
  {
    var dir := VersionDir(ctx.cwd, version);
    var actions := [EnsureDir(dir)];
    var config := PlaygroundConfigFor(version);
    if config.None? {
      return Outcome(actions, Some("Unsupported Vue version: " + version));
    }
    var templatePath := Join(ctx.templateDir, config.value.template);
    if !ctx.present(templatePath) {
      return Outcome(actions, Some("Template directory not found: " + templatePath));
    }
    var pkgPath := Join(dir, "package.json");
    var read := ctx.copied(pkgPath);
    if read.None? {
      return Outcome(actions + [CopyDir(templatePath, dir)], Some("Cannot read " + pkgPath));
    }
    var pkg := WithPlaygroundDeps(read.value, config.value);
    pkg := WithDevScript(pkg, PortFor(version).value);
    assert pkg == VersionPackage(ctx, version);
    actions := actions + [CopyDir(templatePath, dir), WriteJson(pkgPath, pkg)];
    var prefix := actions;
    var install := InstallSteps(ctx, dir);
    actions := actions + install.actions;
    if install.error.Some? {
      return Outcome(actions, install.error);
    }
    actions := actions + [Link(dir, LinkTarget(ctx.component))];
    if !ctx.links(dir, LinkTarget(ctx.component)) {
      return Outcome(actions, Some("Linking failed in " + dir));
    }
    var index := SyncIndexSteps(ctx, dir, version);
    actions := actions + index.actions;
    assert actions == prefix + install.actions + [Link(dir, LinkTarget(ctx.component))] + index.actions;
    step := Outcome(actions, index.error);
  }

  /** The loop of `setupSyncDevelopment`, one version after the other; a
      throw ends it, and the servers start only after every version is
      set up. */
  method SetupSyncDevelopment(ctx: SyncContext) returns (o: Outcome)
    ensures o == SyncDevelopment(ctx)
  {
    var actions: seq<Action> := [];
    var i := 0;
    while i < |ctx.versions|
      invariant 0 <= i <= |ctx.versions|
      invariant Run(SyncStep(ctx), ctx.versions[..i]) == Outcome(actions, None)
    {
      var step := SyncOneVersion(ctx, ctx.versions[i]);
      RunExtends(SyncStep(ctx), ctx.versions, i);
      actions := actions + step.actions;
      if step.error.Some? {
        RunFailureSticks(SyncStep(ctx), ctx.versions, i + 1);
        return Outcome(actions, step.error);
      }
      i := i + 1;
    }
    assert ctx.versions[..i] == ctx.versions;
    o := Outcome(actions + [StartServers(ctx.versions)], None);
  }

  /** One more element extends a run that has not failed. */
  lemma RunExtends(step: string -> Outcome, vs: seq<string>, i: nat)
    requires i < |vs| && Run(step, vs[..i]).error.None?
    ensures Run(step, vs[..i + 1]) == Outcome(Run(step, vs[..i]).actions + step(vs[i]).actions, step(vs[i]).error)
  {
    assert vs[..i + 1][..i] == vs[..i];
  }

  /** Once an element has failed, the later ones change nothing. */
  lemma {:induction false} RunFailureSticks(step: string -> Outcome, vs: seq<string>, j: nat)
    requires j <= |vs| && Run(step, vs[..j]).error.Some?
    ensures Run(step, vs) == Run(step, vs[..j])
    decreases |vs|
  {
    if j == |vs| {
      assert vs[..j] == vs;
    } else {
      var init := vs[..|vs| - 1];
      assert init[..j] == vs[..j];
      RunFailureSticks(step, init, j);
    }
  }

  /** A run gets through every element exactly when each step succeeds on
      its own. */
  lemma {:induction false} RunSucceedsIff(step: string -> Outcome, vs: seq<string>)
    ensures Run(step, vs).error.None? <==> forall k :: 0 <= k < |vs| ==> step(vs[k]).error.None?
    decreases |vs|
  {
    if vs != [] {
      var init := vs[..|vs| - 1];
      RunSucceedsIff(step, init);
      assert forall k :: 0 <= k < |init| ==> init[k] == vs[k];
    }
  }

  /** A run that succeeds performs every step's actions. */
  lemma {:induction false} RunKeepsSteps(step: string -> Outcome, vs: seq<string>, k: nat, a: Action)
    requires Run(step, vs).error.None? && k < |vs| && a in step(vs[k]).actions
    ensures a in Run(step, vs).actions
    decreases |vs|
  {
    var init := vs[..|vs| - 1];
    if k < |vs| - 1 {
      assert init[k] == vs[k];
      RunKeepsSteps(step, init, k, a);
    }
  }

  // ---------------------------------------------------------------------
  // Properties

  /** Each version has its own port, and the dev script names it: reading
      the number back after `vite --port ` gives the port. */
  lemma PortTable(v: string, w: string)
    requires PortFor(v).Some? && PortFor(w).Some?
    ensures PortFor(v) == PortFor(w) <==> v == w
    ensures 5173 <= PortFor(v).value <= 5175
    ensures var s := DevScript(PortFor(v).value);
      StartsWith(s, DevScriptPrefix) && ParseInt(s[|DevScriptPrefix|..]) == Some(PortFor(v).value)
  {
    var s := DevScript(PortFor(v).value);
    assert s[|DevScriptPrefix|..] == DecimalString(PortFor(v).value);
    ParseIntOfDecimalString(PortFor(v).value);
  }

  lemma SyncScriptTagMentionsScript()
    ensures Contains(SyncScriptTag, SyncScriptName)
  {
    var front := "  <script src=\"/";
    var back := "\"></script>\n  </head>";
    assert SyncScriptTag == front + (SyncScriptName + back);
    assert StartsWith(SyncScriptName + back, SyncScriptName);
    assert Contains(SyncScriptName + back, SyncScriptName);
    ContainsAppendLeft(front, SyncScriptName + back, SyncScriptName);
  }

  /** A page with a `</head>` mentions the script after the injection; a
      page without one is left as it is. */
  lemma InjectionAddsScript(html: string)
    ensures Contains(html, "</head>") ==> Contains(InjectSyncScript(html), SyncScriptName)
    ensures !Contains(html, "</head>") ==> InjectSyncScript(html) == html
  {
    if !Contains(html, SyncScriptName) {
      if Contains(html, "</head>") {
        SyncScriptTagMentionsScript();
        ReplaceFirstInserts(html, "</head>", SyncScriptTag, SyncScriptName);
      } else {
        ReplaceFirstWithoutOccurrence(html, "</head>", SyncScriptTag);
      }
    }
  }

  /** Running the setup twice injects the script once. */
  lemma InjectionIdempotent(html: string)
    ensures InjectSyncScript(InjectSyncScript(html)) == InjectSyncScript(html)
  {
    InjectionAddsScript(html);
  }

  /** An unsupported version anywhere in the list makes the command fail
      before the servers are started; the versions after it are not
      touched. */
  lemma UnsupportedVersionStopsSync(ctx: SyncContext, k: nat)
    requires k < |ctx.versions| && PlaygroundConfigFor(ctx.versions[k]).None?
    ensures SyncDevelopment(ctx).error.Some?
    ensures SyncDevelopment(ctx) == Run(SyncStep(ctx), ctx.versions[..k + 1])
  {
    var vs := ctx.versions;
    assert SyncStep(ctx)(vs[k]).error.Some?;
    RunSucceedsIff(SyncStep(ctx), vs);
    RunSucceedsIff(SyncStep(ctx), vs[..k + 1]);
    assert vs[..k + 1][k] == vs[k];
    RunFailureSticks(SyncStep(ctx), vs, k + 1);
  }

  /** A version that was set up wrote its `package.json`. */
  lemma VersionWritesPackage(ctx: SyncContext, version: string)
    requires SyncVersion(ctx, version).error.None?
    ensures PlaygroundConfigFor(version).Some?
    ensures ctx.copied(Join(VersionDir(ctx.cwd, version), "package.json")).Some?
    ensures WriteJson(Join(VersionDir(ctx.cwd, version), "package.json"), VersionPackage(ctx, version))
            in SyncVersion(ctx, version).actions
  {
    assert SyncVersion(ctx, version).actions[2]
        == WriteJson(Join(VersionDir(ctx.cwd, version), "package.json"), VersionPackage(ctx, version));
  }

  /** For a supported version whose template exists, the version is set
      up exactly when its copied `package.json` can be read, installing
      succeeds, linking succeeds and its `index.html` can be read; a
      failed link is the last action, and an unreadable page throws only
      after `sync-control.js` was written. */
  lemma SyncVersionFailures(ctx: SyncContext, version: string)
    requires PlaygroundConfigFor(version).Some?
    requires ctx.present(Join(ctx.templateDir, PlaygroundConfigFor(version).value.template))
    ensures var dir := VersionDir(ctx.cwd, version);
      var o := SyncVersion(ctx, version);
      && (o.error.None? <==>
            ctx.copied(Join(dir, "package.json")).Some? && InstallSteps(ctx, dir).error.None?
            && ctx.links(dir, LinkTarget(ctx.component)) && ctx.page(Join(dir, "index.html")).Some?)
      && (ctx.copied(Join(dir, "package.json")).Some? && InstallSteps(ctx, dir).error.None?
          && !ctx.links(dir, LinkTarget(ctx.component)) ==>
            o.actions[|o.actions| - 1] == Link(dir, LinkTarget(ctx.component)))
      && (ctx.copied(Join(dir, "package.json")).Some? && InstallSteps(ctx, dir).error.None?
          && ctx.links(dir, LinkTarget(ctx.component)) && ctx.page(Join(dir, "index.html")).None? ==>
            WriteScript(Join(Join(dir, "public"), SyncScriptName), version, OtherVersionLinks(version, ctx.versions))
            in o.actions)
  {
    var dir := VersionDir(ctx.cwd, version);
    var o := SyncVersion(ctx, version);
    if ctx.copied(Join(dir, "package.json")).Some? && InstallSteps(ctx, dir).error.None?
       && ctx.links(dir, LinkTarget(ctx.component)) {
      var index := SyncIndexSteps(ctx, dir, version);
      assert index.actions[1] == WriteScript(Join(Join(dir, "public"), SyncScriptName), version, OtherVersionLinks(version, ctx.versions));
      assert index.actions[1] in o.actions[|o.actions| - |index.actions|..];
    }
  }

  /** When the command gets to starting the servers, every version is
      supported and its playground's `package.json` holds the table's
      dependencies (winning over the template's) and a dev script on the
      version's own port; the servers start last, with all versions. */
  lemma SyncSucceeded(ctx: SyncContext)
    requires SyncDevelopment(ctx).error.None?
    ensures var o := SyncDevelopment(ctx);
      && o.actions != [] && o.actions[|o.actions| - 1] == StartServers(ctx.versions)
      && forall k :: 0 <= k < |ctx.versions| ==>
        && PlaygroundConfigFor(ctx.versions[k]).Some?
        && ctx.copied(Join(VersionDir(ctx.cwd, ctx.versions[k]), "package.json")).Some?
        && var pkg := VersionPackage(ctx, ctx.versions[k]);
        && WriteJson(Join(VersionDir(ctx.cwd, ctx.versions[k]), "package.json"), pkg) in o.actions
        && pkg.scripts.value["dev"] == DevScript(PortFor(ctx.versions[k]).value)
        && (forall d :: d in PlaygroundConfigFor(ctx.versions[k]).value.dependencies ==>
              pkg.dependencies.value[d] == PlaygroundConfigFor(ctx.versions[k]).value.dependencies[d])
  {
    var vs := ctx.versions;
    RunSucceedsIff(SyncStep(ctx), vs);
    forall k | 0 <= k < |vs|
      ensures PlaygroundConfigFor(vs[k]).Some?
      ensures ctx.copied(Join(VersionDir(ctx.cwd, vs[k]), "package.json")).Some?
      ensures WriteJson(Join(VersionDir(ctx.cwd, vs[k]), "package.json"), VersionPackage(ctx, vs[k]))
              in SyncDevelopment(ctx).actions
    {
      assert SyncStep(ctx)(vs[k]).error.None?;
      VersionWritesPackage(ctx, vs[k]);
      RunKeepsSteps(SyncStep(ctx), vs, k, WriteJson(Join(VersionDir(ctx.cwd, vs[k]), "package.json"), VersionPackage(ctx, vs[k])));
    }
  }
}
