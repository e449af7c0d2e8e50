/** The `build` command (src/commands/build.ts): every discovered component
    is built for Vue 2 and then for Vue 3, gets its two runtime-selecting
    entry shims and a copy of its declarations, strictly one component after
    the other; the first failure aborts the whole run with exit code 1, and
    only a fully successful run reaches the output check.

    The file system is a map from path to content. Loading a configuration
    (jiti), bundling (Vite's `build`), writing a file and merging Vite
    configurations are collaborators passed in as an `Env`; the list of
    configuration files (the result of the glob) is an input. */
module Build {
  import opened Wrappers
  import opened Strings
  import opened Paths
  import opened MaterialTypes
  import Vite

  /** What a file holds: bundler output as opaque text, or one of the two
      shims `generateEntryFiles` writes. */
  datatype Content = Text(text: string) | CjsShim | EsmShim

  type Files = map<string, Content>

  /** The collaborators of a build run.
      - `load(configPath)`: the configuration's default export, `None` when
        loading throws;
      - `configure(options)`: `createViteConfig(options)`, which is
        `Vite.CreateViteConfig` for the tool's installation directory and
        Vite's `mergeConfig` (see `Configures`);
      - `bundle(config, files)`: the files after Vite's build and whether it
        resolved;
      - `canWrite(path)`: whether `fs.writeFile` succeeds;
      - `copy(files, from, to)`: `fs.copy`, which is `CopyTree` (see
        `Copies`). */
  datatype Env = Env(
    load: string -> Option<MaterialConfig>,
    configure: Vite.Options -> Vite.ViteConfig,
    bundle: (Vite.ViteConfig, Files) -> (Files, bool),
    canWrite: string -> bool,
    copy: (Files, string, string) -> (Files, bool))

  /** `env.configure` is `createViteConfig` for installation directory
      `projectRoot` and merge function `merge`. */
  ghost predicate Configures(env: Env, projectRoot: string, merge: (Vite.ViteConfig, Vite.UserConfig) -> Vite.ViteConfig) {
    forall o :: env.configure(o) == Vite.CreateViteConfig(o, projectRoot, merge)
  }

  /** One step of a component's build, labelled with the configuration file
      of the component it belongs to. Steps after `Load` are planned in
      advance and performed in order until one fails. */
  datatype Step =
    | Load(configPath: string)
    | Bundle(configPath: string, version: Vite.VueVersion, options: Vite.Options)
    | Write(configPath: string, path: string, content: Content)
    | Copy(configPath: string, from: string, to: string)
    | WatchNotice(configPath: string)

  /** One line of the output check: a probed path and whether it exists. */
  datatype Probe = Probe(path: string, found: bool)

  /** The result of performing steps: files afterwards, the steps taken,
      success. */
  datatype Phase = Phase(files: Files, steps: seq<Step>, ok: bool)

  /** The build loop's result: files, steps, and the index of the component
      that failed, if one did. */
  datatype Outcome = Outcome(files: Files, steps: seq<Step>, failedAt: Option<nat>)

  /** The whole command: files, steps, output check and exit code. */
  datatype RunResult = RunResult(files: Files, steps: seq<Step>, probes: seq<Probe>, exitCode: int)

  // ---------------------------------------------------------------------
  // Specification

  /** The options passed to `createViteConfig` for one runtime version:
      the component's `build` section spread over `root`, then the version,
      output directory and mode written after it. */
  function TargetOptions(dir: string, b: BuildConfig, v: Vite.VueVersion): Vite.Options {
    Vite.Options(dir, Vite.Production, v, Some("dist/v" + v.Digit()),
                 b.target, b.formats, b.css, None, b.dts, b.viteConfig)
  }

  function ShimJsPath(dir: string): string { Join(dir, "dist/index.js") }
  function ShimMjsPath(dir: string): string { Join(dir, "dist/index.mjs") }
  /** The modules a shim loads at run time, relative to its own directory,
      once vue-demi has told it whether the host runs Vue 2: the CommonJS
      shim `require`s one build, the ES module shim imports one build and,
      for Vue 2 only, that build's stylesheet. */
  function ShimImports(c: Content, isVue2: bool): (r: seq<string>)
    requires !c.Text?
    ensures r != []
    ensures forall m :: m in r ==> StartsWith(m, if isVue2 then "./v2/" else "./v3/")
    ensures "./v2/style.css" in r <==> c.EsmShim? && isVue2
  {
    match c
    case CjsShim => if isVue2 then ["./v2/index.js"] else ["./v3/index.js"]
    case EsmShim => if isVue2 then ["./v2/index.mjs", "./v2/style.css"] else ["./v3/index.mjs"]
  }

  /** Where a `./`-relative specifier in the module at `from` points. */
  function Resolve(from: string, m: string): string
    requires StartsWith(m, "./")
  {
    Join(Dirname(from), m[2..])
  }

  function TypesSource(dir: string): string { Join(dir, "dist/v3/types") }
  function TypesTarget(dir: string): string { Join(dir, "dist/types") }

  /** Whether `p` lies strictly inside directory `dir`. */
  predicate Under(p: string, dir: string) { StartsWith(p, dir + "/") }

  /** The place under `to` of the file `p` under `from`. */
  function Rebase(p: string, from: string, to: string): (q: string)
    requires Under(p, from)
    ensures Under(q, to) && p == from + q[|to|..]
  {
    assert p == p[..|from|] + p[|from|..];
    to + p[|from|..]
  }

  /** Where `fs.copy(from, to)` puts the files under `from`. */
  function CopiedPaths(fs: Files, from: string, to: string): set<string> {
    set p | p in fs && Under(p, from) :: Rebase(p, from, to)
  }

  /** The file under `from` that lands on `q`. */
  function SourceOf(fs: Files, from: string, to: string, q: string): (p: string)
    requires q in CopiedPaths(fs, from, to)
    ensures p in fs && Under(p, from) && Rebase(p, from, to) == q
  {
    assert forall p :: p in fs && Under(p, from) && Rebase(p, from, to) == q ==> p == from + q[|to|..];
    from + q[|to|..]
  }

  /** `fs.copy(from, to)`: every file under `from` is written to the same
      relative place under `to`, overwriting; a missing source is an error.
      The file map holds no directories, so a source with no file under it
      counts as missing. */
  function CopyTree(fs: Files, from: string, to: string): Option<Files> {
    if !exists p :: p in fs && Under(p, from) then None
    else Some(fs + map q | q in CopiedPaths(fs, from, to) :: fs[SourceOf(fs, from, to, q)])
  }

  /** `env.copy` is `fs.copy` as `CopyTree` describes it. */
  ghost predicate Copies(env: Env) {
    forall fs, from, to :: env.copy(fs, from, to) == (CopyTree(fs, from, to).GetOr(fs), CopyTree(fs, from, to).Some?)
  }

  /** The effect of one planned step: the files afterwards and whether the
      step succeeded. */
  function Perform(s: Step, fs: Files, env: Env): (Files, bool) {
    match s
    case Load(_) => (fs, env.load(s.configPath).Some?)
    case Bundle(_, _, options) => env.bundle(env.configure(options), fs)
    case Write(_, path, content) => if env.canWrite(path) then (fs[path := content], true) else (fs, false)
    case Copy(_, from, to) => env.copy(fs, from, to)
    case WatchNotice(_) => (fs, true)
  }

  /** Performing `plan` in order, stopping after the first failing step. */
  function Exec(plan: seq<Step>, fs: Files, env: Env): Phase
    decreases |plan|
  {
    if plan == [] then Phase(fs, [], true)
    else
      var r := Perform(plan[0], fs, env);
      if !r.1 then Phase(r.0, [plan[0]], false)
      else Prefixed([plan[0]], Exec(plan[1..], r.0, env))
  }

  /** `steps` were taken before `p`. */
  function Prefixed(steps: seq<Step>, p: Phase): Phase {
    Phase(p.files, steps + p.steps, p.ok)
  }

  /** `generateEntryFiles(dir)`: the CommonJS shim, the ES-module shim,
      then the declarations of the Vue 3 build. */
  function EntryPlan(configPath: string, dir: string): seq<Step> {
    [Write(configPath, ShimJsPath(dir), CjsShim),
     Write(configPath, ShimMjsPath(dir), EsmShim),
     Copy(configPath, TypesSource(dir), TypesTarget(dir))]
  }

  /** What one iteration of the build loop does once the configuration has
      loaded: build for Vue 2, then the rest. */
  function Plan(configPath: string, b: BuildConfig, options: BuildOptions): seq<Step> {
    [Bundle(configPath, Vite.V2, TargetOptions(Dirname(configPath), b, Vite.V2))] + Vue3Plan(configPath, b, options)
  }

  /** Build for Vue 3, then the rest. */
  function Vue3Plan(configPath: string, b: BuildConfig, options: BuildOptions): seq<Step> {
    [Bundle(configPath, Vite.V3, TargetOptions(Dirname(configPath), b, Vite.V3))] + FinishPlan(configPath, options)
  }

  /** Generate the entry files, then log the watch notice. */
  function FinishPlan(configPath: string, options: BuildOptions): seq<Step> {
    EntryPlan(configPath, Dirname(configPath)) + (if options.WatchEnabled() then [WatchNotice(configPath)] else [])
  }

  /** One iteration of the build loop. */
  function ComponentPhase(configPath: string, fs: Files, env: Env, options: BuildOptions): Phase {
    var loaded := env.load(configPath);
    if loaded.None? then Phase(fs, [Load(configPath)], false)
    else Prefixed([Load(configPath)], Exec(Plan(configPath, loaded.value.build, options), fs, env))
  }

  /** `n` more components ran before `o`. */
  function After(steps: seq<Step>, n: nat, o: Outcome): Outcome {
    Outcome(o.files, steps + o.steps, if o.failedAt.Some? then Some(o.failedAt.value + n) else None)
  }

  /** The build loop over the discovered configuration files. */
  function Phases(paths: seq<string>, fs: Files, env: Env, options: BuildOptions): Outcome
    decreases |paths|
  {
    if paths == [] then Outcome(fs, [], None)
    else
      var o := ComponentPhase(paths[0], fs, env, options);
      if !o.ok then Outcome(o.files, o.steps, Some(0))
      else After(o.steps, 1, Phases(paths[1..], o.files, env, options))
  }

  /** The four paths the output check probes for one component. */
  function ProbePaths(dir: string): seq<string> {
    [Join(dir, "dist/v2/index.js"), Join(dir, "dist/v3/index.js"), Join(dir, "index.js"), Join(dir, "index.mjs")]
  }

  function ProbesOf(candidates: seq<string>, fs: Files): (r: seq<Probe>)
    ensures |r| == |candidates|
    ensures forall k :: 0 <= k < |r| ==> r[k] == Probe(candidates[k], candidates[k] in fs)
  {
    seq(|candidates|, k requires 0 <= k < |candidates| => Probe(candidates[k], candidates[k] in fs))
  }

  /** The output check over all components, in discovery order. */
  function ProbeAll(paths: seq<string>, fs: Files): seq<Probe> {
    if paths == [] then []
    else ProbeAll(paths[..|paths| - 1], fs) + ProbesOf(ProbePaths(Dirname(paths[|paths| - 1])), fs)
  }

  /** `build(options)`: the loop, then the output check; any failure exits
      with code 1 without checking. */
  function Run(paths: seq<string>, fs: Files, env: Env, options: BuildOptions): RunResult {
    var o := Phases(paths, fs, env, options);
    if o.failedAt.None? then RunResult(o.files, o.steps, ProbeAll(paths, o.files), 0)
    else RunResult(o.files, o.steps, [], 1)
  }

  // ---------------------------------------------------------------------
  // The command, step by step

  /** The state one `build` invocation acts on: the file system, the
      steps taken so far and the lines of the output check. */
  class BuildRun {
    var files: Files
    var trace: seq<Step>
    var probes: seq<Probe>

    constructor(fs: Files)
      ensures files == fs && trace == [] && probes == []
    {
      files := fs;
      trace := [];
      probes := [];
    }

    /** `fs.writeFile(path, content)`. */
    method WriteFile(configPath: string, path: string, content: Content, env: Env) returns (ok: bool)
      modifies this
      ensures ok == env.canWrite(path)
      ensures files == if ok then old(files)[path := content] else old(files)
      ensures trace == old(trace) + [Write(configPath, path, content)]
      ensures probes == old(probes)
    {
      trace := trace + [Write(configPath, path, content)];
      ok := env.canWrite(path);
      if ok {
        files := files[path := content];
      }
    }

    /** `fs.copy(from, to)`. */
    method CopyDir(configPath: string, from: string, to: string, env: Env) returns (ok: bool)
      modifies this
      ensures var r := env.copy(old(files), from, to);
        files == r.0 && ok == r.1
      ensures trace == old(trace) + [Copy(configPath, from, to)]
      ensures probes == old(probes)
    {
      trace := trace + [Copy(configPath, from, to)];
      var copied := env.copy(files, from, to);
      files := copied.0;
      ok := copied.1;
    }

    /** `await viteBuild(createViteConfig(options))`. */
    method BundleWith(configPath: string, v: Vite.VueVersion, options: Vite.Options, env: Env) returns (ok: bool)
      modifies this
      ensures var r := env.bundle(env.configure(options), old(files));
        files == r.0 && ok == r.1
      ensures trace == old(trace) + [Bundle(configPath, v, options)]
      ensures probes == old(probes)
    {
      trace := trace + [Bundle(configPath, v, options)];
      var config := env.configure(options);
      var built := env.bundle(config, files);
      files := built.0;
      ok := built.1;
    }

    /** `generateEntryFiles(dir)`. */
    method GenerateEntryFiles(configPath: string, dir: string, env: Env) returns (ok: bool)
      modifies this
      ensures var e := Exec(EntryPlan(configPath, dir), old(files), env);
        files == e.files && trace == old(trace) + e.steps && ok == e.ok
      ensures probes == old(probes)
    {
      ghost var plan := EntryPlan(configPath, dir);
      ghost var f0 := files;
      ok := WriteFile(configPath, ShimJsPath(dir), CjsShim, env);
      ExecCons(plan, f0, env);
      if !ok { return; }
      ghost var f1 := files;
      ok := WriteFile(configPath, ShimMjsPath(dir), EsmShim, env);
      ExecCons(plan[1..], f1, env);
      if !ok { return; }
      ghost var f2 := files;
      ok := CopyDir(configPath, TypesSource(dir), TypesTarget(dir), env);
      ExecCons(plan[2..], f2, env);
      assert plan[2..][1..] == [];
    }

    /** One iteration of the build loop: load, build for Vue 2, build for
        Vue 3, generate the entry files, log the watch notice; the first
        failure ends the iteration. */
    method BuildComponent(configPath: string, env: Env, options: BuildOptions) returns (ok: bool)
      modifies this
      ensures var c := ComponentPhase(configPath, old(files), env, options);
        files == c.files && trace == old(trace) + c.steps && ok == c.ok
      ensures probes == old(probes)
    {
      trace := trace + [Load(configPath)];
      var loaded := env.load(configPath);
      if loaded.None? {
        return false;
      }
      ok := BuildTargets(configPath, loaded.value.build, env, options);
      AppendAssoc(old(trace), [Load(configPath)], Exec(Plan(configPath, loaded.value.build, options), old(files), env).steps);
    }

    /** The Vue 2 build, then the rest of the component. */
    method BuildTargets(configPath: string, b: BuildConfig, env: Env, options: BuildOptions) returns (ok: bool)
      modifies this
      ensures var e := Exec(Plan(configPath, b, options), old(files), env);
        files == e.files && trace == old(trace) + e.steps && ok == e.ok
      ensures probes == old(probes)
    {
      var plan := Plan(configPath, b, options);
      ExecCons(plan, files, env);
      assert plan[1..] == Vue3Plan(configPath, b, options);
      ok := BundleWith(configPath, Vite.V2, TargetOptions(Dirname(configPath), b, Vite.V2), env);
      if !ok {
        return;
      }
      ghost var t1 := trace;
      ok := BuildVue3(configPath, b, env, options);
      AppendAssoc(old(trace), [plan[0]], trace[|t1|..]);
    }

    /** The Vue 3 build, then the rest of the component. */
    method BuildVue3(configPath: string, b: BuildConfig, env: Env, options: BuildOptions) returns (ok: bool)
      modifies this
      ensures var e := Exec(Vue3Plan(configPath, b, options), old(files), env);
        files == e.files && trace == old(trace) + e.steps && ok == e.ok
      ensures probes == old(probes)
    {
      var plan := Vue3Plan(configPath, b, options);
      ExecCons(plan, files, env);
      assert plan[1..] == FinishPlan(configPath, options);
      ok := BundleWith(configPath, Vite.V3, TargetOptions(Dirname(configPath), b, Vite.V3), env);
      if !ok {
        return;
      }
      ghost var t1 := trace;
      ok := Finish(configPath, env, options);
      AppendAssoc(old(trace), [plan[0]], trace[|t1|..]);
    }

    /** Entry generation, then the watch notice. */
    method Finish(configPath: string, env: Env, options: BuildOptions) returns (ok: bool)
      modifies this
      ensures var e := Exec(FinishPlan(configPath, options), old(files), env);
        files == e.files && trace == old(trace) + e.steps && ok == e.ok
      ensures probes == old(probes)
    {
      var dir := Dirname(configPath);
      var watch: seq<Step> := if options.WatchEnabled() then [WatchNotice(configPath)] else [];
      ExecAppend(EntryPlan(configPath, dir), watch, files, env);
      ok := GenerateEntryFiles(configPath, dir, env);
      if ok && options.WatchEnabled() {
        ghost var t1 := trace;
        trace := trace + [WatchNotice(configPath)];
        ExecCons(watch, files, env);
        assert watch[1..] == [];
        AppendAssoc(old(trace), t1[|old(trace)|..], watch);
      }
    }

    /** The output check: four probes per component, only recorded. */
    method CheckOutputs(paths: seq<string>)
      modifies this
      ensures probes == old(probes) + ProbeAll(paths, files)
      ensures files == old(files) && trace == old(trace)
    {
      var i := 0;
      while i < |paths|
        invariant 0 <= i <= |paths|
        invariant files == old(files) && trace == old(trace)
        invariant probes == old(probes) + ProbeAll(paths[..i], files)
      {
        ProbeComponent(ProbePaths(Dirname(paths[i])));
        assert paths[..i + 1][..i] == paths[..i];
        i := i + 1;
      }
      assert paths[..i] == paths;
    }

    /** The probes of one component's output files, in order. */
    method ProbeComponent(candidates: seq<string>)
      modifies this
      ensures probes == old(probes) + ProbesOf(candidates, files)
      ensures files == old(files) && trace == old(trace)
    {
      var j := 0;
      while j < |candidates|
        invariant 0 <= j <= |candidates|
        invariant files == old(files) && trace == old(trace)
        invariant probes == old(probes) + ProbesOf(candidates[..j], files)
      {
        probes := probes + [Probe(candidates[j], candidates[j] in files)];
        assert candidates[..j + 1] == candidates[..j] + [candidates[j]];
        j := j + 1;
      }
      assert candidates[..j] == candidates;
    }

    /** `build(options)` over the discovered configuration files `paths`;
        returns the process exit code. */
    method Build(paths: seq<string>, env: Env, options: BuildOptions) returns (exitCode: int)
      modifies this
      ensures var r := Run(paths, old(files), env, options);
        files == r.files && trace == old(trace) + r.steps
        && probes == old(probes) + r.probes && exitCode == r.exitCode
    {
      ghost var done: seq<Step> := [];
      var i := 0;
      while i < |paths|
        invariant 0 <= i <= |paths|
        invariant trace == old(trace) + done && probes == old(probes)
        invariant Phases(paths, old(files), env, options) == After(done, i, Phases(paths[i..], files, env, options))
      {
        ghost var before := files;
        PhasesUnfold(paths[i..], before, env, options);
        var ok := BuildComponent(paths[i], env, options);
        ghost var c := ComponentPhase(paths[i], before, env, options);
        AppendAssoc(old(trace), done, c.steps);
        if !ok {
          assert Phases(paths[i..], before, env, options) == Outcome(files, c.steps, Some(0));
          done := done + c.steps;
          ghost var o := Phases(paths, old(files), env, options);
          assert o.files == files && o.steps == done && o.failedAt == Some(i);
          assert Run(paths, old(files), env, options) == RunResult(files, done, [], 1);
          return 1;
        }
        assert paths[i..][1..] == paths[i + 1..];
        AfterAfter(done, i, c.steps, Phases(paths[i + 1..], files, env, options));
        done := done + c.steps;
        i := i + 1;
      }
      assert paths[i..] == [];
      ghost var o := Phases(paths, old(files), env, options);
      assert o.files == files && o.steps == done && o.failedAt == None;
      CheckOutputs(paths);
      assert Run(paths, old(files), env, options) == RunResult(files, done, ProbeAll(paths, files), 0);
      return 0;
    }
  }

  lemma PhasesUnfold(paths: seq<string>, fs: Files, env: Env, options: BuildOptions)
    requires paths != []
    ensures var c := ComponentPhase(paths[0], fs, env, options);
      Phases(paths, fs, env, options)
        == if !c.ok then Outcome(c.files, c.steps, Some(0))
           else After(c.steps, 1, Phases(paths[1..], c.files, env, options))
  {
  }

  /** One step of `Exec`. */
  lemma ExecCons(plan: seq<Step>, fs: Files, env: Env)
    requires plan != []
    ensures var r := Perform(plan[0], fs, env);
      Exec(plan, fs, env) == if !r.1 then Phase(r.0, [plan[0]], false) else Prefixed([plan[0]], Exec(plan[1..], r.0, env))
  {
  }

  /** Performing two plans one after the other. */
  lemma {:induction false} ExecAppend(p1: seq<Step>, p2: seq<Step>, fs: Files, env: Env)
    ensures var e := Exec(p1, fs, env);
      Exec(p1 + p2, fs, env) == if !e.ok then e else Prefixed(e.steps, Exec(p2, e.files, env))
    decreases |p1|
  {
    if p1 != [] {
      var r := Perform(p1[0], fs, env);
      assert (p1 + p2)[0] == p1[0];
      assert (p1 + p2)[1..] == p1[1..] + p2;
      ExecCons(p1 + p2, fs, env);
      ExecCons(p1, fs, env);
      if r.1 {
        ExecAppend(p1[1..], p2, r.0, env);
        var e := Exec(p1[1..], r.0, env);
        if e.ok {
          AppendAssoc([p1[0]], e.steps, Exec(p2, e.files, env).steps);
        }
      }
    } else {
      assert p1 + p2 == p2;
    }
  }

  lemma AppendAssoc<T>(a: seq<T>, b: seq<T>, c: seq<T>)
    ensures (a + b) + c == a + (b + c)
  {
  }

  lemma AfterAfter(s1: seq<Step>, n1: nat, s2: seq<Step>, o: Outcome)
    ensures After(s1, n1, After(s2, 1, o)) == After(s1 + s2, n1 + 1, o)
  {
  }

  // ---------------------------------------------------------------------
  // Properties of one component

  /** Steps run in plan order and stop at the first failure: what was done
      is a prefix of the plan, all of it when everything succeeded, and a
      failure always has a step to blame. */
  lemma {:induction false} ExecTakesPrefix(plan: seq<Step>, fs: Files, env: Env)
    ensures var e := Exec(plan, fs, env);
      && |e.steps| <= |plan|
      && e.steps == plan[..|e.steps|]
      && (e.ok ==> e.steps == plan)
      && (!e.ok ==> e.steps != [])
    decreases |plan|
  {
    if plan != [] {
      var r := Perform(plan[0], fs, env);
      if r.1 {
        ExecTakesPrefix(plan[1..], r.0, env);
        var e := Exec(plan[1..], r.0, env);
        assert [plan[0]] + e.steps == plan[..|e.steps| + 1];
      }
    }
  }

  /** A component's steps: `Load`, then a prefix of its plan, all of it
      exactly on success; every step belongs to that component. */
  lemma ComponentTakesPrefix(configPath: string, fs: Files, env: Env, options: BuildOptions)
    ensures var c := ComponentPhase(configPath, fs, env, options);
      && c.steps != [] && c.steps[0] == Load(configPath)
      && (env.load(configPath).None? ==> c.steps == [Load(configPath)] && !c.ok)
      && (env.load(configPath).Some? ==>
            var plan := Plan(configPath, env.load(configPath).value.build, options);
            && |c.steps| <= |plan| + 1
            && c.steps[1..] == plan[..|c.steps| - 1]
            && (c.ok ==> c.steps[1..] == plan))
      && (forall s :: s in c.steps ==> s.configPath == configPath)
  {
    var c := ComponentPhase(configPath, fs, env, options);
    if env.load(configPath).Some? {
      var plan := Plan(configPath, env.load(configPath).value.build, options);
      ExecTakesPrefix(plan, fs, env);
      PlanLabelled(configPath, env.load(configPath).value.build, options);
      var e := Exec(plan, fs, env);
      assert c.steps[1..] == e.steps;
      forall s | s in c.steps
        ensures s.configPath == configPath
      {
        if s != Load(configPath) {
          assert s in e.steps;
          assert s in plan;
        }
      }
    }
  }

  /** Every planned step is labelled with the component's configuration. */
  lemma PlanLabelled(configPath: string, b: BuildConfig, options: BuildOptions)
    ensures forall s :: s in Plan(configPath, b, options) ==> s.configPath == configPath
    ensures |Plan(configPath, b, options)| == 5 + (if options.WatchEnabled() then 1 else 0)
  {
  }

  /** The Vue 3 build runs only after the Vue 2 build has succeeded: a
      failing Vue 2 build ends the component right there. */
  lemma Vue2FailureSkipsVue3(configPath: string, fs: Files, env: Env, options: BuildOptions)
    requires env.load(configPath).Some?
    requires !env.bundle(env.configure(TargetOptions(Dirname(configPath), env.load(configPath).value.build, Vite.V2)), fs).1
    ensures var c := ComponentPhase(configPath, fs, env, options);
      && !c.ok
      && c.steps == [Load(configPath), Bundle(configPath, Vite.V2, TargetOptions(Dirname(configPath), env.load(configPath).value.build, Vite.V2))]
      && forall s :: s in c.steps ==> !(s.Bundle? && s.version == Vite.V3)
  {
    var plan := Plan(configPath, env.load(configPath).value.build, options);
    ExecCons(plan, fs, env);
  }

  /** Entry files are written only after both builds have succeeded. */
  lemma EntryFilesAfterBothBuilds(configPath: string, fs: Files, env: Env, options: BuildOptions)
    requires exists s :: s in ComponentPhase(configPath, fs, env, options).steps && s.Write?
    ensures env.load(configPath).Some?
    ensures var b := env.load(configPath).value.build;
      var dir := Dirname(configPath);
      var r2 := env.bundle(env.configure(TargetOptions(dir, b, Vite.V2)), fs);
      && r2.1
      && env.bundle(env.configure(TargetOptions(dir, b, Vite.V3)), r2.0).1
  {
    if env.load(configPath).Some? {
      var b := env.load(configPath).value.build;
      var dir := Dirname(configPath);
      var plan := Plan(configPath, b, options);
      ExecCons(plan, fs, env);
      var r2 := env.bundle(env.configure(TargetOptions(dir, b, Vite.V2)), fs);
      if r2.1 {
        ExecCons(plan[1..], r2.0, env);
        assert plan[1..][0] == Bundle(configPath, Vite.V3, TargetOptions(dir, b, Vite.V3));
      }
    }
  }

  // ---------------------------------------------------------------------
  // Copying the declarations

  /** The copy fails exactly when no file lies under the source; otherwise
      every file under the source appears at the same relative place under
      the target, files outside the target keep their content, and nothing
      appears outside the target that was not there before. */
  lemma CopyTreeMirrors(fs: Files, from: string, to: string)
    ensures CopyTree(fs, from, to).None? <==> forall p :: p in fs ==> !Under(p, from)
    ensures CopyTree(fs, from, to).Some? ==>
      var r := CopyTree(fs, from, to).value;
      && (forall p :: p in fs && Under(p, from) ==> Rebase(p, from, to) in r && r[Rebase(p, from, to)] == fs[p])
      && (forall q :: q in fs && !Under(q, to) ==> q in r && r[q] == fs[q])
      && (forall q :: q in r ==> q in fs || Under(q, to))
  {
  }

  /** The shims do not lie in the directory the declarations are copied to,
      so the copy never overwrites them. */
  lemma ShimsOutsideTypes(dir: string)
    ensures !Under(ShimJsPath(dir), TypesTarget(dir))
    ensures !Under(ShimMjsPath(dir), TypesTarget(dir))
  {
    var n := |dir| + 6;
    assert ShimJsPath(dir)[n] == 'i';
    assert ShimMjsPath(dir)[n] == 'i';
    assert (TypesTarget(dir) + "/")[n] == 't';
  }

  /** `./v<N>/<file>` in a shim under `dist` is `<file>` in `dist/v<N>`. */
  lemma ResolveFromShim(dir: string, name: string, digit: string, file: string)
    requires dir != [] && '/' !in name
    ensures StartsWith("./" + ("v" + digit + "/" + file), "./")
    ensures Resolve(Join(dir, "dist/" + name), "./" + ("v" + digit + "/" + file))
         == Join(Join(dir, "dist/v" + digit), file)
    ensures Under(Join(Join(dir, "dist/v" + digit), file), Join(dir, "dist/v" + digit))
  {
    var m := "./" + ("v" + digit + "/" + file);
    assert m[..2] == "./";
    assert m[2..] == "v" + digit + "/" + file;
    assert Join(dir, "dist/" + name) == Join(Join(dir, "dist"), name);
    JoinSplits(Join(dir, "dist"), name);
    var out := Join(dir, "dist/v" + digit);
    assert Join(out, file)[..|out| + 1] == out + "/";
  }

  /** The configuration each target build hands to Vite: the component
      directory as root, production mode, `dist/v2` or `dist/v3` as output
      directory and the matching `vue` alias, whatever the component's
      `build` section says; its own keys fill in the rest, and its
      `viteConfig` is merged in last. */
  lemma TargetConfig(dir: string, b: BuildConfig, v: Vite.VueVersion, env: Env, projectRoot: string,
                     merge: (Vite.ViteConfig, Vite.UserConfig) -> Vite.ViteConfig)
    requires Configures(env, projectRoot, merge)
    ensures var base := Vite.BaseConfig(TargetOptions(dir, b, v), projectRoot);
      && env.configure(TargetOptions(dir, b, v)) == merge(base, b.viteConfig.GetOr(Vite.UserConfig([])))
      && base.root == dir && base.mode == Vite.Production
      && base.build.outDir == "dist/v" + v.Digit()
      && "vue" in base.resolve.alias
      && base.resolve.alias["vue"] == (if v == Vite.V2 then "vue2" else "vue")
      && base.build.target == b.target.GetOr(Vite.DefaultTarget)
      && base.build.lib.formats == b.formats.GetOr(Vite.DefaultFormats)
      && base.build.sourcemap
      && base.plugins[0] == Vite.VuePlugin(v, Vite.CreateVuePluginOptions(v))
  {
    var o := TargetOptions(dir, b, v);
    Vite.Defaults(o, projectRoot);
    Vite.VueAliases(o, projectRoot);
    Vite.Plugins(o, projectRoot);
    Vite.FixedSettings(o, projectRoot);
  }

  /** The file names a shim loads from the version's output directory. */
  function ShimFiles(c: Content, isVue2: bool): seq<string> {
    if c.CjsShim? then ["index.js"]
    else if isVue2 then ["index.mjs", "style.css"]
    else ["index.mjs"]
  }

  lemma ShimImportsSpelled(c: Content, v: Vite.VueVersion)
    requires !c.Text?
    ensures var m := ShimImports(c, v == Vite.V2);
      var files := ShimFiles(c, v == Vite.V2);
      |m| == |files| && forall k :: 0 <= k < |m| ==> m[k] == "./" + ("v" + v.Digit() + "/" + files[k])
  {
  }

  /** Each shim loads, for the version vue-demi reports, the file Vite
      writes for the shim's module format into that version's output
      directory, and nothing outside that directory. */
  lemma ShimsLoadTheirBuild(dir: string, b: BuildConfig, v: Vite.VueVersion, c: Content, lib: Vite.Lib)
    requires dir != [] && !c.Text?
    ensures var out := Join(dir, TargetOptions(dir, b, v).outDir.value);
      var shim := if c.CjsShim? then ShimJsPath(dir) else ShimMjsPath(dir);
      var m := ShimImports(c, v == Vite.V2);
      && Resolve(shim, m[0]) == Join(out, lib.FileName(if c.CjsShim? then "cjs" else "es"))
      && forall k :: 0 <= k < |m| ==> Under(Resolve(shim, m[k]), out)
  {
    var d := v.Digit();
    var name := if c.CjsShim? then "index.js" else "index.mjs";
    var shim := Join(dir, "dist/" + name);
    assert shim == if c.CjsShim? then ShimJsPath(dir) else ShimMjsPath(dir);
    var out := Join(dir, "dist/v" + d);
    assert out == Join(dir, TargetOptions(dir, b, v).outDir.value);
    var files := ShimFiles(c, v == Vite.V2);
    var m := ShimImports(c, v == Vite.V2);
    ShimImportsSpelled(c, v);
    assert files[0] == lib.FileName(if c.CjsShim? then "cjs" else "es");
    forall k | 0 <= k < |m|
      ensures Resolve(shim, m[k]) == Join(out, files[k])
      ensures Under(Resolve(shim, m[k]), out)
    {
      ResolveFromShim(dir, name, d, files[k]);
    }
  }

  /** After a successful `generateEntryFiles` both shims are in place and
      the declarations have arrived under `dist/types`. */
  lemma EntryFilesInPlace(configPath: string, dir: string, fs: Files, env: Env)
    requires Copies(env)
    requires Exec(EntryPlan(configPath, dir), fs, env).ok
    ensures var files := Exec(EntryPlan(configPath, dir), fs, env).files;
      && ShimJsPath(dir) in files && files[ShimJsPath(dir)] == CjsShim
      && ShimMjsPath(dir) in files && files[ShimMjsPath(dir)] == EsmShim
      && exists p :: p in files && Under(p, TypesTarget(dir))
  {
    var written := fs[ShimJsPath(dir) := CjsShim][ShimMjsPath(dir) := EsmShim];
    EntryPlanFiles(configPath, dir, fs, env);
    assert |ShimJsPath(dir)| != |ShimMjsPath(dir)|;
    assert written[ShimJsPath(dir)] == CjsShim && written[ShimMjsPath(dir)] == EsmShim;
    ShimsOutsideTypes(dir);
    CopyTreeMirrors(written, TypesSource(dir), TypesTarget(dir));
    var r := CopyTree(written, TypesSource(dir), TypesTarget(dir)).value;
    assert ShimJsPath(dir) in r && r[ShimJsPath(dir)] == CjsShim;
    assert ShimMjsPath(dir) in r && r[ShimMjsPath(dir)] == EsmShim;
    var p :| p in written && Under(p, TypesSource(dir));
    assert Rebase(p, TypesSource(dir), TypesTarget(dir)) in r;
  }

  /** A successful `generateEntryFiles` leaves the files of the declaration
      copy made after both shims were written. */
  lemma EntryPlanFiles(configPath: string, dir: string, fs: Files, env: Env)
    requires Copies(env)
    requires Exec(EntryPlan(configPath, dir), fs, env).ok
    ensures var written := fs[ShimJsPath(dir) := CjsShim][ShimMjsPath(dir) := EsmShim];
      && CopyTree(written, TypesSource(dir), TypesTarget(dir)).Some?
      && Exec(EntryPlan(configPath, dir), fs, env).files == CopyTree(written, TypesSource(dir), TypesTarget(dir)).value
  {
    var plan := EntryPlan(configPath, dir);
    var written := fs[ShimJsPath(dir) := CjsShim][ShimMjsPath(dir) := EsmShim];
    ExecCons(plan, fs, env);
    ExecCons(plan[1..], fs[ShimJsPath(dir) := CjsShim], env);
    ExecCons(plan[2..], written, env);
    assert plan[1..][1..] == plan[2..];
    assert plan[2..][1..] == [];
  }

  /** A component that built successfully leaves its CommonJS shim at
      `dist/index.js`, its ES-module shim at `dist/index.mjs` and its
      declarations under `dist/types`. */
  lemma SuccessfulComponentHasShims(configPath: string, fs: Files, env: Env, options: BuildOptions)
    requires Copies(env)
    requires ComponentPhase(configPath, fs, env, options).ok
    ensures var files := ComponentPhase(configPath, fs, env, options).files;
      var dir := Dirname(configPath);
      && ShimJsPath(dir) in files && files[ShimJsPath(dir)] == CjsShim
      && ShimMjsPath(dir) in files && files[ShimMjsPath(dir)] == EsmShim
      && exists p :: p in files && Under(p, TypesTarget(dir))
  {
    var b := env.load(configPath).value.build;
    var dir := Dirname(configPath);
    var plan := Plan(configPath, b, options);
    ExecCons(plan, fs, env);
    var f2 := Perform(plan[0], fs, env).0;
    ExecCons(plan[1..], f2, env);
    var f3 := Perform(plan[1..][0], f2, env).0;
    assert plan[1..][1..] == FinishPlan(configPath, options);
    var watch: seq<Step> := if options.WatchEnabled() then [WatchNotice(configPath)] else [];
    ExecAppend(EntryPlan(configPath, dir), watch, f3, env);
    var e := Exec(EntryPlan(configPath, dir), f3, env);
    EntryFilesInPlace(configPath, dir, f3, env);
    if watch != [] {
      ExecCons(watch, e.files, env);
      assert watch[1..] == [];
    }
  }

  // ---------------------------------------------------------------------
  // Properties of the whole run

  /** The loop stops at the first failing component: when component `k`
      fails, only components `0..k` have taken any step. */
  lemma {:induction false} PhasesStopAtFailure(paths: seq<string>, fs: Files, env: Env, options: BuildOptions)
    ensures var o := Phases(paths, fs, env, options);
      && (o.failedAt.None? ==> forall s :: s in o.steps ==> s.configPath in paths)
      && (o.failedAt.Some? ==>
            && o.failedAt.value < |paths|
            && forall s :: s in o.steps ==> s.configPath in paths[..o.failedAt.value + 1])
    decreases |paths|
  {
    if paths != [] {
      var c := ComponentPhase(paths[0], fs, env, options);
      ComponentLabelled(paths[0], fs, env, options);
      var o := Phases(paths, fs, env, options);
      if c.ok {
        PhasesStopAtFailure(paths[1..], c.files, env, options);
        var tail := paths[1..];
        var rest := Phases(tail, c.files, env, options);
        assert o == After(c.steps, 1, rest);
        var bound := if rest.failedAt.Some? then rest.failedAt.value + 1 else |tail|;
        assert forall s :: s in rest.steps ==> s.configPath in tail[..bound] by {
          if rest.failedAt.None? {
            assert tail[..bound] == tail;
          }
        }
        PrefixOfTail(paths, bound);
        forall s | s in o.steps
          ensures s.configPath in paths[..bound + 1]
        {
          if s !in c.steps {
            assert s in rest.steps;
          }
        }
        if rest.failedAt.None? {
          assert paths[..bound + 1] == paths;
        }
      } else {
        assert o.steps == c.steps;
        assert paths[..1] == [paths[0]];
      }
    }
  }

  /** Every step of the loop belongs to one of the discovered components. */
  lemma PhasesLabelled(paths: seq<string>, fs: Files, env: Env, options: BuildOptions)
    ensures forall s :: s in Phases(paths, fs, env, options).steps ==> s.configPath in paths
  {
    var o := Phases(paths, fs, env, options);
    PhasesStopAtFailure(paths, fs, env, options);
    if o.failedAt.Some? {
      assert forall q :: q in paths[..o.failedAt.value + 1] ==> q in paths;
    }
  }

  /** The first `n` paths after the head lie among the first `n + 1`. */
  lemma PrefixOfTail(paths: seq<string>, n: nat)
    requires n < |paths|
    ensures paths[0] in paths[..n + 1]
    ensures forall q :: q in paths[1..][..n] ==> q in paths[..n + 1]
  {
    assert paths[..n + 1] == [paths[0]] + paths[1..][..n];
  }

  /** Every step of a component is labelled with its configuration file. */
  lemma ComponentLabelled(configPath: string, fs: Files, env: Env, options: BuildOptions)
    ensures forall s :: s in ComponentPhase(configPath, fs, env, options).steps ==> s.configPath == configPath
  {
    ComponentTakesPrefix(configPath, fs, env, options);
  }

  /** Any failure exits with code 1 before the output check; otherwise the
      exit code is 0 whatever the check finds, and it probes four paths per
      component. */
  lemma FailureAbortsRun(paths: seq<string>, fs: Files, env: Env, options: BuildOptions)
    ensures var o := Phases(paths, fs, env, options);
      var r := Run(paths, fs, env, options);
      && r.files == o.files && r.steps == o.steps
      && (r.exitCode == 1 <==> o.failedAt.Some?)
      && (r.exitCode == 0 <==> o.failedAt.None?)
      && (o.failedAt.Some? ==>
            && r.probes == []
            && o.failedAt.value < |paths|
            && forall s :: s in r.steps ==> s.configPath in paths[..o.failedAt.value + 1])
      && (o.failedAt.None? ==> |r.probes| == 4 * |paths|)
  {
    PhasesStopAtFailure(paths, fs, env, options);
    ProbesInOrder(paths, Phases(paths, fs, env, options).files);
  }

  /** The output check lists, for the `i`-th component, its four paths in
      order, each with whether it exists. */
  lemma {:induction false} ProbesInOrder(paths: seq<string>, fs: Files)
    ensures |ProbeAll(paths, fs)| == 4 * |paths|
    ensures forall i, k :: 0 <= i < |paths| && 0 <= k < 4 ==>
      var path := ProbePaths(Dirname(paths[i]))[k];
      ProbeAll(paths, fs)[4 * i + k] == Probe(path, path in fs)
    decreases |paths|
  {
    if paths != [] {
      var init := paths[..|paths| - 1];
      ProbesInOrder(init, fs);
      forall i, k | 0 <= i < |paths| && 0 <= k < 4
        ensures var path := ProbePaths(Dirname(paths[i]))[k];
          ProbeAll(paths, fs)[4 * i + k] == Probe(path, path in fs)
      {
        if i < |paths| - 1 {
          assert init[i] == paths[i];
        }
      }
    }
  }

  /** The last two probed paths are at the component root, not where the
      shims are written, and no probe looks at a shim. */
  lemma ProbesMissShims(dir: string)
    ensures ProbePaths(dir)[2] == dir + "/index.js" && ProbePaths(dir)[3] == dir + "/index.mjs"
    ensures forall k :: 0 <= k < 4 ==> ProbePaths(dir)[k] != ShimJsPath(dir) && ProbePaths(dir)[k] != ShimMjsPath(dir)
  {
    forall k | 0 <= k < 4
      ensures ProbePaths(dir)[k] != ShimJsPath(dir) && ProbePaths(dir)[k] != ShimMjsPath(dir)
    {
      assert |ProbePaths(dir)[k]| != |ShimJsPath(dir)|;
      assert |ProbePaths(dir)[k]| != |ShimMjsPath(dir)|;
    }
  }

  lemma IndexOfDistinct(xs: seq<string>, m: int)
    requires Distinct(xs) && 0 <= m < |xs|
    ensures IndexOf(xs, xs[m]) == m
  {
  }

  /** Along `steps`, the position of the step's component in `paths` never
      decreases. */
  predicate InDiscoveryOrder(paths: seq<string>, steps: seq<Step>) {
    forall i, j :: 0 <= i < j < |steps| ==> IndexOf(paths, steps[i].configPath) <= IndexOf(paths, steps[j].configPath)
  }

  /** Components are processed one at a time in discovery order. (The glob
      yields each file once.) */
  lemma {:induction false} DiscoveryOrder(paths: seq<string>, fs: Files, env: Env, options: BuildOptions)
    requires Distinct(paths)
    ensures InDiscoveryOrder(paths, Phases(paths, fs, env, options).steps)
    decreases |paths|
  {
    if paths != [] {
      var c := ComponentPhase(paths[0], fs, env, options);
      var o := Phases(paths, fs, env, options);
      ComponentLabelled(paths[0], fs, env, options);
      IndexOfDistinct(paths, 0);
      if !c.ok {
        assert o.steps == c.steps + [];
        FirstComponentOrdered(paths, c.steps, []);
      } else {
        var tail := paths[1..];
        var rest := Phases(tail, c.files, env, options);
        assert o.steps == c.steps + rest.steps;
        assert Distinct(tail);
        DiscoveryOrder(tail, c.files, env, options);
        PhasesLabelled(tail, c.files, env, options);
        LaterComponentsOrdered(paths, rest.steps);
        FirstComponentOrdered(paths, c.steps, rest.steps);
      }
    }
  }

  lemma FirstComponentOrdered(paths: seq<string>, a: seq<Step>, b: seq<Step>)
    requires paths != [] && IndexOf(paths, paths[0]) == 0
    requires forall s :: s in a ==> s.configPath == paths[0]
    requires forall k :: 0 <= k < |b| ==> IndexOf(paths, b[k].configPath) >= 1
    requires InDiscoveryOrder(paths, b)
    ensures InDiscoveryOrder(paths, a + b)
  {
    var steps := a + b;
    forall i, j | 0 <= i < j < |steps|
      ensures IndexOf(paths, steps[i].configPath) <= IndexOf(paths, steps[j].configPath)
    {
      if i < |a| {
        assert steps[i] in a;
        if j >= |a| {
          assert steps[j] == b[j - |a|];
        } else {
          assert steps[j] in a;
        }
      } else {
        assert steps[i] == b[i - |a|] && steps[j] == b[j - |a|];
      }
    }
  }

  lemma LaterComponentsOrdered(paths: seq<string>, b: seq<Step>)
    requires paths != [] && Distinct(paths)
    requires forall s :: s in b ==> s.configPath in paths[1..]
    requires InDiscoveryOrder(paths[1..], b)
    ensures forall k :: 0 <= k < |b| ==> IndexOf(paths, b[k].configPath) == IndexOf(paths[1..], b[k].configPath) + 1 >= 1
    ensures InDiscoveryOrder(paths, b)
  {
    var tail := paths[1..];
    forall k | 0 <= k < |b|
      ensures IndexOf(paths, b[k].configPath) == IndexOf(tail, b[k].configPath) + 1 >= 1
    {
      assert b[k] in b;
      var m :| 0 <= m < |tail| && tail[m] == b[k].configPath;
      IndexOfDistinct(tail, m);
      IndexOfDistinct(paths, m + 1);
    }
  }

  // ---------------------------------------------------------------------
  // The watch option

  /** The steps other than watch notices. */
  function Quiet(steps: seq<Step>): seq<Step> {
    if steps == [] then []
    else (if steps[0].WatchNotice? then [] else [steps[0]]) + Quiet(steps[1..])
  }

  lemma {:induction false} QuietAppend(a: seq<Step>, b: seq<Step>)
    ensures Quiet(a + b) == Quiet(a) + Quiet(b)
    decreases |a|
  {
    if a == [] {
      assert a + b == b;
    } else {
      assert (a + b)[1..] == a[1..] + b;
      QuietAppend(a[1..], b);
    }
  }

  lemma {:induction false} QuietWithoutNotices(steps: seq<Step>)
    requires forall s :: s in steps ==> !s.WatchNotice?
    ensures Quiet(steps) == steps
    decreases |steps|
  {
    if steps != [] {
      QuietWithoutNotices(steps[1..]);
    }
  }

  const NoWatch := BuildOptions(None)

  /** With `watch` on, a component does exactly what it does with `watch`
      off, followed by the notice when it succeeded. */
  lemma WatchOnlyAddsNotice(configPath: string, fs: Files, env: Env, options: BuildOptions)
    ensures var c := ComponentPhase(configPath, fs, env, options);
      var q := ComponentPhase(configPath, fs, env, NoWatch);
      && c.files == q.files && c.ok == q.ok
      && c.steps == q.steps + (if c.ok && options.WatchEnabled() then [WatchNotice(configPath)] else [])
  {
    if env.load(configPath).Some? {
      var b := env.load(configPath).value.build;
      var dir := Dirname(configPath);
      var core := [Bundle(configPath, Vite.V2, TargetOptions(dir, b, Vite.V2)),
                   Bundle(configPath, Vite.V3, TargetOptions(dir, b, Vite.V3))] + EntryPlan(configPath, dir);
      var w: seq<Step> := if options.WatchEnabled() then [WatchNotice(configPath)] else [];
      assert Plan(configPath, b, options) == core + w;
      assert Plan(configPath, b, NoWatch) == core + [];
      var e := Exec(core, fs, env);
      var c := ComponentPhase(configPath, fs, env, options);
      var q := ComponentPhase(configPath, fs, env, NoWatch);
      assert c == Prefixed([Load(configPath)], Exec(core + w, fs, env));
      assert q == Prefixed([Load(configPath)], Exec(core + [], fs, env));
      ExecAppend(core, w, fs, env);
      ExecAppend(core, [], fs, env);
      if e.ok {
        var we := Exec(w, e.files, env);
        assert we == Phase(e.files, w, true) by {
          if w != [] {
            ExecCons(w, e.files, env);
            assert w[1..] == [];
          }
        }
        assert q.steps == [Load(configPath)] + (e.steps + []);
        assert c.steps == [Load(configPath)] + (e.steps + w);
        AppendAssoc([Load(configPath)], e.steps, w);
      }
    }
  }

  /** With `watch` off, no notice is logged. */
  lemma NoWatchNoNotice(configPath: string, fs: Files, env: Env)
    ensures forall s :: s in ComponentPhase(configPath, fs, env, NoWatch).steps ==> !s.WatchNotice?
  {
    if env.load(configPath).Some? {
      var plan := Plan(configPath, env.load(configPath).value.build, NoWatch);
      assert forall s :: s in plan ==> !s.WatchNotice? by {
        assert !NoWatch.WatchEnabled();
        assert FinishPlan(configPath, NoWatch) == EntryPlan(configPath, Dirname(configPath)) + [];
      }
      var e := Exec(plan, fs, env);
      assert forall s :: s in e.steps ==> s in plan by {
        ExecTakesPrefix(plan, fs, env);
      }
      assert ComponentPhase(configPath, fs, env, NoWatch).steps == [Load(configPath)] + e.steps;
    }
  }

  /** `--watch` changes nothing but the log: the same files, the same
      output check and exit code, and the same steps once the notices are
      left out. */
  lemma {:induction false} WatchOnlyLogs(paths: seq<string>, fs: Files, env: Env, options: BuildOptions)
    ensures var r := Run(paths, fs, env, options);
      var q := Run(paths, fs, env, NoWatch);
      r.files == q.files && r.probes == q.probes && r.exitCode == q.exitCode && Quiet(r.steps) == q.steps
  {
    PhasesIgnoreWatch(paths, fs, env, options);
  }

  /** One component with and without `watch`, notices left out. */
  lemma ComponentIgnoresWatch(configPath: string, fs: Files, env: Env, options: BuildOptions)
    ensures var c := ComponentPhase(configPath, fs, env, options);
      var cq := ComponentPhase(configPath, fs, env, NoWatch);
      c.files == cq.files && c.ok == cq.ok && Quiet(c.steps) == cq.steps
  {
    var c := ComponentPhase(configPath, fs, env, options);
    var cq := ComponentPhase(configPath, fs, env, NoWatch);
    WatchOnlyAddsNotice(configPath, fs, env, options);
    NoWatchNoNotice(configPath, fs, env);
    QuietWithoutNotices(cq.steps);
    var notice: seq<Step> := if c.ok && options.WatchEnabled() then [WatchNotice(configPath)] else [];
    QuietAppend(cq.steps, notice);
    assert Quiet(notice) == [];
  }

  lemma {:induction false} PhasesIgnoreWatch(paths: seq<string>, fs: Files, env: Env, options: BuildOptions)
    ensures var o := Phases(paths, fs, env, options);
      var q := Phases(paths, fs, env, NoWatch);
      o.files == q.files && o.failedAt == q.failedAt && Quiet(o.steps) == q.steps
    decreases |paths|
  {
    if paths != [] {
      var c := ComponentPhase(paths[0], fs, env, options);
      var cq := ComponentPhase(paths[0], fs, env, NoWatch);
      ComponentIgnoresWatch(paths[0], fs, env, options);
      if c.ok {
        PhasesIgnoreWatch(paths[1..], c.files, env, options);
        var rest := Phases(paths[1..], c.files, env, options);
        QuietAppend(c.steps, rest.steps);
        assert Phases(paths, fs, env, options) == After(c.steps, 1, rest);
        var restq := Phases(paths[1..], c.files, env, NoWatch);
        assert Phases(paths, fs, env, NoWatch) == After(cq.steps, 1, restq);
        assert rest.failedAt == restq.failedAt;
        assert After(c.steps, 1, rest).failedAt == After(cq.steps, 1, restq).failedAt;
      } else {
        assert Phases(paths, fs, env, options) == Outcome(c.files, c.steps, Some(0));
        assert Phases(paths, fs, env, NoWatch) == Outcome(cq.files, cq.steps, Some(0));
      }
    }
  }
}
