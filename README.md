# material-cli: build and dev orchestration, modelled in Dafny

This project models the command core of material-cli, a CLI for Vue component
libraries whose components are built for both Vue 2 and Vue 3:

- **`build`** (`src/commands/build.ts`): finds every `material.config.ts` under
  `packages/`. For each component, one at a time, it:
  - loads the configuration;
  - builds for Vue 2 into `dist/v2`, then for Vue 3 into `dist/v3`;
  - writes the two runtime-selecting entry shims `dist/index.js` and
    `dist/index.mjs`;
  - copies the Vue 3 declarations to `dist/types`.

  The first failure aborts the run with exit code 1. A fully successful run
  then logs an output check.
- **`createViteConfig`** (`src/config/vite.config.ts`): the Vite library
  configuration derived from the options. This covers:
  - the defaults;
  - the `vue` and `vue-demi` aliases per runtime;
  - file names per module format;
  - the declaration plugin and its flattening `beforeWriteFile` hook;
  - the user's `viteConfig` merged in last.
- **`dev`** (`src/commands/dev.ts`):
  - the most-recently-used history;
  - the listing of component directories;
  - the recency sort and answer resolution of the component prompt;
  - the playground table and its dependency merge;
  - the choice of a component's development directory;
  - the names `App.vue` is edited with;
  - the precedence logic of `start`;
  - synchronised multi-version development (one playground per version with
    its own port, a control script, and an idempotent `index.html` injection).
- **Generated-project templates**:
  - the shared build configuration (`vite.base.config.ts`);
  - the Vue 2 playground's CommonJS fix-up plugin (`fixCjsCompositionApi`);
  - the `useToggle` hook.

How state is modelled:

- **State changed in place is a class.** Examples: the file system and the
  step trace of a build run (`Build.BuildRun`), the dev server's history
  (`DevHistory.HistoryStore`), Rollup's output bundle
  (`Vue2Playground.OutputBundle`) and the toggle cell (`UseToggle.Toggle`).
  Its methods are proved against functions that specify them.
- **Pure logic is functions and lemmas.**
- **Collaborators are parameters.** The model cannot see inside these, so they
  appear as function-typed inputs:
  - jiti's configuration loader;
  - Vite's `build` and `mergeConfig`;
  - `fs.writeFile` success;
  - `fs.copy`;
  - `localeCompare`;
  - the readline answer;
  - package installation;
  - `fs.existsSync`.

  Where the model relies on one behaving a certain way, a ghost predicate
  states it (`Build.Configures`, `Build.Copies`).

The file system is a map from path to content. Paths are joined with `/` and
are not normalised.

The build model works in plans. A component's work is a plan of steps. A
recursive `Exec` performs the plan until the first failure. The loop over
components (`Phases`) stops at the first component that fails.

The output check of `build` probes `<component>/index.js` and
`<component>/index.mjs`. The shims are written to `<component>/dist/`, so the
check never sees them. It only logs, and never changes the exit code
(`Build.ProbesMissShims`, `Build.FailureAbortsRun`).

## Model

| member | source | states |
|---|---|---|
| Build.BuildRun.Build | src/commands/build.ts:10-116 | the command updates files, trace and probes exactly as the specification `Run` says and returns its exit code |
| Build.FailureAbortsRun | src/commands/build.ts:32-115 | exit code 1 exactly when some component failed; then there is no output check, and only components up to the failing one took steps; otherwise exit 0 and four probes per component |
| Build.PhasesStopAtFailure | src/commands/build.ts:32-87 | when component k fails, every step taken belongs to components 0..k; on success every step belongs to a discovered component |
| Build.DiscoveryOrder | src/commands/build.ts:32-87 | components are processed one at a time, in the glob's order: a step never belongs to an earlier component than the step before it |
| Build.BuildRun.BuildComponent | src/commands/build.ts:38-86 | one loop iteration changes files and trace exactly as `ComponentPhase` (load, then the plan up to its first failure) |
| Build.ComponentTakesPrefix | src/commands/build.ts:38-86 | a component's steps are `Load` and then a prefix of its plan, all of it exactly on success; a load failure stops after `Load`; every step is labelled with the component |
| Build.ExecTakesPrefix | src/commands/build.ts:38-86 | performing a plan takes a prefix of it in order, all of it on success, and at least one step on failure |
| Build.PlanLabelled | src/commands/build.ts:41-80 | the plan has five steps plus one when `watch` is on, all labelled with the component |
| Build.Vue2FailureSkipsVue3 | src/commands/build.ts:41-70 | a failing Vue 2 build ends the component after it; no Vue 3 build is attempted |
| Build.EntryFilesAfterBothBuilds | src/commands/build.ts:41-74 | a shim is written only after both the Vue 2 and the Vue 3 build succeeded |
| Build.TargetConfig | src/commands/build.ts:43-68 | the configuration handed to Vite for each runtime has the component directory as root, production mode, `dist/v2` or `dist/v3` as output directory and the matching `vue` alias whatever the typed `build` section says; the rest is filled from the section, and its `viteConfig` is merged in last |
| Build.WatchOnlyAddsNotice | src/commands/build.ts:77-80 | with `watch` a component does exactly what it does without it, plus a notice when it succeeded |
| Build.NoWatchNoNotice | src/commands/build.ts:77-80 | without `watch` no notice is logged |
| Build.ComponentIgnoresWatch | src/commands/build.ts:77-80 | for one component, `watch` changes neither files nor success, and leaving out the notices gives the same steps |
| Build.WatchOnlyLogs | src/commands/build.ts:32-115 | `watch` changes nothing but the log: same files, probes and exit code, same steps without the notices |
| Build.PhasesIgnoreWatch | src/commands/build.ts:32-87 | the loop with and without `watch` agrees on files and on the failing component, and its steps agree once notices are left out |
| Build.BuildRun.CheckOutputs | src/commands/build.ts:91-110 | the check records the specification `ProbeAll` and changes neither files nor trace |
| Build.BuildRun.ProbeComponent | src/commands/build.ts:102-109 | one component's probes, in order, each with whether its path exists |
| Build.ProbesInOrder | src/commands/build.ts:91-110 | the i-th component's four paths appear at positions 4i..4i+3, in order, each with whether it exists |
| Build.ProbesMissShims | src/commands/build.ts:94-99 | the last two probed paths are at the component root, and no probe looks at either shim |
| Build.ProbesOf | src/commands/build.ts:102-109 | one probe per candidate, in order, recording whether the path exists |
| Build.BuildRun.GenerateEntryFiles | src/commands/build.ts:118-147 | writes the CommonJS shim, then the ES-module shim, then copies the declarations, stopping at the first failure, exactly as `Exec(EntryPlan)` |
| Build.BuildRun.BuildTargets | src/commands/build.ts:41-80 | the Vue 2 build and the rest of the component, exactly as `Exec(Plan)` |
| Build.BuildRun.BuildVue3 | src/commands/build.ts:53-80 | the Vue 3 build and the rest, exactly as `Exec(Vue3Plan)` |
| Build.BuildRun.Finish | src/commands/build.ts:72-80 | entry generation and then the watch notice, exactly as `Exec(FinishPlan)` |
| Build.BuildRun.WriteFile | src/commands/build.ts:139-140 | a successful write sets the path's content, and a failing one leaves the files unchanged; the step is traced |
| Build.BuildRun.CopyDir | src/commands/build.ts:143-146 | the files and success are what `fs.copy` gives; the step is traced |
| Build.BuildRun.BundleWith | src/commands/build.ts:43-50 | the files and success are what Vite's build of `createViteConfig(options)` gives; the step is traced |
| Build.EntryFilesInPlace | src/commands/build.ts:139-146 | after a successful `generateEntryFiles` both shims hold their content and some declaration lies under `dist/types` |
| Build.EntryPlanFiles | src/commands/build.ts:139-146 | the resulting files are the declaration copy made after both shims were written |
| Build.SuccessfulComponentHasShims | src/commands/build.ts:38-86 | a component that built successfully has both shims and its declarations under `dist/types` |
| Build.CopyTreeMirrors | src/commands/build.ts:143-146 | the copy fails exactly when no file lies under the source (the model keeps no directories, see Left out); otherwise every source file appears at the same relative place under the target, files outside the target keep their content, and nothing new appears outside the target |
| Build.ShimsOutsideTypes | src/commands/build.ts:139-146 | the shims do not lie under `dist/types`, so the copy cannot overwrite them |
| Build.ShimImports | src/commands/build.ts:119-137 | each shim loads only modules of the runtime vue-demi reports, and it loads the Vue 2 stylesheet exactly when it is the ES-module shim under Vue 2 |
| Build.ShimImportsSpelled | src/commands/build.ts:119-137 | the modules a shim loads are `./v<N>/` followed by the files that runtime's build writes |
| Build.ShimsLoadTheirBuild | src/commands/build.ts:118-137 | each shim's first module resolves to the file Vite writes for the shim's format in that runtime's output directory, and no module lies outside that directory |
| Build.ResolveFromShim | src/commands/build.ts:119-137 | `./v<N>/<file>` seen from a shim under `dist` is `<file>` in `dist/v<N>` |
| Vite.CreateVuePluginOptions | src/config/vite.config.ts:37-67 | Vue 2 gets exactly `jsx` and the `.vue` include; Vue 3 gets the `.vue` include, and a tag is a custom element exactly when it starts with `v-`; the other Vue 3 settings (whitespace, comments, script and style options) are fixed values that no contract constrains |
| Vite.Defaults | src/config/vite.config.ts:73-84 | absent target, formats, output directory and sourcemap take `['es2015']`, `['es','cjs','umd']`, `dist` and true; present ones are used as given |
| Vite.UserConfigOnlyMerged | src/config/vite.config.ts:211 | the base configuration does not depend on the user's `viteConfig`; the user's configuration reaches the result only through the final merge, applied to the base |
| Vite.AbsentUserConfigKeepsBase | src/config/vite.config.ts:83 | without a `viteConfig` the result is the base configuration itself, for any merge under which `{}` changes nothing |
| Vite.VueAliases | src/config/vite.config.ts:117-121 | `vue` resolves to `vue2` exactly for Vue 2 and to `vue` exactly for Vue 3; `vue-demi` resolves to the build for the chosen runtime |
| Vite.VueDemiAlias | src/config/vite.config.ts:120 | the `vue-demi` alias ends in `lib/v<N>/index.mjs` for the runtime |
| Vite.FileNames | src/config/vite.config.ts:135-146 | only `es` is named `.mjs`; every format gets one of three names; an unknown format falls back to `index.js` |
| Vite.Plugins | src/config/vite.config.ts:166-207 | the Vue plugin of the requested runtime comes first; the declaration plugin is present exactly when `dts` is not false; no `false` entry survives |
| Vite.Compact | src/config/vite.config.ts:207 | `filter(Boolean)` keeps exactly the present plugins and never adds any |
| Vite.BeforeWriteFileFlattens | src/config/vite.config.ts:184-203 | the hook keeps the content and the file name, puts the file directly in `<outDir>/types`, and is idempotent |
| Vite.CssOnlyLogged | src/config/vite.config.ts:79 | the `css` option never changes the configuration |
| Vite.FixedSettings | src/config/vite.config.ts:112-165 | no option changes the externals, minification, CSS code splitting, the entry under the root, the empty PostCSS plugin list, root or mode |
| DevHistory.LoadDevHistory | src/commands/dev.ts:102-111 | a readable file gives its record; a missing or unreadable file gives an empty history |
| DevHistory.HistoryStore.constructor | src/commands/dev.ts:90-97 | the in-memory history is what loading the file gives |
| DevHistory.HistoryStore.SaveDevHistory | src/commands/dev.ts:116-132 | the component becomes the last one and is moved to the front of the recent list, cut to five; the file mirrors the new history unless writing fails, and then keeps its old content |
| DevHistory.RememberFront | src/commands/dev.ts:119-126 | the saved component is first and occurs once, and the list holds one to five entries |
| DevHistory.RememberKeepsOrder | src/commands/dev.ts:122-126 | the others follow in their old order, and only the tail beyond five is cut |
| DevHistory.RememberDropsOnlyTheTail | src/commands/dev.ts:122-126 | in a duplicate-free list, a previous entry survives exactly when fewer than four others were ahead of it |
| DevHistory.RememberKeepsDistinct | src/commands/dev.ts:122-126 | a duplicate-free recent list stays duplicate-free |
| DevHistory.WithoutKeepsDistinct | src/commands/dev.ts:122 | filtering out one name keeps a list duplicate-free |
| DevHistory.Without | src/commands/dev.ts:122 | the filter removes exactly the given name and nothing else |
| DevHistory.RememberIdempotent | src/commands/dev.ts:116-132 | saving the same component twice in a row changes nothing the second time |
| DevHistory.SaveThenReload | src/commands/dev.ts:90-132 | across two runs: when the save was written, the next run starts with the saved history, with the component as the last one and first among at most five recent ones; when writing failed, the next run starts from the old file |
| DevSelect.GetAvailableComponents | src/commands/dev.ts:137-158 | no `packages` directory gives no component; otherwise the names of the entries that pass the filter, in listing order |
| DevSelect.ComponentsExactly | src/commands/dev.ts:149-155 | a name is listed exactly when a directory of that name is neither hidden nor `utils` nor `styles` |
| DevSelect.ComponentsInListingOrder | src/commands/dev.ts:149-155 | listing order is kept |
| DevSelect.RecencyOrder | src/commands/dev.ts:172-180 | the sorted list is a permutation of the components: recent ones come before the others, in history order, and the others follow `localeCompare` |
| DevSelect.RecencyIsPreorder | src/commands/dev.ts:172-180 | when `localeCompare` is an order, the comparator is total and transitive |
| DevSelect.CompareTotal | src/commands/dev.ts:172-180 | of any two components, one may precede the other |
| DevSelect.CompareTransitive | src/commands/dev.ts:172-180 | the comparator's "not after" is transitive |
| DevSelect.SortPermutes | src/commands/dev.ts:172 | sorting only reorders |
| DevSelect.SortSorted | src/commands/dev.ts:172 | with a consistent comparator the result is in order |
| DevSelect.InsertPermutes | src/commands/dev.ts:172 | one insertion step adds its element and keeps the rest |
| DevSelect.InsertSorted | src/commands/dev.ts:172 | one insertion step keeps a sorted list sorted |
| DevSelect.Insert | src/commands/dev.ts:172 | insertion adds exactly one element |
| DevSelect.SortBy | src/commands/dev.ts:172 | the sort keeps the length |
| DevSelect.FindMatch | src/commands/dev.ts:216-218 | the first component, in listing order, whose lower-case name contains the needle; none exactly when no component does |
| DevSelect.SelectionIsAvailable | src/commands/dev.ts:163-230 | whatever is selected is an available component |
| DevSelect.AnswerByNumber | src/commands/dev.ts:203-207 | the position n, typed with optional leading whitespace and trailing non-digits, selects the n-th entry of the sorted list |
| DevSelect.AnswerByName | src/commands/dev.ts:210-213 | an answer that is not a number in range but names a component selects it |
| DevSelect.AnswerBySubstring | src/commands/dev.ts:216-227 | otherwise the first component in listing order containing the answer case-insensitively, and nothing when there is none |
| DevSelect.EmptyAnswerPicksFirst | src/commands/dev.ts:199-227 | an empty answer picks the first component in listing order |
| DevPlayground.PlaygroundConfigFor | src/commands/dev.ts:28-70 | a playground exists exactly for versions `2`, `2.7` and `3` |
| DevPlayground.ConfigTable | src/commands/dev.ts:28-70 | every playground pins `vue` and `vue-demi ^0.14.0`; only Vue 2.6 adds the composition API; all use Vite `^4.5.0`; the template is `vue<version>-playground` |
| DevPlayground.MergeDeps | src/commands/dev.ts:256-265 | the merge has the keys of both, and the table's values win |
| DevPlayground.MergeIdempotent | src/commands/dev.ts:264-265 | merging the same table twice gives what merging it once gives |
| DevPlayground.UnsupportedTouchesNothing | src/commands/dev.ts:233-238 | an unsupported version throws before anything is touched |
| DevPlayground.SetupWritesMergedDeps | src/commands/dev.ts:232-279 | success needs a readable copied `package.json` and a successful installation; then the directory is created, the version's template copied into it, and the written `package.json` is the copied one with both dependency maps merged with the table's; `node_modules` is removed exactly when it existed; installation comes last |
| DevPlayground.MergedPackage | src/commands/dev.ts:255-265 | both `dependencies` and `devDependencies` get the keys of the copied map and the table's; the table's versions win, other entries keep their versions, `scripts` is untouched |
| DevPlayground.SetupFailures | src/commands/dev.ts:249-278 | for a supported version with a template, setup succeeds exactly when the copied `package.json` is readable and installation succeeds; an unreadable one throws right after the copy, before anything is written; a failed installation throws as the last action |
| DevPlayground.DevelopmentDirPriority | src/commands/dev.ts:281-306 | a missing component throws; otherwise the first existing one of `demo`, `example`, `dev` is used, and a new `demo` is created only when none exists |
| DevPlayground.DistinctSubdirs | src/commands/dev.ts:288-290 | the three candidate directories are different |
| DevNaming.KebabSpellsName | src/commands/dev.ts:632 | leaving out dashes, the kebab name is the lower-cased component name |
| DevNaming.KebabIsLowerCase | src/commands/dev.ts:632 | the kebab name holds no upper-case letter |
| DevNaming.KebabOfKebab | src/commands/dev.ts:632 | a lower-case name not starting with a dash is its own kebab name |
| DevNaming.DashBeforeEachCapital | src/commands/dev.ts:632 | every upper-case letter after the first character starts a new dash-separated word |
| DevNaming.Dasherize | src/commands/dev.ts:632 | inserting dashes never shortens the name |
| DevNaming.DasherizeLowerUndashed | src/commands/dev.ts:632 | inserting dashes and lower-casing spells the lower-cased name |
| DevNaming.DasherizeWithoutUpper | src/commands/dev.ts:632 | a name without upper-case letters gets no dash |
| DevNaming.DasherizeSplits | src/commands/dev.ts:632 | the replacement acts character by character |
| DevNaming.TagHasDash | src/commands/dev.ts:669 | the tag always has a dash; it is the kebab name exactly when that has one, and `v-<kebab>` otherwise |
| DevNaming.CapitalizedSameLetters | src/commands/dev.ts:630 | capitalising changes only the first character, to a non-lower-case one, and not what the name reads in lower case |
| DevNaming.KebabIgnoresCapital | src/commands/dev.ts:630-632 | the capitalised name and the component name give the same kebab name |
| DevNaming.OneWordComponent | src/commands/dev.ts:630-669 | a one-word lower-case component is looked for as itself and tagged `v-<name>` |
| DevStart.SelectStartComponent | src/commands/dev.ts:794-811 | an explicit component wins; else `last` with a remembered component; the prompt runs exactly when neither applies and `all` is not set |
| DevStart.Start | src/commands/dev.ts:790-886 | it stops exactly when the prompt gave nothing. `sync` comes before the mode and links the selection or every component. In playground mode only the selection is linked, and only without `all`; the playground is set up when it is not ready. Any other mode throws. The history is saved exactly when a component was selected and the servers came up, never in docs mode |
| DevStart.SavedComponentComesBack | src/commands/dev.ts:790-864 | a saved component heads the history, which holds at most five, and `last` picks it next time without a prompt |
| DevSync.PortFor | src/commands/dev.ts:935-939 | a port exists exactly for the versions that have a playground |
| DevSync.PortTable | src/commands/dev.ts:935-943 | ports are distinct, from 5173 to 5175, and reading the number back from the dev script gives the port |
| DevSync.WithDevScript | src/commands/dev.ts:942-943 | the dev script is set to the version's port; the other scripts and the dependencies are kept |
| DevSync.OtherVersionLinks | src/commands/dev.ts:1007-1018 | the control panel links exactly the other listed versions, each with its port |
| DevSync.InjectionAddsScript | src/commands/dev.ts:1044-1050 | a page with `</head>` mentions the script afterwards; a page without one is unchanged |
| DevSync.InjectionIdempotent | src/commands/dev.ts:1044-1050 | running the setup again injects nothing more |
| DevSync.SyncScriptTagMentionsScript | src/commands/dev.ts:1047 | the injected tag names the control script |
| DevSync.SyncVersionFailures | src/commands/dev.ts:916-969 | for a supported version with a template, the version is set up exactly when its copied `package.json` is readable, installation succeeds, linking succeeds and its `index.html` is readable; a failed link is the last action; an unreadable page throws only after `sync-control.js` was written |
| DevSync.SyncOneVersion | src/commands/dev.ts:896-970 | one iteration does exactly what the specification `SyncVersion` says |
| DevSync.SetupSyncDevelopment | src/commands/dev.ts:889-974 | the loop and the server start do exactly what `SyncDevelopment` says |
| DevSync.UnsupportedVersionStopsSync | src/commands/dev.ts:906-909 | an unsupported version anywhere makes the command fail before the servers start; later versions are not touched |
| DevSync.VersionWritesPackage | src/commands/dev.ts:919-945 | a version that was set up wrote its `package.json` |
| DevSync.SyncSucceeded | src/commands/dev.ts:889-974 | when the servers start, they start last and with all versions; every version is supported, and its `package.json` holds the table's dependencies and a dev script on its own port |
| DevSync.RunSucceedsIff | src/commands/dev.ts:896-970 | the loop gets through exactly when every iteration succeeds |
| DevSync.RunFailureSticks | src/commands/dev.ts:896-970 | after a failing iteration, later versions change nothing |
| DevSync.RunKeepsSteps | src/commands/dev.ts:896-970 | a successful loop performs every iteration's actions |
| DevSync.RunExtends | src/commands/dev.ts:896-970 | one more successful iteration appends its actions |
| ViteBase.GetSharedPlugins | src/generators/templates/project/vite.base.config.ts:12-26 | the atomic-CSS plugin, then the declaration plugin, which skips diagnostics and emission on error exactly for `v2` versions |
| ViteBase.SharedPluginsVersionFlag | src/generators/templates/project/vite.base.config.ts:13 | `v2` and `v2.7` count as Vue 2 and `v3` does not |
| ViteBase.BaseBuildConfig | src/generators/templates/project/vite.base.config.ts:30-36 | output goes to `dist/v2` or `dist/v3` beside the config, is not emptied, and is built as ES, CommonJS and UMD |
| ViteBase.LibFileNames | src/generators/templates/project/vite.base.config.ts:37 | every library file is `index.<format>.js`, and different formats never share a file |
| ViteBase.AssetsPerRuntime | src/generators/templates/project/vite.base.config.ts:47-52 | only the stylesheet is placed per runtime, in `v2/` or `v3/` |
| ViteBase.SnapshotBesideTest | src/generators/templates/project/vite.base.config.ts:70-78 | a snapshot lies in the runtime's snapshot directory next to the test and is named after it |
| ViteBase.SnapshotsKeptApart | src/generators/templates/project/vite.base.config.ts:70-78 | the two runtimes never share a snapshot file |
| Vue2Playground.OutputBundle.GenerateBundle | src/generators/templates/project/vue2-playground/vite.config.ts:12-20 | walking the keys rewrites the bundle in place into exactly `FixCjs` of the old bundle, keeping the keys |
| Vue2Playground.FixTouchesOnlyTheChunk | src/generators/templates/project/vue2-playground/vite.config.ts:13-17 | no key is added or removed; only the code of the `index.cjs.js` chunk may change, an asset under that key does not |
| Vue2Playground.OtherFormatsUntouched | src/generators/templates/project/vue2-playground/vite.config.ts:13 | formats other than CommonJS leave the bundle unchanged |
| Vue2Playground.FixCodeShortens | src/generators/templates/project/vue2-playground/vite.config.ts:16 | code not naming the `.mjs` file is unchanged; the rewrite shortens code exactly when it names it |
| Vue2Playground.NothingToFix | src/generators/templates/project/vue2-playground/vite.config.ts:12-20 | a bundle whose chunk never names the `.mjs` file comes out unchanged |
| Vue2Playground.TargetIsTheCommonJsFile | src/generators/templates/project/vue2-playground/vite.config.ts:47 | the key the plugin looks for is exactly the CommonJS library file |
| UseToggle.Toggle.constructor | src/generators/templates/project/src/hooks/useToggle.ts:14-15 | the state starts at the initial value, false by default |
| UseToggle.Toggle.Flip | src/generators/templates/project/src/hooks/useToggle.ts:17-19 | toggling negates the state |
| UseToggle.Toggle.SetValue | src/generators/templates/project/src/hooks/useToggle.ts:21-23 | setting stores the value, whatever the state was |
| UseToggle.DefaultStartsFalse | src/generators/templates/project/src/hooks/useToggle.ts:14 | without an argument the state starts out false |
| UseToggle.ToggleTwice | src/generators/templates/project/src/hooks/useToggle.ts:17-19 | toggling twice restores the state |
| UseToggle.SetThenToggle | src/generators/templates/project/src/hooks/useToggle.ts:17-23 | toggling after setting v gives not v |
| UseToggle.IndependentHooks | src/generators/templates/project/src/hooks/useToggle.ts:14-25 | two hooks never share a cell |

## Left out

- Logging is not modelled, apart from `build`'s watch notice and output check, which are kept as records. This covers `console.log`, chalk colouring, the debug dumps of `createViteConfig` and the prompt's listing.
- The following are inputs rather than behaviour: the glob of `build`, jiti loading, Vite's `build` and `mergeConfig`, `localeCompare`, and the readline prompt. The model assumes nothing about them, except that `mergeConfig` and `fs.copy` are tied to their reference definitions by `Build.Configures` and `Build.Copies` where a lemma needs it.
- Build.Run: `fs.stat` sizes in the output check are not modelled; only whether each path exists is recorded.
- The path join is plain concatenation with `/`; `path.resolve` and `path.join` normalisation (`..`, duplicate slashes, absolute paths) is not modelled.
- Module formats are free strings. The configuration type allows `'esm'`, while the file-name switch only recognises `'es'`, so `'esm'` falls back to `index.js`; this is stated by `Vite.FileNames`.
- Build.TargetConfig: at src/commands/build.ts:43-49 and 62-68, `root` comes before the spread of the `build` section, and `vueVersion`, `outDir` and `mode` come after it. A `root` key inside `build` would therefore replace the component directory. Only the section's type (src/types.ts:10-16) has no such key, and the model's `BuildConfig` follows that type. So the contract's "the component directory as root" holds for well-typed configurations, not for every file jiti could load.
- DevSelect.SortBy: `Array.prototype.sort` is modelled as a stable insertion sort. The engine's algorithm is not modelled; stability is guaranteed by the language since ES2019.
- `localeCompare` is a parameter assumed to be an order only where ordering lemmas need it.
- The body of `linkComponent` (src/commands/dev.ts:548-611), `getComponentPackageInfo` and the regular-expression editing of `App.vue` in `updatePlaygroundAppVue` are left out: they are file-system and text-template glue. In synchronised development a link is one `Link` action whose success is the input `links`: its throws (a component missing from `packages`, an unreadable `package.json`, a failed installation) are not told apart. Only the names that editing uses (the capitalised name, the kebab name and the tag) are modelled, in `DevNaming`.
- `installDependencies` is reduced to one action that succeeds or fails. Its pnpm-then-npm fallback happens inside the collaborator.
- Build.CopyTree: the file map holds files only, not directories. An existing but empty source directory therefore counts as missing and the copy fails, where `fs.copy` (src/commands/build.ts:143-146) succeeds. So `Build.EntryFilesInPlace` and `Build.SuccessfulComponentHasShims`, which conclude that some declaration lies under `dist/types`, describe runs where the Vue 3 build emitted at least one declaration; a run with an empty `dist/v3/types` fails in the model and exits 0 in the source.
- DevPlayground.SetupPlayground: a failing `fs.copy` and a failing `fs.readJson` are one case (`copied` is `None`), with the same actions; `fs.ensureDir`, `fs.writeJson` and `fs.remove` are assumed to succeed.
- DevSync.SyncVersion: as in `setupPlayground`, a failing copy and an unreadable `package.json` are one case; `fs.ensureDir`, `fs.writeJson`, `fs.remove` and the writes of `createSyncIndexFile` are assumed to succeed. A failed `linkComponent` and an unreadable `index.html` are modelled.
- DevSelect.GetAvailableComponents: the listing is given with each entry's kind, so `fs.readdir` and `fs.stat` cannot throw (an entry removed between the two calls, an unreadable `packages` directory).
- `startSyncServers` and `createDevServer` run servers concurrently. They are one `StartServers` action, and `DevStart.Start` takes their success as the input `serversUp`.
- DevStart.Start: the playground directory is keyed by the raw `vueVersion` option, and the docs directory is never used; the model takes the directory's readiness as an input.
- The text of the generated files is not modelled. This covers the control script of synchronised development, reduced to its version label and links, and the demo and `App.vue` templates of `startComponentDev`.
- The declarative parts of the Vue 2 playground configuration (server port, aliases, `optimizeDeps`) are not modelled; only its plugin and the library file name are.
- The `test`, `optimizeDeps` and `globals` settings of `vite.base.config.ts` are not modelled; only the build output, the asset names and the snapshot path are.
- Aggregation into one superset package, a generated `package.json` exports map, per-component JSON manifests and a declaration-file fallback are not modelled: the source contains none of them. `build` stops after the per-component output check.
- DevHistory.LoadDevHistory: a stored file is assumed to hold a well-formed history record, since `HistoryFile.Stored` carries a typed `History`. `fs.readJsonSync` returns whatever JSON the file holds. For a record without `recentComponents` (an empty object, say), the prompt throws outside any `try`: the sort comparator reads the missing list (src/commands/dev.ts:173), and so does the listing (src/commands/dev.ts:192). `saveDevHistory` would also throw once it reaches the filter; its `try` catches that after `lastComponent` was already set, and nothing is written. Neither behaviour is modelled.
- Strings are ASCII for case mapping (`toLowerCase`, `toUpperCase`); Unicode case rules are not modelled.
