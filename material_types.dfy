/** The per-component configuration record that `material.config.ts`
    default-exports (`MaterialConfig`), the same record without its `build`
    part (`ComponentConfig`), and the options of the `build` command. */
module MaterialTypes {
  import opened Wrappers
  import Vite

  /** An arbitrary JSON-like value (`any` in the record's type). */
  datatype Value =
    | Null
    | Bool(b: bool)
    | Number(n: int)
    | Str(s: string)
    | Array(items: seq<Value>)
    | Object(fields: seq<(string, Value)>)

  /** The `build` section: every key may be absent. */
  datatype BuildConfig = BuildConfig(
    target: Option<seq<string>>,
    formats: Option<seq<string>>,
    css: Option<bool>,
    dts: Option<bool>,
    viteConfig: Option<Vite.UserConfig>)

  datatype DocsConfig = DocsConfig(enable: Option<bool>, options: Option<seq<(string, Value)>>)

  datatype InstallConfig = InstallConfig(css: Option<bool>, scss: Option<bool>)

  /** One entry of `props`; `caption` is the setter's `label`, a word
      Dafny reserves. */
  datatype PropConfig = PropConfig(
    name: string,
    description: Option<string>,
    caption: Option<string>,
    defaultValue: Option<Value>,
    required: Option<bool>)

  datatype EventConfig = EventConfig(name: string, value: Value)

  datatype MaterialConfig = MaterialConfig(
    id: string,
    name: string,
    build: BuildConfig,
    docs: Option<DocsConfig>,
    title: string,
    category: string,
    status: Option<string>,
    install: Option<InstallConfig>,
    componentName: string,
    description: Option<string>,
    docUrl: Option<string>,
    screenshot: Option<string>,
    icon: Option<string>,
    group: Option<string>,
    priority: Option<int>,
    keywords: Option<seq<string>>,
    version: Option<string>,
    package: Option<string>,
    snippets: Option<Value>,
    props: Option<seq<PropConfig>>,
    events: Option<seq<EventConfig>>)

  /** `MaterialConfig` without `build`. */
  datatype ComponentConfig = ComponentConfig(
    id: string,
    name: string,
    docs: Option<DocsConfig>,
    title: string,
    category: string,
    status: Option<string>,
    install: Option<InstallConfig>,
    componentName: string,
    description: Option<string>,
    docUrl: Option<string>,
    screenshot: Option<string>,
    icon: Option<string>,
    group: Option<string>,
    priority: Option<int>,
    keywords: Option<seq<string>>,
    version: Option<string>,
    package: Option<string>,
    snippets: Option<Value>,
    props: Option<seq<PropConfig>>,
    events: Option<seq<EventConfig>>)

  /** Options of the `build` command: only `--watch`. */
  datatype BuildOptions = BuildOptions(watch: Option<bool>) {
    /** `if (options.watch)`: absent counts as false. */
    predicate WatchEnabled() { watch == Some(true) }
  }
}
