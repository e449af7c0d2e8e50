/** The decisions of `DevServer.start` (src/commands/dev.ts): which
    component is developed (given on the command line, the last one used,
    or chosen at the prompt), whether synchronised development takes over,
    what the playground links, and when the history is saved. The prompt's
    answer, the state of the playground directory and whether the servers
    come up are inputs. */
module DevStart {
  import opened Wrappers
  import opened DevHistory
  import opened DevSync

  /** A string option as JavaScript tests it: `undefined` and `''` are
      both falsy. */
  predicate Truthy(s: Option<string>) {
    s.Some? && s.value != []
  }

  /** `DevOptions`; `None` is an option that was not given. */
  datatype DevOptions = DevOptions(
    component: Option<string>,
    vueVersion: Option<string>,
    watch: bool,
    mode: Option<string>,
    all: bool,
    last: bool,
    sync: bool,
    vueVersions: Option<seq<string>>)

  /** The component `start` goes on with and whether the prompt ran. */
  datatype Selection = Selection(component: Option<string>, prompted: bool)

  /** The first part of `start`: the explicit component, else the last one
      when `last` is set and there is one, else the prompt's answer
      (`prompt`, what `selectComponent` resolves to) unless `all` is set.
      The prompt runs only as a last resort. */
  function SelectStartComponent(options: DevOptions, history: History, prompt: Option<string>): (s: Selection)
    ensures Truthy(options.component) ==> s == Selection(options.component, false)
    ensures !Truthy(options.component) && options.last && Truthy(history.lastComponent)
            ==> s == Selection(history.lastComponent, false)
    ensures s.prompted <==> !Truthy(options.component) && !(options.last && Truthy(history.lastComponent)) && !options.all
    ensures s.prompted ==> s.component == prompt
  {
    var chosen :=
      if !Truthy(options.component) && options.last && Truthy(history.lastComponent) then history.lastComponent
      else options.component;
    if !Truthy(chosen) && !options.all then Selection(prompt, true) else Selection(chosen, false)
  }

  /** What `start` goes on to do. `link` is the component linked into the
      playground, `''` meaning every component. */
  datatype Branch =
    | Cancelled
    | Sync(versions: seq<string>, link: string)
    | Playground(version: string, setup: bool, link: string)
    | DocsNotImplemented

  /** The branch taken, whether the prompt ran, and the component saved to
      the history (`None`: nothing is saved). */
  datatype StartResult = StartResult(branch: Branch, prompted: bool, saved: Option<string>)

  /** `start()`. `ready` says that the playground directory and its
      `node_modules` exist; `serversUp` that the chosen setup and dev
      servers come up without throwing (a throw ends the process before the
      history is saved).
      - It stops without doing anything exactly when the prompt ran and
        gave no component.
      - `sync` is decided before the mode: even in docs mode it starts
        synchronised development, over the given versions or Vue 2 and 3,
        linking the selected component (whatever `all` says) or every
        component.
      - In playground mode only the selected component is linked, and only
        when `all` is not set; the playground is set up again when it or
        its `node_modules` is missing.
      - Any other mode throws.
      - The history records exactly the selected component, once the
        servers are up: with `all` in playground mode too, never in docs
        mode. */
  function Start(options: DevOptions, history: History, prompt: Option<string>, ready: bool, serversUp: bool): (r: StartResult)
    ensures var selected := SelectStartComponent(options, history, prompt).component;
      && r.prompted == SelectStartComponent(options, history, prompt).prompted
      && (r.branch.Cancelled? <==> r.prompted && !Truthy(prompt))
      && (!r.branch.Cancelled? && options.sync ==>
            r.branch == Sync(options.vueVersions.GetOr(["2", "3"]), LinkTarget(selected)))
      && (!r.branch.Cancelled? && !options.sync && options.mode.GetOr("playground") == "playground" ==>
            && r.branch.Playground?
            && r.branch.version == options.vueVersion.GetOr("3")
            && (r.branch.setup <==> !ready)
            && (r.branch.link != [] <==> Truthy(selected) && !options.all)
            && (r.branch.link != [] ==> r.branch.link == selected.value))
      && (!r.branch.Cancelled? && !options.sync && options.mode.GetOr("playground") != "playground" ==>
            r.branch == DocsNotImplemented)
      && (r.saved.Some? <==> serversUp && Truthy(selected) && (r.branch.Sync? || r.branch.Playground?))
      && (r.saved.Some? ==> r.saved == selected)
  {
    var selection := SelectStartComponent(options, history, prompt);
    var selected := selection.component;
    if selection.prompted && !Truthy(selected) then StartResult(Cancelled, true, None)
    else
      var saved := if serversUp && Truthy(selected) then selected else None;
      if options.sync then
        StartResult(Sync(options.vueVersions.GetOr(DefaultVersions), LinkTarget(selected)), selection.prompted, saved)
      else if options.mode.GetOr("playground") == "playground" then
        var link := if Truthy(selected) && !options.all then selected.value else "";
        StartResult(Playground(options.vueVersion.GetOr("3"), !ready, link), selection.prompted, saved)
      else
        StartResult(DocsNotImplemented, selection.prompted, None)
  }

  /** A run that saves a component leaves it first in the history, which
      then holds at most five components; running again with `last` and
      no explicit component picks it without a prompt. */
  lemma SavedComponentComesBack(options: DevOptions, history: History, prompt: Option<string>, ready: bool,
                                again: DevOptions, prompt2: Option<string>)
    requires Start(options, history, prompt, ready, true).saved.Some?
    requires !Truthy(again.component) && again.last
    ensures var c := Start(options, history, prompt, ready, true).saved.value;
      var h := History(Some(c), Remember(history.recentComponents, c));
      && h.recentComponents[0] == c && |h.recentComponents| <= RecentLimit
      && SelectStartComponent(again, h, prompt2) == Selection(Some(c), false)
  {
    var c := Start(options, history, prompt, ready, true).saved.value;
    RememberFront(history.recentComponents, c);
  }
}
