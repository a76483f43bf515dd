/**
 * The plugin-list screen of the admin area (`CD_APD_Admin`): the custom
 * `plugin_status` views, the list filter, the activate/deactivate links, the
 * guard in front of the custom actions and the script path helper.
 */
module Admin {
  import opened Wrappers
  import opened Text
  import opened Host
  import opened Plugins
  import opened Core

  /** The parts of the request the screen reads: `$_GET['plugin_status']`,
      `$_REQUEST['action']` and `$_REQUEST['plugin']`, each possibly unset. */
  datatype Request = Request(status: Option<string>, action: Option<string>, plugin: Option<string>)

  /** PHP truthiness of a string that may be `false`: unset, `""` and `"0"` are false. */
  predicate Truthy(v: Option<string>) {
    v.Some? && v.value != "" && v.value != "0"
  }

  /** A string that may be `false`, interpolated into a string: `false` reads as `""`. */
  function AsText(v: Option<string>): string {
    v.GetOr("")
  }

  /** `get_plugin_status()`: the requested status when it names a registered
      directory, `false` otherwise (and always when the registry is unset). */
  function PluginStatus(registry: Option<Registry>, requested: Option<string>): (r: Option<string>)
    ensures r.Some? <==> registry.Some? && requested.Some? && requested.value in registry.value
    ensures r.Some? ==> r == requested
  {
    if registry.None? then None
    else if requested.Some? && requested.value in registry.value then requested
    else None
  }

  /** `$this->get_plugin_status() == $key` under PHP's loose comparison: a
      string status compares as a string, `false` equals `""` and `"0"`. */
  predicate IsCurrent(status: Option<string>, key: string) {
    match status
    case Some(s) => s == key
    case None => key == "" || key == "0"
  }

  /** An entry of the views list: markup WordPress or another filter put
      there, or the link to one of the custom directories. */
  datatype View = Markup(html: string) | DirectoryLink(key: string, displayLabel: string, count: nat, current: bool)

  type Views = map<string, View>

  /** `count( $this->plugins[ $key ] )`; a key never fetched counts as empty. */
  function Count(plugins: map<string, PluginList>, key: string): nat {
    if key in plugins then |plugins[key]| else 0
  }

  /** `views_hide( $views )`: the `inactive` view is dropped on a custom
      directory's screen; nothing else changes. */
  function ViewsHide(registry: Option<Registry>, request: Request, views: Views): (r: Views)
    ensures forall k :: k in r <==> k in views && !(k == "inactive" && Truthy(PluginStatus(registry, request.status)))
    ensures forall k :: k in r ==> r[k] == views[k]
  {
    if Truthy(PluginStatus(registry, request.status)) then views - {"inactive"} else views
  }

  /** The kinds of link `action_links` produces. */
  datatype LinkAction = CustomActivate | CustomDeactivate

  /** A link of the custom action `action` for plugin file `file` in directory `context`. */
  datatype Link = Link(action: LinkAction, file: string, context: string)

  /** `action_links( $links, $file, $data, $context )`: the incoming links are
      discarded; exactly one link is returned, to activate a file that is not
      in the current directory's active list and to deactivate one that is. */
  function ActionLinks(options: Options, registry: Option<Registry>, request: Request, file: string): (links: map<string, Link>)
    ensures var context := AsText(PluginStatus(registry, request.status));
      var active := ActiveList(options, context);
      && |links| == 1
      && ("activate" in links <==> file !in active)
      && ("deactivate" in links <==> file in active)
      && (forall k :: k in links ==> links[k].file == file && links[k].context == context)
      && ("activate" in links ==> links["activate"].action == CustomActivate)
      && ("deactivate" in links ==> links["deactivate"].action == CustomDeactivate)
  {
    var context := AsText(PluginStatus(registry, request.status));
    var active := ActiveList(options, context);
    var links := map[];
    var links := if file !in active then links["activate" := Link(CustomActivate, file, context)] else links;
    var links := if file in active then links["deactivate" := Link(CustomDeactivate, file, context)] else links;
    links
  }

  /** `substr_replace( $s, $sub, strrpos( $s, $t ), strlen( $t ) )`: the last
      occurrence of `t` in `s` replaced by `sub`; without one, `strrpos`
      returns `false`, which counts as offset 0. */
  function ReplaceLast(s: string, t: string, sub: string): (r: string)
    ensures var k := LastIndexOf(s, t);
      k.Some? ==> r == s[..k.value] + sub + s[k.value + |t|..]
  {
    match LastIndexOf(s, t)
    case Some(k) => s[..k] + sub + s[k + |t|..]
    case None => sub + (if |t| <= |s| then s[|t|..] else [])
  }

  /** The default of `scripts_file_cb`'s `$sub_dir` parameter: a call that
      omits it is `ScriptsFileCb(kind, pathRoot, urlRoot, DEFAULT_SUB_DIR)`. */
  const DEFAULT_SUB_DIR: string := "js"

  /** `scripts_file_cb( $case, $sub_dir )`: in the plugin's path (`$case` is
      `'path'`) or URL (otherwise), the last occurrence of its basename is
      replaced by `subDir`. */
  function ScriptsFileCb(kind: string, pathRoot: string, urlRoot: string, subDir: string): string {
    var root := if kind == "path" then pathRoot else urlRoot;
    ReplaceLast(root, Basename(root), subDir)
  }

  /** `strrpos` always finds the basename, so `scripts_file_cb` splices
      `subDir` in place of its last occurrence. */
  lemma ScriptsFileCbReplacesLast(kind: string, pathRoot: string, urlRoot: string, subDir: string)
    ensures var root := if kind == "path" then pathRoot else urlRoot;
      var b := Basename(root);
      var k := LastIndexOf(root, b);
      k.Some? && ScriptsFileCb(kind, pathRoot, urlRoot, subDir) == root[..k.value] + subDir + root[k.value + |b|..]
  {
    var root := if kind == "path" then pathRoot else urlRoot;
    BasenameFound(root);
  }

  /** The basename of a path always occurs in it, so `strrpos` never fails here. */
  lemma BasenameFound(root: string)
    ensures LastIndexOf(root, Basename(root)).Some?
  {
    BasenameOccurs(root);
  }

  /** What `scripts_file_cb` rewrites is the basename itself: with a non-empty
      basename, the text before it and the trailing slashes after it stay. */
  lemma {:induction false} ScriptsFileCbReplacesBasename(root: string, subDir: string)
    requires Basename(root) != []
    ensures var stem := DropTrailing(root, {'/'});
      var b := Basename(root);
      var p := |stem| - |b|;
      && 0 <= p && p + |b| <= |root|
      && root[p..p + |b|] == b
      && ScriptsFileCb("path", root, root, subDir) == root[..p] + subDir + root[p + |b|..]
  {
    var stem := DropTrailing(root, {'/'});
    var b := Basename(root);
    var p := |stem| - |b|;
    BasenameOccurs(root);
    ScriptsFileCbReplacesLast("path", root, root, subDir);
    var k := LastIndexOf(root, b).value;
    assert p <= k;
    if p < k {
      // the occurrence at `k` would end on one of the dropped slashes
      assert false;
    }
  }

  /** The actions `setup_actions` offers to the `custom_plugin_actions` filter. */
  const DEFAULT_ACTIONS: seq<string> := ["custom_activate", "custom_deactivate"]

  /** What `handle_actions` goes on to do once its guard has been passed. */
  datatype Dispatch =
    | Ignore
    | Activate(plugin: string, context: string)
    | Deactivate(plugin: string, context: string)
    | Extension(action: string)

  /** The decision at the top of `handle_actions`: an action not in `actions`,
      or a missing or falsy `plugin`, is ignored; otherwise the action is
      dispatched with the current directory, its spaces written `%20`. */
  function Decide(actions: seq<string>, request: Request, status: Option<string>): (d: Dispatch)
    ensures var action := AsText(request.action);
      d.Ignore? <==> action !in actions || !Truthy(request.plugin)
    ensures d.Activate? ==> AsText(request.action) == "custom_activate"
    ensures d.Deactivate? ==> AsText(request.action) == "custom_deactivate"
    ensures d.Extension? ==> (d.action == AsText(request.action)
      && d.action != "custom_activate" && d.action != "custom_deactivate")
    ensures (d.Activate? || d.Deactivate?) ==>
      d.plugin == request.plugin.value && d.context == EncodeSpaces(AsText(status)) && ' ' !in d.context
  {
    var action := AsText(request.action);
    var context := EncodeSpaces(AsText(status));
    if action !in actions then Ignore
    else if !Truthy(request.plugin) then Ignore
    else if action == "custom_activate" then Activate(request.plugin.value, context)
    else if action == "custom_deactivate" then Deactivate(request.plugin.value, context)
    else Extension(action)
  }

  /** The effect of a dispatch on the option store and the cache: nothing for
      an ignored or extension action, `activate_plugin` or `deactivate_plugins`
      in the dispatched directory otherwise. */
  ghost predicate Handled(host: Host, dirs: Registry, d: Dispatch, inclusion: IncludeResult,
                          options: Options, cache: Cache, outcome: Option<ActivateOutcome>,
                          options': Options, cache': Cache)
  {
    match d
    case Ignore => outcome.None? && options' == options && cache' == cache
    case Extension(_) => outcome.None? && options' == options && cache' == cache
    case Activate(plugin, context) =>
      outcome.Some?
      && ActivateStep(outcome.value, options')
        == Activation(host, dirs, Lookup(host, dirs, cache, context), options, plugin, context, inclusion)
      && cache' == CacheAfter(host, dirs, cache, context)
    case Deactivate(plugin, context) =>
      outcome.None? && cache' == cache && options' == Deactivation(options, One(plugin), context)
  }

  /** With the default action list, only the two custom actions get through. */
  lemma DefaultActionsOnly(request: Request, status: Option<string>)
    ensures var d := Decide(DEFAULT_ACTIONS, request, status);
      d.Ignore? || d.Activate? || d.Deactivate?
  {
  }

  /** `CD_APD_Admin`: the plugins fetched per directory, the actions handled
      and the size of WordPress's own plugin list; `core` is the
      `DJ_APD_Core` part of the object. */
  class PluginAdmin {
    var plugins: map<string, PluginList>
    var actions: seq<string>
    var allCount: nat
    const core: PluginCore

    ghost predicate Valid()
      reads this, core
    {
      core.Valid()
    }

    constructor (core: PluginCore)
      requires core.Valid()
      ensures Valid()
      ensures this.core == core && plugins == map[] && actions == [] && allCount == 0
    {
      this.core := core;
      plugins := map[];
      actions := [];
      allCount := 0;
    }

    /** `setup_actions()`. */
    method SetupActions(host: Host)
      modifies this`actions
      ensures actions == host.actionsFilter(DEFAULT_ACTIONS)
    {
      actions := host.actionsFilter(["custom_activate", "custom_deactivate"]);
    }

    /** `get_plugins()`: every registered directory's plugins, looked up
        through the core's cache. */
    method GetPlugins(host: Host, dirs: Registry)
      requires Valid()
      modifies this`plugins, core`cache
      ensures Valid()
      ensures plugins.Keys == old(plugins).Keys + dirs.Keys
      ensures forall k :: k in dirs ==> plugins[k] == Lookup(host, dirs, old(core.cache), k)
      ensures forall k :: k in old(plugins) && k !in dirs ==> plugins[k] == old(plugins)[k]
      ensures forall k :: Lookup(host, dirs, core.cache, k) == Lookup(host, dirs, old(core.cache), k)
    {
      var remaining := dirs.Keys;
      while remaining != {}
        invariant remaining <= dirs.Keys
        invariant core.Valid()
        invariant plugins.Keys == old(plugins).Keys + (dirs.Keys - remaining)
        invariant forall k :: k in dirs && k !in remaining ==> plugins[k] == Lookup(host, dirs, old(core.cache), k)
        invariant forall k :: k in old(plugins) && k !in dirs ==> plugins[k] == old(plugins)[k]
        invariant forall k :: Lookup(host, dirs, core.cache, k) == Lookup(host, dirs, old(core.cache), k)
        decreases remaining
      {
        var key :| key in remaining;
        FetchInto(host, dirs, key);
        remaining := remaining - {key};
      }
    }

    /** One round of the `foreach` in `get_plugins`. */
    method FetchInto(host: Host, dirs: Registry, key: string)
      requires Valid()
      modifies this`plugins, core`cache
      ensures Valid()
      ensures plugins == old(plugins)[key := Lookup(host, dirs, old(core.cache), key)]
      ensures forall k :: Lookup(host, dirs, core.cache, k) == Lookup(host, dirs, old(core.cache), k)
    {
      ghost var before := core.cache;
      var found := core.GetPluginsFromCache(host, dirs, key);
      LookupsStable(host, dirs, before, key);
      plugins := plugins[key := found];
    }

    /** `views( $views )`: no change without registered directories; otherwise
        a link for every directory with plugins, added or replacing the entry
        under its key, and every other entry kept. */
    method Views(registry: Option<Registry>, request: Request, views: Views) returns (r: Views)
      ensures registry.None? || registry.value == map[] ==> r == views
      ensures registry.Some? ==> forall k :: k in r <==> k in views || (k in registry.value && Count(plugins, k) > 0)
      ensures registry.Some? ==> forall k :: k in r ==>
        r[k] == if k in registry.value && Count(plugins, k) > 0
          then DirectoryLink(k, registry.value[k].displayLabel, Count(plugins, k), IsCurrent(PluginStatus(registry, request.status), k))
          else views[k]
    {
      if registry.None? || registry.value == map[] {
        return views;
      }
      var dirs := registry.value;
      var status := PluginStatus(registry, request.status);
      r := views;
      var remaining := dirs.Keys;
      while remaining != {}
        invariant remaining <= dirs.Keys
        invariant forall k :: k in r <==> k in views || (k in dirs && k !in remaining && Count(plugins, k) > 0)
        invariant forall k :: k in r ==>
          r[k] == if k in dirs && k !in remaining && Count(plugins, k) > 0
            then DirectoryLink(k, dirs[k].displayLabel, Count(plugins, k), IsCurrent(status, k))
            else views[k]
        decreases remaining
      {
        var key :| key in remaining;
        var count := Count(plugins, key);
        remaining := remaining - {key};
        if count == 0 {
          continue;
        }
        r := r[key := DirectoryLink(key, dirs[key].displayLabel, count, IsCurrent(status, key))];
      }
    }

    /** `filter_plugins( $plugins )`: on a custom directory's screen the list
        is replaced by that directory's plugins and its original size recorded. */
    method FilterPlugins(registry: Option<Registry>, request: Request, installed: PluginList)
      returns (r: PluginList)
      modifies this`allCount
      ensures var key := PluginStatus(registry, request.status);
        Truthy(key) ==> allCount == |installed| && r == (if key.value in plugins then plugins[key.value] else [])
      ensures var key := PluginStatus(registry, request.status);
        !Truthy(key) ==> allCount == old(allCount) && r == installed
    {
      r := installed;
      var key := PluginStatus(registry, request.status);
      if Truthy(key) {
        allCount := |installed|;
        r := if key.value in plugins then plugins[key.value] else [];
      }
    }

    /** `handle_actions()` without its permission checks, nonces and
        redirects: the guard, then activation or deactivation in the current
        directory. `inclusion` says what including the plugin's file did. */
    method HandleActions(host: Host, registry: Option<Registry>, request: Request, inclusion: IncludeResult)
      returns (outcome: Option<ActivateOutcome>)
      requires Valid()
      modifies core
      ensures Valid()
      ensures Handled(host, registry.GetOr(map[]), Decide(actions, request, PluginStatus(registry, request.status)), inclusion,
                      old(core.options), old(core.cache), outcome, core.options, core.cache)
    {
      var d := Decide(actions, request, PluginStatus(registry, request.status));
      outcome := Perform(host, registry.GetOr(map[]), d, inclusion);
    }

    /** The dispatch of `handle_actions` to `activate_plugin` or `deactivate_plugins`. */
    method Perform(host: Host, dirs: Registry, d: Dispatch, inclusion: IncludeResult)
      returns (outcome: Option<ActivateOutcome>)
      requires Valid()
      modifies core
      ensures Valid()
      ensures Handled(host, dirs, d, inclusion, old(core.options), old(core.cache), outcome, core.options, core.cache)
    {
      outcome := None;
      match d {
        case Activate(plugin, context) =>
          var o := core.ActivatePlugin(host, dirs, plugin, context, inclusion);
          outcome := Some(o);
        case Deactivate(plugin, context) =>
          core.DeactivatePlugins(One(plugin), context);
        case Ignore =>
        case Extension(_) =>
      }
    }
  }
}
