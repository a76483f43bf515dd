/**
 * `DJ_APD_Core` (inc/core.php): discovery of the plugins in a registered
 * directory, memoised per directory key, and the per-directory lists of
 * active plugins that activation and deactivation maintain.
 */
module Core {
  import opened Wrappers
  import opened Text
  import opened Sorting
  import opened Host
  import opened Plugins

  // ---------------------------------------------------------------------------
  // Discovery: which names of a directory listing are plugin files
  // ---------------------------------------------------------------------------

  /** The `"{$file}/{$subfile}"` names the inner `readdir` loop keeps for directory `dir`. */
  function SubdirFiles(dir: string, files: seq<string>): seq<string>
    decreases |files|
  {
    if files == [] then []
    else
      var f := files[|files| - 1];
      SubdirFiles(dir, files[..|files| - 1])
        + (if !StartsWithDot(dir) && !StartsWithDot(f) && EndsWithPhp(f) then [dir + "/" + f] else [])
  }

  /** The plugin files the outer `readdir` loop takes from one entry. */
  function EntryFiles(e: Entry): seq<string> {
    if StartsWithDot(e.name) then []
    else
      match e
      case File(name) => if EndsWithPhp(name) then [name] else []
      case Dir(name, files) => SubdirFiles(name, files)
  }

  /** `$plugin_files` after both `readdir` loops over `listing`. */
  function PluginFiles(listing: seq<Entry>): seq<string>
    decreases |listing|
  {
    if listing == [] then []
    else PluginFiles(listing[..|listing| - 1]) + EntryFiles(listing[|listing| - 1])
  }

  /** The selection rule: a `.php` file at the top of the listing, or one
      directory down as `dir/file`, where neither name starts with a dot. */
  ghost predicate Selectable(listing: seq<Entry>, p: string) {
    exists e :: e in listing && !StartsWithDot(e.name)
      && ((e.File? && p == e.name && EndsWithPhp(p))
       || (e.Dir? && exists f :: f in e.files && !StartsWithDot(f) && EndsWithPhp(f) && p == e.name + "/" + f))
  }

  lemma EndsWithPhpAppend(a: string, f: string)
    requires EndsWithPhp(f)
    ensures EndsWithPhp(a + f)
  {
    assert (a + f)[|a + f| - 4..] == f[|f| - 4..];
  }

  lemma {:induction false} SubdirFilesSound(dir: string, files: seq<string>, p: string)
    requires p in SubdirFiles(dir, files)
    ensures exists f :: f in files && !StartsWithDot(f) && EndsWithPhp(f) && p == dir + "/" + f
    decreases |files|
  {
    var f := files[|files| - 1];
    if p in SubdirFiles(dir, files[..|files| - 1]) {
      SubdirFilesSound(dir, files[..|files| - 1], p);
      var g :| g in files[..|files| - 1] && !StartsWithDot(g) && EndsWithPhp(g) && p == dir + "/" + g;
      assert g in files;
    } else {
      assert p == dir + "/" + f && f in files;
    }
  }

  lemma {:induction false} SubdirFilesComplete(dir: string, files: seq<string>, f: string)
    requires !StartsWithDot(dir) && f in files && !StartsWithDot(f) && EndsWithPhp(f)
    ensures dir + "/" + f in SubdirFiles(dir, files)
    decreases |files|
  {
    if f != files[|files| - 1] {
      var i :| 0 <= i < |files| && files[i] == f;
      assert files[..|files| - 1][i] == f;
      SubdirFilesComplete(dir, files[..|files| - 1], f);
    }
  }

  /** Every selected name obeys the selection rule; in particular it does not
      start with a dot and it ends in `.php`. */
  lemma {:induction false} SelectionSound(listing: seq<Entry>, p: string)
    requires p in PluginFiles(listing)
    ensures Selectable(listing, p)
    ensures !StartsWithDot(p) && EndsWithPhp(p)
    decreases |listing|
  {
    var init, e := listing[..|listing| - 1], listing[|listing| - 1];
    if p in PluginFiles(init) {
      SelectionSound(init, p);
      var e' :| e' in init && !StartsWithDot(e'.name)
        && ((e'.File? && p == e'.name && EndsWithPhp(p))
         || (e'.Dir? && exists f :: f in e'.files && !StartsWithDot(f) && EndsWithPhp(f) && p == e'.name + "/" + f));
      assert e' in listing;
    } else {
      assert p in EntryFiles(e) && !StartsWithDot(e.name);
      if e.Dir? {
        SubdirFilesSound(e.name, e.files, p);
        var f :| f in e.files && !StartsWithDot(f) && EndsWithPhp(f) && p == e.name + "/" + f;
        EndsWithPhpAppend(e.name + "/", f);
        assert e.name == [] ==> p[0] == '/';
        assert e.name != [] ==> p[0] == e.name[0];
      }
    }
  }

  /** Every name the selection rule admits is selected. */
  lemma {:induction false} SelectionComplete(listing: seq<Entry>, p: string)
    requires Selectable(listing, p)
    ensures p in PluginFiles(listing)
    decreases |listing|
  {
    var e :| e in listing && !StartsWithDot(e.name)
      && ((e.File? && p == e.name && EndsWithPhp(p))
       || (e.Dir? && exists f :: f in e.files && !StartsWithDot(f) && EndsWithPhp(f) && p == e.name + "/" + f));
    var init := listing[..|listing| - 1];
    if e == listing[|listing| - 1] {
      if e.Dir? {
        var f :| f in e.files && !StartsWithDot(f) && EndsWithPhp(f) && p == e.name + "/" + f;
        SubdirFilesComplete(e.name, e.files, f);
      }
    } else {
      var i :| 0 <= i < |listing| && listing[i] == e;
      assert init[i] == e;
      SelectionComplete(init, p);
    }
  }

  // ---------------------------------------------------------------------------
  // Discovery: from plugin files to the sorted plugin list
  // ---------------------------------------------------------------------------

  /** The array key for `file`: `explode('/', $plugin_root)[1]`, a slash and the
      file, with one leading `Users/` dropped, then trimmed. */
  function PluginKey(root: string, file: string): (key: string)
    ensures IsTrimmed(key)
  {
    Trim(StripUsersPrefix(SecondField(root, '/') + "/" + file))
  }

  /** `file` passes the `is_readable` test and its header has a `Name`. */
  predicate Contributes(host: Host, root: string, file: string) {
    host.isReadable(root + "/" + file) && HasName(host.pluginData(root + "/" + file))
  }

  /** One step of the `foreach ( $plugin_files ... )` loop. */
  function AddPlugin(host: Host, root: string, list: PluginList, file: string): (r: PluginList)
    requires Distinct(list)
    ensures Distinct(r)
  {
    if Contributes(host, root, file) then
      Put(list, PluginKey(root, file), host.pluginData(root + "/" + file))
    else list
  }

  /** `$wp_plugins` after the `foreach` loop, before sorting. */
  function Collect(host: Host, root: string, files: seq<string>): (r: PluginList)
    ensures Distinct(r)
    decreases |files|
  {
    if files == [] then []
    else AddPlugin(host, root, Collect(host, root, files[..|files| - 1]), files[|files| - 1])
  }

  /** What a miss computes for the directory whose root is `root`. */
  function Discover(host: Host, root: string): PluginList {
    var files := PluginFiles(host.listing(root));
    if files == [] then [] else SortBy(Collect(host, root, files), NameKey)
  }

  /** Each collected plugin comes from one contributing file: its key is that
      file's key and its data is that file's header. */
  lemma {:induction false} CollectSound(host: Host, root: string, files: seq<string>, p: Plugin)
    requires p in Collect(host, root, files)
    ensures exists f :: (f in files && Contributes(host, root, f)
      && p == Plugin(PluginKey(root, f), host.pluginData(root + "/" + f)))
    decreases |files|
  {
    var init, f := files[..|files| - 1], files[|files| - 1];
    var prev := Collect(host, root, init);
    if Contributes(host, root, f) && p == Plugin(PluginKey(root, f), host.pluginData(root + "/" + f)) {
    } else {
      assert p in prev;
      CollectSound(host, root, init, p);
      var g :| g in init && Contributes(host, root, g)
        && p == Plugin(PluginKey(root, g), host.pluginData(root + "/" + g));
      assert g in files;
    }
  }

  /** `files[i]` contributes `p`, and no later contributing file has the same
      key: the assignment `$wp_plugins[ $key ] = $plugin_data` of `files[i]` is
      the last one to that key. */
  predicate LastWriter(host: Host, root: string, files: seq<string>, i: int, p: Plugin) {
    0 <= i < |files| && Contributes(host, root, files[i])
    && p == Plugin(PluginKey(root, files[i]), host.pluginData(root + "/" + files[i]))
    && forall g :: g in files[i + 1..] ==> !WritesKey(host, root, g, p.file)
  }

  /** `file` contributes an entry under `key`. */
  predicate WritesKey(host: Host, root: string, file: string, key: string) {
    Contributes(host, root, file) && PluginKey(root, file) == key
  }

  /** When several files share a key, the entry holds the header of the last
      of them. */
  lemma {:induction false} CollectLastWins(host: Host, root: string, files: seq<string>, p: Plugin)
    requires p in Collect(host, root, files)
    ensures exists i :: LastWriter(host, root, files, i, p)
    decreases |files|
  {
    var init, f := files[..|files| - 1], files[|files| - 1];
    var prev := Collect(host, root, init);
    if Contributes(host, root, f) && p == Plugin(PluginKey(root, f), host.pluginData(root + "/" + f)) {
      assert LastWriter(host, root, files, |files| - 1, p);
    } else {
      assert p in prev && !WritesKey(host, root, f, p.file);
      CollectLastWins(host, root, init, p);
      var i :| LastWriter(host, root, init, i, p);
      LastWriterExtends(host, root, files, i, p);
    }
  }

  /** A last writer stays the last writer when the next file writes another key. */
  lemma LastWriterExtends(host: Host, root: string, files: seq<string>, i: int, p: Plugin)
    requires files != [] && LastWriter(host, root, files[..|files| - 1], i, p)
    requires !WritesKey(host, root, files[|files| - 1], p.file)
    ensures LastWriter(host, root, files, i, p)
  {
    var init := files[..|files| - 1];
    assert files[i] == init[i];
    assert files[i + 1..] == init[i + 1..] + [files[|files| - 1]];
  }

  /** Every contributing file has an entry under its key. */
  lemma {:induction false} CollectComplete(host: Host, root: string, files: seq<string>, f: string)
    requires f in files && Contributes(host, root, f)
    ensures HasFile(Collect(host, root, files), PluginKey(root, f))
    decreases |files|
  {
    var init, last := files[..|files| - 1], files[|files| - 1];
    var prev := Collect(host, root, init);
    if f == last {
      assert Plugin(PluginKey(root, f), host.pluginData(root + "/" + f)) in Collect(host, root, files);
    } else {
      var i :| 0 <= i < |files| && files[i] == f;
      assert init[i] == f;
      CollectComplete(host, root, init, f);
      var p :| p in prev && p.file == PluginKey(root, f);
      if Contributes(host, root, last) && PluginKey(root, last) == p.file {
        assert Plugin(PluginKey(root, last), host.pluginData(root + "/" + last)) in Collect(host, root, files);
      } else {
        assert p in Collect(host, root, files);
      }
    }
  }

  /** A discovered list is well formed, sorted by `Name`, holds exactly one
      entry per key of a contributing file, and nothing else. */
  lemma DiscoverSpec(host: Host, root: string)
    ensures WellFormed(Discover(host, root))
    ensures SortedBy(Discover(host, root), NameKey)
    ensures forall p :: p in Discover(host, root) ==>
      exists f :: f in PluginFiles(host.listing(root)) && Contributes(host, root, f)
        && p == Plugin(PluginKey(root, f), host.pluginData(root + "/" + f))
    ensures forall f :: f in PluginFiles(host.listing(root)) && Contributes(host, root, f) ==>
      HasFile(Discover(host, root), PluginKey(root, f))
    ensures forall p :: p in Discover(host, root) ==>
      exists i :: LastWriter(host, root, PluginFiles(host.listing(root)), i, p)
  {
    var files := PluginFiles(host.listing(root));
    if files != [] {
      var c := Collect(host, root, files);
      var r := SortBy(c, NameKey);
      SortByDistinct(c, NameKey, FileOf);
      forall p | p in r
        ensures exists f :: (f in files && Contributes(host, root, f)
          && p == Plugin(PluginKey(root, f), host.pluginData(root + "/" + f)))
      {
        SortByMembers(c, NameKey, p);
        CollectSound(host, root, files, p);
      }
      forall p | p in r
        ensures exists i :: LastWriter(host, root, files, i, p)
      {
        SortByMembers(c, NameKey, p);
        CollectLastWins(host, root, files, p);
      }
      forall f | f in files && Contributes(host, root, f)
        ensures HasFile(r, PluginKey(root, f))
      {
        CollectComplete(host, root, files, f);
        var p :| p in c && p.file == PluginKey(root, f);
        SortByMembers(c, NameKey, p);
      }
    }
  }

  // ---------------------------------------------------------------------------
  // Memoisation per directory key
  // ---------------------------------------------------------------------------

  /** The `'plugins'` object-cache entry: discovered lists by directory key. */
  type Cache = map<string, PluginList>

  /** What `get_plugins_from_cache( $key )` returns for a given cache. */
  function Lookup(host: Host, dirs: Registry, cache: Cache, key: string): PluginList {
    if key !in dirs then []
    else if key in cache then cache[key]
    else Discover(host, dirs[key].root)
  }

  /** The cache after `get_plugins_from_cache( $key )`: a miss stores its result,
      except when no plugin file was found at all. */
  function CacheAfter(host: Host, dirs: Registry, cache: Cache, key: string): Cache {
    if key !in dirs || key in cache || PluginFiles(host.listing(dirs[key].root)) == [] then cache
    else cache[key := Discover(host, dirs[key].root)]
  }

  /** A lookup never changes what any later lookup returns: all keys other than
      `key` keep their entry, and `key` itself is then answered the same way. */
  lemma LookupStable(host: Host, dirs: Registry, cache: Cache, key: string, other: string)
    ensures Lookup(host, dirs, CacheAfter(host, dirs, cache, key), other) == Lookup(host, dirs, cache, other)
    ensures other != key ==> (other in CacheAfter(host, dirs, cache, key) <==> other in cache)
  {
  }

  /** The same, for every key at once. */
  lemma LookupsStable(host: Host, dirs: Registry, cache: Cache, key: string)
    ensures forall other :: Lookup(host, dirs, CacheAfter(host, dirs, cache, key), other) == Lookup(host, dirs, cache, other)
  {
    forall other
      ensures Lookup(host, dirs, CacheAfter(host, dirs, cache, key), other) == Lookup(host, dirs, cache, other)
    {
      LookupStable(host, dirs, cache, key, other);
    }
  }

  /** A stored result is what the second call returns from the cache. */
  lemma MissIsStored(host: Host, dirs: Registry, cache: Cache, key: string)
    requires key in dirs && key !in cache && PluginFiles(host.listing(dirs[key].root)) != []
    ensures key in CacheAfter(host, dirs, cache, key)
    ensures CacheAfter(host, dirs, cache, key)[key] == Lookup(host, dirs, cache, key)
  {
  }

  // ---------------------------------------------------------------------------
  // Validation (pure)
  // ---------------------------------------------------------------------------

  /** The `WP_Error` codes of `validate_plugin`. */
  datatype ValidationError = PluginInvalid | InvalidContext | PluginNotFound | NoPluginHeader

  /** `validate_plugin` given the directory's installed plugins: the checks in
      their order, the first that fails decides; success yields `"{dir}/{plugin}"`. */
  function Validate(host: Host, dirs: Registry, plugin: string, context: string, installed: PluginList)
    : (r: Result<string, ValidationError>)
    ensures r == Err(PluginInvalid) <==> host.validateFile(plugin) > 0
    ensures r == Err(InvalidContext) <==> host.validateFile(plugin) <= 0 && context !in dirs
    ensures r == Err(PluginNotFound) <==>
      host.validateFile(plugin) <= 0 && context in dirs && !host.fileExists(dirs[context].dir + "/" + plugin)
    ensures r == Err(NoPluginHeader) <==>
      host.validateFile(plugin) <= 0 && context in dirs && host.fileExists(dirs[context].dir + "/" + plugin)
      && !HasFile(installed, plugin)
    ensures r.Ok? ==> context in dirs && r.value == dirs[context].dir + "/" + plugin
  {
    if host.validateFile(plugin) > 0 then Err(PluginInvalid)
    else if context !in dirs then Err(InvalidContext)
    else if !host.fileExists(dirs[context].dir + "/" + plugin) then Err(PluginNotFound)
    else if !HasFile(installed, plugin) then Err(NoPluginHeader)
    else Ok(dirs[context].dir + "/" + plugin)
  }

  /** The cache only ever holds well-formed lists. */
  ghost predicate CacheValid(cache: Cache) {
    forall k :: k in cache ==> WellFormed(cache[k])
  }

  /** A plugin that validates against the looked-up list has a non-empty `Name`
      header there, and on a miss its key is the key of a discovered file. */
  lemma ValidatedHasHeader(host: Host, dirs: Registry, cache: Cache, plugin: string, context: string)
    requires CacheValid(cache)
    requires Validate(host, dirs, plugin, context, Lookup(host, dirs, cache, context)).Ok?
    ensures exists p :: p in Lookup(host, dirs, cache, context) && p.file == plugin && HasName(p.data)
    ensures context !in cache ==>
      exists f :: f in PluginFiles(host.listing(dirs[context].root)) && Contributes(host, dirs[context].root, f)
        && plugin == PluginKey(dirs[context].root, f)
  {
    var installed := Lookup(host, dirs, cache, context);
    var p :| p in installed && p.file == plugin;
    if context !in cache {
      DiscoverSpec(host, dirs[context].root);
    }
  }

  // ---------------------------------------------------------------------------
  // Activation and deactivation
  // ---------------------------------------------------------------------------

  /** The plugin name as `activate_plugin` uses it: one leading `Users/` dropped, trimmed. */
  function Normalise(plugin: string): (r: string)
    ensures IsTrimmed(r)
  {
    Trim(StripUsersPrefix(plugin))
  }

  /** How `activate_plugin` ends: the printed error message (`print` returns 1),
      `true` for a plugin that is already active, the `unexpected_output`
      error, `exit` after a clean activation, or the request ended by the
      plugin's own file before anything was written. */
  datatype ActivateOutcome = Failed(error: ValidationError) | AlreadyActive | UnexpectedOutput | Activated | Ended

  /** What `include_once( $valid )` does: return having printed nothing,
      return having printed something, or end the request (a fatal error or
      an `exit` in the plugin's file), in which case nothing after it runs. */
  datatype IncludeResult = Clean | Printed | Aborted

  /** The list `activate_plugin` writes: the plugin appended, then `sort`. */
  function ActivatedList(current: seq<string>, plugin: string): seq<string> {
    SortBy(current + [plugin], Self)
  }

  /** The written list is sorted and holds the old entries and the plugin once more. */
  lemma ActivatedListSpec(current: seq<string>, plugin: string)
    ensures SortedBy(ActivatedList(current, plugin), Self)
    ensures multiset(ActivatedList(current, plugin)) == multiset(current) + multiset{plugin}
    ensures plugin !in current ==> multiset(ActivatedList(current, plugin))[plugin] == 1
  {
    assert multiset(current + [plugin]) == multiset(current) + multiset{plugin};
    if plugin !in current {
      assert multiset(current)[plugin] == 0;
    }
  }

  datatype ActivateStep = ActivateStep(outcome: ActivateOutcome, options: Options)

  /** `activate_plugin( $plugin, $context )` on the option store, given the
      installed plugins of `context` and what including the plugin's file did. */
  function Activation(host: Host, dirs: Registry, installed: PluginList, options: Options,
                      plugin: string, context: string, inclusion: IncludeResult): ActivateStep
  {
    var name := Normalise(plugin);
    var current := ActiveList(options, context);
    match Validate(host, dirs, name, context, installed)
    case Err(e) => ActivateStep(Failed(e), options)
    case Ok(_) =>
      if name in current then ActivateStep(AlreadyActive, options)
      else
        match inclusion
        case Aborted => ActivateStep(Ended, options)
        case Printed => ActivateStep(UnexpectedOutput, options[OptionName(context) := ActivatedList(current, name)])
        case Clean => ActivateStep(Activated, options[OptionName(context) := ActivatedList(current, name)])
  }

  /** A failed validation, a plugin already active, or an included file that
      ends the request leaves every list as it was. */
  lemma ActivationNoChange(host: Host, dirs: Registry, installed: PluginList, options: Options,
                           plugin: string, context: string, inclusion: IncludeResult)
    requires var v := Validate(host, dirs, Normalise(plugin), context, installed);
      v.Err? || Normalise(plugin) in ActiveList(options, context) || inclusion.Aborted?
    ensures Activation(host, dirs, installed, options, plugin, context, inclusion).options == options
    ensures var v := Validate(host, dirs, Normalise(plugin), context, installed);
      v.Err? ==> Activation(host, dirs, installed, options, plugin, context, inclusion) == ActivateStep(Failed(v.error), options)
    ensures var v := Validate(host, dirs, Normalise(plugin), context, installed);
      v.Ok? && Normalise(plugin) in ActiveList(options, context)
      ==> Activation(host, dirs, installed, options, plugin, context, inclusion) == ActivateStep(AlreadyActive, options)
    ensures var v := Validate(host, dirs, Normalise(plugin), context, installed);
      v.Ok? && Normalise(plugin) !in ActiveList(options, context) && inclusion.Aborted?
      ==> Activation(host, dirs, installed, options, plugin, context, inclusion) == ActivateStep(Ended, options)
  {
  }

  /** Activating a valid, inactive plugin whose file returns writes a sorted
      list of `context` with the plugin exactly once and every old entry kept,
      reports the plugin's output only after that write, and touches no other list. */
  lemma ActivationAdds(host: Host, dirs: Registry, installed: PluginList, options: Options,
                       plugin: string, context: string, inclusion: IncludeResult, other: string)
    requires Validate(host, dirs, Normalise(plugin), context, installed).Ok?
    requires Normalise(plugin) !in ActiveList(options, context)
    requires !inclusion.Aborted?
    ensures var a := Activation(host, dirs, installed, options, plugin, context, inclusion);
      && SortedBy(ActiveList(a.options, context), Self)
      && multiset(ActiveList(a.options, context)) == multiset(ActiveList(options, context)) + multiset{Normalise(plugin)}
      && multiset(ActiveList(a.options, context))[Normalise(plugin)] == 1
      && a.outcome == (if inclusion.Printed? then UnexpectedOutput else Activated)
      && (other != context ==> ActiveList(a.options, other) == ActiveList(options, other))
  {
    ActivatedListSpec(ActiveList(options, context), Normalise(plugin));
    if other != context && OptionName(other) == OptionName(context) {
      OptionNameInjective(other, context);
    }
  }

  /** `(array) $plugins`: one name or a list of names. */
  datatype PluginNames = One(name: string) | Many(names: seq<string>)

  function AsList(plugins: PluginNames): seq<string> {
    match plugins
    case One(n) => [n]
    case Many(ns) => ns
  }

  /** `array_search( $x, $s )` for a present `x`: the index of its first occurrence. */
  function FirstIndex(s: seq<string>, x: string): (i: nat)
    requires x in s
    ensures i < |s| && s[i] == x && x !in s[..i]
  {
    if s[0] == x then 0
    else
      var i := 1 + FirstIndex(s[1..], x);
      assert s[..i] == [s[0]] + s[1..][..i - 1];
      i
  }

  /** `array_splice( $s, array_search( $x, $s ), 1 )` when `x` is present; nothing otherwise. */
  function RemoveFirst(s: seq<string>, x: string): seq<string> {
    if x in s then s[..FirstIndex(s, x)] + s[FirstIndex(s, x) + 1..] else s
  }

  /** The trimmed names, as `deactivate_plugins` looks them up. */
  function TrimEach(names: seq<string>): seq<string> {
    if names == [] then [] else TrimEach(names[..|names| - 1]) + [Trim(names[|names| - 1])]
  }

  /** Every name is trimmed, in order, none dropped. */
  lemma {:induction false} TrimEachSpec(names: seq<string>)
    ensures |TrimEach(names)| == |names|
    ensures forall i :: 0 <= i < |names| ==> TrimEach(names)[i] == Trim(names[i])
    decreases |names|
  {
    if names != [] {
      var init := names[..|names| - 1];
      TrimEachSpec(init);
      forall i | 0 <= i < |names| - 1
        ensures TrimEach(names)[i] == Trim(names[i])
      {
        assert init[i] == names[i];
      }
    }
  }

  /** The list `deactivate_plugins` writes, given the trimmed names: for each
      name in turn, its first remaining occurrence removed. */
  function RemoveEach(current: seq<string>, names: seq<string>): seq<string>
    decreases |names|
  {
    if names == [] then current
    else RemoveFirst(RemoveEach(current, names[..|names| - 1]), names[|names| - 1])
  }

  /** `a` is `b` with some elements left out, the rest in their order. */
  predicate IsSubsequence(a: seq<string>, b: seq<string>)
    decreases |b|
  {
    a == [] || (b != [] && ((a[0] == b[0] && IsSubsequence(a[1..], b[1..])) || IsSubsequence(a, b[1..])))
  }

  lemma {:induction false} SubsequenceReflexive(a: seq<string>)
    ensures IsSubsequence(a, a)
    decreases |a|
  {
    if a != [] { SubsequenceReflexive(a[1..]); }
  }

  lemma {:induction false} SubsequenceTransitive(a: seq<string>, b: seq<string>, c: seq<string>)
    requires IsSubsequence(a, b) && IsSubsequence(b, c)
    ensures IsSubsequence(a, c)
    decreases |c|
  {
    if a != [] {
      if IsSubsequence(b, c[1..]) {
        SubsequenceTransitive(a, b, c[1..]);
      } else if IsSubsequence(a, b[1..]) {
        SubsequenceTransitive(a, b[1..], c[1..]);
      } else {
        SubsequenceTransitive(a[1..], b[1..], c[1..]);
      }
    }
  }

  /** Dropping the element at `i` keeps the others in order. */
  lemma {:induction false} DropOneIsSubsequence(s: seq<string>, i: nat)
    requires i < |s|
    ensures IsSubsequence(s[..i] + s[i + 1..], s)
    decreases i
  {
    if i == 0 {
      assert s[..0] + s[1..] == s[1..];
      SubsequenceReflexive(s[1..]);
    } else {
      DropOneIsSubsequence(s[1..], i - 1);
      assert (s[..i] + s[i + 1..])[1..] == s[1..][..i - 1] + s[1..][i..];
    }
  }

  /** Removing the first occurrence of a present name takes out exactly one copy
      of it; an absent name changes nothing. */
  lemma RemoveFirstMultiset(s: seq<string>, x: string)
    ensures x !in s ==> RemoveFirst(s, x) == s
    ensures multiset(RemoveFirst(s, x)) == multiset(s) - multiset{x}
  {
    if x in s {
      var i := FirstIndex(s, x);
      assert s == s[..i] + [s[i]] + s[i + 1..];
      assert multiset(s) == multiset(s[..i]) + multiset{x} + multiset(s[i + 1..]);
    } else {
      assert multiset(s)[x] == 0;
    }
  }

  /** Removing the first occurrence keeps the other entries in their order. */
  lemma RemoveFirstOrder(s: seq<string>, x: string)
    ensures IsSubsequence(RemoveFirst(s, x), s)
  {
    if x in s {
      DropOneIsSubsequence(s, FirstIndex(s, x));
    } else {
      SubsequenceReflexive(s);
    }
  }

  /** Removing an entry from a sorted list leaves it sorted. */
  lemma RemoveFirstSorted(s: seq<string>, x: string)
    requires SortedBy(s, Self)
    ensures SortedBy(RemoveFirst(s, x), Self)
  {
    if x in s {
      var i := FirstIndex(s, x);
      var r := s[..i] + s[i + 1..];
      forall a, b | 0 <= a < b < |r|
        ensures Leq(r[a], r[b])
      {
        var a', b' := if a < i then a else a + 1, if b < i then b else b + 1;
        assert r[a] == s[a'] && r[b] == s[b'];
      }
    }
  }

  lemma MultisetDifferenceStep(a: multiset<string>, b: multiset<string>, x: string)
    ensures (a - b) - multiset{x} == a - (b + multiset{x})
  {
  }

  /** Deactivation removes one copy of each requested name that is still
      present and skips names that are absent. */
  lemma {:induction false} RemoveEachMultiset(current: seq<string>, names: seq<string>)
    ensures multiset(RemoveEach(current, names)) == multiset(current) - multiset(names)
    decreases |names|
  {
    if names != [] {
      var init := names[..|names| - 1];
      var x := names[|names| - 1];
      RemoveEachMultiset(current, init);
      RemoveFirstMultiset(RemoveEach(current, init), x);
      assert names == init + [x];
      MultisetDifferenceStep(multiset(current), multiset(init), x);
    }
  }

  /** Deactivation keeps the remaining entries in their relative order. */
  lemma {:induction false} RemoveEachOrder(current: seq<string>, names: seq<string>)
    ensures IsSubsequence(RemoveEach(current, names), current)
    decreases |names|
  {
    if names == [] {
      SubsequenceReflexive(current);
    } else {
      var prev := RemoveEach(current, names[..|names| - 1]);
      var x := names[|names| - 1];
      RemoveEachOrder(current, names[..|names| - 1]);
      RemoveFirstOrder(prev, x);
      SubsequenceTransitive(RemoveFirst(prev, x), prev, current);
    }
  }

  /** Deactivation keeps a sorted list sorted. */
  lemma {:induction false} RemoveEachSorted(current: seq<string>, names: seq<string>)
    requires SortedBy(current, Self)
    ensures SortedBy(RemoveEach(current, names), Self)
    decreases |names|
  {
    if names != [] {
      RemoveEachSorted(current, names[..|names| - 1]);
      RemoveFirstSorted(RemoveEach(current, names[..|names| - 1]), names[|names| - 1]);
    }
  }

  /** The option store after `deactivate_plugins( $plugins, $context )`. */
  function Deactivation(options: Options, plugins: PluginNames, context: string): Options {
    options[OptionName(context) := RemoveEach(ActiveList(options, context), TrimEach(AsList(plugins)))]
  }

  /** `deactivate_plugins` rewrites the list of `context` alone: the other
      directories' lists are left as they were. */
  lemma DeactivationTouchesOnlyContext(options: Options, plugins: PluginNames, context: string, other: string)
    requires other != context
    ensures ActiveList(Deactivation(options, plugins, context), other) == ActiveList(options, other)
  {
    UpdateTouchesOnlyContext(options, context, RemoveEach(ActiveList(options, context), TrimEach(AsList(plugins))), other);
  }

  /** The loop of `deactivate_plugins`: each name trimmed and its first occurrence spliced out. */
  method RemoveNames(initial: seq<string>, names: seq<string>) returns (current: seq<string>)
    ensures current == RemoveEach(initial, TrimEach(names))
  {
    current := initial;
    var i := 0;
    while i < |names|
      invariant 0 <= i <= |names|
      invariant current == RemoveEach(initial, TrimEach(names[..i]))
    {
      var plugin := Trim(names[i]);
      if plugin in current {
        var key := FirstIndex(current, plugin);
        current := current[..key] + current[key + 1..];
      }
      assert names[..i + 1][..i] == names[..i];
      i := i + 1;
    }
    assert names[..i] == names;
  }

  /** The two `readdir` loops of `get_plugins_from_cache`. */
  method ScanPluginFiles(listing: seq<Entry>) returns (pluginFiles: seq<string>)
    ensures pluginFiles == PluginFiles(listing)
  {
    pluginFiles := [];
    var i := 0;
    while i < |listing|
      invariant 0 <= i <= |listing|
      invariant pluginFiles == PluginFiles(listing[..i])
    {
      var entry := listing[i];
      assert listing[..i + 1][..i] == listing[..i];
      if !StartsWithDot(entry.name) {
        match entry
        case File(name) =>
          if EndsWithPhp(name) {
            pluginFiles := pluginFiles + [name];
          }
        case Dir(name, files) =>
          var j := 0;
          while j < |files|
            invariant 0 <= j <= |files|
            invariant pluginFiles == PluginFiles(listing[..i]) + SubdirFiles(name, files[..j])
          {
            var subfile := files[j];
            assert files[..j + 1][..j] == files[..j];
            if !StartsWithDot(name) && !StartsWithDot(subfile) && EndsWithPhp(subfile) {
              pluginFiles := pluginFiles + [name + "/" + subfile];
            }
            j := j + 1;
          }
          assert files[..j] == files;
      }
      i := i + 1;
    }
    assert listing[..i] == listing;
  }

  /** The `foreach ( $plugin_files ... )` loop of `get_plugins_from_cache`. */
  method CollectPlugins(host: Host, pluginRoot: string, pluginFiles: seq<string>) returns (wpPlugins: PluginList)
    ensures wpPlugins == Collect(host, pluginRoot, pluginFiles)
  {
    wpPlugins := [];
    var k := 0;
    while k < |pluginFiles|
      invariant 0 <= k <= |pluginFiles|
      invariant wpPlugins == Collect(host, pluginRoot, pluginFiles[..k])
    {
      var pluginFile := pluginFiles[k];
      assert pluginFiles[..k + 1][..k] == pluginFiles[..k];
      if host.isReadable(pluginRoot + "/" + pluginFile) {
        var pluginData := host.pluginData(pluginRoot + "/" + pluginFile);
        if HasName(pluginData) {
          wpPlugins := Put(wpPlugins, PluginKey(pluginRoot, pluginFile), pluginData);
        }
      }
      k := k + 1;
    }
    assert pluginFiles[..k] == pluginFiles;
  }

  // ---------------------------------------------------------------------------
  // The class
  // ---------------------------------------------------------------------------

  /** `DJ_APD_Core` with the two stores it reads and writes: the option store
      (the active lists) and the object cache (the discovered lists). */
  class PluginCore {
    var options: Options
    var cache: Cache

    ghost predicate Valid()
      reads this
    {
      CacheValid(cache)
    }

    constructor (options: Options)
      ensures Valid()
      ensures this.options == options && cache == map[]
    {
      this.options := options;
      cache := map[];
    }

    /** `get_plugins_from_cache( $dir_key )`. */
    method GetPluginsFromCache(host: Host, dirs: Registry, dirKey: string) returns (plugins: PluginList)
      requires Valid()
      modifies this`cache
      ensures Valid()
      ensures plugins == Lookup(host, dirs, old(cache), dirKey)
      ensures cache == CacheAfter(host, dirs, old(cache), dirKey)
      ensures WellFormed(plugins)
      ensures dirKey !in dirs ==> plugins == [] && cache == old(cache)
      ensures dirKey in dirs && dirKey in old(cache) ==> plugins == old(cache)[dirKey] && cache == old(cache)
    {
      if dirKey !in dirs {
        return [];
      }
      var pluginRoot := dirs[dirKey].root;
      if dirKey in cache {
        return cache[dirKey];
      }

      var pluginFiles := ScanPluginFiles(host.listing(pluginRoot));
      if pluginFiles == [] {
        return [];
      }
      var wpPlugins := CollectPlugins(host, pluginRoot, pluginFiles);
      wpPlugins := SortBy(wpPlugins, NameKey);
      DiscoverSpec(host, pluginRoot);
      cache := cache[dirKey := wpPlugins];
      plugins := wpPlugins;
    }

    /** `validate_plugin( $plugin, $context )`, which looks the directory's
        plugins up through the cache first. */
    method ValidatePlugin(host: Host, dirs: Registry, plugin: string, context: string)
      returns (r: Result<string, ValidationError>)
      requires Valid()
      modifies this`cache
      ensures Valid()
      ensures r == Validate(host, dirs, plugin, context, Lookup(host, dirs, old(cache), context))
      ensures cache == CacheAfter(host, dirs, old(cache), context)
    {
      var installed := GetPluginsFromCache(host, dirs, context);
      r := Validate(host, dirs, plugin, context, installed);
    }

    /** `activate_plugin( $plugin, $context )`; `inclusion` says what including
        the plugin's file did. */
    method ActivatePlugin(host: Host, dirs: Registry, plugin: string, context: string, inclusion: IncludeResult)
      returns (outcome: ActivateOutcome)
      requires Valid()
      modifies this
      ensures Valid()
      ensures ActivateStep(outcome, options)
        == Activation(host, dirs, Lookup(host, dirs, old(cache), context), old(options), plugin, context, inclusion)
      ensures cache == CacheAfter(host, dirs, old(cache), context)
    {
      var name := Normalise(plugin);
      var current := ActiveList(options, context);
      var valid := ValidatePlugin(host, dirs, name, context);
      if valid.Err? {
        return Failed(valid.error);
      }
      if name !in current {
        if inclusion.Aborted? {
          return Ended;
        }
        current := current + [name];
        current := SortBy(current, Self);
        options := options[OptionName(context) := current];
        if inclusion.Printed? {
          return UnexpectedOutput;
        }
        return Activated;
      }
      return AlreadyActive;
    }

    /** `deactivate_plugins( $plugins, $context )`. */
    method DeactivatePlugins(plugins: PluginNames, context: string)
      modifies this`options
      ensures options == Deactivation(old(options), plugins, context)
    {
      var current := ActiveList(options, context);
      var names := AsList(plugins);
      current := RemoveNames(current, names);
      options := options[OptionName(context) := current];
    }
  }
}
