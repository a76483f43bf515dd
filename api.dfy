/**
 * The public API of the plugin: `register_plugin_directory`, which records a
 * directory in the global registry `$wp_plugin_directories`, and
 * `_get_new_plugin_directory_root`, which maps a root case to a base path.
 */
module Api {
  import opened Text
  import opened Host

  /** The part of `s` after the last character in `seps` (all of `s` when it has none). */
  function AfterLast(s: string, seps: set<char>): (r: string)
    ensures |r| <= |s| && r == s[|s| - |r|..]
    ensures forall i :: 0 <= i < |r| ==> r[i] !in seps
    ensures |r| < |s| ==> s[|s| - |r| - 1] in seps
  {
    if s == [] || s[|s| - 1] in seps then [] else AfterLast(s[..|s| - 1], seps) + [s[|s| - 1]]
  }

  /** Popping the last field after splitting on `sep`, then the last field of
      that after splitting on `/`, is taking what follows the last of either. */
  lemma {:induction false} LastOfLast(s: string, sep: char)
    ensures LastSegment(LastSegment(s, sep), '/') == AfterLast(s, {sep, '/'})
    decreases |s|
  {
    if s == [] || s[|s| - 1] == sep {
    } else {
      var t := LastSegment(s[..|s| - 1], sep);
      assert LastSegment(s, sep) == t + [s[|s| - 1]];
      assert (t + [s[|s| - 1]])[..|t|] == t;
      LastOfLast(s[..|s| - 1], sep);
    }
  }

  /** The `'root'` case, `array_pop( explode( '/', array_pop( explode( DIRECTORY_SEPARATOR, WP_CONTENT_DIR ) ) ) )`:
      the last component of the path, whichever separator precedes it. */
  function LastComponent(path: string, sep: char): (r: string)
    ensures r == AfterLast(path, {sep, '/'})
  {
    LastOfLast(path, sep);
    LastSegment(LastSegment(path, sep), '/')
  }

  /** The base path of a root case before `trailingslashit`: the `switch` in
      `_get_new_plugin_directory_root`. */
  function RootBase(host: Host, root: string): (b: string)
    ensures root == "plugins" ==> b == host.pluginDir
    ensures root == "muplugins" ==> b == host.muPluginDir
    ensures root == "root" ==> b == LastComponent(host.contentDir, host.directorySeparator)
    ensures root == "content" ==> b == host.contentDir
    ensures root != "plugins" && root != "muplugins" && root != "root" && root != "content"
      ==> b == host.rootFilter(root, host.contentDir)
  {
    if root == "plugins" then host.pluginDir
    else if root == "muplugins" then host.muPluginDir
    else if root == "root" then LastComponent(host.contentDir, host.directorySeparator)
    else if root == "content" then host.contentDir
    else host.rootFilter(root, host.contentDir)
  }

  /** `_get_new_plugin_directory_root( $root )`: the base path of the case,
      ending in exactly one `/`. */
  function RootPath(host: Host, root: string): (r: string)
    ensures SlashedForm(RootBase(host, root), r)
  {
    TrailingSlashIt(RootBase(host, root))
  }

  /** The first argument of `register_plugin_directory`: an associative array,
      or (the deprecated form) anything else. */
  datatype RegisterArgs = Legacy | Settings(fields: map<string, string>)

  /** `$args` once the deprecated form is converted and `wp_parse_args` has
      filled in the default `root`. */
  function NormaliseArgs(args: RegisterArgs, deprecatedDir: string, deprecatedLabel: string): (a: map<string, string>)
    ensures "root" in a
    ensures args.Legacy? ==> a == map["dir" := deprecatedDir, "label" := deprecatedLabel, "root" := "content"]
    ensures args.Settings? ==> a.Keys == args.fields.Keys + {"root"}
    ensures args.Settings? ==> forall k :: k in args.fields ==> a[k] == args.fields[k]
    ensures args.Settings? && "root" !in args.fields ==> a["root"] == "content"
  {
    var fields := if args.Legacy? then map["dir" := deprecatedDir, "label" := deprecatedLabel] else args.fields;
    if "root" in fields then fields else fields["root" := "content"]
  }

  /** `$args[ $k ]` in a string context: a missing entry reads as `null`, i.e. `""`. */
  function Field(a: map<string, string>, k: string): string {
    if k in a then a[k] else ""
  }

  /** The directory recorded: `dir` prefixed by the root path when the plain
      `dir` does not exist and the prefixed one does. */
  function ResolveDir(host: Host, a: map<string, string>): string
    requires "root" in a
  {
    var newDir := RootPath(host, a["root"]) + Field(a, "dir");
    if !host.fileExists(Field(a, "dir")) && host.fileExists(newDir) then newDir else Field(a, "dir")
  }

  /** The key a registration is stored under: the sanitised label. */
  function RegistryKey(host: Host, a: map<string, string>): string {
    host.sanitizeTitle(Field(a, "label"))
  }

  datatype Registration = Registration(accepted: bool, directories: Registry)

  /** The effect of `register_plugin_directory` on the registry and its result. */
  function Register(host: Host, registry: Registry, args: RegisterArgs,
                    deprecatedDir: string, deprecatedLabel: string): (r: Registration)
    ensures var a := NormaliseArgs(args, deprecatedDir, deprecatedLabel);
      var key := RegistryKey(host, a);
      (r.accepted <==> key !in registry)
      && (!r.accepted ==> r.directories == registry)
      && (r.accepted ==> (
            r.directories.Keys == registry.Keys + {key}
            && r.directories[key].displayLabel == Field(a, "label")
            && r.directories[key].root == a["root"]
            && (var dir := Field(a, "dir"); var newDir := RootPath(host, a["root"]) + dir;
                r.directories[key].dir == (if !host.fileExists(dir) && host.fileExists(newDir) then newDir else dir))
            && forall k :: k in registry ==> r.directories[k] == registry[k]))
  {
    var a := NormaliseArgs(args, deprecatedDir, deprecatedLabel);
    var key := RegistryKey(host, a);
    if key in registry then Registration(false, registry)
    else Registration(true, registry[key := Directory(ResolveDir(host, a), Field(a, "label"), a["root"])])
  }

  /** A successful registration adds exactly one directory. */
  lemma RegisterGrowsByOne(host: Host, registry: Registry, args: RegisterArgs,
                           deprecatedDir: string, deprecatedLabel: string)
    requires Register(host, registry, args, deprecatedDir, deprecatedLabel).accepted
    ensures |Register(host, registry, args, deprecatedDir, deprecatedLabel).directories.Keys| == |registry.Keys| + 1
  {
    var a := NormaliseArgs(args, deprecatedDir, deprecatedLabel);
    var key := RegistryKey(host, a);
    assert key !in registry.Keys;
  }

  /** Registering the same arguments a second time is refused and changes nothing. */
  lemma {:induction false} RegisterTwiceRefused(host: Host, registry: Registry, args: RegisterArgs,
                                                deprecatedDir: string, deprecatedLabel: string)
    ensures var first := Register(host, registry, args, deprecatedDir, deprecatedLabel);
      var second := Register(host, first.directories, args, deprecatedDir, deprecatedLabel);
      !second.accepted && second.directories == first.directories
  {
    var a := NormaliseArgs(args, deprecatedDir, deprecatedLabel);
    var key := RegistryKey(host, a);
    var first := Register(host, registry, args, deprecatedDir, deprecatedLabel);
    assert key in first.directories;
  }

  /** The global `$wp_plugin_directories`. */
  class DirectoryRegistry {
    var directories: Registry

    constructor ()
      ensures directories == map[]
    {
      directories := map[];
    }

    /** `register_plugin_directory( $args, $deprecated_dir, $deprecated_label )`. */
    method RegisterDirectory(host: Host, args: RegisterArgs, deprecatedDir: string, deprecatedLabel: string)
      returns (ok: bool)
      modifies this
      ensures Registration(ok, directories) == Register(host, old(directories), args, deprecatedDir, deprecatedLabel)
    {
      var a := NormaliseArgs(args, deprecatedDir, deprecatedLabel);
      var newDir := RootPath(host, a["root"]) + Field(a, "dir");
      var dir := Field(a, "dir");
      if !host.fileExists(dir) && host.fileExists(newDir) {
        dir := newDir;
      }
      var key := host.sanitizeTitle(Field(a, "label"));
      if key in directories {
        return false;
      }
      directories := directories[key := Directory(dir, Field(a, "label"), a["root"])];
      return true;
    }
  }
}
