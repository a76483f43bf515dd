/**
 * The WordPress installation the plugin runs in, as seen by the model: the
 * filesystem, the plugin header parser, WordPress's validation and
 * sanitising helpers, the path constants and the filters other code may
 * install. None of these is defined by the plugin; each is an input.
 */
module Host {

  /** A plugin header as `get_plugin_data` returns it: header name to value. */
  type PluginData = map<string, string>

  /** `! empty( $plugin_data['Name'] )`: the header is set and is neither `""` nor `"0"`. */
  predicate HasName(d: PluginData) {
    "Name" in d && d["Name"] != "" && d["Name"] != "0"
  }

  /** The `Name` header, or the empty string when it is missing. */
  function NameOf(d: PluginData): string {
    if "Name" in d then d["Name"] else ""
  }

  /** One name returned by `readdir` on a plugin root: a file, or a directory
      together with the names `readdir` returns inside it (a directory that
      cannot be opened lists nothing). */
  datatype Entry = File(name: string) | Dir(name: string, files: seq<string>)

  /** What `register_plugin_directory` records for a directory: its path, its
      label (`displayLabel`, since `label` is a Dafny keyword) and its root case. */
  datatype Directory = Directory(dir: string, displayLabel: string, root: string)

  /** The global `$wp_plugin_directories`, keyed by the sanitised label. */
  type Registry = map<string, Directory>

  /** The option store (`get_option` / `update_option`) restricted to the lists
      of active plugin files the plugin keeps. */
  type Options = map<string, seq<string>>

  const ACTIVE_PLUGINS_PREFIX := "active_plugins_"

  /** The option holding the active plugin files of directory `context`. */
  function OptionName(context: string): (name: string)
    ensures HasPrefixActive(name) && name[|ACTIVE_PLUGINS_PREFIX|..] == context
  {
    ACTIVE_PLUGINS_PREFIX + context
  }

  predicate HasPrefixActive(name: string) {
    |ACTIVE_PLUGINS_PREFIX| <= |name| && name[..|ACTIVE_PLUGINS_PREFIX|] == ACTIVE_PLUGINS_PREFIX
  }

  /** Distinct directories never share an option. */
  lemma OptionNameInjective(a: string, b: string)
    requires OptionName(a) == OptionName(b)
    ensures a == b
  {
    assert a == OptionName(a)[|ACTIVE_PLUGINS_PREFIX|..];
  }

  /** `get_option( "active_plugins_{$context}", array() )`. */
  function ActiveList(options: Options, context: string): seq<string> {
    if OptionName(context) in options then options[OptionName(context)] else []
  }

  /** `update_option( "active_plugins_{$context}", $written )` rewrites the
      list of `context` alone. */
  lemma UpdateTouchesOnlyContext(options: Options, context: string, written: seq<string>, other: string)
    ensures ActiveList(options[OptionName(context) := written], context) == written
    ensures other != context ==> ActiveList(options[OptionName(context) := written], other) == ActiveList(options, other)
  {
    if other != context && OptionName(other) == OptionName(context) {
      OptionNameInjective(other, context);
    }
  }

  /** The parts of WordPress the plugin calls but does not define. */
  datatype Host = Host(
    /** `opendir`/`readdir`/`is_dir` on a plugin root: its entries, in `readdir` order. */
    listing: string -> seq<Entry>,
    /** `is_readable` */
    isReadable: string -> bool,
    /** `get_plugin_data( $file, false, false )` */
    pluginData: string -> PluginData,
    /** `file_exists` */
    fileExists: string -> bool,
    /** `validate_file`: 0 for an acceptable relative path, a positive code otherwise. */
    validateFile: string -> int,
    /** `sanitize_title` */
    sanitizeTitle: string -> string,
    /** `WP_CONTENT_DIR`, `WP_PLUGIN_DIR`, `WPMU_PLUGIN_DIR`, `DIRECTORY_SEPARATOR` */
    contentDir: string,
    pluginDir: string,
    muPluginDir: string,
    directorySeparator: char,
    /** `apply_filters( "adp_root_{$root}", $default )` as a function of the case and the default. */
    rootFilter: (string, string) -> string,
    /** `apply_filters( 'custom_plugin_actions', $default )` */
    actionsFilter: seq<string> -> seq<string>
  )
}
