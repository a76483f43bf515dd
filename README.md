# Additional Plugin Directories in Dafny

A Dafny model of the WordPress plugin *Additional Plugin Directories*. The plugin lets a site register extra folders from which plugins are discovered, listed, activated and deactivated. The model covers three parts of that bookkeeping:

- **Directory registry.** `register_plugin_directory` records a directory in the global `$wp_plugin_directories`, keyed by its sanitised label. `_get_new_plugin_directory_root` turns a root case into a base path.
- **Core** (`DJ_APD_Core`).
  - Plugin discovery in a registered directory: the selection rule over a directory listing, the header filter, the rewriting of array keys, and the sort by `Name`.
  - Memoisation of discovery per directory key in the object cache.
  - The validation chain of `validate_plugin`.
  - The per-directory lists of active plugins, `active_plugins_{context}`, which `activate_plugin` and `deactivate_plugins` maintain.
- **Admin list table** (`CD_APD_Admin`).
  - The `plugin_status` lookup and the views filters.
  - The plugin-list filter and the activate/deactivate links.
  - `get_plugins` and `setup_actions`.
  - The guard and dispatch of `handle_actions`.
  - The script path helper.

WordPress itself is an input. A value of `Host.Host` supplies:
- the directory listing and `is_readable`;
- the header parser `get_plugin_data`;
- `file_exists`, `validate_file` and `sanitize_title`;
- the path constants and `DIRECTORY_SEPARATOR`;
- the two filters the code applies (`adp_root_{$root}` and `custom_plugin_actions`).

The option store and the object cache are in-memory maps held by the class `Core.PluginCore`. The registry is a map held by `Api.DirectoryRegistry`, and is passed as a value to the core and to the admin screen.

## Layout

| File | Module | Contents |
|---|---|---|
| `wrappers.dfy` | `Wrappers` | `Option` (PHP's `false`/`null`/unset) and `Result` (a `WP_Error` return) |
| `text.dfy` | `Text` | `trim`, the `Users/` rewrite, the dot and `.php` tests, `explode` fields, `trailingslashit`, `basename`, `strrpos`, `str_replace(' ', '%20')` |
| `sorting.dfy` | `Sorting` | code-point order on strings and a stable insertion sort by key, proved sorted and a permutation |
| `host.dfy` | `Host` | plugin headers, directory entries, the registry and the option store, the `active_plugins_` option names, the WordPress functions as an input value |
| `plugins.dfy` | `Plugins` | the ordered `$wp_plugins` array as a sequence with distinct files, and its assignment `Put` |
| `core.dfy` | `Core` | discovery and its loops, memoisation, validation, activation, deactivation, the class `PluginCore` |
| `api.dfy` | `Api` | root paths, argument normalisation, registration, the class `DirectoryRegistry` |
| `admin.dfy` | `Admin` | `get_plugin_status`, views, links, script path, the action guard, the class `PluginAdmin` |

## Notes on the source

- **Duplicate labels.** The code refuses a label whose sanitised key is already present and returns `false` (inc/api.php:63-65). `Api.Register` and `Api.DirectoryRegistry.RegisterDirectory` model the refusal.
- **Which path is scanned.** `get_plugins_from_cache` opens `$wp_plugin_directories[$dir_key]['root']`, the root *case* such as `'content'`, not the directory path `'dir'` (inc/core.php:80, 93). It also builds the header path and the array key from that value. The model does the same: discovery is a function of `dirs[key].root`.
- **Array keys.** The key is built from `explode('/', $plugin_root)[1]`, so a root without `/` contributes the empty string (inc/core.php:151-152). `Text.SecondField` models this.
- **Empty discovery is not cached.** When no plugin file is found, the function returns before the cache is written (inc/core.php:134-136). `Core.CacheAfter` leaves the cache unchanged in that case.
- **Redundant inner check.** The inner `readdir` loop tests the outer name for a leading dot again (inc/core.php:111). `Core.SubdirFiles` keeps the test.
- **Where the admin class is wired.** `CD_APD_Admin` extends `CD_APD_Core`, but the core class is named `DJ_APD_Core` (inc/admin.php:19, inc/core.php:18). The admin methods are modelled as operations of `Admin.PluginAdmin`. That class holds a reference to a `Core.PluginCore` in place of inheritance.

## Model

| member | source | states |
|---|---|---|
| Text.StartsWithDot | inc/core.php:102-117 | definition of the `$ignore_files` test `in_array( substr( $f, 0, 1 ), ... )`, which only `'.'` can pass; used by `Core.SubdirFiles` and `Core.EntryFiles` |
| Text.EndsWithPhp | inc/core.php:119-127 | definition of `'.php' === substr( $f, -4 )`; used by `Core.SubdirFiles` and `Core.EntryFiles` |
| Core.SubdirFiles | inc/core.php:110-122 | definition of the inner `readdir` loop's selection; contract in `Core.SubdirFilesSound` and `Core.SubdirFilesComplete` |
| Core.SubdirFilesSound | inc/core.php:110-122 | every name taken from a sub-directory is `dir/file.php` with neither part starting with `.` |
| Core.SubdirFilesComplete | inc/core.php:110-122 | every such name is taken |
| Core.EntryFiles | inc/core.php:100-127 | definition of what one top-level entry contributes; contract in `Core.SelectionSound` and `Core.SelectionComplete` |
| Core.PluginFiles | inc/core.php:96-129 | definition of the selected list; contract in `Core.SelectionSound` and `Core.SelectionComplete` |
| Core.Selectable | inc/core.php:96-129 | definition of the selection rule (a non-dot top-level `.php` file, or a non-dot `dir/file.php` one level down), the reference for `Core.SelectionSound` and `Core.SelectionComplete` |
| Core.SelectionSound | inc/core.php:96-129 | every selected name is a top-level `.php` file or `dir/file.php` one level down, neither name starting with `.`; so it never starts with `.` and always ends in `.php` |
| Core.SelectionComplete | inc/core.php:96-129 | every name admitted by that rule is selected |
| Core.ScanPluginFiles | inc/core.php:91-132 | the nested loops build exactly the selected list `PluginFiles(listing)` |
| Plugins.Put | inc/core.php:154 | assigning `$list[$file]`: files stay distinct, the new entry is present, entries for other files are kept, nothing else appears, the length grows by one only for a new file |
| Host.HasName | inc/core.php:146 | definition of `! empty( $plugin_data['Name'] )`; used by `Core.Contributes` |
| Core.Contributes | inc/core.php:139-148 | definition of the two `continue` tests of the `foreach`; used by `Core.AddPlugin` |
| Host.NameOf | inc/core.php:157 | definition of `$a['Name']` as the sort key, `""` for a missing header; used by `Plugins.NameKey`, the key `Core.Discover` sorts by |
| Core.PluginKey | inc/core.php:150-154 | the array key is trimmed at both ends |
| Core.AddPlugin | inc/core.php:139-154 | one loop step keeps the array's files distinct |
| Core.Collect | inc/core.php:138-155 | the collected array has distinct files |
| Core.CollectPlugins | inc/core.php:138-155 | the `foreach` loop computes `Collect` of the plugin files |
| Core.CollectSound | inc/core.php:138-155 | each collected entry comes from a readable file with a `Name` header, under that file's rewritten key with that file's header |
| Core.LastWriter | inc/core.php:154 | definition of "the assignment of `files[i]` is the last one to its key"; used by `Core.CollectLastWins` and `Core.DiscoverSpec` |
| Core.WritesKey | inc/core.php:139-154 | definition of "this file is put under this key"; used by `Core.LastWriter` |
| Core.CollectLastWins | inc/core.php:138-155 | every collected entry is written by a contributing file after which no contributing file has the same key, so the later header overwrites the earlier |
| Core.LastWriterExtends | inc/core.php:138-155 | a file that writes another key leaves the last writer of a key unchanged |
| Core.CollectComplete | inc/core.php:138-155 | every readable file with a `Name` header has an entry under its key |
| Core.DiscoverSpec | inc/core.php:134-157 | a discovered list has distinct files, a non-empty `Name` for every entry and trimmed keys; it is sorted by `Name`, is sound and is complete for the contributing files, and each entry holds the header of the last file written under its key |
| Core.Discover | inc/core.php:134-157 | definition of discovery (scan, collect, sort); contract in `Core.DiscoverSpec` |
| Core.Lookup | inc/core.php:76-169 | definition of what `get_plugins_from_cache` returns; contract in `Core.LookupStable` and `Core.PluginCore.GetPluginsFromCache` |
| Core.CacheAfter | inc/core.php:134-166 | definition of the cache after a call; contract in `Core.LookupStable`, `Core.LookupsStable` and `Core.MissIsStored` |
| Core.LookupStable | inc/core.php:87-89 | a call never changes what any later call returns; keys other than the one looked up keep their cache status |
| Core.LookupsStable | inc/core.php:87-89 | the same for every key at once |
| Core.MissIsStored | inc/core.php:164-166 | a miss with plugin files stores its result, which the next call returns |
| Core.PluginCore.GetPluginsFromCache | inc/core.php:72-169 | returns `Lookup` of the old cache and leaves the cache as `CacheAfter`; the result is well formed; an unregistered key returns the empty list and leaves the cache alone; a hit returns the cached entry unchanged |
| Plugins.HasFile | inc/core.php:306 | definition of `isset( $plugins[ $plugin ] )`; used by `Core.Validate` and `Plugins.Put` |
| Core.Validate | inc/core.php:286-316 | each error code holds exactly when its check fails and every earlier one passes, in the order `plugin_invalid`, `invalid_context`, `plugin_not_found`, `no_plugin_header`; success returns `"{dir}/{plugin}"` |
| Core.ValidatedHasHeader | inc/core.php:306-313 | a plugin that validates has an entry with a non-empty `Name`; on a miss, its key is that of a discovered file |
| Core.PluginCore.ValidatePlugin | inc/core.php:286-316 | the result is `Validate` against the looked-up list, and the cache becomes `CacheAfter` |
| Core.Normalise | inc/core.php:181-182 | the activated name is trimmed |
| Host.ActiveList | inc/core.php:187 | definition of `get_option( "active_plugins_{$context}", array() )`; used by `Core.Activation`, `Core.Deactivation` and `Admin.ActionLinks` |
| Core.ActivatedList | inc/core.php:215-217 | definition of the written list; contract in `Core.ActivatedListSpec` |
| Core.Activation | inc/core.php:180-235 | definition of `activate_plugin` on the option store, including an included file that ends the request before the write; contract in `Core.ActivationNoChange` and `Core.ActivationAdds` |
| Core.ActivatedListSpec | inc/core.php:215-217 | the written list is sorted and is the old list plus the plugin, which occurs once when it was absent |
| Core.ActivationNoChange | inc/core.php:180-235 | a failed validation returns that validation error; a valid plugin that is already active returns `true`; a valid inactive plugin whose file ends the request (inc/core.php:208) ends with nothing written; in all three cases the option store is unchanged |
| Core.ActivationAdds | inc/core.php:208-229 | a valid inactive plugin whose file returns: its directory's list becomes sorted, gains exactly that plugin once and keeps every old entry; the unexpected-output error comes only after that write; every other directory's list is unchanged |
| Core.PluginCore.ActivatePlugin | inc/core.php:180-236 | outcome and new option store are `Activation` of the old store and the looked-up list (so a request ended by the included file writes nothing); the cache becomes `CacheAfter` |
| Core.AsList | inc/core.php:250 | definition of the `(array) $plugins` cast; used by `Core.Deactivation` |
| Core.FirstIndex | inc/core.php:261 | `array_search` on a present name: an index holding the name with no earlier occurrence |
| Core.RemoveFirst | inc/core.php:253-265 | definition of one loop step (`in_array`, `array_search`, `array_splice`); contract in `Core.RemoveFirstMultiset`, `Core.RemoveFirstOrder` and `Core.RemoveFirstSorted` |
| Core.TrimEach | inc/core.php:250-251 | definition of the trimmed names; contract in `Core.TrimEachSpec` |
| Core.RemoveEach | inc/core.php:250-271 | definition of the whole loop; contract in `Core.RemoveEachMultiset`, `Core.RemoveEachOrder` and `Core.RemoveEachSorted` |
| Core.TrimEachSpec | inc/core.php:250-251 | each name is trimmed, in order, none dropped |
| Core.RemoveFirstMultiset | inc/core.php:253-265 | an absent name leaves the list as it was; otherwise exactly one occurrence goes |
| Core.RemoveFirstOrder | inc/core.php:264 | splicing keeps the other entries in their relative order |
| Core.RemoveFirstSorted | inc/core.php:264 | splicing a sorted list keeps it sorted |
| Core.RemoveEachMultiset | inc/core.php:248-273 | the written list is the old list as a multiset minus the requested names |
| Core.RemoveEachOrder | inc/core.php:248-273 | the written list is a subsequence of the old one |
| Core.RemoveEachSorted | inc/core.php:248-273 | a sorted active list stays sorted |
| Core.Deactivation | inc/core.php:248-273 | definition of `deactivate_plugins` on the option store; contract in `Core.DeactivationTouchesOnlyContext` and the `RemoveEach` lemmas |
| Core.RemoveNames | inc/core.php:250-271 | the loop computes `RemoveEach` of the trimmed names |
| Core.PluginCore.DeactivatePlugins | inc/core.php:247-274 | one write at the end: the option store becomes `Deactivation`, the directory's list replaced by `RemoveEach` of the trimmed names |
| Core.DeactivationTouchesOnlyContext | inc/core.php:248-273 | no other directory's list changes |
| Host.OptionName | inc/core.php:187 | the option name is `active_plugins_` followed by the directory key |
| Host.OptionNameInjective | inc/core.php:219 | different directories never share an option |
| Host.UpdateTouchesOnlyContext | inc/core.php:273 | writing a directory's option changes that directory's list only |
| Text.Trim | inc/core.php:182 | no trimmable character is left at either end |
| Text.TrimIsSlice | inc/core.php:251 | `trim` returns the slice of its argument that starts after the leading trimmable characters, and drops only trimmable characters |
| Text.TrimIdempotent | inc/core.php:251 | trimming twice is trimming once |
| Text.StripUsersPrefix | inc/core.php:152 | a leading `Users/` is dropped once; any other string is unchanged |
| Text.SecondField | inc/core.php:151-152 | `explode('/', s)[1]` holds no `/`, and is empty when `s` has none |
| Text.SecondFieldAfterFirst | inc/core.php:151-152 | when `s` has a `/`, the field is the text after the first `/` up to the next one (or the end) |
| Text.LastSegment | inc/api.php:104-106 | `array_pop(explode(c, s))` is the suffix after the last `c`, with no `c` in it |
| Text.DropTrailing | inc/api.php:116 | `rtrim( s, chars )`: a prefix of `s` that does not end in one of `chars`, with only characters of `chars` dropped; used by `Text.TrailingSlashIt` and `Text.Basename` |
| Text.TrailingSlashIt | inc/api.php:116 | the input without its trailing `/` and `\`, followed by exactly one `/` |
| Text.Basename | inc/admin.php:361-362 | the basename contains no `/` |
| Text.BasenameIsLastComponent | inc/admin.php:361-362 | the basename is the whole last `/`-free component of the path once its trailing slashes are dropped |
| Text.BasenameOccurs | inc/admin.php:361 | the basename occurs in the path just before its trailing slashes |
| Text.LastIndexOf | inc/admin.php:361 | `strrpos` yields an occurrence and no later one exists |
| Text.EncodeSpaces | inc/admin.php:398 | the result has no space, equals the input when there is none, and is two characters longer per space |
| Text.EncodeSpacesAppend | inc/admin.php:398 | encoding works piecewise: the encoding of a concatenation is the concatenation of the encodings |
| Text.EncodeSpacesChar | inc/admin.php:398 | a space becomes `%20` and every other character is kept |
| Sorting.Leq | inc/core.php:217 | definition of the order used in place of `sort` and `_sort_uname_callback`: lexicographic by code point, a prefix first; every "sorted" claim means this order |
| Sorting.InsertBy | inc/core.php:157 | inserting adds the element to the multiset and keeps a sorted list sorted |
| Sorting.SortBy | inc/core.php:157 | the sort is a permutation and its result is sorted |
| Sorting.SortByMembers | inc/core.php:157 | sorting keeps exactly the same members |
| Sorting.SortByDistinct | inc/core.php:157 | sorting keeps the files distinct |
| Sorting.LeqReflexive | inc/core.php:217 | the string order is reflexive |
| Sorting.LeqAntisymmetric | inc/core.php:217 | two strings ordered both ways are equal |
| Sorting.LeqTransitive | inc/core.php:217 | the string order is transitive |
| Sorting.LeqTotal | inc/core.php:217 | the string order is total |
| Api.AfterLast | inc/api.php:103-107 | the part after the last separator: a suffix with no separator, preceded by one unless it is the whole string |
| Api.LastOfLast | inc/api.php:103-107 | popping after splitting on the separator, then after splitting on `/`, takes what follows the last of either |
| Api.LastComponent | inc/api.php:103-107 | the `'root'` case is the last component of `WP_CONTENT_DIR` |
| Api.RootBase | inc/api.php:90-114 | `'plugins'`, `'muplugins'` and `'content'` give their constants; `'root'` gives the last component of the content dir; any other case goes through the filter, with the content dir as default |
| Api.RootPath | inc/api.php:89-117 | the root path is the base path with its trailing slashes replaced by exactly one `/` |
| Api.NormaliseArgs | inc/api.php:29-47 | a non-array argument becomes `{dir, label}` from the deprecated parameters; given fields are kept; `root` defaults to `'content'` |
| Api.ResolveDir | inc/api.php:52-57 | definition of the recorded `dir`; contract in `Api.Register` |
| Api.RegistryKey | inc/api.php:59-60 | definition of the key, the sanitised label; contract in `Api.Register` |
| Api.Field | inc/api.php:53-70 | definition of `$args['dir']` and `$args['label']`, `""` when unset; used by `Api.ResolveDir`, `Api.RegistryKey` and `Api.Register` |
| Api.Register | inc/api.php:27-75 | accepted exactly when the sanitised label is not yet a key; a refusal leaves the registry unchanged; an acceptance adds exactly that key with `{dir, label, root}`, keeps every other entry, and uses the root-prefixed `dir` only when the plain `dir` does not exist and the prefixed one does |
| Api.RegisterGrowsByOne | inc/api.php:67-74 | an accepted registration adds exactly one directory |
| Api.RegisterTwiceRefused | inc/api.php:60-65 | registering the same arguments again is refused and changes nothing |
| Api.DirectoryRegistry.RegisterDirectory | inc/api.php:27-75 | the result and the new registry are `Register` of the old registry |
| Admin.Truthy | inc/admin.php:259 | definition of PHP truthiness of the status: `false`, `""` and `"0"` are false; used by `Admin.ViewsHide`, `Admin.PluginAdmin.FilterPlugins` and `Admin.Decide` |
| Admin.AsText | inc/admin.php:398 | definition of the status as a string (`false` reads as `""`); used by `Admin.Decide` and `Admin.ActionLinks` |
| Admin.PluginStatus | inc/admin.php:486-504 | a status is returned exactly when the registry is set and the requested status is one of its keys, and it is the requested one; otherwise `false` |
| Admin.IsCurrent | inc/admin.php:222 | definition of `$this->get_plugin_status() == $key`, with `false` loosely equal to `""` and `"0"`; used by `Admin.PluginAdmin.Views` |
| Admin.ViewsHide | inc/admin.php:240-246 | only `inactive` is removed, and only on a custom directory's screen; other entries are unchanged |
| Admin.ActionLinks | inc/admin.php:279-312 | exactly one link: `activate` when the file is not in the current directory's active list, `deactivate` when it is, for that file and directory |
| Admin.ReplaceLast | inc/admin.php:358-363 | `substr_replace` at the last occurrence keeps the prefix before it and the suffix after it |
| Admin.BasenameFound | inc/admin.php:361 | `strrpos` always finds the basename in the path |
| Admin.ScriptsFileCb | inc/admin.php:354-364 | definition of `scripts_file_cb`; contract in `Admin.ScriptsFileCbReplacesLast` and `Admin.ScriptsFileCbReplacesBasename` |
| Admin.ScriptsFileCbReplacesLast | inc/admin.php:354-364 | the last occurrence of the basename in the chosen root is replaced by the sub-directory, prefix and suffix intact |
| Admin.ScriptsFileCbReplacesBasename | inc/admin.php:354-364 | with a non-empty basename, the replaced occurrence is the basename itself, so only the trailing slashes follow it |
| Admin.Decide | inc/admin.php:396-410 | ignored exactly when the action is not allowed or the plugin is missing or falsy; activation and deactivation get the plugin and the current directory with spaces written `%20` |
| Admin.DefaultActionsOnly | inc/admin.php:141-150 | with the default action list, only `custom_activate` and `custom_deactivate` get through |
| Admin.PluginAdmin.SetupActions | inc/admin.php:141-150 | the allowed actions are the filtered default pair |
| Admin.PluginAdmin.GetPlugins | inc/admin.php:374-384 | afterwards every registered key has its looked-up list, the other entries stay, and no later lookup changes |
| Admin.PluginAdmin.FetchInto | inc/admin.php:381-383 | one round of the loop: the key gets its lookup, nothing else in the array changes, and no later lookup changes |
| Admin.Count | inc/admin.php:214 | definition of `count( $this->plugins[ $key ] )`, zero for a key never fetched; used by `Admin.PluginAdmin.Views` |
| Admin.PluginAdmin.Views | inc/admin.php:203-229 | no registered directory means no change; otherwise one link per registered directory with plugins, none for empty ones, and every other entry kept |
| Admin.PluginAdmin.FilterPlugins | inc/admin.php:256-266 | on a custom directory's screen, returns that directory's plugins and records the original count; otherwise returns the input and records nothing |
| Admin.Handled | inc/admin.php:410-475 | definition of the `switch` of `handle_actions`: activation runs through the looked-up list and leaves the cache as `CacheAfter`, deactivation gets the one plugin, and an extension or ignored action changes nothing; used by `Admin.PluginAdmin.Perform` and `Admin.PluginAdmin.HandleActions` |
| Admin.PluginAdmin.Perform | inc/admin.php:410-470 | the dispatch does what `Handled` says: activation or deactivation in the dispatched directory, nothing otherwise |
| Admin.PluginAdmin.HandleActions | inc/admin.php:394-476 | an ignored action changes neither the option store nor the cache; otherwise the effect is that of the decided dispatch |

## Left out

- **Filesystem access.** `opendir`, `readdir`, `is_dir`, `is_readable` and `file_exists` are inputs. A directory that cannot be opened is listed as empty.
- **WordPress functions.** `get_plugin_data`, `validate_file`, `sanitize_title`, `plugin_dir_path` and `plugin_dir_url` are inputs. Their own behaviour is not part of this model.
- **Persistence.** `get_option`, `update_option`, `wp_cache_get` and `wp_cache_set` become in-memory maps. Object-cache expiry and other cache users are not modelled.
- **Hooks.** The hook plumbing is left out: `add_action`, `add_filter`, the `do_action` calls for (de)activation, `custom_plugin_redirect`, and the `$silent` parameter that only switches those calls.
  - The two filters whose values feed the bookkeeping are kept as inputs: `adp_root_{$root}` and `custom_plugin_actions`.
- **HTTP control flow.** Redirects, nonces, permission checks, `wp_die`, `exit` and `headers_sent` are not modelled.
  - The branch at inc/admin.php:462 also uses the undefined `$status`, `$page` and `$s`.
  - Extension actions (`custom_plugin_dir_{$action}`) are only recognised, not run.
- **Output buffering and `include_once`.** Including the plugin's file is reduced to one input, `Core.IncludeResult`. The file returns having printed nothing, returns having printed something (`ob_get_length() > 0`), or ends the request with a fatal error or `exit`, in which case nothing is written. What the plugin's file itself does is not modelled.
  - `print` of an error message, which returns 1, is modelled as the outcome `Failed`.
- **Markup.** Markup and translation are reduced to the keys and fields that matter. This covers the `sprintf` links, `esc_html`, `add_query_arg`, `wp_nonce_url` and `__`.
- **Screen code.** `style`, `scripts` and `init` only enqueue and hook, and are not modelled. Nor is `option_active_plugins`, whose filter is commented out (inc/admin.php:88).
- **Order of the views list.** `views()` adds its links in registry order (inc/admin.php:212-226). The model's views are a map, so the order of the entries in the returned array is not captured, only which entries it holds and what each one is.
- **Deprecation notice.** The `_deprecated_argument` notice and its `debug_backtrace` are left out.
- **Bootstrap and client code.** `load_plugins`, the bootstrap, the updater and the JavaScript only include files, fetch updates or change the page.
- **PHP value semantics.** Strings stand for all argument values.
  - PHP strings are byte strings: `substr`, `strlen`, `strrpos` and `substr_replace` use byte offsets, and `sort` compares bytes. The model works on characters. For valid UTF-8 and the ASCII needles used here (`/`, `.php`, `Users/`, spaces) the results are the same.
  - Loose comparisons (`in_array`, `==`, `switch`) are modelled as string equality.
  - Integer-like array keys are not converted to integers.
  - A non-string `$_REQUEST['plugin']` is not modelled.
- **Missing array entries.** A missing `dir` or `label` in the registration arguments, and a directory never fetched in `filter_plugins`, read as PHP `null`. The model interpolates them as `""` and the empty list.
  - `Admin.Count` treats the `count(null)` of a never-fetched directory as 0.
- **Unguarded read in `validate_plugin`.** It reads `$wp_plugin_directories[$context]['dir']` before its `isset` check (inc/core.php:289). The model only uses the directory once the context is known to be registered, which gives the same result.
- Sorting.SortBy: orders by code point. `_sort_uname_callback` (case-insensitive natural order) and PHP's `sort` flags are not reproduced. The contract states only "sorted in this order and a permutation".
- Text.LastIndexOf: follows PHP 8, where an empty needle is found at the end of the string.
