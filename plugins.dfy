/**
 * A list of discovered plugins: the ordered PHP array `$wp_plugins` that maps
 * a plugin file to its header data. Order matters (it is sorted by name), and
 * assigning to an existing file keeps that file's position.
 */
module Plugins {
  import opened Text
  import opened Host

  datatype Plugin = Plugin(file: string, data: PluginData)

  type PluginList = seq<Plugin>

  function FileOf(p: Plugin): string { p.file }

  /** The plugin's `Name` header: the key `_sort_uname_callback` orders by. */
  function NameKey(p: Plugin): string { NameOf(p.data) }

  /** No file appears twice, as in any PHP array. */
  predicate Distinct(list: PluginList) {
    forall i, j :: 0 <= i < j < |list| ==> list[i].file != list[j].file
  }

  /** `isset( $list[ $file ] )` */
  predicate HasFile(list: PluginList, file: string) {
    exists p :: p in list && p.file == file
  }

  /** Putting an entry with a new file in front keeps the files distinct. */
  lemma DistinctCons(x: Plugin, rest: PluginList)
    requires Distinct(rest)
    requires forall p :: p in rest ==> p.file != x.file
    ensures Distinct([x] + rest)
  {
    forall i, j | 0 <= i < j < |[x] + rest|
      ensures ([x] + rest)[i].file != ([x] + rest)[j].file
    {
      assert ([x] + rest)[j] == rest[j - 1];
      if i > 0 {
        assert ([x] + rest)[i] == rest[i - 1];
      }
    }
  }

  /** `$list[ $file ] = $data`: replaces the entry for `file` in place, or appends one. */
  function Put(list: PluginList, file: string, data: PluginData): (r: PluginList)
    requires Distinct(list)
    ensures Distinct(r)
    ensures Plugin(file, data) in r
    ensures forall p :: p in r ==> p == Plugin(file, data) || (p in list && p.file != file)
    ensures forall p :: p in list && p.file != file ==> p in r
    ensures |r| == if HasFile(list, file) then |list| else |list| + 1
  {
    if list == [] then [Plugin(file, data)]
    else if list[0].file == file then
      assert forall p :: p in list[1..] ==> p.file != file by {
        forall k | 0 <= k < |list[1..]| ensures list[1..][k].file != file {
          assert list[1..][k] == list[k + 1];
        }
      }
      assert list == [list[0]] + list[1..];
      DistinctCons(Plugin(file, data), list[1..]);
      [Plugin(file, data)] + list[1..]
    else
      var rest := Put(list[1..], file, data);
      assert list == [list[0]] + list[1..];
      assert HasFile(list, file) == HasFile(list[1..], file);
      assert forall p :: p in rest ==> p.file != list[0].file by {
        forall p | p in rest ensures p.file != list[0].file {
          if p != Plugin(file, data) {
            var k :| 0 <= k < |list[1..]| && list[1..][k] == p;
            assert list[k + 1] == p;
          }
        }
      }
      DistinctCons(list[0], rest);
      [list[0]] + rest
  }

  /** What the plugin keeps about every list it discovers: distinct files, a
      non-empty `Name` header for every plugin, trimmed file keys. */
  predicate WellFormed(list: PluginList) {
    Distinct(list) && forall p :: p in list ==> HasName(p.data) && IsTrimmed(p.file)
  }
}
