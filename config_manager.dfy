/** The configuration manager: each plugin gets a directory named after it
    under the configuration root, seeded from the plugin's default
    configuration directory and, when it already exists, topped up with the
    default entries it lacks without overwriting anything.

    The file system is a tree of named directories and files. */
module ConfigManager {
  import opened Wrappers
  import opened PluginBase

  datatype Tree = File(content: string) | Dir(entries: map<string, Tree>)

  /** The node reached from `t` by following the names in `p`, if any. */
  function Get(t: Tree, p: seq<string>): (r: Option<Tree>)
    ensures p == [] ==> r == Some(t)
    decreases p
  {
    if p == [] then Some(t)
    else if t.File? || p[0] !in t.entries then None
    else Get(t.entries[p[0]], p[1..])
  }

  /** The error a copy into, or a listing of, something that is not a
      directory raises. */
  const NotADirectory := "NotADirectoryError"

  /** What `_merge_default_configs` leaves at one name: a default item whose
      target is missing is copied; a default directory whose target exists is
      merged into it; a default file whose target exists leaves the target. */
  function MergeItem(item: Tree, target: Option<Tree>): (r: Result<Tree, string>)
    decreases item, 2
  {
    if target.None? then Ok(item)
    else if item.Dir? then Merge(item, target.value)
    else Ok(target.value)
  }

  function Lookup(m: map<string, Tree>, n: string): Option<Tree>
  {
    if n in m then Some(m[n]) else None
  }

  /** `_merge_default_configs(default_dir, target_dir)`. A target that is a
      file cannot receive anything: the merge fails unless the default
      directory is empty. */
  function Merge(d: Tree, t: Tree): (r: Result<Tree, string>)
    requires d.Dir?
    ensures r.Ok? ==> r.value.Dir? == t.Dir?
    decreases d, 1
  {
    if t.File? then (if d.entries == map[] then Ok(t) else Err(NotADirectory))
    else if exists n :: n in d.entries && MergeItem(d.entries[n], Lookup(t.entries, n)).Err? then Err(NotADirectory)
    else Ok(Dir(map n | n in d.entries.Keys + t.entries.Keys ::
                  if n in d.entries then MergeItem(d.entries[n], Lookup(t.entries, n)).value
                  else t.entries[n]))
  }

  /** The merge never changes a file that already exists. */
  lemma {:induction false} MergeKeepsFiles(d: Tree, t: Tree, p: seq<string>, c: string)
    requires d.Dir? && Merge(d, t).Ok? && Get(t, p) == Some(File(c))
    ensures Get(Merge(d, t).value, p) == Some(File(c))
    decreases p
  {
    if p != [] {
      var r := Merge(d, t).value;
      var n := p[0];
      if n in d.entries && d.entries[n].Dir? {
        assert r.entries[n] == Merge(d.entries[n], t.entries[n]).value;
        MergeKeepsFiles(d.entries[n], t.entries[n], p[1..], c);
      } else {
        assert r.entries[n] == t.entries[n];
      }
    }
  }

  /** Everything the default directory holds exists after the merge (as the
      default entry or as what was already there). */
  lemma {:induction false} MergeAddsDefaults(d: Tree, t: Tree, p: seq<string>)
    requires d.Dir? && Merge(d, t).Ok? && Get(d, p).Some?
    ensures Get(Merge(d, t).value, p).Some?
    decreases p
  {
    if p != [] {
      var r := Merge(d, t).value;
      var n := p[0];
      if t.Dir? {
        if n !in t.entries {
          assert r.entries[n] == d.entries[n];
          assert Get(r, p) == Get(d, p);
        } else if d.entries[n].Dir? {
          assert r.entries[n] == Merge(d.entries[n], t.entries[n]).value;
          MergeAddsDefaults(d.entries[n], t.entries[n], p[1..]);
        } else {
          assert r.entries[n] == t.entries[n];
          assert d.entries[n].File? && p[1..] == [];
        }
      }
    }
  }

  /** Every file after the merge was already there or comes from the
      default directory, with the same content. */
  lemma {:induction false} MergeOnlyCopies(d: Tree, t: Tree, p: seq<string>, c: string)
    requires d.Dir? && Merge(d, t).Ok? && Get(Merge(d, t).value, p) == Some(File(c))
    ensures Get(t, p) == Some(File(c)) || Get(d, p) == Some(File(c))
    decreases p
  {
    if p != [] {
      var r := Merge(d, t).value;
      var n := p[0];
      if t.Dir? {
        if n !in t.entries {
          assert r.entries[n] == d.entries[n];
        } else if n in d.entries && d.entries[n].Dir? {
          assert r.entries[n] == Merge(d.entries[n], t.entries[n]).value;
          MergeOnlyCopies(d.entries[n], t.entries[n], p[1..], c);
        } else {
          assert r.entries[n] == t.entries[n];
        }
      }
    }
  }

  /** A second merge of the same defaults changes nothing. */
  lemma {:induction false} MergeIdempotent(d: Tree, t: Tree)
    requires d.Dir? && Merge(d, t).Ok?
    ensures Merge(d, Merge(d, t).value) == Merge(d, t)
    decreases d
  {
    var r := Merge(d, t).value;
    if t.Dir? {
      forall n | n in d.entries
        ensures MergeItem(d.entries[n], Lookup(r.entries, n)) == Ok(r.entries[n])
      {
        if d.entries[n].Dir? {
          if n in t.entries {
            MergeIdempotent(d.entries[n], t.entries[n]);
          } else {
            MergeIntoCopy(d.entries[n]);
          }
        }
      }
      assert Merge(d, r).Ok?;
      assert Merge(d, r).value.entries == r.entries;
    }
  }

  /** Merging defaults into an exact copy of them changes nothing. */
  lemma {:induction false} MergeIntoCopy(d: Tree)
    requires d.Dir?
    ensures Merge(d, d) == Ok(d)
    decreases d
  {
    forall n | n in d.entries
      ensures MergeItem(d.entries[n], Lookup(d.entries, n)) == Ok(d.entries[n])
    {
      if d.entries[n].Dir? {
        MergeIntoCopy(d.entries[n]);
      }
    }
    assert Merge(d, d).Ok?;
    assert Merge(d, d).value.entries == d.entries;
  }

  /** `_get_plugin_default_config_dir(plugin)`: no directory when the
      attribute is `None`; otherwise the path relative to the plugin's module
      directory, which must exist (as a directory or a file). */
  function DefaultDir(source: Tree, plugin: PluginClass): (r: Result<Option<Tree>, string>)
    ensures plugin.defaultConfigDir.None? ==> r == Ok(None)
    ensures r.Err? <==> plugin.defaultConfigDir.Some? &&
                        Get(source, plugin.moduleDir + plugin.defaultConfigDir.value).None?
    ensures r.Ok? && r.value.Some? ==>
              Get(source, plugin.moduleDir + plugin.defaultConfigDir.value) == r.value
  {
    if plugin.defaultConfigDir.None? then Ok(None)
    else
      match Get(source, plugin.moduleDir + plugin.defaultConfigDir.value)
      case None =>
        var shown := if plugin.name.Some? then plugin.name.value else "None";
        Err("RuntimeError: Default config dir not found for plugin " + shown)
      case Some(t) => Ok(Some(t))
  }

  /** `ensure_plugin_configs(plugin)` on the entries of the configuration
      root: a plugin without a name cannot form its path; a missing target is
      created by copying the default directory, or empty when there is none;
      an existing target is merged with the default directory. */
  function Ensure(configs: map<string, Tree>, source: Tree, plugin: PluginClass): (r: Result<map<string, Tree>, string>)
    ensures plugin.name.None? ==> r.Err?
    ensures r.Ok? ==> plugin.name.Some? && plugin.name.value in r.value &&
                      forall n :: n != plugin.name.value ==> Lookup(r.value, n) == Lookup(configs, n)
    ensures DefaultDir(source, plugin).Err? ==> r.Err?
    ensures plugin.name.Some? && DefaultDir(source, plugin).Ok? ==>
      var name := plugin.name.value;
      var d := DefaultDir(source, plugin).value;
      (name !in configs && d.None? ==> r == Ok(configs[name := Dir(map[])])) &&
      (name !in configs && d.Some? && d.value.Dir? ==> r == Ok(configs[name := d.value])) &&
      (name in configs && d.None? ==> r == Ok(configs)) &&
      (name in configs && d.Some? && d.value.Dir? && Merge(d.value, configs[name]).Ok? ==>
         r == Ok(configs[name := Merge(d.value, configs[name]).value])) &&
      (name in configs && d.Some? && d.value.Dir? && Merge(d.value, configs[name]).Err? ==> r.Err?) &&
      (d.Some? && d.value.File? ==> r == Err(NotADirectory))
  {
    if plugin.name.None? then Err("TypeError: unsupported operand type(s) for /: 'PosixPath' and 'NoneType'")
    else
      var name := plugin.name.value;
      match DefaultDir(source, plugin)
      case Err(e) => Err(e)
      case Ok(default) =>
        if name !in configs then
          if default.None? then Ok(configs[name := Dir(map[])])
          else if default.value.File? then Err(NotADirectory)
          else Ok(configs[name := default.value])
        else if default.None? then Ok(configs)
        else if default.value.File? then Err(NotADirectory)
        else match Merge(default.value, configs[name])
          case Err(e) => Err(e)
          case Ok(t) => Ok(configs[name := t])
  }

  /** `ensure_plugin_configs(plugin)` as a hook sees it: it returns
      nothing, or raises. */
  function EnsureOutcome(configs: map<string, Tree>, source: Tree, plugin: PluginClass): (o: Outcome<string>)
    ensures o.Fail? <==> Ensure(configs, source, plugin).Err?
  {
    match Ensure(configs, source, plugin)
    case Err(e) => Fail(e)
    case Ok(_) => Pass
  }

  /** Ensuring a plugin's configuration never changes a file the plugin's
      configuration directory already holds. */
  lemma EnsureKeepsUserFiles(configs: map<string, Tree>, source: Tree, plugin: PluginClass, p: seq<string>, c: string)
    requires Ensure(configs, source, plugin).Ok?
    requires plugin.name.Some? && plugin.name.value in configs
    requires Get(configs[plugin.name.value], p) == Some(File(c))
    ensures Get(Ensure(configs, source, plugin).value[plugin.name.value], p) == Some(File(c))
  {
    var default := DefaultDir(source, plugin).value;
    if default.Some? {
      MergeKeepsFiles(default.value, configs[plugin.name.value], p, c);
    }
  }

  /** Ensuring a plugin's configuration twice is the same as once. */
  lemma EnsureIdempotent(configs: map<string, Tree>, source: Tree, plugin: PluginClass)
    requires Ensure(configs, source, plugin).Ok?
    ensures Ensure(Ensure(configs, source, plugin).value, source, plugin) == Ensure(configs, source, plugin)
  {
    var name := plugin.name.value;
    var default := DefaultDir(source, plugin).value;
    var r := Ensure(configs, source, plugin).value;
    if default.Some? {
      if name !in configs {
        MergeIntoCopy(default.value);
        assert r[name := default.value] == r;
      } else {
        MergeIdempotent(default.value, configs[name]);
        assert r[name := Merge(default.value, configs[name]).value] == r;
      }
    }
  }

  /** `get_plugin_config_path(name)`: the configuration root joined with the name. */
  function ConfigPath(root: seq<string>, name: string): (p: seq<string>)
    ensures |p| == |root| + 1 && p[..|root|] == root && p[|root|] == name
  {
    root + [name]
  }

  /** Different plugin names get different configuration directories. */
  lemma ConfigPathInjective(root: seq<string>, a: string, b: string)
    requires ConfigPath(root, a) == ConfigPath(root, b)
    ensures a == b
  {
    assert ConfigPath(root, a)[|root|] == a;
  }

  /** The recursive merge as the source performs it: one default entry at a
      time, copying or recursing. */
  method MergeDefaults(d: Tree, t: Tree) returns (r: Result<Tree, string>)
    requires d.Dir?
    ensures r == Merge(d, t)
    decreases d
  {
    if t.File? {
      if d.entries == map[] {
        return Ok(t);
      }
      return Err(NotADirectory);
    }
    var todo := d.entries.Keys;
    var acc := t.entries;
    while todo != {}
      invariant todo <= d.entries.Keys
      invariant forall n :: n in acc <==> n in t.entries || (n in d.entries && n !in todo)
      invariant forall n :: n in d.entries && n !in todo ==>
                  MergeItem(d.entries[n], Lookup(t.entries, n)) == Ok(acc[n])
      invariant forall n :: n in t.entries && (n !in d.entries || n in todo) ==> acc[n] == t.entries[n]
      decreases todo
    {
      var n :| n in todo;
      var item := d.entries[n];
      var merged: Result<Tree, string>;
      if n !in t.entries {
        merged := Ok(item);
      } else if item.Dir? {
        merged := MergeDefaults(item, t.entries[n]);
      } else {
        merged := Ok(t.entries[n]);
      }
      assert merged == MergeItem(item, Lookup(t.entries, n));
      if merged.Err? {
        return Err(NotADirectory);
      }
      acc := acc[n := merged.value];
      todo := todo - {n};
    }
    r := Ok(Dir(acc));
    assert Merge(d, t).Ok?;
    assert Merge(d, t).value.entries == acc;
  }

  /** The configuration root directory and its entries. */
  class ConfigManager {
    const root: seq<string>
    var configs: map<string, Tree>

    /** Creating the manager makes sure the root exists, keeping its entries. */
    constructor (root: seq<string>, existing: map<string, Tree>)
      ensures this.root == root && configs == existing
    {
      this.root := root;
      configs := existing;
    }

    function PluginConfigPath(name: string): (p: seq<string>)
      reads this
      ensures p == ConfigPath(root, name)
    {
      root + [name]
    }

    /** `ensure_plugin_configs(plugin)`; `source` is the tree holding the
        plugin modules. On failure the entries are left as they were. */
    method EnsurePluginConfigs(source: Tree, plugin: PluginClass) returns (o: Outcome<string>)
      modifies this
      ensures var r := Ensure(old(configs), source, plugin);
        (r.Ok? ==> o == Pass && configs == r.value) &&
        (r.Err? ==> o == Fail(r.error) && configs == old(configs))
    {
      if plugin.name.None? {
        return Fail("TypeError: unsupported operand type(s) for /: 'PosixPath' and 'NoneType'");
      }
      var name := plugin.name.value;
      var default := DefaultDir(source, plugin);
      if default.Err? {
        return Fail(default.error);
      }
      if name !in configs {
        if default.value.None? {
          configs := configs[name := Dir(map[])];
        } else if default.value.value.File? {
          return Fail(NotADirectory);
        } else {
          configs := configs[name := default.value.value];
        }
        return Pass;
      }
      if default.value.Some? {
        if default.value.value.File? {
          return Fail(NotADirectory);
        }
        var merged := MergeDefaults(default.value.value, configs[name]);
        if merged.Err? {
          return Fail(merged.error);
        }
        configs := configs[name := merged.value];
      }
      o := Pass;
    }
  }
}
