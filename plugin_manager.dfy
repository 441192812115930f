/** The plugin manager: registration of plugin classes by name, discovery in
    a package, the dependency order computed by a depth-first search, and
    loading and starting plugins in that order. */
module PluginManager {
  import opened Wrappers
  import opened PluginBase
  import opened Host

  predicate NoDup(s: seq<string>)
  {
    forall i, j :: 0 <= i < j < |s| ==> s[i] != s[j]
  }

  /** The manager's `plugins` dictionary: name to class, keys in
      registration order. */
  datatype Registry = Registry(order: seq<string>, classes: map<string, PluginClass>)
  {
    /** The dictionary invariant: each registered key appears once, the
        order lists exactly the keys, and every class is stored under its
        own (non-empty) name. */
    predicate Valid()
    {
      NoDup(order) && (forall n :: n in order ==> n in classes) &&
      (forall n :: n in classes ==> n in order) &&
      forall n :: n in classes ==> n != "" && classes[n].name == Some(n)
    }
  }

  const EmptyRegistry := Registry([], map[])

  /** What `register` may be handed: something that is not a class at all,
      a class that does not derive from the plugin base, or a plugin class
      (the base class itself included). */
  datatype Candidate = NotAClass | ForeignClass | PluginSubclass(cls: PluginClass)

  /** `register(plugin_cls)`: the class must derive from the base, must have
      a truthy name, and the name must not be taken; then it is stored. */
  function AfterRegister(reg: Registry, c: Candidate): (r: Result<Registry, string>)
    ensures r.Ok? <==> c.PluginSubclass? && c.cls.name.Some? && c.cls.name.value != "" &&
                       c.cls.name.value !in reg.classes
    ensures r.Ok? ==> r.value == Registry(reg.order + [c.cls.name.value],
                                          reg.classes[c.cls.name.value := c.cls])
    ensures c.NotAClass? ==> r.Err? && r.error == "TypeError: issubclass() arg 1 must be a class"
  {
    match c
    case NotAClass => Err("TypeError: issubclass() arg 1 must be a class")
    // `type(plugin_cls)` of a class declared without a metaclass
    case ForeignClass => Err("ValueError: Argument 'plugin_cls' must be Plugin type, not <class 'type'>")
    case PluginSubclass(cls) =>
      if cls.name.None? || cls.name.value == "" then Err("ValueError: Plugin must have name")
      else if cls.name.value in reg.classes then Err("ValueError: Plugin with this name has already been registered")
      else Ok(Registry(reg.order + [cls.name.value], reg.classes[cls.name.value := cls]))
  }

  /** Registration keeps the dictionary invariant. */
  lemma RegisterKeepsValid(reg: Registry, c: Candidate)
    requires reg.Valid()
    ensures AfterRegister(reg, c).Ok? ==> AfterRegister(reg, c).value.Valid()
  {
  }

  /** A module-level object seen during discovery. */
  datatype ModuleObject = BaseClassObject | PluginClassObject(cls: PluginClass) | OtherObject

  /** One entry of the package listing: a plain module is skipped; for a
      sub-package, `plugin` is the list of objects of its `plugin` module,
      or `None` when importing it raised `ModuleNotFoundError`. */
  datatype PackageEntry = PackageEntry(isPkg: bool, plugin: Option<seq<ModuleObject>>)

  /** Registering the plugin classes among the objects of one module, in
      order, stopping at the first error. */
  function RegisterObjects(reg: Registry, objs: seq<ModuleObject>): (r: Result<Registry, string>)
    decreases |objs|
  {
    if objs == [] then Ok(reg)
    else if objs[0].PluginClassObject? then
      match AfterRegister(reg, PluginSubclass(objs[0].cls))
      case Err(e) => Err(e)
      case Ok(reg1) => RegisterObjects(reg1, objs[1..])
    else RegisterObjects(reg, objs[1..])
  }

  /** `register_all_from_package`: every sub-package's `plugin` module that
      imports is scanned; the others are skipped silently. */
  function Discover(reg: Registry, entries: seq<PackageEntry>): (r: Result<Registry, string>)
    decreases |entries|
  {
    if entries == [] then Ok(reg)
    else if !entries[0].isPkg || entries[0].plugin.None? then Discover(reg, entries[1..])
    else
      match RegisterObjects(reg, entries[0].plugin.value)
      case Err(e) => Err(e)
      case Ok(reg1) => Discover(reg1, entries[1..])
  }

  /** `r` keeps every registration of `reg`, in its place. */
  predicate Extends(reg: Registry, r: Registry)
  {
    |reg.order| <= |r.order| && r.order[..|reg.order|] == reg.order &&
    forall n :: n in reg.classes ==> n in r.classes && r.classes[n] == reg.classes[n]
  }

  /** Discovery in one module only adds: the registrations made before it are
      kept, in their place, and the invariant holds afterwards. */
  lemma {:induction false} RegisterObjectsExtends(reg: Registry, objs: seq<ModuleObject>)
    requires reg.Valid()
    ensures RegisterObjects(reg, objs).Ok? ==>
      RegisterObjects(reg, objs).value.Valid() && Extends(reg, RegisterObjects(reg, objs).value)
    decreases |objs|
  {
    if objs != [] {
      if objs[0].PluginClassObject? {
        var c := AfterRegister(reg, PluginSubclass(objs[0].cls));
        if c.Ok? {
          RegisterKeepsValid(reg, PluginSubclass(objs[0].cls));
          RegisterObjectsExtends(c.value, objs[1..]);
          var r := RegisterObjects(c.value, objs[1..]);
          assert RegisterObjects(reg, objs) == r;
          if r.Ok? {
            assert Extends(reg, c.value) by {
              assert c.value.order[..|reg.order|] == reg.order;
            }
            ExtendsTrans(reg, c.value, r.value);
          }
        }
      } else {
        RegisterObjectsExtends(reg, objs[1..]);
      }
    }
  }

  lemma {:induction false} ExtendsTrans(a: Registry, b: Registry, c: Registry)
    requires Extends(a, b) && Extends(b, c)
    ensures Extends(a, c)
  {
    assert c.order[..|a.order|] == c.order[..|b.order|][..|a.order|];
  }

  /** A plugin class that two discovered modules both expose (one defines it,
      the other imports it) makes discovery fail with the duplicate-name error. */
  lemma {:induction false} SameClassTwiceFails(reg: Registry, objs: seq<ModuleObject>, cls: PluginClass)
    requires reg.Valid()
    requires cls.name.Some? && cls.name.value in reg.classes
    requires PluginClassObject(cls) in objs
    ensures RegisterObjects(reg, objs).Err?
    decreases |objs|
  {
    if objs[0] == PluginClassObject(cls) {
      assert AfterRegister(reg, PluginSubclass(cls)).Err?;
    } else if objs[0].PluginClassObject? {
      var c := AfterRegister(reg, PluginSubclass(objs[0].cls));
      if c.Ok? {
        SameClassTwiceFails(c.value, objs[1..], cls);
      }
    } else {
      SameClassTwiceFails(reg, objs[1..], cls);
    }
  }

  // ---------------------------------------------------------------------
  // Dependency order

  datatype ResolveError = Circular(name: string) | Missing(dep: string)

  /** The names a registered plugin requires (nothing for an unknown name). */
  function Deps(reg: Registry, n: string): seq<string>
  {
    if n in reg.classes then reg.classes[n].required else []
  }

  /** The registered names not on `path`: the search's termination measure. */
  function Unvisited(reg: Registry, path: seq<string>): set<string>
  {
    reg.classes.Keys - set x | x in path
  }

  /** Pushing a registered name that is not on the path shrinks the measure. */
  lemma UnvisitedShrinks(reg: Registry, path: seq<string>, name: string)
    requires name in reg.classes && name !in path
    ensures Unvisited(reg, path + [name]) < Unvisited(reg, path)
  {
    assert name in Unvisited(reg, path);
    assert name !in Unvisited(reg, path + [name]);
  }

  /** `resolve(name)` with `resolved` the names finished so far and `path`
      the names whose dependencies are being resolved (the `unresolved` list). */
  function Visit(reg: Registry, name: string, resolved: seq<string>, path: seq<string>): (r: Result<seq<string>, ResolveError>)
    requires name in reg.classes
    decreases Unvisited(reg, path), 0, 0
  {
    if name in resolved then Ok(resolved)
    else if name in path then Err(Circular(name))
    else
      UnvisitedShrinks(reg, path, name);
      match VisitDeps(reg, reg.classes[name].required, 0, resolved, path + [name])
      case Err(e) => Err(e)
      case Ok(r) => Ok(r + [name])
  }

  /** The loop of `resolve` over the dependencies `deps[i..]` of the last name on `path`. */
  function VisitDeps(reg: Registry, deps: seq<string>, i: nat, resolved: seq<string>, path: seq<string>): (r: Result<seq<string>, ResolveError>)
    requires i <= |deps|
    decreases Unvisited(reg, path), 1, |deps| - i
  {
    if i == |deps| then Ok(resolved)
    else if deps[i] !in reg.classes then Err(Missing(deps[i]))
    else
      match Visit(reg, deps[i], resolved, path)
      case Err(e) => Err(e)
      case Ok(r) => VisitDeps(reg, deps, i + 1, r, path)
  }

  /** The outer loop of `resolve_order` over the registered names `order[i..]`. */
  function VisitAll(reg: Registry, i: nat, resolved: seq<string>): (r: Result<seq<string>, ResolveError>)
    requires reg.Valid() && i <= |reg.order|
    decreases |reg.order| - i
  {
    if i == |reg.order| then Ok(resolved)
    else
      match Visit(reg, reg.order[i], resolved, [])
      case Err(e) => Err(e)
      case Ok(r) => VisitAll(reg, i + 1, r)
  }

  /** `resolve_order()`. */
  function DependencyOrder(reg: Registry): Result<seq<string>, ResolveError>
    requires reg.Valid()
  {
    VisitAll(reg, 0, [])
  }

  /** Every dependency of every name in `r` comes earlier in `r`. */
  predicate DepsBefore(reg: Registry, r: seq<string>)
  {
    forall i, d :: 0 <= i < |r| && d in Deps(reg, r[i]) ==> d in r[..i]
  }

  /** `c` walks the `requires` edges: each name requires the next one. */
  predicate IsChain(reg: Registry, c: seq<string>)
  {
    forall j :: 0 <= j < |c| - 1 ==> c[j + 1] in Deps(reg, c[j])
  }

  /** `n` requires itself through a chain of one or more `requires` edges. */
  ghost predicate OnCycle(reg: Registry, n: string)
  {
    exists c :: |c| >= 2 && c[0] == n && c[|c| - 1] == n && IsChain(reg, c)
  }

  /** Every required name is registered. */
  predicate Closed(reg: Registry)
  {
    forall n, d :: n in reg.classes && d in Deps(reg, n) ==> d in reg.classes
  }

  ghost predicate Acyclic(reg: Registry)
  {
    forall n :: n in reg.classes ==> !OnCycle(reg, n)
  }

  /** What the search keeps true of the list of finished names. */
  predicate GoodResolved(reg: Registry, s: seq<string>)
  {
    NoDup(s) && (forall x :: x in s ==> x in reg.classes) && DepsBefore(reg, s)
  }

  /** What an error says about the dependency graph: a circular error names a
      plugin on a cycle; a missing error names an unregistered plugin that a
      registered one requires. */
  ghost predicate ErrorExplained(reg: Registry, e: ResolveError)
  {
    (e.Circular? ==> e.name in reg.classes && OnCycle(reg, e.name)) &&
    (e.Missing? ==> e.dep !in reg.classes && exists p :: p in reg.classes && e.dep in Deps(reg, p))
  }

  /** The search's invariants for one `resolve(name)` call. */
  lemma {:induction false} VisitFacts(reg: Registry, name: string, resolved: seq<string>, path: seq<string>)
    requires name in reg.classes
    requires GoodResolved(reg, resolved)
    requires IsChain(reg, path + [name])
    ensures var r := Visit(reg, name, resolved, path);
      (r.Ok? ==> GoodResolved(reg, r.value) && |resolved| <= |r.value| &&
                 r.value[..|resolved|] == resolved && name in r.value &&
                 forall x :: x in r.value && x !in resolved ==> x !in path) &&
      (r.Err? ==> ErrorExplained(reg, r.error))
    decreases Unvisited(reg, path), 0, 0
  {
    if name in resolved {
    } else if name in path {
      CycleOnPath(reg, path, name);
    } else {
      var p := path + [name];
      UnvisitedShrinks(reg, path, name);
      var deps := reg.classes[name].required;
      VisitDepsFacts(reg, deps, 0, resolved, p);
      var r := VisitDeps(reg, deps, 0, resolved, p);
      if r.Ok? {
        assert name !in r.value;
        AppendFinished(reg, r.value, name, resolved);
      }
    }
  }

  /** A name met again on the search path lies on a cycle. */
  lemma {:induction false} CycleOnPath(reg: Registry, path: seq<string>, name: string)
    requires IsChain(reg, path + [name]) && name in path
    ensures OnCycle(reg, name)
  {
    var k :| 0 <= k < |path| && path[k] == name;
    var c := path[k..] + [name];
    assert (path + [name])[k..] == c;
    assert IsChain(reg, c) by {
      forall j | 0 <= j < |c| - 1 ensures c[j + 1] in Deps(reg, c[j]) {
        assert c[j] == (path + [name])[k + j] && c[j + 1] == (path + [name])[k + j + 1];
      }
    }
  }

  /** A name whose dependencies are all finished can be appended to the
      finished names. */
  lemma {:induction false} AppendFinished(reg: Registry, r: seq<string>, name: string, resolved: seq<string>)
    requires GoodResolved(reg, r) && name in reg.classes && name !in r
    requires forall d :: d in Deps(reg, name) ==> d in r
    requires |resolved| <= |r| && r[..|resolved|] == resolved
    ensures GoodResolved(reg, r + [name]) && (r + [name])[..|resolved|] == resolved
  {
    var s := r + [name];
    assert NoDup(s);
    assert DepsBefore(reg, s) by {
      forall i, d | 0 <= i < |s| && d in Deps(reg, s[i]) ensures d in s[..i] {
        if i < |r| {
          assert s[..i] == r[..i];
        } else {
          assert s[..i] == r;
        }
      }
    }
    assert s[..|resolved|] == r[..|resolved|];
  }

  /** The search's invariants for the loop over `deps[i..]`, the dependencies
      of the last name on `path`. */
  lemma {:induction false} VisitDepsFacts(reg: Registry, deps: seq<string>, i: nat, resolved: seq<string>, path: seq<string>)
    requires i <= |deps| && path != [] && path[|path| - 1] in reg.classes
    requires deps == Deps(reg, path[|path| - 1])
    requires GoodResolved(reg, resolved)
    requires IsChain(reg, path)
    requires forall j :: 0 <= j < i ==> deps[j] in resolved
    ensures var r := VisitDeps(reg, deps, i, resolved, path);
      (r.Ok? ==> GoodResolved(reg, r.value) && |resolved| <= |r.value| &&
                 r.value[..|resolved|] == resolved &&
                 (forall d :: d in deps ==> d in r.value) &&
                 forall x :: x in r.value && x !in resolved ==> x !in path) &&
      (r.Err? ==> ErrorExplained(reg, r.error))
    decreases Unvisited(reg, path), 1, |deps| - i
  {
    if i == |deps| {
      forall d | d in deps ensures d in resolved {
        var j :| 0 <= j < |deps| && deps[j] == d;
      }
    } else if deps[i] !in reg.classes {
    } else {
      var q := path + [deps[i]];
      assert IsChain(reg, q) by {
        forall j | 0 <= j < |q| - 1 ensures q[j + 1] in Deps(reg, q[j]) {
          if j < |path| - 1 {
            assert q[j] == path[j] && q[j + 1] == path[j + 1];
          }
        }
      }
      VisitFacts(reg, deps[i], resolved, path);
      var r1 := Visit(reg, deps[i], resolved, path);
      if r1.Ok? {
        forall j | 0 <= j < i + 1 ensures deps[j] in r1.value {
          if j < i {
            assert deps[j] in r1.value[..|resolved|];
          }
        }
        VisitDepsFacts(reg, deps, i + 1, r1.value, path);
        var r := VisitDeps(reg, deps, i + 1, r1.value, path);
        if r.Ok? {
          assert r.value[..|resolved|] == r.value[..|r1.value|][..|resolved|];
          forall x | x in r.value && x !in resolved ensures x !in path {
            if x !in r1.value {
            } else {
            }
          }
        }
      }
    }
  }

  /** The invariants of the outer loop of `resolve_order`. */
  lemma {:induction false} VisitAllFacts(reg: Registry, i: nat, resolved: seq<string>)
    requires reg.Valid() && i <= |reg.order|
    requires GoodResolved(reg, resolved)
    requires forall j :: 0 <= j < i ==> reg.order[j] in resolved
    ensures var r := VisitAll(reg, i, resolved);
      (r.Ok? ==> GoodResolved(reg, r.value) && forall n :: n in reg.classes ==> n in r.value) &&
      (r.Err? ==> ErrorExplained(reg, r.error))
    decreases |reg.order| - i
  {
    if i == |reg.order| {
      forall n | n in reg.classes ensures n in resolved {
        assert n in reg.order;
        var j :| 0 <= j < |reg.order| && reg.order[j] == n;
      }
    } else {
      var name := reg.order[i];
      assert IsChain(reg, [] + [name]);
      VisitFacts(reg, name, resolved, []);
      var r1 := Visit(reg, name, resolved, []);
      if r1.Ok? {
        var rv := r1.value;
        assert VisitAll(reg, i, resolved) == VisitAll(reg, i + 1, rv);
        PrefixKeeps(resolved, rv);
        VisitAllFacts(reg, i + 1, rv);
      } else {
        assert VisitAll(reg, i, resolved) == Err(r1.error);
      }
    }
  }

  lemma {:induction false} PrefixKeeps(a: seq<string>, b: seq<string>)
    requires |a| <= |b| && b[..|a|] == a
    ensures forall x :: x in a ==> x in b
  {
    forall x | x in a ensures x in b {
      assert x in b[..|a|];
    }
  }

  /** A successful order lists every registered plugin exactly once, each
      after all the plugins it requires. */
  lemma ResolveOrderIsTopological(reg: Registry)
    requires reg.Valid()
    ensures DependencyOrder(reg).Ok? ==>
      var r := DependencyOrder(reg).value;
      NoDup(r) && (forall n :: n in r <==> n in reg.classes) && DepsBefore(reg, r)
  {
    VisitAllFacts(reg, 0, []);
  }

  /** A failed order is explained by the graph: a circular-dependency error
      names a plugin that requires itself through a chain of `requires`, and a
      missing-dependency error names an unregistered plugin that some
      registered plugin requires. */
  lemma ResolveOrderErrors(reg: Registry)
    requires reg.Valid()
    ensures DependencyOrder(reg).Err? ==> ErrorExplained(reg, DependencyOrder(reg).error)
  {
    VisitAllFacts(reg, 0, []);
  }

  /** In an order where dependencies come first, following a `requires` edge
      moves strictly towards the front. */
  lemma {:induction false} ChainMovesForward(reg: Registry, r: seq<string>, c: seq<string>, k: nat)
    requires NoDup(r) && DepsBefore(reg, r) && |c| >= 1 && c[0] in r && IsChain(reg, c)
    requires k < |c|
    ensures c[k] in r
    ensures forall a, b :: 0 <= a < |r| && 0 <= b < |r| && r[a] == c[0] && r[b] == c[k] ==> (k == 0 || b < a)
    decreases k
  {
    if k > 0 {
      ChainMovesForward(reg, r, c, k - 1);
      var b' :| 0 <= b' < |r| && r[b'] == c[k - 1];
      assert c[k] in Deps(reg, r[b']);
      assert c[k] in r[..b'];
    }
  }

  /** The search succeeds exactly when every required plugin is registered
      and no plugin requires itself, directly or through others. */
  lemma ResolveOrderSucceedsIff(reg: Registry)
    requires reg.Valid()
    ensures DependencyOrder(reg).Ok? <==> Closed(reg) && Acyclic(reg)
  {
    VisitAllFacts(reg, 0, []);
    var res := DependencyOrder(reg);
    if res.Ok? {
      var r := res.value;
      forall n, d | n in reg.classes && d in Deps(reg, n) ensures d in reg.classes {
        var i :| 0 <= i < |r| && r[i] == n;
        assert d in r[..i];
      }
      forall n | n in reg.classes ensures !OnCycle(reg, n) {
        if OnCycle(reg, n) {
          var c :| |c| >= 2 && c[0] == n && c[|c| - 1] == n && IsChain(reg, c);
          ChainMovesForward(reg, r, c, |c| - 1);
          assert false;
        }
      }
    } else if res.error.Circular? {
      assert !Acyclic(reg);
    } else {
      var p :| p in reg.classes && res.error.dep in Deps(reg, p);
      assert !Closed(reg);
    }
  }

  /** Registration order is not kept for plugins that do not depend on each
      other: with A requiring C, and B unrelated, the order registered as
      A, B, C loads C, A, B. */
  function ExampleRegistry(dir: seq<string>): (reg: Registry)
    ensures reg.Valid()
  {
    Registry(["A", "B", "C"],
             map["A" := BasePlugin(dir).(name := Some("A"), required := ["C"]),
                 "B" := BasePlugin(dir).(name := Some("B")),
                 "C" := BasePlugin(dir).(name := Some("C"))])
  }

  lemma RegistrationOrderNotKept(dir: seq<string>)
    ensures DependencyOrder(ExampleRegistry(dir)) == Ok(["C", "A", "B"])
  {
    var reg := ExampleRegistry(dir);
    assert reg.classes["A"].required == ["C"];
    ExampleOrder(reg);
  }

  /** The shape of the example: A requires C, B and C require nothing. */
  predicate ExampleShape(reg: Registry)
  {
    reg.Valid() && reg.order == ["A", "B", "C"] &&
    reg.classes["A"].required == ["C"] && reg.classes["B"].required == [] && reg.classes["C"].required == []
  }

  lemma ExampleOrder(reg: Registry)
    requires ExampleShape(reg)
    ensures DependencyOrder(reg) == Ok(["C", "A", "B"])
  {
    ExampleVisitA(reg);
    VisitLeaf(reg, "B", ["C", "A"], []);
    assert ["C", "A"] + ["B"] == ["C", "A", "B"];
    assert VisitAll(reg, 3, ["C", "A", "B"]) == Ok(["C", "A", "B"]);
    assert VisitAll(reg, 2, ["C", "A", "B"]) == Ok(["C", "A", "B"]);
    assert VisitAll(reg, 1, ["C", "A"]) == Ok(["C", "A", "B"]);
  }

  lemma ExampleVisitA(reg: Registry)
    requires ExampleShape(reg)
    ensures Visit(reg, "A", [], []) == Ok(["C", "A"])
  {
    assert [] + ["A"] == ["A"] && [] + ["C"] == ["C"] && ["C"] + ["A"] == ["C", "A"];
    VisitLeaf(reg, "C", [], ["A"]);
    assert VisitDeps(reg, ["C"], 1, ["C"], ["A"]) == Ok(["C"]);
    assert VisitDeps(reg, ["C"], 0, [], ["A"]) == Ok(["C"]);
  }

  /** A name that requires nothing is appended to the finished names. */
  lemma VisitLeaf(reg: Registry, name: string, resolved: seq<string>, path: seq<string>)
    requires name in reg.classes && reg.classes[name].required == []
    requires name !in resolved && name !in path
    ensures Visit(reg, name, resolved, path) == Ok(resolved + [name])
  {
    assert VisitDeps(reg, [], 0, resolved, path + [name]) == Ok(resolved);
  }

  /** `unresolved.remove(name)`: drops the first occurrence. */
  function RemoveFirst(s: seq<string>, x: string): (r: seq<string>)
    ensures x !in s ==> r == s
    ensures x in s ==> |r| == |s| - 1
  {
    if s == [] then []
    else if s[0] == x then s[1..]
    else [s[0]] + RemoveFirst(s[1..], x)
  }

  /** Removing the name just pushed, when it was not there before, restores the list. */
  lemma {:induction false} RemoveFirstPushed(s: seq<string>, x: string)
    requires x !in s
    ensures RemoveFirst(s + [x], x) == s
  {
    if s != [] {
      assert (s + [x])[1..] == s[1..] + [x];
      RemoveFirstPushed(s[1..], x);
    }
  }

  /** Loading: for each name in the order, the instance is put into the
      application's plugin dictionary and then its `on_load` hook runs; the
      first hook that raises stops loading. */
  function LoadInOrder(reg: Registry, st: HostState, order: seq<string>): (r: (HostState, Outcome<string>))
    requires forall n :: n in order ==> n in reg.classes
    decreases |order|
  {
    if order == [] then (st, Pass)
    else
      var name := order[0];
      var cls := reg.classes[name];
      var st1 := st.(loaded := if name in st.loaded then st.loaded else st.loaded + [name],
                     instances := st.instances[name := cls]);
      var (st2, o) := Run(st1, cls.onLoad);
      if o.Fail? then (st2, o) else LoadInOrder(reg, st2, order[1..])
  }

  /** `load_all()`: resolve the order (its error propagates), then load. */
  function AfterLoadAll(reg: Registry, st: HostState): (r: (HostState, Outcome<string>))
    requires reg.Valid()
  {
    ResolveOrderIsTopological(reg);
    match DependencyOrder(reg)
    case Err(Circular(n)) => (st, Fail("RuntimeError: Circular dependency: " + n))
    case Err(Missing(d)) => (st, Fail("RuntimeError: Missing dependency: " + d))
    case Ok(order) => LoadInOrder(reg, st, order)
  }

  lemma LoadInOrderUnfold(reg: Registry, st: HostState, order: seq<string>)
    requires forall n :: n in order ==> n in reg.classes
    requires order != [] && order[0] !in st.loaded
    ensures var st1 := st.(loaded := st.loaded + [order[0]],
                           instances := st.instances[order[0] := reg.classes[order[0]]]);
            var r := Run(st1, reg.classes[order[0]].onLoad);
            LoadInOrder(reg, st, order) == if r.1.Fail? then r else LoadInOrder(reg, r.0, order[1..])
  {
  }

  /** The first element of a list without duplicates is not repeated later. */
  lemma NoDupHead(a: seq<string>, order: seq<string>)
    requires NoDup(a + order) && order != []
    ensures order[0] !in a && order[0] !in order[1..]
    ensures NoDup((a + [order[0]]) + order[1..])
  {
    assert (a + [order[0]]) + order[1..] == a + order;
    forall k | 0 <= k < |a| ensures a[k] != order[0] {
      assert (a + order)[k] == a[k] && (a + order)[|a|] == order[0];
    }
    forall k | 0 <= k < |order| - 1 ensures order[1..][k] != order[0] {
      assert (a + order)[|a| + 1 + k] == order[1..][k] && (a + order)[|a|] == order[0];
    }
  }

  /** Loading into an application whose dictionary holds none of `order`:
      when no hook raises, the names are added in order, each bound to its
      registered class. */
  lemma {:induction false} LoadInOrderPlugins(reg: Registry, st: HostState, order: seq<string>)
    requires forall n :: n in order ==> n in reg.classes
    requires NoDup(st.loaded + order)
    requires forall n :: n in st.instances <==> n in st.loaded
    ensures var r := LoadInOrder(reg, st, order);
      r.1.Pass? ==> r.0.loaded == st.loaded + order &&
                    (forall n :: n in r.0.instances <==> n in r.0.loaded) &&
                    (forall n :: n in st.loaded ==> r.0.instances[n] == st.instances[n]) &&
                    forall n :: n in order ==> r.0.instances[n] == reg.classes[n]
    decreases |order|
  {
    if order != [] {
      var name := order[0];
      NoDupHead(st.loaded, order);
      var cls := reg.classes[name];
      var st1 := st.(loaded := st.loaded + [name], instances := st.instances[name := cls]);
      var (st2, o) := Run(st1, cls.onLoad);
      LoadInOrderUnfold(reg, st, order);
      if o.Pass? {
        LoadInOrderPlugins(reg, st2, order[1..]);
        var r := LoadInOrder(reg, st2, order[1..]);
        if r.1.Pass? {
          assert order == [name] + order[1..];
          LoadedAfterOne(reg, st, st2, name, order[1..], r.0);
        }
      }
    }
  }

  /** The step of `LoadInOrderPlugins`: what loading the rest gives, seen
      from before the first name was added. */
  lemma {:induction false} LoadedAfterOne(reg: Registry, st: HostState, st2: HostState, name: string,
                                         rest: seq<string>, r: HostState)
    requires name in reg.classes && name !in st.loaded && forall n :: n in rest ==> n in reg.classes
    requires forall n :: n in st.instances <==> n in st.loaded
    requires st2.loaded == st.loaded + [name] && st2.instances == st.instances[name := reg.classes[name]]
    requires forall n :: n in st2.instances <==> n in st2.loaded
    requires r.loaded == st2.loaded + rest && forall n :: n in r.instances <==> n in r.loaded
    requires forall n :: n in st2.loaded ==> r.instances[n] == st2.instances[n]
    requires forall n :: n in rest ==> r.instances[n] == reg.classes[n]
    ensures r.loaded == st.loaded + ([name] + rest)
    ensures forall n :: n in st.loaded ==> r.instances[n] == st.instances[n]
    ensures forall n :: n in [name] + rest ==> r.instances[n] == reg.classes[n]
  {
    forall n | n in st.loaded
      ensures r.instances[n] == st.instances[n]
    {
      assert n in st2.loaded && n != name;
    }
    forall n | n in [name] + rest
      ensures r.instances[n] == reg.classes[n]
    {
      if n == name {
        assert n in st2.loaded;
      } else {
        assert n in rest;
      }
    }
  }

  /** A successful `load_all` on a fresh application loads exactly the
      registered plugins, each after the plugins it requires. */
  lemma LoadAllLoadsEverything(reg: Registry)
    requires reg.Valid()
    ensures var r := AfterLoadAll(reg, Initial());
      r.1.Pass? ==> NoDup(r.0.loaded) && (forall n :: n in r.0.loaded <==> n in reg.classes) &&
                    DepsBefore(reg, r.0.loaded) &&
                    forall n :: n in reg.classes ==> n in r.0.instances && r.0.instances[n] == reg.classes[n]
  {
    ResolveOrderIsTopological(reg);
    if DependencyOrder(reg).Ok? {
      var order := DependencyOrder(reg).value;
      assert Initial().loaded + order == order;
      LoadInOrderPlugins(reg, Initial(), order);
    }
  }

  /** `startup_all()`: each plugin's `on_startup`, in the dictionary's order,
      stopping at the first that raises. */
  function StartupInOrder(st: HostState, names: seq<string>): (r: (HostState, Outcome<string>))
    requires forall n :: n in names ==> n in st.instances
    decreases |names|
  {
    if names == [] then (st, Pass)
    else
      var (st1, o) := Run(st, st.instances[names[0]].onStartup);
      if o.Fail? then (st1, o) else StartupInOrder(st1, names[1..])
  }

  /** Nothing in startup changes which plugins are loaded. */
  lemma {:induction false} StartupKeepsPlugins(st: HostState, names: seq<string>)
    requires forall n :: n in names ==> n in st.instances
    ensures StartupInOrder(st, names).0.loaded == st.loaded
    ensures StartupInOrder(st, names).0.instances == st.instances
    decreases |names|
  {
    if names != [] {
      var (st1, o) := Run(st, st.instances[names[0]].onStartup);
      if o.Pass? {
        StartupKeepsPlugins(st1, names[1..]);
      }
    }
  }

  /** The search object of `resolve_order`: the two lists its inner function
      shares and updates. */
  class Resolver {
    const reg: Registry
    var resolved: seq<string>
    var unresolved: seq<string>

    constructor (reg: Registry)
      ensures this.reg == reg && resolved == [] && unresolved == []
    {
      this.reg := reg;
      resolved := [];
      unresolved := [];
    }

    /** `resolve(name)`: on success the finished list is what `Visit` computes
        and the in-progress list is as it was; on failure the error is `Visit`'s. */
    method Resolve(name: string) returns (err: Option<ResolveError>)
      requires name in reg.classes
      modifies this
      ensures var v := Visit(reg, name, old(resolved), old(unresolved));
        (v.Ok? ==> err == None && resolved == v.value && unresolved == old(unresolved)) &&
        (v.Err? ==> err == Some(v.error))
      decreases Unvisited(reg, unresolved)
    {
      if name in resolved {
        return None;
      }
      if name in unresolved {
        return Some(Circular(name));
      }
      unresolved := unresolved + [name];
      var deps := reg.classes[name].required;
      var i := 0;
      while i < |deps|
        invariant 0 <= i <= |deps|
        invariant unresolved == old(unresolved) + [name]
        invariant VisitDeps(reg, deps, 0, old(resolved), unresolved) == VisitDeps(reg, deps, i, resolved, unresolved)
      {
        var dep := deps[i];
        if dep !in reg.classes {
          return Some(Missing(dep));
        }
        UnvisitedShrinks(reg, old(unresolved), name);
        var e := Resolve(dep);
        if e.Some? {
          return e;
        }
        i := i + 1;
      }
      RemoveFirstPushed(old(unresolved), name);
      unresolved := RemoveFirst(unresolved, name);
      resolved := resolved + [name];
      err := None;
    }
  }

  /** The plugin manager object: its registry of classes and the application
      it loads plugins into. */
  class PluginManager {
    var order: seq<string>
    var classes: map<string, PluginClass>
    const app: App

    function Plugins(): Registry
      reads this
    {
      Registry(order, classes)
    }

    constructor (app: App)
      ensures Plugins() == EmptyRegistry && this.app == app
    {
      order := [];
      classes := map[];
      this.app := app;
    }

    /** `register(plugin_cls)` on this manager. */
    method Register(c: Candidate) returns (o: Outcome<string>)
      modifies this
      ensures var r := AfterRegister(old(Plugins()), c);
        (r.Ok? ==> o == Pass && Plugins() == r.value) &&
        (r.Err? ==> o == Fail(r.error) && Plugins() == old(Plugins()))
    {
      var r := AfterRegister(Plugins(), c);
      if r.Ok? {
        order, classes := r.value.order, r.value.classes;
        o := Pass;
      } else {
        o := Fail(r.error);
      }
    }

    /** `register_all_from_package`: the package listing is given as values. */
    method RegisterAllFromPackage(entries: seq<PackageEntry>) returns (o: Outcome<string>)
      modifies this
      ensures var r := Discover(old(Plugins()), entries);
        (r.Ok? ==> o == Pass && Plugins() == r.value) && (r.Err? ==> o == Fail(r.error))
    {
      var k := 0;
      while k < |entries|
        invariant 0 <= k <= |entries|
        invariant Discover(old(Plugins()), entries) == Discover(Plugins(), entries[k..])
      {
        assert entries[k..][1..] == entries[k + 1..];
        var entry := entries[k];
        if entry.isPkg && entry.plugin.Some? {
          var objs := entry.plugin.value;
          ghost var before := Plugins();
          var j := 0;
          while j < |objs|
            invariant 0 <= j <= |objs|
            invariant RegisterObjects(before, objs) == RegisterObjects(Plugins(), objs[j..])
          {
            assert objs[j..][1..] == objs[j + 1..];
            if objs[j].PluginClassObject? {
              o := Register(PluginSubclass(objs[j].cls));
              if o.Fail? {
                return;
              }
            }
            j := j + 1;
          }
        }
        k := k + 1;
      }
      o := Pass;
    }

    /** `resolve_order()`: the result is the value of the depth-first search
        specified by `DependencyOrder`. */
    method ResolveOrder() returns (r: Result<seq<string>, ResolveError>)
      requires Plugins().Valid()
      ensures r == DependencyOrder(Plugins())
    {
      var reg := Plugins();
      var search := new Resolver(reg);
      var i := 0;
      while i < |reg.order|
        invariant 0 <= i <= |reg.order|
        invariant search.reg == reg && search.unresolved == []
        invariant DependencyOrder(reg) == VisitAll(reg, i, search.resolved)
      {
        var e := search.Resolve(reg.order[i]);
        if e.Some? {
          return Err(e.value);
        }
        i := i + 1;
      }
      r := Ok(search.resolved);
    }

    /** `load_all()`: the application ends as `AfterLoadAll` says. */
    method LoadAll() returns (o: Outcome<string>)
      requires Plugins().Valid()
      modifies app
      ensures (app.State(), o) == AfterLoadAll(Plugins(), old(app.State()))
    {
      var r := ResolveOrder();
      if r.Err? {
        match r.error {
          case Circular(n) => o := Fail("RuntimeError: Circular dependency: " + n);
          case Missing(d) => o := Fail("RuntimeError: Missing dependency: " + d);
        }
        return;
      }
      ResolveOrderIsTopological(Plugins());
      o := LoadPlugins(r.value);
    }

    /** The loop of `load_all()` over the resolved order: each plugin is put
        into the application, then its `on_load` hook runs. */
    method LoadPlugins(order: seq<string>) returns (o: Outcome<string>)
      requires forall n :: n in order ==> n in classes
      modifies app
      ensures (app.State(), o) == LoadInOrder(Plugins(), old(app.State()), order)
    {
      var i := 0;
      o := Pass;
      while i < |order|
        invariant 0 <= i <= |order| && o == Pass
        invariant LoadInOrder(Plugins(), old(app.State()), order) == LoadInOrder(Plugins(), app.State(), order[i..])
      {
        assert order[i..][1..] == order[i + 1..];
        var cls := classes[order[i]];
        app.AddPlugin(order[i], cls);
        o := app.RunHook(cls.onLoad);
        if o.Fail? {
          return;
        }
        i := i + 1;
      }
    }

    /** `startup_all()`: each loaded plugin's `on_startup`, in the order the
        plugins were put into the application. */
    method StartupAll() returns (o: Outcome<string>)
      requires forall n :: n in app.loaded ==> n in app.instances
      modifies app
      ensures (app.State(), o) == StartupInOrder(old(app.State()), old(app.loaded))
    {
      var names := app.loaded;
      var i := 0;
      o := Pass;
      while i < |names|
        invariant 0 <= i <= |names| && o == Pass
        invariant app.loaded == names && forall n :: n in names ==> n in app.instances
        invariant StartupInOrder(old(app.State()), names) == StartupInOrder(app.State(), names[i..])
      {
        assert names[i..][1..] == names[i + 1..] && names[i..][0] == names[i];
        ghost var before := app.State();
        o := app.RunHook(app.instances[names[i]].onStartup);
        assert StartupInOrder(before, names[i..]) ==
          (if o.Fail? then (app.State(), o) else StartupInOrder(app.State(), names[i + 1..]));
        if o.Fail? {
          return;
        }
        i := i + 1;
      }
    }
  }
}
