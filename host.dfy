/** The host application object shared by every plugin: a service registry,
    the dispatcher's update middlewares, routers and their middlewares, and
    the dictionary of loaded plugin instances.

    Plugin hooks (`on_load`, `on_startup`) are modelled as the sequence of
    calls they make on the application, so that loading can be stated over
    values and run on the `App` object. */
module Host {
  import opened Wrappers
  import opened PluginBase

  /** A middleware attached to a router, either to the router itself
      (`observer == None`) or to the event observer named `observer`. */
  datatype RouterMiddleware = RouterMiddleware(router: string, observer: Option<string>, mw: Middleware)

  /** The framework middleware the application installs on itself; it puts
      the application into every handler's data. */
  const AppInjector := Middleware("zuki.OuterMiddleware")

  /** The application's observable state. The plugin-instance dictionary
      `app.plugins` is `instances` (each instance stands for the class it was
      made from) with its keys in insertion order in `loaded`. */
  datatype HostState = HostState(
    services: map<string, Service>,
    dispatcherMiddlewares: seq<Middleware>,
    routerMiddlewares: seq<RouterMiddleware>,
    routers: seq<string>,
    loaded: seq<string>,
    instances: map<string, PluginClass>)

  /** The state right after construction: no services, no plugins, and the
      application's own middleware as the only dispatcher middleware. */
  function Initial(): (st: HostState)
    ensures st.services == map[] && st.loaded == [] && st.instances == map[]
    ensures st.dispatcherMiddlewares == [AppInjector]
  {
    HostState(map[], [AppInjector], [], [], [], map[])
  }

  /** The text of the `KeyError` a missing dictionary key raises: the key
      in quotes, as Python's `repr` writes a string without quotes,
      backslashes or unprintable characters in it. */
  function KeyErrorText(key: string): string
  {
    "KeyError: '" + key + "'"
  }

  /** `get_service(name)`: a missing name raises `KeyError`. */
  function Lookup(st: HostState, name: string): (r: Result<Service, string>)
    ensures r.Ok? <==> name in st.services
    ensures r.Ok? ==> r.value == st.services[name]
  {
    if name in st.services then Ok(st.services[name]) else Err(KeyErrorText(name))
  }

  /** The effect of one hook step; a failing step changes nothing. */
  function Step(st: HostState, s: HookStep): (r: (HostState, Outcome<string>))
    ensures r.1.Fail? <==> (s.Raise? || (s.GetService? && s.key !in st.services))
    ensures r.1.Fail? ==> r.0 == st
    ensures s.RegisterService? ==> r.0.services == st.services[s.key := s.service]
    ensures !s.RegisterService? ==> r.0.services == st.services
    ensures r.0.loaded == st.loaded && r.0.instances == st.instances
  {
    match s
    case RegisterService(k, v) => (st.(services := st.services[k := v]), Pass)
    case GetService(k) => if k in st.services then (st, Pass) else (st, Fail(KeyErrorText(k)))
    case AddDispatcherMiddleware(mw) =>
      (st.(dispatcherMiddlewares := st.dispatcherMiddlewares + [mw]), Pass)
    case AddRouterMiddleware(router, mw, t) =>
      (st.(routerMiddlewares := st.routerMiddlewares + [RouterMiddleware(router, t, mw)]), Pass)
    case IncludeRouter(router) => (st.(routers := st.routers + [router]), Pass)
    case Raise(e) => (st, Fail(e))
  }

  /** Running a hook: steps in order until one raises; the steps before the
      failing one keep their effects. */
  function Run(st: HostState, steps: seq<HookStep>): (r: (HostState, Outcome<string>))
    ensures r.0.loaded == st.loaded && r.0.instances == st.instances
    decreases |steps|
  {
    if steps == [] then (st, Pass)
    else
      var (st1, o) := Step(st, steps[0]);
      if o.Fail? then (st1, o) else Run(st1, steps[1..])
  }

  /** Services are never removed: every name registered before a hook runs
      is still registered afterwards, whatever the hook does. */
  lemma {:induction false} RunKeepsServiceNames(st: HostState, steps: seq<HookStep>)
    ensures st.services.Keys <= Run(st, steps).0.services.Keys
    decreases |steps|
  {
    if steps != [] {
      var (st1, o) := Step(st, steps[0]);
      if o.Pass? {
        RunKeepsServiceNames(st1, steps[1..]);
      }
    }
  }

  /** Registering a name that is already taken replaces the earlier service:
      the last registration wins. */
  lemma LastRegistrationWins(st: HostState, k: string, v1: Service, v2: Service)
    ensures Run(st, [RegisterService(k, v1), RegisterService(k, v2)]).1 == Pass
    ensures Lookup(Run(st, [RegisterService(k, v1), RegisterService(k, v2)]).0, k) == Ok(v2)
  {
    var st1 := Step(st, RegisterService(k, v1)).0;
    assert [RegisterService(k, v1), RegisterService(k, v2)][1..] == [RegisterService(k, v2)];
    assert Run(st1, [RegisterService(k, v2)]) == Step(st1, RegisterService(k, v2));
  }

  /** A hook raises only at a `Raise` step or at a lookup of a service name
      that neither the steps before it nor anything earlier registered. */
  lemma {:induction false} RunFailsOnlyOnRaiseOrMissing(st: HostState, steps: seq<HookStep>)
    ensures Run(st, steps).1.Fail? ==>
      exists i :: 0 <= i < |steps| &&
        (steps[i].Raise? || (steps[i].GetService? && steps[i].key !in Run(st, steps[..i]).0.services))
    decreases |steps|
  {
    if steps != [] {
      var (st1, o) := Step(st, steps[0]);
      assert steps[..0] == [];
      if o.Pass? && Run(st, steps).1.Fail? {
        RunFailsOnlyOnRaiseOrMissing(st1, steps[1..]);
        var i :| 0 <= i < |steps[1..]| &&
          (steps[1..][i].Raise? || (steps[1..][i].GetService? && steps[1..][i].key !in Run(st1, steps[1..][..i]).0.services));
        RunPrefix(st, steps, i + 1);
        assert steps[..i + 1][1..] == steps[1..][..i];
      }
    }
  }

  /** A hook that starts by ensuring its configuration directory raises
      that step's error with nothing changed, or otherwise goes on as if the
      step were not there. */
  lemma RunEnsured(st: HostState, ensured: Outcome<string>, rest: seq<HookStep>)
    ensures Run(st, EnsureConfigs(ensured) + rest) == if ensured.Fail? then (st, ensured) else Run(st, rest)
  {
    if ensured.Pass? {
      assert EnsureConfigs(ensured) + rest == rest;
    }
  }

  /** Running the first `k` steps from `st`, when the first step succeeds,
      equals running the first `k - 1` steps after it. */
  lemma RunPrefix(st: HostState, steps: seq<HookStep>, k: nat)
    requires 1 <= k <= |steps|
    requires Step(st, steps[0]).1.Pass?
    ensures Run(st, steps[..k]) == Run(Step(st, steps[0]).0, steps[..k][1..])
  {
    assert steps[..k][0] == steps[0];
  }

  /** The application object. Its fields are the parts of `HostState`;
      every method keeps `State()` equal to the value-level model. */
  class App {
    var services: map<string, Service>
    var dispatcherMiddlewares: seq<Middleware>
    var routerMiddlewares: seq<RouterMiddleware>
    var routers: seq<string>
    var loaded: seq<string>
    var instances: map<string, PluginClass>

    function State(): HostState
      reads this
    {
      HostState(services, dispatcherMiddlewares, routerMiddlewares, routers, loaded, instances)
    }

    constructor ()
      ensures State() == Initial()
    {
      services := map[];
      dispatcherMiddlewares := [AppInjector];
      routerMiddlewares := [];
      routers := [];
      loaded := [];
      instances := map[];
    }

    method RegisterService(name: string, service: Service)
      modifies this
      ensures State() == old(State()).(services := old(services)[name := service])
    {
      services := services[name := service];
    }

    method GetService(name: string) returns (r: Result<Service, string>)
      ensures r.Ok? <==> name in services
      ensures r.Ok? ==> r.value == services[name]
    {
      if name in services {
        r := Ok(services[name]);
      } else {
        r := Err(KeyErrorText(name));
      }
    }

    method IncludeRouter(router: string)
      modifies this
      ensures State() == old(State()).(routers := old(routers) + [router])
    {
      routers := routers + [router];
    }

    method AddDispatcherMiddleware(mw: Middleware)
      modifies this
      ensures State() == old(State()).(dispatcherMiddlewares := old(dispatcherMiddlewares) + [mw])
    {
      dispatcherMiddlewares := dispatcherMiddlewares + [mw];
    }

    method AddRouterMiddleware(router: string, mw: Middleware, updateType: Option<string>)
      modifies this
      ensures State() == old(State()).(routerMiddlewares :=
        old(routerMiddlewares) + [RouterMiddleware(router, updateType, mw)])
    {
      routerMiddlewares := routerMiddlewares + [RouterMiddleware(router, updateType, mw)];
    }

    /** `app.plugins[name] = instance`: a new key goes to the end, an
        existing key keeps its place and gets the new instance. */
    method AddPlugin(name: string, cls: PluginClass)
      modifies this
      ensures State() == old(State()).(
        loaded := if name in old(loaded) then old(loaded) else old(loaded) + [name],
        instances := old(instances)[name := cls])
    {
      if name !in loaded {
        loaded := loaded + [name];
      }
      instances := instances[name := cls];
    }

    /** Awaits a hook: performs its steps on this application until one raises. */
    method RunHook(steps: seq<HookStep>) returns (o: Outcome<string>)
      modifies this
      ensures (State(), o) == Run(old(State()), steps)
    {
      var i := 0;
      o := Pass;
      while i < |steps| && o.Pass?
        invariant 0 <= i <= |steps|
        invariant Run(old(State()), steps) == (if o.Fail? then (State(), o) else Run(State(), steps[i..]))
      {
        assert steps[i..][1..] == steps[i + 1..];
        match steps[i] {
          case RegisterService(k, v) => RegisterService(k, v);
          case GetService(k) =>
            var got := GetService(k);
            if got.Err? { o := Fail(KeyErrorText(k)); }
          case AddDispatcherMiddleware(mw) => AddDispatcherMiddleware(mw);
          case AddRouterMiddleware(router, mw, t) => AddRouterMiddleware(router, mw, t);
          case IncludeRouter(router) => IncludeRouter(router);
          case Raise(e) => o := Fail(e);
        }
        i := i + 1;
      }
    }
  }
}
