/** The database plugin: the connection URL it assembles from its
    configuration, and what its `on_load` registers on the application.
    The engine, the session factory and the unit of work are foreign
    objects and appear only as opaque services. */
module DbManager {
  import opened Wrappers
  import opened PluginBase
  import PyStr
  import Toml
  import Host

  /** The six fields of the URL, already converted with `str()`. */
  datatype DbFields = DbFields(driver: string, user: string, password: string,
                               host: string, port: string, dbName: string)

  /** `str(v)` for a TOML value. Strings, integers and booleans are
      rendered here; a list or a table is rendered by `render`, which stands
      for Python's `repr` of the parsed list or dictionary. */
  function Str(v: Toml.Value, render: Toml.Value -> string): (r: string)
    ensures v.TStr? ==> r == v.s
    ensures v.TInt? ==> r == PyStr.IntToString(v.i)
    ensures v.TBool? ==> r == if v.b then "True" else "False"
    ensures v.TList? || v.TTable? ==> r == render(v)
  {
    match v
    case TStr(s) => s
    case TInt(i) => PyStr.IntToString(i)
    case TBool(b) => if b then "True" else "False"
    case TList(_) => render(v)
    case TTable(_) => render(v)
  }

  /** The field read from the "database" table with its default, as the
      f-string renders it: the configured value when the key is there,
      otherwise the default. */
  function Field(db: Toml.Table, key: string, default: Toml.Value, render: Toml.Value -> string): (r: string)
    ensures key in db ==> r == Str(db[key], render)
    ensures key !in db ==> r == Str(default, render)
  {
    Str(Toml.Get(db, key, default), render)
  }

  /** The lookups of `_assemble_connection`: the "database" table (absent
      means empty; any other value has no `.get` and raises) and its six keys.
      Each field is the configured value rendered, or its default: empty
      strings, except "localhost" for the host and "5432" for the port. */
  function Fields(config: Toml.Table, render: Toml.Value -> string): (r: Result<DbFields, string>)
    ensures r.Err? <==> "database" in config && !config["database"].TTable?
    ensures r.Ok? ==>
      var db := if "database" in config then config["database"].entries else map[];
      r.value.driver == (if "async_driver" in db then Str(db["async_driver"], render) else "") &&
      r.value.user == (if "user" in db then Str(db["user"], render) else "") &&
      r.value.password == (if "password" in db then Str(db["password"], render) else "") &&
      r.value.host == (if "host" in db then Str(db["host"], render) else "localhost") &&
      r.value.port == (if "port" in db then Str(db["port"], render) else "5432") &&
      r.value.dbName == (if "db_name" in db then Str(db["db_name"], render) else "")
  {
    match Toml.SubTable(config, "database")
    case Err(e) => Err(e)
    case Ok(db) =>
      DefaultPort();
      Ok(DbFields(Field(db, "async_driver", Toml.TStr(""), render), Field(db, "user", Toml.TStr(""), render),
                  Field(db, "password", Toml.TStr(""), render), Field(db, "host", Toml.TStr("localhost"), render),
                  Field(db, "port", Toml.TInt(5432), render), Field(db, "db_name", Toml.TStr(""), render)))
  }

  /** The URL template: driver, user, password, host, port and database
      name, in that order, with nothing escaped. */
  function Url(f: DbFields): string
  {
    f.driver + "://" + UserInfo(f)
  }

  /** The URL after "//": user, password, then the host part. */
  function UserInfo(f: DbFields): string
  {
    f.user + ":" + f.password + "@" + HostPort(f)
  }

  /** The URL after '@': host, port and database name. */
  function HostPort(f: DbFields): string
  {
    f.host + ":" + f.port + "/" + f.dbName
  }

  function AssembleConnection(config: Toml.Table, render: Toml.Value -> string): (r: Result<string, string>)
    ensures r.Ok? <==> Fields(config, render).Ok?
    ensures r.Ok? ==> r.value == Url(Fields(config, render).value)
  {
    match Fields(config, render)
    case Err(e) => Err(e)
    case Ok(f) => Ok(Url(f))
  }

  /** With no "database" table every default applies. */
  lemma EmptyConfigUrl(render: Toml.Value -> string)
    ensures AssembleConnection(map[], render) == Ok("://:@localhost:5432/")
  {
    EmptyConfigFields(render);
    DefaultUrl();
  }

  lemma DefaultUrl()
    ensures Url(DbFields("", "", "", "localhost", "5432", "")) == "://:@localhost:5432/"
  {
  }

  lemma EmptyConfigFields(render: Toml.Value -> string)
    ensures Fields(map[], render) == Ok(DbFields("", "", "", "localhost", "5432", ""))
  {
  }

  /** The default port 5432 prints as "5432". */
  lemma DefaultPort()
    ensures PyStr.IntToString(5432) == "5432"
  {
    assert PyStr.NatToString(5) == "5";
    assert PyStr.NatToString(54) == "54";
    assert PyStr.NatToString(543) == "543";
  }

  /** The index of the first `c` in `s` at or after `i`, or `|s|`. */
  function Find(s: string, c: char, i: nat): (k: nat)
    requires i <= |s|
    ensures i <= k <= |s| && (k < |s| ==> s[k] == c)
    ensures forall j :: i <= j < k ==> s[j] != c
    decreases |s| - i
  {
    if i == |s| || s[i] == c then i else Find(s, c, i + 1)
  }

  lemma {:induction false} FindFirst(s: string, c: char, i: nat, k: nat)
    requires i <= k < |s| && s[k] == c
    requires forall j :: i <= j < k ==> s[j] != c
    ensures Find(s, c, i) == k
    decreases k - i
  {
    if i < k {
      FindFirst(s, c, i + 1, k);
    }
  }

  /** `s` up to the first `c`, and what follows it. */
  function SplitAt(s: string, c: char): (r: Option<(string, string)>)
    ensures r.None? <==> c !in s
    ensures r.Some? ==> s == r.value.0 + [c] + r.value.1 && c !in r.value.0
  {
    var k := Find(s, c, 0);
    if k == |s| then None
    else
      assert s == s[..k] + [c] + s[k + 1..];
      Some((s[..k], s[k + 1..]))
  }

  lemma {:induction false} SplitAtFirst(a: string, c: char, b: string)
    requires c !in a
    ensures SplitAt(a + [c] + b, c) == Some((a, b))
  {
    var s := a + [c] + b;
    FindFirst(s, c, 0, |a|);
    assert s[..|a|] == a && s[|a| + 1..] == b;
  }

  /** Reads a URL back into its fields, splitting at the first separator
      of each kind. */
  function ParseUrl(u: string): (r: Option<DbFields>)
    ensures r.Some? ==> Unambiguous(r.value)
  {
    match SplitAt(u, ':')
    case None => None
    case Some((driver, r1)) =>
      if |r1| < 2 || r1[..2] != "//" then None else ParseUserInfo(driver, r1[2..])
  }

  /** The part after "//": user, then password after the first ':'. */
  function ParseUserInfo(driver: string, s: string): (r: Option<DbFields>)
    requires ':' !in driver
    ensures r.Some? ==> Unambiguous(r.value)
  {
    match SplitAt(s, ':')
    case None => None
    case Some((user, r2)) => match SplitAt(r2, '@')
      case None => None
      case Some((password, r3)) => ParseHostPort(driver, user, password, r3)
  }

  /** The part after '@': host, port after the first ':', then the
      database name after the first '/'. */
  function ParseHostPort(driver: string, user: string, password: string, s: string): (r: Option<DbFields>)
    requires ':' !in driver && ':' !in user && '@' !in password
    ensures r.Some? ==> Unambiguous(r.value)
  {
    match SplitAt(s, ':')
    case None => None
    case Some((host, r4)) => match SplitAt(r4, '/')
      case None => None
      case Some((port, name)) => Some(DbFields(driver, user, password, host, port, name))
  }

  /** The fields can be read back from the URL as long as none of them
      contains the separator that ends it. */
  predicate Unambiguous(f: DbFields)
  {
    ':' !in f.driver && ':' !in f.user && '@' !in f.password && ':' !in f.host && '/' !in f.port
  }

  lemma UrlRoundTrip(f: DbFields)
    requires Unambiguous(f)
    ensures ParseUrl(Url(f)) == Some(f)
  {
    var r1 := "//" + UserInfo(f);
    assert Url(f) == f.driver + [':'] + r1;
    SplitAtFirst(f.driver, ':', r1);
    assert r1[..2] == "//" && r1[2..] == UserInfo(f);
    UserInfoRoundTrip(f);
  }

  lemma {:induction false} UserInfoRoundTrip(f: DbFields)
    requires Unambiguous(f)
    ensures ParseUserInfo(f.driver, UserInfo(f)) == Some(f)
  {
    var r2 := f.password + "@" + HostPort(f);
    assert UserInfo(f) == f.user + [':'] + r2;
    SplitAtFirst(f.user, ':', r2);
    assert r2 == f.password + ['@'] + HostPort(f);
    SplitAtFirst(f.password, '@', HostPort(f));
    HostPortRoundTrip(f);
  }

  lemma {:induction false} HostPortRoundTrip(f: DbFields)
    requires Unambiguous(f)
    ensures ParseHostPort(f.driver, f.user, f.password, HostPort(f)) == Some(f)
  {
    var r4 := f.port + "/" + f.dbName;
    assert HostPort(f) == f.host + [':'] + r4;
    SplitAtFirst(f.host, ':', r4);
    assert r4 == f.port + ['/'] + f.dbName;
    SplitAtFirst(f.port, '/', f.dbName);
  }

  /** Nothing is escaped: the URL reads back as the fields it was built
      from exactly when no field holds the separator that ends it (a
      password with an '@' in it, say, is split in the wrong place). */
  lemma UrlRoundTripIff(f: DbFields)
    ensures ParseUrl(Url(f)) == Some(f) <==> Unambiguous(f)
  {
    if Unambiguous(f) {
      UrlRoundTrip(f);
    }
  }

  const EngineKey := "db_manager:engine"
  const BaseKey := "db_manager:base"
  const UowFactoryKey := "db_manager:uow_factory"

  /** The middleware `on_load` installs; it is built with the unit-of-work
      factory, which it then stores under "db_manager:sessionmaker". */
  const SessionMiddleware := Middleware("db_manager.OuterMiddleware(uow_factory)")

  /** `on_load` from the outcome of `ensure_plugin_configs`, the parsed
      configuration, and `create_async_engine`, which gets the assembled URL
      and returns the engine or raises: ensure the configuration directory,
      build the URL, create the engine, then three services and one
      dispatcher middleware. */
  function OnLoad(ensured: Outcome<string>, config: Toml.Table, render: Toml.Value -> string,
                  createEngine: string -> Result<Service, string>): (steps: seq<HookStep>)
    ensures ensured.Fail? ==> |steps| >= 1 && steps[0] == Raise(ensured.error)
    ensures NoRouterSteps(steps)
    ensures ensured.Pass? && "database" in config && !config["database"].TTable? ==>
              steps == [Raise(AssembleConnection(config, render).error)]
  {
    var rest := Connect(config, render, createEngine);
    assert NoRouterSteps(EnsureConfigs(ensured));
    EnsureConfigs(ensured) + rest
  }

  /** The hook only raises, registers services and adds dispatcher
      middlewares: it includes no router and looks nothing up. */
  predicate NoRouterSteps(steps: seq<HookStep>)
  {
    forall i :: 0 <= i < |steps| ==>
      steps[i].Raise? || steps[i].RegisterService? || steps[i].AddDispatcherMiddleware?
  }

  function Connect(config: Toml.Table, render: Toml.Value -> string,
                   createEngine: string -> Result<Service, string>): (steps: seq<HookStep>)
    ensures NoRouterSteps(steps)
    ensures AssembleConnection(config, render).Err? ==> steps == [Raise(AssembleConnection(config, render).error)]
  {
    match AssembleConnection(config, render)
    case Err(e) => [Raise(e)]
    case Ok(url) =>
      match createEngine(url)
      case Err(e) => [Raise(e)]
      case Ok(engine) => Registrations(engine)
  }

  const BaseService := Service("Base")
  const UowFactory := Service("UnitOfWork factory")

  function Registrations(engine: Service): (steps: seq<HookStep>)
    ensures NoRouterSteps(steps)
  {
    [RegisterService(EngineKey, engine),
     RegisterService(BaseKey, BaseService),
     RegisterService(UowFactoryKey, UowFactory),
     AddDispatcherMiddleware(SessionMiddleware)]
  }

  /** Once the configuration directory is ensured, the URL built and the
      engine created from it, loading succeeds: the engine, the base and the
      factory are registered and the middleware appended, and nothing else
      changes. */
  lemma OnLoadRegisters(st: Host.HostState, ensured: Outcome<string>, config: Toml.Table,
                        render: Toml.Value -> string, createEngine: string -> Result<Service, string>)
    requires ensured.Pass?
    requires AssembleConnection(config, render).Ok?
    requires createEngine(AssembleConnection(config, render).value).Ok?
    ensures var engine := createEngine(AssembleConnection(config, render).value).value;
      Host.Run(st, OnLoad(ensured, config, render, createEngine)) ==
        (st.(services := st.services[EngineKey := engine][BaseKey := BaseService][UowFactoryKey := UowFactory],
             dispatcherMiddlewares := st.dispatcherMiddlewares + [SessionMiddleware]), Pass)
  {
    var engine := createEngine(AssembleConnection(config, render).value).value;
    Host.RunEnsured(st, ensured, Connect(config, render, createEngine));
    RegistrationsEffect(st, engine);
  }

  /** The registrations succeed from any state: the three services are
      bound, in order, and the middleware is appended. */
  lemma RegistrationsEffect(st: Host.HostState, engine: Service)
    ensures Host.Run(st, Registrations(engine)) ==
      (st.(services := st.services[EngineKey := engine][BaseKey := BaseService][UowFactoryKey := UowFactory],
           dispatcherMiddlewares := st.dispatcherMiddlewares + [SessionMiddleware]), Pass)
  {
    var steps := Registrations(engine);
    var st1 := Host.Step(st, steps[0]).0;
    var st2 := Host.Step(st1, steps[1]).0;
    var st3 := Host.Step(st2, steps[2]).0;
    assert steps[1..][1..][1..][1..] == [];
    assert Host.Run(st, steps) == Host.Run(st1, steps[1..]);
    assert Host.Run(st1, steps[1..]) == Host.Run(st2, steps[1..][1..]);
    assert Host.Run(st2, steps[1..][1..]) == Host.Run(st3, steps[1..][1..][1..]);
  }

  /** Loading raises, with nothing changed, the first error among: ensuring
      the configuration directory, a "database" entry that is not a table,
      and the engine's creation. */
  lemma OnLoadFailures(st: Host.HostState, ensured: Outcome<string>, config: Toml.Table,
                       render: Toml.Value -> string, createEngine: string -> Result<Service, string>)
    ensures ensured.Fail? ==> Host.Run(st, OnLoad(ensured, config, render, createEngine)) == (st, ensured)
    ensures ensured.Pass? && "database" in config && !config["database"].TTable? ==>
      Host.Run(st, OnLoad(ensured, config, render, createEngine)) == (st, Fail(AssembleConnection(config, render).error))
    ensures ensured.Pass? && AssembleConnection(config, render).Ok? &&
            createEngine(AssembleConnection(config, render).value).Err? ==>
      Host.Run(st, OnLoad(ensured, config, render, createEngine)) ==
        (st, Fail(createEngine(AssembleConnection(config, render).value).error))
  {
    Host.RunEnsured(st, ensured, Connect(config, render, createEngine));
    ConnectRaises(config, render, createEngine);
  }

  /** `Connect` is a single raise when the URL cannot be built or the
      engine cannot be created. */
  lemma ConnectRaises(config: Toml.Table, render: Toml.Value -> string,
                      createEngine: string -> Result<Service, string>)
    ensures var conn := AssembleConnection(config, render);
      if conn.Err? then Connect(config, render, createEngine) == [Raise(conn.error)]
      else createEngine(conn.value).Err? ==>
        Connect(config, render, createEngine) == [Raise(createEngine(conn.value).error)]
  {
  }

  /** The plugin class: it ships its defaults in "default_configs/". */
  function DbManagerPlugin(moduleDir: seq<string>, ensured: Outcome<string>, config: Toml.Table,
                           render: Toml.Value -> string, createEngine: string -> Result<Service, string>): (c: PluginClass)
    ensures c.name == Some("db_manager") && c.required == []
    ensures c.defaultConfigDir == Some(["default_configs"])
  {
    BasePlugin(moduleDir).(name := Some("db_manager"), defaultConfigDir := Some(["default_configs"]),
                           onLoad := OnLoad(ensured, config, render, createEngine))
  }
}
