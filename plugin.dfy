/** The plugin base class and the vocabulary its hooks use.

    A plugin class is described by its class attributes (`name`, `requires`,
    `default_config_dir`), the directory of the module that defines it, and
    what its `on_load` and `on_startup` hooks do to the application. */
module PluginBase {
  import opened Wrappers
  import Toml

  /** A service object: an opaque one, told apart by `tag`, or the message
      skipper with the interval it was built with. */
  datatype Service =
    | Service(tag: string)
    | MessagesUpdateSkipper(skipIntervalSeconds: Toml.Value)

  /** An opaque middleware object; `tag` tells middlewares apart. */
  datatype Middleware = Middleware(tag: string)

  /** One call a plugin hook makes on the application. `Raise` stands for an
      exception the hook raises itself or gets from code outside the model. */
  datatype HookStep =
    | RegisterService(key: string, service: Service)
    | GetService(key: string)
    | AddDispatcherMiddleware(mw: Middleware)
    | AddRouterMiddleware(router: string, rmw: Middleware, updateType: Option<string>)
    | IncludeRouter(router: string)
    | Raise(error: string)

  /** A plugin class. `name == None` is Python's `None`; `defaultConfigDir`
      is `None` or the path components of the relative directory string
      (`""` has none and so names the module's own directory). */
  datatype PluginClass = PluginClass(
    name: Option<string>,
    required: seq<string>,
    defaultConfigDir: Option<seq<string>>,
    moduleDir: seq<string>,
    onLoad: seq<HookStep>,
    onStartup: seq<HookStep>)

  /** The base class itself: its `name` is `None`, it requires nothing, its
      hooks do nothing, and its default configuration directory is the string
      built when the class body ran, while `name` was still `None`. A subclass
      is this value with the attributes it overrides updated. */
  function BasePlugin(moduleDir: seq<string>): (c: PluginClass)
    ensures c.name == None && c.required == [] && c.onLoad == [] && c.onStartup == []
    ensures c.defaultConfigDir == Some(["config", "None"])
  {
    PluginClass(None, [], Some(["config", "None"]), moduleDir, [], [])
  }

  /** The first call of the hooks that keep a configuration directory,
      `self.config_manager.ensure_plugin_configs(self)`, from its outcome:
      when it raises, the hook raises that error before anything else. */
  function EnsureConfigs(ensured: Outcome<string>): seq<HookStep>
  {
    if ensured.Fail? then [Raise(ensured.error)] else []
  }
}
