/** The skip-updates plugin: a message older than the configured interval is
    to be ignored. Age is measured with `timedelta.seconds`, the
    seconds-within-a-day part of the difference, not the total.

    Clock values: `nowUs` is the current time in microseconds, a message date
    is in whole seconds (Telegram dates carry no fractions), both on the
    same epoch. */
module SkipUpdates {
  import opened Wrappers
  import opened PluginBase
  import Toml
  import Host
  import ConfigManager

  /** The incoming update kinds the middlewares tell apart. */
  datatype Update = Message(date: int) | CallbackQuery | OtherUpdate

  const DefaultInterval := 30
  const MicrosPerSecond := 1_000_000
  const MicrosPerDay := 86_400_000_000

  /** `(now - date).seconds`: the difference normalised the way `timedelta`
      does it (days floor-divided out, remainder non-negative), then the
      whole seconds of the remainder. */
  function AgeSeconds(nowUs: int, date: int): (s: int)
    ensures 0 <= s < 86400
  {
    ((nowUs - date * MicrosPerSecond) % MicrosPerDay) / MicrosPerSecond
  }

  /** `MessagesUpdateSkipper(interval).should_skip(update)` at time `nowUs`.
      Only messages are skipped; a negative interval skips every message,
      and one of 86399 seconds or more skips none, since the age never
      reaches a day. */
  function ShouldSkip(nowUs: int, update: Update, interval: int): (skip: bool)
    ensures skip ==> update.Message?
    ensures update.Message? && interval < 0 ==> skip
    ensures interval >= 86399 ==> !skip
  {
    update.Message? && AgeSeconds(nowUs, update.date) > interval
  }

  /** Updates that are not messages are never skipped. */
  lemma OnlyMessagesSkipped(nowUs: int, update: Update, interval: int)
    requires ShouldSkip(nowUs, update, interval)
    ensures update.Message?
  {
  }

  /** Within the first day the rule is the plain one: a message is skipped
      exactly when its age in whole seconds exceeds the interval, so an age
      equal to the interval is kept. */
  lemma SkipWithinADay(nowUs: int, date: int, interval: int)
    requires 0 <= nowUs - date * MicrosPerSecond < MicrosPerDay
    ensures ShouldSkip(nowUs, Message(date), interval) <==>
            (nowUs - date * MicrosPerSecond) / MicrosPerSecond > interval
  {
  }

  /** A message one whole day plus at most `interval` seconds old is not
      skipped: the whole day is dropped from the age. */
  lemma DayOldMessageKept(nowUs: int, date: int, interval: int, extra: int)
    requires 0 <= extra <= interval
    requires nowUs == (date + 86400 + extra) * MicrosPerSecond
    ensures !ShouldSkip(nowUs, Message(date), interval)
  {
    assert nowUs - date * MicrosPerSecond == MicrosPerDay + extra * MicrosPerSecond;
    assert (MicrosPerDay + extra * MicrosPerSecond) % MicrosPerDay == extra * MicrosPerSecond % MicrosPerDay;
  }

  /** A message dated slightly in the future has a negative difference whose
      seconds part is close to a full day, so it is skipped. */
  lemma FutureMessageSkipped(nowUs: int, date: int, interval: int, ahead: int)
    requires 0 <= interval < 86399
    requires 0 < ahead <= (86399 - interval) * MicrosPerSecond
    requires date * MicrosPerSecond == nowUs + ahead
    ensures ShouldSkip(nowUs, Message(date), interval)
  {
    var d := nowUs - date * MicrosPerSecond;
    assert d == -ahead;
    assert d % MicrosPerDay == MicrosPerDay - ahead;
  }

  /** `skippers_settings_from_config`: the single setting "message", read
      with the default interval. */
  function Settings(config: Toml.Table): (s: map<string, Toml.Value>)
    ensures s.Keys == {"message"}
    ensures "message" !in config ==> s["message"] == Toml.TInt(DefaultInterval)
    ensures "message" in config ==> s["message"] == config["message"]
  {
    map["message" := Toml.Get(config, "message", Toml.TInt(DefaultInterval))]
  }

  const SkipperKey := "skip_updates:messages_update_skipper"

  /** The skipper `on_load` builds: `MessagesUpdateSkipper` with the
      configured "message" interval. */
  function Skipper(config: Toml.Table): Service
  {
    MessagesUpdateSkipper(Settings(config)["message"])
  }

  /** `on_load` from the outcome of `ensure_plugin_configs` and the parsed
      configuration: ensure the configuration directory, then register the
      skipper. */
  function OnLoad(ensured: Outcome<string>, config: Toml.Table): (steps: seq<HookStep>)
    ensures ensured.Fail? ==> |steps| >= 1 && steps[0] == Raise(ensured.error)
    ensures |steps| >= 1 && steps[|steps| - 1] ==
      RegisterService(SkipperKey, MessagesUpdateSkipper(Toml.Get(config, "message", Toml.TInt(DefaultInterval))))
  {
    EnsureConfigs(ensured) + [RegisterService(SkipperKey, Skipper(config))]
  }

  /** Loading fails exactly when ensuring the configuration directory does,
      and then changes nothing. Otherwise the only change is the skipper
      registered under its key, built with the configured interval (30
      seconds when "message" is not set). */
  lemma OnLoadRegistersSkipper(st: Host.HostState, ensured: Outcome<string>, config: Toml.Table)
    ensures ensured.Fail? ==> Host.Run(st, OnLoad(ensured, config)) == (st, ensured)
    ensures ensured.Pass? ==>
      var interval := if "message" in config then config["message"] else Toml.TInt(DefaultInterval);
      Host.Run(st, OnLoad(ensured, config)) ==
        (st.(services := st.services[SkipperKey := MessagesUpdateSkipper(interval)]), Pass)
    ensures ensured.Pass? ==>
      Host.Lookup(Host.Run(st, OnLoad(ensured, config)).0, SkipperKey) ==
        Ok(MessagesUpdateSkipper(Toml.Get(config, "message", Toml.TInt(DefaultInterval))))
  {
    var rest := [RegisterService(SkipperKey, Skipper(config))];
    Host.RunEnsured(st, ensured, rest);
    assert rest[1..] == [];
  }

  const Name := "skip_updates"

  /** The plugin class: no dependencies, and the inherited default
      configuration directory. */
  function SkipUpdatesPlugin(moduleDir: seq<string>, ensured: Outcome<string>, config: Toml.Table): (c: PluginClass)
    ensures c.name == Some(Name) && c.required == []
    ensures c.defaultConfigDir == BasePlugin(moduleDir).defaultConfigDir
  {
    BasePlugin(moduleDir).(name := Some(Name), required := [], onLoad := OnLoad(ensured, config))
  }

  /** The inherited default directory is "config/None" under the plugin's
      module: unless that exists, ensuring the configuration raises, and
      with it `on_load`. */
  lemma InheritedDefaultsMissing(configs: map<string, ConfigManager.Tree>, source: ConfigManager.Tree,
                                 moduleDir: seq<string>, ensured: Outcome<string>, config: Toml.Table)
    requires ConfigManager.Get(source, moduleDir + ["config", "None"]).None?
    ensures ConfigManager.EnsureOutcome(configs, source, SkipUpdatesPlugin(moduleDir, ensured, config)).Fail?
  {
  }
}
