/** The quotes plugin: the keyword arguments it builds for the quote service
    from its configuration, the service's background rotation, and what its
    `on_load` does to the application. Image loading and drawing are not
    modelled; a loaded background is identified by its path. */
module Quotes {
  import opened Wrappers
  import opened PluginBase
  import Toml
  import Host

  /** A file-system path, as its components. */
  type Path = seq<string>

  const BackgroundsMissing := "ValueError: Backgrounds dir configuration is missing in quotes plugin configuration"
  const FontMissing := "ValueError: Font configuration is missing in quotes plugin configuration"
  const FontFamilyMissing := "ValueError: Font family configuration is missing in quotes plugin configuration"
  const NoGet := "AttributeError: object has no attribute 'get'"
  const NotComparable := "TypeError: '<' not supported between instances"
  const NotIterable := "TypeError: object is not iterable"
  const NotAPattern := "TypeError: a pattern must be a string"
  const NoBackgroundPaths := "ValueError: No background paths provided to load."
  const NoBackgrounds := "ValueError: No backgrounds available in QuoteService."

  /** The upper bound `min` puts on the configured background limit. */
  const MaxBackgrounds := 1000

  /** `min(v, 1000)` for the configured limit; a bool is an int, and any
      other value cannot be compared with an int. */
  function Limit(v: Toml.Value): (r: Result<int, string>)
    ensures v.TInt? ==> r == Ok(if v.i < MaxBackgrounds then v.i else MaxBackgrounds)
    ensures r.Ok? ==> r.value <= MaxBackgrounds
    ensures r.Err? <==> !v.TInt? && !v.TBool?
  {
    match v
    case TInt(i) => Ok(if i < MaxBackgrounds then i else MaxBackgrounds)
    case TBool(b) => Ok(if b then 1 else 0)
    case _ => Err(NotComparable)
  }

  /** The patterns a `for` loop over a configured value sees: the strings of
      a list, the characters of a string, the keys of a table. Numbers and
      bools are not iterable, and a list item that is not a string is not a
      pattern. */
  function Patterns(v: Toml.Value): (r: Result<set<string>, string>)
    ensures v.TList? && (forall k :: 0 <= k < |v.items| ==> v.items[k].TStr?) ==>
              r.Ok? && forall p :: p in r.value <==> exists k :: 0 <= k < |v.items| && v.items[k] == Toml.TStr(p)
    ensures v.TInt? || v.TBool? ==> r == Err(NotIterable)
  {
    match v
    case TList(items) =>
      if forall k :: 0 <= k < |items| ==> items[k].TStr? then Ok(set k | 0 <= k < |items| :: items[k].s)
      else Err(NotAPattern)
    case TStr(s) => Ok(set k | 0 <= k < |s| :: [s[k]])
    case TTable(m) => Ok(m.Keys)
    case _ => Err(NotIterable)
  }

  /** `d.get(key)` is truthy: present and not an empty or zero value. */
  predicate Present(d: Toml.Table, key: string)
  {
    key in d && Toml.Truthy(d[key])
  }

  /** Everything the settings builder reads before it looks for background
      files. */
  datatype Plan = Plan(
    limit: int,
    randomized: Toml.Value,
    quoteFontFamily: Toml.Value,
    metadataFontFamily: Toml.Value,
    quoteFontSize: Toml.Value,
    metadataFontSize: Toml.Value,
    allowed: set<string>,
    ignored: set<string>,
    timezone: Toml.Value,
    strftime: Toml.Value)

  /** The time-zone name and date format: the "datetime" table's values
      with their defaults when the table is there and not empty, and two
      empty strings otherwise. */
  function DateSettings(config: Toml.Table): (r: Result<(Toml.Value, Toml.Value), string>)
    ensures !Present(config, "datetime") ==> r == Ok((Toml.TStr(""), Toml.TStr("")))
    ensures Present(config, "datetime") && config["datetime"].TTable? ==>
              r == Ok((Toml.Get(config["datetime"].entries, "timezone", Toml.TStr("Etc/UTC")),
                       Toml.Get(config["datetime"].entries, "strftime", Toml.TStr("%d.%m.%Y"))))
    ensures r.Err? <==> Present(config, "datetime") && !config["datetime"].TTable?
  {
    if !Present(config, "datetime") then Ok((Toml.TStr(""), Toml.TStr("")))
    else match config["datetime"]
      case TTable(dt) =>
        Ok((Toml.Get(dt, "timezone", Toml.TStr("Etc/UTC")), Toml.Get(dt, "strftime", Toml.TStr("%d.%m.%Y"))))
      case _ => Err(NoGet)
  }

  /** The lookups of `quote_service_kwargs_from_config`, in the order the
      source makes them, each with the exception it can raise. */
  function ReadPlan(config: Toml.Table): (r: Result<Plan, string>)
    ensures r.Ok? ==> "backgrounds" in config && config["backgrounds"].TTable? &&
                      "font" in config && config["font"].TTable?
    ensures r.Ok? ==> r.value.limit <= MaxBackgrounds
    ensures r.Ok? ==> Present(config["font"].entries, "quote_font_family") &&
                      Present(config["font"].entries, "metadata_font_family")
    ensures r.Ok? ==> r.value.quoteFontFamily == config["font"].entries["quote_font_family"] &&
                      r.value.metadataFontFamily == config["font"].entries["metadata_font_family"]
  {
    if "backgrounds" !in config then Err(BackgroundsMissing)
    else if "font" !in config then Err(FontMissing)
    else if !config["backgrounds"].TTable? then Err(NoGet)
    else
      var bg := config["backgrounds"].entries;
      var limit := Limit(Toml.Get(bg, "limit", Toml.TInt(100)));
      if limit.Err? then Err(limit.error)
      else if !config["font"].TTable? then Err(NoGet)
      else
        var font := config["font"].entries;
        if !Present(font, "quote_font_family") || !Present(font, "metadata_font_family") then Err(FontFamilyMissing)
        else
          var allowed := Patterns(Toml.Get(bg, "allowed", Toml.TList([Toml.TStr("*")])));
          var ignored := Patterns(Toml.Get(bg, "ignored", Toml.TList([])));
          var dates := DateSettings(config);
          if allowed.Err? then Err(allowed.error)
          else if ignored.Err? then Err(ignored.error)
          else if dates.Err? then Err(dates.error)
          else Ok(Plan(limit.value, Toml.Get(bg, "randomized", Toml.TBool(true)),
                       font["quote_font_family"], font["metadata_font_family"],
                       Toml.Get(font, "quote_font_size", Toml.TInt(24)),
                       Toml.Get(font, "metadata_font_size", Toml.TInt(18)),
                       allowed.value, ignored.value, dates.value.0, dates.value.1))
  }

  /** The exceptions of the builder: a missing "backgrounds" or "font"
      table, or a missing or empty font family, raise `ValueError`. */
  lemma ReadPlanErrors(config: Toml.Table)
    ensures "backgrounds" !in config ==> ReadPlan(config) == Err(BackgroundsMissing)
    ensures "backgrounds" in config && "font" !in config ==> ReadPlan(config) == Err(FontMissing)
    ensures ReadPlan(config).Ok? ==>
              "backgrounds" in config && config["font"].TTable? &&
              Present(config["font"].entries, "quote_font_family") &&
              Present(config["font"].entries, "metadata_font_family")
    ensures "backgrounds" in config && config["backgrounds"].TTable? && "font" in config &&
            config["font"].TTable? && !Present(config["font"].entries, "quote_font_family") &&
            Limit(Toml.Get(config["backgrounds"].entries, "limit", Toml.TInt(100))).Ok? ==>
              ReadPlan(config) == Err(FontFamilyMissing)
  {
  }

  /** With empty "backgrounds" and "font" tables apart from the two
      families, and no "datetime" table, every default applies. */
  lemma ReadPlanDefaults(qf: string, mf: string)
    requires qf != "" && mf != ""
    ensures var config := map["backgrounds" := Toml.TTable(map[]),
                               "font" := Toml.TTable(map["quote_font_family" := Toml.TStr(qf),
                                                         "metadata_font_family" := Toml.TStr(mf)])];
            ReadPlan(config) == Ok(Plan(100, Toml.TBool(true), Toml.TStr(qf), Toml.TStr(mf),
                                        Toml.TInt(24), Toml.TInt(18), {"*"}, {},
                                        Toml.TStr(""), Toml.TStr("")))
  {
    var font := map["quote_font_family" := Toml.TStr(qf), "metadata_font_family" := Toml.TStr(mf)];
    var config := map["backgrounds" := Toml.TTable(map[]), "font" := Toml.TTable(font)];
    var star := Toml.TList([Toml.TStr("*")]);
    assert (set k | 0 <= k < |star.items| :: star.items[k].s) == {"*"} by {
      assert star.items[0].s == "*";
    }
    assert Patterns(star) == Ok({"*"});
    var none: seq<Toml.Value> := [];
    var noneR := Patterns(Toml.TList(none));
    assert noneR.Ok? && forall p :: p !in noneR.value;
    assert noneR.value == {};
    assert Limit(Toml.TInt(100)) == Ok(100);
    assert Present(font, "quote_font_family") && Present(font, "metadata_font_family");
    assert DateSettings(config) == Ok((Toml.TStr(""), Toml.TStr("")));
  }

  /** A background is selected when some allowed pattern globs it and no
      ignored pattern matches it. */
  ghost predicate Globbed(pats: set<string>, glob: string -> set<Path>, b: Path)
  {
    exists a :: a in pats && b in glob(a)
  }

  ghost predicate Selected(p: Plan, glob: string -> set<Path>, matches: (Path, string) -> bool, b: Path)
  {
    Globbed(p.allowed, glob, b) && forall i :: i in p.ignored ==> !matches(b, i)
  }

  predicate NoDup(s: seq<Path>)
  {
    forall i, j :: 0 <= i < j < |s| ==> s[i] != s[j]
  }

  /** The end index of the slice `s[:k]` of a list of length `n`: a negative
      `k` counts from the end. */
  function SliceStop(n: nat, k: int): (r: nat)
    ensures r <= n
    ensures k >= 0 ==> r <= k && (r == k || r == n)
    ensures k < 0 ==> r + -k >= n && (r == 0 || r + -k == n)
  {
    if k >= 0 then (if k < n then k else n)
    else if n + k > 0 then n + k else 0
  }

  /** The nine keyword arguments of the quote service. */
  datatype QuoteKwargs = QuoteKwargs(
    srcPath: Path,
    backgrounds: seq<Path>,
    randomized: Toml.Value,
    quoteFontFamily: Toml.Value,
    metadataFontFamily: Toml.Value,
    quoteFontSize: Toml.Value,
    metadataFontSize: Toml.Value,
    timezone: Toml.Value,
    strftime: Toml.Value)

  /** The arguments built from a plan: the scalar settings as read, and the
      backgrounds a prefix, cut at the limit, of some listing of the selected
      files without repetition. */
  ghost predicate BuiltFrom(k: QuoteKwargs, p: Plan, configPath: Path,
                            glob: string -> set<Path>, matches: (Path, string) -> bool)
  {
    k.srcPath == configPath + ["src"] &&
    k.randomized == p.randomized &&
    k.quoteFontFamily == p.quoteFontFamily && k.metadataFontFamily == p.metadataFontFamily &&
    k.quoteFontSize == p.quoteFontSize && k.metadataFontSize == p.metadataFontSize &&
    k.timezone == p.timezone && k.strftime == p.strftime &&
    exists all: seq<Path> ::
      NoDup(all) && (forall b :: b in all <==> Selected(p, glob, matches, b)) &&
      k.backgrounds == all[..SliceStop(|all|, p.limit)]
  }

  /** The loop over the allowed patterns: every file some pattern globs. */
  method GlobAllowed(allowed: set<string>, glob: string -> set<Path>) returns (backgrounds: set<Path>)
    ensures forall b :: b in backgrounds <==> Globbed(allowed, glob, b)
  {
    backgrounds := {};
    var todo := allowed;
    while todo != {}
      invariant todo <= allowed
      invariant forall b :: b in backgrounds <==> Globbed(allowed - todo, glob, b)
      decreases |todo|
    {
      var f :| f in todo;
      backgrounds := backgrounds + glob(f);
      todo := todo - {f};
    }
  }

  /** The loop over the ignored patterns: the files no pattern matches. */
  method DropIgnored(globbed: set<Path>, ignored: set<string>, matches: (Path, string) -> bool)
    returns (backgrounds: set<Path>)
    ensures forall b :: b in backgrounds <==> b in globbed && forall i :: i in ignored ==> !matches(b, i)
  {
    backgrounds := globbed;
    var todo := ignored;
    while todo != {}
      invariant todo <= ignored
      invariant forall b :: b in backgrounds <==> b in globbed && forall i :: i in ignored - todo ==> !matches(b, i)
      decreases |todo|
    {
      var f :| f in todo;
      backgrounds := set b | b in backgrounds && !matches(b, f);
      todo := todo - {f};
    }
  }

  /** `quote_service_kwargs_from_config`. `glob(pattern)` stands for the
      files of the "src/backgrounds" directory the pattern matches, and
      `matches(path, pattern)` for `path.match(pattern)`. */
  method BuildKwargs(config: Toml.Table, configPath: Path,
                     glob: string -> set<Path>, matches: (Path, string) -> bool)
    returns (r: Result<QuoteKwargs, string>)
    ensures ReadPlan(config).Err? ==> r == Err(ReadPlan(config).error)
    ensures ReadPlan(config).Ok? ==> r.Ok? && BuiltFrom(r.value, ReadPlan(config).value, configPath, glob, matches)
    ensures r.Ok? ==> NoDup(r.value.backgrounds)
    ensures r.Ok? ==> forall b :: b in r.value.backgrounds ==> Selected(ReadPlan(config).value, glob, matches, b)
    ensures r.Ok? && ReadPlan(config).value.limit >= 0 ==> |r.value.backgrounds| <= ReadPlan(config).value.limit
  {
    var plan := ReadPlan(config);
    if plan.Err? {
      return Err(plan.error);
    }
    var k := BuildFromPlan(plan.value, configPath, glob, matches);
    r := Ok(k);
  }

  /** The arguments once the settings are read: the selected backgrounds
      listed and cut at the limit. */
  method BuildFromPlan(p: Plan, configPath: Path,
                       glob: string -> set<Path>, matches: (Path, string) -> bool)
    returns (k: QuoteKwargs)
    ensures BuiltFrom(k, p, configPath, glob, matches)
    ensures NoDup(k.backgrounds)
    ensures forall b :: b in k.backgrounds ==> Selected(p, glob, matches, b)
    ensures p.limit >= 0 ==> |k.backgrounds| <= p.limit
  {
    var globbed := GlobAllowed(p.allowed, glob);
    var backgrounds := DropIgnored(globbed, p.ignored, matches);
    var all := ListOf(backgrounds);
    var stop := SliceStop(|all|, p.limit);
    k := QuoteKwargs(configPath + ["src"], all[..stop], p.randomized, p.quoteFontFamily, p.metadataFontFamily,
                     p.quoteFontSize, p.metadataFontSize, p.timezone, p.strftime);
    assert forall b :: b in all <==> Selected(p, glob, matches, b);
    assert forall b :: b in all[..stop] ==> b in all;
  }

  /** `list(s)`: the elements of a set, each once, in some order. */
  method ListOf(s: set<Path>) returns (all: seq<Path>)
    ensures NoDup(all)
    ensures forall b :: b in all <==> b in s
  {
    all := [];
    var rest := s;
    while rest != {}
      invariant rest <= s
      invariant NoDup(all)
      invariant forall b :: b in all <==> b in s - rest
      decreases |rest|
    {
      var b :| b in rest;
      assert b !in all;
      all := all + [b];
      rest := rest - {b};
    }
  }

  /** A loaded background, identified by the file it came from. */
  datatype Image = Image(path: Path)

  /** The quote service's background rotation: the loaded backgrounds, the
      mode, and the cursor of the non-random mode. */
  class QuoteService {
    const backgrounds: seq<Image>
    const randomized: bool
    var currentBgIndex: nat

    /** The cursor always indexes a background. */
    predicate Valid()
      reads this
    {
      backgrounds != [] ==> currentBgIndex < |backgrounds|
    }

    constructor (backgrounds: seq<Image>, randomized: bool)
      ensures this.backgrounds == backgrounds && this.randomized == randomized
      ensures currentBgIndex == 0 && Valid()
    {
      this.backgrounds := backgrounds;
      this.randomized := randomized;
      currentBgIndex := 0;
    }

    /** `get_next_background`: an error without backgrounds; in random mode
      some background and the cursor untouched; otherwise the background at
      the cursor, and the cursor moves on by one, wrapping around. */
    method NextBackground() returns (r: Result<Image, string>)
      requires Valid()
      modifies this
      ensures Valid()
      ensures backgrounds == [] ==> r == Err(NoBackgrounds) && currentBgIndex == old(currentBgIndex)
      ensures backgrounds != [] && randomized ==>
                r.Ok? && r.value in backgrounds && currentBgIndex == old(currentBgIndex)
      ensures backgrounds != [] && !randomized ==>
                r == Ok(backgrounds[old(currentBgIndex)]) &&
                currentBgIndex == Advance(old(currentBgIndex), |backgrounds|)
    {
      if backgrounds == [] {
        return Err(NoBackgrounds);
      }
      if randomized {
        var i :| 0 <= i < |backgrounds|;
        r := Ok(backgrounds[i]);
      } else {
        r := Ok(backgrounds[currentBgIndex]);
        currentBgIndex := (currentBgIndex + 1) % |backgrounds|;
      }
    }
  }

  /** Building the service: `load_backgrounds` refuses an empty list of
      paths; otherwise each path becomes a loaded background, in order. */
  method NewQuoteService(paths: seq<Path>, randomized: bool) returns (r: Result<QuoteService, string>)
    ensures paths == [] <==> r.Err?
    ensures r.Err? ==> r.error == NoBackgroundPaths
    ensures r.Ok? ==> fresh(r.value) && r.value.Valid() && r.value.currentBgIndex == 0 &&
                      r.value.randomized == randomized &&
                      |r.value.backgrounds| == |paths| &&
                      forall i :: 0 <= i < |paths| ==> r.value.backgrounds[i] == Image(paths[i])
  {
    if paths == [] {
      return Err(NoBackgroundPaths);
    }
    var loaded: seq<Image> := [];
    for i := 0 to |paths|
      invariant |loaded| == i
      invariant forall j :: 0 <= j < i ==> loaded[j] == Image(paths[j])
    {
      loaded := loaded + [Image(paths[i])];
    }
    var s := new QuoteService(loaded, randomized);
    r := Ok(s);
  }

  /** The cursor after one non-random call. */
  function Advance(i: nat, n: nat): (r: nat)
    requires n > 0
    ensures r < n
  {
    (i + 1) % n
  }

  /** The cursor after `k` non-random calls from `i`. */
  function CursorAfter(i: nat, n: nat, k: nat): (r: nat)
    requires n > 0
    decreases k
  {
    if k == 0 then i else Advance(CursorAfter(i, n, k - 1), n)
  }

  lemma ModShift(x: nat, n: nat)
    requires n > 0 && x < 2 * n
    ensures x % n == if x < n then x else x - n
  {
    if x >= n {
      assert x == n + (x - n);
    }
  }

  /** Within one lap, `k` calls from `i` put the cursor at `i + k`, less
      `n` once it has passed the end. */
  lemma {:induction false} CursorAfterWraps(i: nat, n: nat, k: nat)
    requires n > 0 && i < n && k <= n
    ensures CursorAfter(i, n, k) == if i + k < n then i + k else i + k - n
    decreases k
  {
    if k > 0 {
      CursorAfterWraps(i, n, k - 1);
      ModShift(CursorAfter(i, n, k - 1) + 1, n);
    }
  }

  /** The cursors the first `n` calls from `i` serve. */
  function Served(i: nat, n: nat): set<nat>
    requires n > 0
  {
    set k | 0 <= k < n :: CursorAfter(i, n, k)
  }

  /** `n` non-random calls serve every background exactly once, in order
      from the cursor, and leave the cursor where it was. */
  lemma RoundRobin(i: nat, n: nat)
    requires n > 0 && i < n
    ensures CursorAfter(i, n, n) == i
    ensures forall a, b :: 0 <= a < b < n ==> CursorAfter(i, n, a) != CursorAfter(i, n, b)
    ensures forall j :: 0 <= j < n ==> j in Served(i, n)
  {
    CursorAfterWraps(i, n, n);
    forall a, b | 0 <= a < b < n
      ensures CursorAfter(i, n, a) != CursorAfter(i, n, b)
    {
      CursorAfterWraps(i, n, a);
      CursorAfterWraps(i, n, b);
    }
    forall j | 0 <= j < n
      ensures j in Served(i, n)
    {
      var k := if j >= i then j - i else j + n - i;
      CursorAfterWraps(i, n, k);
    }
  }

  const ServiceKey := "quotes:quote_service"

  /** What is registered under the service key: the class, not the instance
      built just before. */
  const QuoteServiceClass := Service("QuoteService class")

  /** `QuoteMiddleware` takes the quote service and a message skipper; it is
      built with the service alone. */
  const MiddlewareArgsError := "TypeError: QuoteMiddleware.__init__() missing 1 required positional argument: 'message_skipper'"

  const QuotesRouter := "quotes.router"

  /** `on_load` from the outcome of `ensure_plugin_configs` and of the
      settings builder: ensure the configuration directory, then the
      builder's error, or the service's refusal of an empty background list,
      or the class registered and then the middleware's construction failing
      before any router is touched. */
  function OnLoad(ensured: Outcome<string>, kwargs: Result<QuoteKwargs, string>): (steps: seq<HookStep>)
    ensures ensured.Fail? ==> |steps| >= 1 && steps[0] == Raise(ensured.error)
    ensures |steps| >= 1 && steps[|steps| - 1].Raise?
    ensures forall i :: 0 <= i < |steps| ==>
              steps[i].Raise? || steps[i] == RegisterService(ServiceKey, QuoteServiceClass)
  {
    EnsureConfigs(ensured) + Build(kwargs)
  }

  function Build(kwargs: Result<QuoteKwargs, string>): seq<HookStep>
  {
    match kwargs
    case Err(e) => [Raise(e)]
    case Ok(k) =>
      if k.backgrounds == [] then [Raise(NoBackgroundPaths)]
      else [RegisterService(ServiceKey, QuoteServiceClass), Raise(MiddlewareArgsError)]
  }

  /** Loading the plugin always fails, and never adds a router or a router
      middleware. A failure to ensure the configuration directory, or of the
      settings builder, changes nothing; only with backgrounds to load is
      anything registered, and then it is the class. */
  lemma OnLoadAlwaysFails(st: Host.HostState, ensured: Outcome<string>, kwargs: Result<QuoteKwargs, string>)
    ensures Host.Run(st, OnLoad(ensured, kwargs)).1.Fail?
    ensures Host.Run(st, OnLoad(ensured, kwargs)).0.routers == st.routers
    ensures Host.Run(st, OnLoad(ensured, kwargs)).0.routerMiddlewares == st.routerMiddlewares
    ensures ensured.Fail? ==> Host.Run(st, OnLoad(ensured, kwargs)) == (st, ensured)
    ensures ensured.Pass? && kwargs.Ok? && kwargs.value.backgrounds != [] ==>
              Host.Run(st, OnLoad(ensured, kwargs)) == (st.(services := st.services[ServiceKey := QuoteServiceClass]),
                                                        Fail(MiddlewareArgsError))
    ensures ensured.Pass? && kwargs.Err? ==> Host.Run(st, OnLoad(ensured, kwargs)) == (st, Fail(kwargs.error))
  {
    Host.RunEnsured(st, ensured, Build(kwargs));
    var steps := Build(kwargs);
    if kwargs.Ok? && kwargs.value.backgrounds != [] {
      var st1 := st.(services := st.services[ServiceKey := QuoteServiceClass]);
      assert steps[1..] == [Raise(MiddlewareArgsError)];
      assert Host.Run(st, steps) == Host.Run(st1, steps[1..]);
    }
  }

  /** The plugin class: it depends on the Telegram adapters and ships its
      defaults in "default_configs/". */
  function QuotesPlugin(moduleDir: seq<string>, ensured: Outcome<string>, kwargs: Result<QuoteKwargs, string>): (c: PluginClass)
    ensures c.name == Some("quotes") && c.required == ["telegram_adapters"]
    ensures c.defaultConfigDir == Some(["default_configs"])
    ensures c.onLoad == OnLoad(ensured, kwargs)
  {
    BasePlugin(moduleDir).(name := Some("quotes"), required := ["telegram_adapters"],
                           defaultConfigDir := Some(["default_configs"]), onLoad := OnLoad(ensured, kwargs))
  }
}
