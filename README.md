# ZUKI plugin host, modelled in Dafny

ZUKI is a Telegram bot built as a small plugin host. The host application
(`zuki/app.py`) keeps a service registry, the dispatcher's update
middlewares and the dictionary of loaded plugins. The plugin manager
(`zuki/plugin_manager.py`) registers plugin classes by name and resolves
their `requires` lists into a load order by depth-first search. It then
constructs each plugin, runs its `on_load` hook, and later runs every
`on_startup`. The configuration manager (`zuki/config_manager.py`) gives
each plugin a configuration directory seeded from the plugin's bundled
defaults.

On top of the host sit the feature plugins:

- `db_manager` builds the connection URL and registers the engine, the
  declarative base and the unit-of-work factory.
- `skip_updates` drops stale messages.
- `call` mentions every member of a chat in chunks, each with a call sign.
- `quotes` reads its settings, picks backgrounds round robin and wraps the
  quote text.
- `rests` is a booking dialogue for leave weeks: availability flags,
  keyboards, the dialogue's state machine, and the rests table.
- `telegram_info_collect` keeps users, chats, chat members, roles and
  permissions.
- `telegram_adapters` maps chat types, reads member rights and builds user
  links.
- `chat_admins_info_collect` synchronises the chats round robin.

The model has one Dafny module per area of the source:

| file | what it models |
|---|---|
| `wrappers.dfy` | `Option`, `Result` and a hook outcome. |
| `pystr.dfy` | The Python string operations the plugins use: `str.strip`, `str.join`, `int` to decimal text. |
| `toml.dfy` | A parsed TOML document. |
| `plugin.dfy` | The plugin base class. |
| `host.dfy` | The application, both as a value and as the `App` class. |
| `plugin_manager.dfy` | Registration, discovery, the dependency search, loading and start-up. |
| `config_manager.dfy` | Configuration provisioning over a tree of directories and files. |
| `middleware.dfy` | The four middlewares that put values into a handler's data. |
| `skip_updates.dfy` | The stale-message test and the plugin's settings. |
| `db_manager.dfy` | The connection URL and the `on_load` registrations. |
| `call.dfy` | The call plugin's settings, call-sign choice, chunking and messages. |
| `call_services.dfy` | The call plugin's two tables. |
| `quotes.dfy` | The quote settings, background discovery and the round-robin cursor. |
| `text_wrap.dfy` | Word wrapping by width and the text-height check. |
| `rests_domain.dfy` | Overlap, week arithmetic, availability flags and the revoked filter. |
| `rests_keyboards.dfy` | The booking keyboards and their callback data. |
| `rests_handler.dfy` | The booking dialogue's state machine and the admin command. |
| `rests_service.dfy` | The rests table: `list`, `get_by_tg_ids`, `put`. |
| `info_collect.dfy` | Users, chats, members, roles and permissions. |
| `adapters.dfy` | The chat-type mapper, member rights and user links. |
| `chat_admins.dfy` | The chat-id list and the round-robin job cursor. |

Where the code mutates an object, the model is a class whose methods are
proved against a function on values. Examples are the application, the
plugin manager, the configuration manager, the middlewares, the services
and the chat-admins plugin. Everything else is functions and lemmas over
datatypes. Each table of the database is a sequence of rows in insertion
order.

The clock, the time zone and the file system's reads are inputs. The bot
and database calls are inputs too.

Three behaviours of the code are easy to misread:

- Registering a service under a taken name replaces it: the last
  registration wins (zuki/app.py:27-28).
- A missing dependency is reported by its own name only, not by the name
  of the plugin that requires it (zuki/plugin_manager.py:69-71).
- The dependency search does not keep registration order for plugins that
  do not depend on each other (zuki/plugin_manager.py:60-78).

Each plugin hook that keeps a configuration directory starts with
`ensure_plugin_configs`. Its outcome (`ConfigManager.EnsureOutcome`) is a
parameter of the hook, and a failure is raised before anything else.

## Model

| member | source | states |
|---|---|---|
| Host.Initial | zuki/app.py:10-25 | A new application has no services, no loaded plugins and an empty plugin dictionary, and its own app-injecting middleware is the only dispatcher middleware. |
| Host.Lookup | zuki/app.py:30-31 | `get_service` succeeds exactly for a registered name and returns that name's service; otherwise it raises `KeyError`. |
| Host.Step | zuki/app.py:27-43 | One call on the application. It fails exactly on a raise or on a lookup of an unregistered name, and a failing call changes nothing. Registering replaces only that name's service, nothing else touches the services, and no call changes the plugin dictionary. |
| Host.Run | zuki/plugin_manager.py:90 | Awaiting a hook runs its calls in order until one raises; the plugin dictionary is left unchanged. |
| Host.RunKeepsServiceNames | zuki/app.py:27-28 | No hook ever removes a registered service name. |
| Host.LastRegistrationWins | zuki/app.py:27-31 | Registering the same name twice succeeds, and the lookup afterwards returns the second service. |
| Host.RunEnsured | plugins/db_manager/plugin.py:17-18 | A hook that starts with `ensure_plugin_configs` raises that call's error with nothing changed, and otherwise runs as if the call were not there. |
| Host.RunFailsOnlyOnRaiseOrMissing | zuki/app.py:30-31 | A hook fails only at a raise or at a lookup of a name that nothing registered before it. |
| Host.App.constructor | zuki/app.py:10-25 | The new object's state is `Initial()`. |
| Host.App.RegisterService | zuki/app.py:27-28 | Only the name's service changes, to the new one. |
| Host.App.GetService | zuki/app.py:30-31 | Returns the registered service, or an error exactly when the name is missing. |
| Host.App.IncludeRouter | zuki/app.py:33-34 | Appends the router; nothing else changes. |
| Host.App.AddDispatcherMiddleware | zuki/app.py:36-37 | Appends the middleware to the global update chain, in call order; nothing else changes. |
| Host.App.AddRouterMiddleware | zuki/app.py:39-43 | Appends one binding: to the router itself when no update type is given, else to that update type's chain. |
| Host.App.AddPlugin | zuki/plugin_manager.py:89 | `app.plugins[name] = instance`. A new key goes last, an existing key keeps its place, and the key gets the new instance. |
| Host.App.RunHook | zuki/plugin_manager.py:90 | The application ends in the state `Run` computes and returns the same outcome. |
| PluginBase.BasePlugin | zuki/plugin.py:8-25 | The base class has no name and requires nothing, and its hooks do nothing. Its default configuration directory is "config/None", because it was built while `name` was still `None`. |
| PluginManager.AfterRegister | zuki/plugin_manager.py:21-31 | Registration succeeds exactly for a plugin subclass whose name is non-empty and not yet taken. It then appends the name and stores the class under it, changing no other entry. A non-class raises `TypeError` from `issubclass`. |
| PluginManager.RegisterKeepsValid | zuki/plugin_manager.py:21-31 | Registration keeps the dictionary invariant: each name once, the order listing exactly the keys, each class stored under its own non-empty name. |
| PluginManager.RegisterObjectsExtends | zuki/plugin_manager.py:48-54 | Registering the classes of one module keeps the invariant and every earlier registration, in its place. |
| PluginManager.SameClassTwiceFails | zuki/plugin_manager.py:28-29 | A class that is already registered raises when discovery meets it again in another plugin module. |
| PluginManager.VisitFacts | zuki/plugin_manager.py:60-75 | `resolve(name)` keeps the finished names as a prefix and finishes `name`. Every name it adds has its dependencies finished before it, and none was on the search path. An error is explained by the graph. |
| PluginManager.CycleOnPath | zuki/plugin_manager.py:63-64 | A name met again while it is still unresolved lies on a cycle of `requires` edges. |
| PluginManager.AppendFinished | zuki/plugin_manager.py:74-75 | Appending a name whose dependencies are all finished keeps the finished list duplicate-free and dependencies-first. |
| PluginManager.VisitDepsFacts | zuki/plugin_manager.py:69-72 | The loop over a plugin's `requires` finishes every dependency, or fails with an explained error. |
| PluginManager.VisitAllFacts | zuki/plugin_manager.py:77-78 | The outer loop over the registered names finishes every registered name, or fails with an explained error. |
| PluginManager.ResolveOrderIsTopological | zuki/plugin_manager.py:56-80 | A successful order lists each registered plugin exactly once, and every plugin comes after everything it requires. |
| PluginManager.ResolveOrderErrors | zuki/plugin_manager.py:63-71 | A circular-dependency error names a plugin that lies on a cycle. A missing-dependency error names an unregistered plugin that some registered plugin requires. |
| PluginManager.ChainMovesForward | zuki/plugin_manager.py:69-75 | In a dependencies-first order, following a chain of `requires` edges leads strictly earlier in the order. |
| PluginManager.ResolveOrderSucceedsIff | zuki/plugin_manager.py:56-80 | The search succeeds exactly when every required plugin is registered and no plugin depends on itself through `requires`. |
| PluginManager.RegistrationOrderNotKept | zuki/plugin_manager.py:77-78 | With A (requires C), B and C registered in that order, the result is C, A, B: B, which no one requires, does not keep its registration place. |
| PluginManager.VisitLeaf | zuki/plugin_manager.py:60-75 | A plugin that requires nothing and is not yet visited is appended to the finished names. |
| PluginManager.RemoveFirstPushed | zuki/plugin_manager.py:66-74 | `unresolved.remove(name)` after `unresolved.append(name)` restores the list when `name` was not in it. |
| PluginManager.LoadInOrderPlugins | zuki/plugin_manager.py:85-90 | Loading an order appends it to the dictionary's keys. Each new key holds its own class, and earlier instances are kept. |
| PluginManager.LoadAllLoadsEverything | zuki/plugin_manager.py:82-90 | On a fresh application, a successful `load_all` loads every registered plugin once, dependencies first, each under its own class. |
| PluginManager.StartupKeepsPlugins | zuki/plugin_manager.py:92-94 | Start-up never changes which plugins are loaded or their instances. |
| PluginManager.Resolver.constructor | zuki/plugin_manager.py:57-58 | The search starts with both lists empty. |
| PluginManager.Resolver.Resolve | zuki/plugin_manager.py:60-75 | The nested `resolve` computes what the search `Visit` specifies. On success the unresolved list is as before; on failure the error is `Visit`'s. |
| PluginManager.PluginManager.constructor | zuki/plugin_manager.py:11-19 | A new manager has an empty registry and keeps the application. |
| PluginManager.PluginManager.Register | zuki/plugin_manager.py:21-31 | On success the registry becomes `AfterRegister`'s; on any rejection it raises and the registry is unchanged. |
| PluginManager.PluginManager.RegisterAllFromPackage | zuki/plugin_manager.py:34-54 | Sub-packages are scanned in listing order; plain modules and plugin modules that fail to import are skipped. The result is `Discover`'s registry, or `Discover`'s error. |
| PluginManager.PluginManager.ResolveOrder | zuki/plugin_manager.py:56-80 | Returns the dependency order the depth-first search specifies, or its error. |
| PluginManager.PluginManager.LoadAll | zuki/plugin_manager.py:82-90 | The application ends as `AfterLoadAll` says. A resolve error raises before any plugin is constructed. Otherwise plugins are added and loaded in order, stopping at the first failing `on_load` and keeping the earlier ones. |
| PluginManager.PluginManager.LoadPlugins | zuki/plugin_manager.py:85-90 | Each plugin goes into `app.plugins` before its `on_load` runs; the application ends as `LoadInOrder` says. |
| PluginManager.PluginManager.StartupAll | zuki/plugin_manager.py:92-94 | Runs each loaded plugin's `on_startup` in the dictionary's insertion order, stopping at the first failure. |
| ConfigManager.Merge | zuki/config_manager.py:53-65 | Merging defaults into a target leaves a directory a directory and a file a file. |
| ConfigManager.MergeKeepsFiles | zuki/config_manager.py:53-65 | Every file of the target is kept, with its content. |
| ConfigManager.MergeAddsDefaults | zuki/config_manager.py:57-65 | Every path of the default tree exists after a successful merge. |
| ConfigManager.MergeOnlyCopies | zuki/config_manager.py:53-65 | Every file after the merge was already in the target or comes from the defaults, with the same content. |
| ConfigManager.MergeIdempotent | zuki/config_manager.py:53-65 | A second merge changes nothing. |
| ConfigManager.MergeIntoCopy | zuki/config_manager.py:24-26 | Merging the defaults into an exact copy of themselves changes nothing. |
| ConfigManager.DefaultDir | zuki/config_manager.py:37-51 | No declared directory means no defaults. A declared directory that does not exist under the plugin's module directory raises; otherwise that tree is the defaults. |
| ConfigManager.Ensure | zuki/config_manager.py:15-32 | Fails for a plugin without a name and whenever the default lookup fails, even if the target exists. On success the plugin's directory exists and no other plugin's directory changes. A missing target becomes an exact copy of the default directory, or an empty directory when there is none. An existing target is left alone without defaults; otherwise it becomes the merge of the defaults into it. A default that is a file raises `NotADirectoryError`. |
| ConfigManager.EnsureOutcome | zuki/config_manager.py:15-32 | The call raises exactly when `Ensure` fails. |
| ConfigManager.EnsureKeepsUserFiles | zuki/config_manager.py:15-32 | Every file the plugin's directory already had is kept, with its content. |
| ConfigManager.EnsureIdempotent | zuki/config_manager.py:15-32 | A second `ensure_plugin_configs` changes nothing. |
| ConfigManager.ConfigPath | zuki/config_manager.py:34-35 | The plugin's path is the configuration root followed by the plugin's name. |
| ConfigManager.ConfigPathInjective | zuki/config_manager.py:34-35 | Two plugin names share a configuration path only when they are equal. |
| ConfigManager.MergeDefaults | zuki/config_manager.py:53-65 | The recursive merge over the directory entries computes `Merge`. |
| ConfigManager.ConfigManager.constructor | zuki/config_manager.py:8-13 | The manager keeps its root and the directories already present. |
| ConfigManager.ConfigManager.PluginConfigPath | zuki/config_manager.py:34-35 | `get_plugin_config_path` is `ConfigPath` under this manager's root. |
| ConfigManager.ConfigManager.EnsurePluginConfigs | zuki/config_manager.py:15-32 | On success the directories become `Ensure`'s result. On failure it raises and they are unchanged. |
| Middlewares.AppMiddleware.constructor | zuki/middleware.py:7-8 | Keeps the application. |
| Middlewares.AppMiddleware.Call | zuki/middleware.py:10-18 | Sets only `data["app"]`, then calls the handler once with the same event and data and returns its result. |
| Middlewares.SessionMiddleware.constructor | plugins/db_manager/middlewares/outer.py:6-7 | Keeps the value it is given (the unit-of-work factory at registration). |
| Middlewares.SessionMiddleware.Call | plugins/db_manager/middlewares/outer.py:9-17 | Sets only `data["db_manager:sessionmaker"]`, then calls the handler once and returns its result. |
| Middlewares.QuoteMiddleware.constructor | plugins/quotes/middleware.py:10-12 | Keeps the quote service and the skipper's interval. |
| Middlewares.QuoteMiddleware.Call | plugins/quotes/middleware.py:14-28 | Sets only `data["quote_service"]`, before the skip decision. A skipped event returns nothing without calling the handler. Any other event calls the handler once and returns its result. |
| Middlewares.RestMiddleware.constructor | plugins/rests/middlewares/middleware.py:11-13 | Keeps the factory and the time zone. |
| Middlewares.RestMiddleware.Call | plugins/rests/middlewares/middleware.py:15-30 | Sets `data["app_tzinfo"]` and `data["uow_factory"]` even for dropped events. A message whose age has more than 30 seconds in its seconds part is dropped without calling the handler. Callback queries always reach the handler, which is called once and whose result is returned. |
| SkipUpdates.AgeSeconds | plugins/skip_updates/updates/skip_messages.py:10 | The `.seconds` part of a time difference: always in [0, 86400). |
| SkipUpdates.ShouldSkip | plugins/skip_updates/updates/skip_messages.py:8-12 | Only messages are skipped. A negative interval skips every message, and one of 86399 seconds or more skips none, because the `.seconds` age stays below a day. The body is the model of `should_skip`; `SkipWithinADay`, `DayOldMessageKept` and `FutureMessageSkipped` state what it means for ages within, beyond and before a day. |
| SkipUpdates.OnlyMessagesSkipped | plugins/skip_updates/updates/skip_messages.py:8-12 | Only a message is ever skipped. |
| SkipUpdates.SkipWithinADay | plugins/skip_updates/updates/skip_messages.py:10-11 | For a message less than a day old, it is skipped exactly when its age in whole seconds is strictly greater than the interval. |
| SkipUpdates.DayOldMessageKept | plugins/skip_updates/updates/skip_messages.py:10 | A message one day and at most the interval old is kept, because `.seconds` drops whole days. |
| SkipUpdates.FutureMessageSkipped | plugins/skip_updates/updates/skip_messages.py:10 | A message dated slightly in the future is skipped, because the negative difference has a seconds part near 86400. |
| SkipUpdates.Settings | plugins/skip_updates/plugin.py:24-31 | The settings have exactly the key "message": the configured value, or 30 when absent. |
| SkipUpdates.OnLoad | plugins/skip_updates/plugin.py:12-18 | The hook starts with the `ensure_plugin_configs` raise when that step fails. Its last call registers the skipper under its key, with the configured "message" interval or 30. `OnLoadRegistersSkipper` states the state it leaves. |
| SkipUpdates.OnLoadRegistersSkipper | plugins/skip_updates/plugin.py:12-18 | `on_load` raises exactly when ensuring the configuration directory does, and then changes nothing. Otherwise its only change is the skipper registered under "skip_updates:messages_update_skipper". The skipper is built with the configured "message" interval, or 30 seconds when that is not set, and looking up the key returns it. |
| SkipUpdates.InheritedDefaultsMissing | plugins/skip_updates/plugin.py:7-13 | The plugin inherits "config/None" as its default directory, so ensuring its configuration raises unless that directory exists under the plugin's module. |
| SkipUpdates.SkipUpdatesPlugin | plugins/skip_updates/plugin.py:7-10 | The plugin is named "skip_updates", requires nothing and keeps the base class's default configuration directory. |
| ChatMapper.ToInternalType | plugins/telegram_adapters/adapters/chat_mapper.py:5-10 | A forum is "forum" whatever its type. Otherwise the four Telegram chat types are kept, and everything else is "other". |
| ChatMapper.OutputRange | plugins/telegram_adapters/adapters/chat_mapper.py:5-10 | The mapper yields one of six strings. Each is a value of the chat-type column's enumeration except "channel", which the enumeration spells "chanel". |
| ChatMapper.ChannelNotInEnum | plugins/telegram_adapters/adapters/chat_mapper.py:8-9 | A channel that is not a forum maps to a string the chat-type enumeration does not contain. |
| MemberRights.IsBanned | plugins/telegram_adapters/adapters/member_rights.py:9-11 | True exactly for a banned member. Otherwise the function falls off its end and returns `None`, never `False`. |
| MemberRights.IsRestricted | plugins/telegram_adapters/adapters/member_rights.py:17-19 | True exactly for a restricted member, else `None`. |
| MemberRights.IsAdmin | plugins/telegram_adapters/adapters/member_rights.py:21-23 | True exactly for an administrator or the owner, else `None`. |
| MemberRights.IsOwner | plugins/telegram_adapters/adapters/member_rights.py:34-36 | True exactly for the owner, else `None`. |
| MemberRights.IsSuperAdmin | plugins/telegram_adapters/adapters/member_rights.py:25-32 | Always a boolean, never `None`. |
| MemberRights.SuperAdminCases | plugins/telegram_adapters/adapters/member_rights.py:25-32 | The owner is a super admin, an administrator is one exactly when it may promote members, and nobody else is. |
| MemberRights.SuperAdminIsAdmin | plugins/telegram_adapters/adapters/member_rights.py:21-36 | Every super admin is an admin, and the owner is both. |
| MemberRights.StatusesExclusive | plugins/telegram_adapters/adapters/member_rights.py:9-23 | No member is both banned and restricted, and an admin is neither. |
| UserLink.NotificationLink | plugins/telegram_adapters/adapters/user_link.py:16-17 | An anchor to `tg://tg?id=` and the decimal id, with the call sign as its text. |
| UserLink.GetUserLink | plugins/telegram_adapters/adapters/user_link.py:3-14 | The anchor links to `https://t.me/<username>` when the user has a non-empty username, and otherwise to the open-message link for the id. Its text is the full name, or the id when the lookup failed. `GetUserLinkParts` proves that the anchor parses back into exactly that link and text. |
| UserLink.GetUserLinkParts | plugins/telegram_adapters/adapters/user_link.py:3-14 | The link reads back as an anchor. Its href is the `t.me` page for a non-empty username and the open-message href otherwise. Its text is the full name, or the decimal id when the lookup raised. |
| UserLink.QuoteIndex | plugins/telegram_adapters/adapters/user_link.py:9-17 | Finds the first single quote, which ends the href of an anchor, or reports that there is none. |
| UserLink.AnchorRoundTrip | plugins/telegram_adapters/adapters/user_link.py:9-17 | An anchor built from an href without a single quote parses back into that href and that text. |
| UserLink.NotificationLinkParts | plugins/telegram_adapters/adapters/user_link.py:16-17 | A notification link parses back into its `tg://tg?id=` href and its call sign, for every id and call sign. |
| CallPlugin.Settings | plugins/call/plugin.py:38-47 | The settings hold exactly four keys. Each takes the configured value when there is one. Otherwise the defaults apply: 5 mentions per message, no call signs (`None`), the default message "Калл!", and an empty footer. |
| CallPlugin.OnLoad | plugins/call/plugin.py:19-32 | The hook starts with the `ensure_plugin_configs` raise when that step fails, and always ends with the `update_types` TypeError. No step binds a middleware. `OnLoadFails` states the state it leaves. |
| CallPlugin.OnLoadFails | plugins/call/plugin.py:19-32 | Loading the call plugin always fails. A failure to ensure the configuration directory raises first, with nothing changed. Otherwise the router is included, and no middleware is ever bound. The failure is a `KeyError` when the skipper is missing; otherwise the `update_types` keyword, which `add_router_middleware` does not accept, raises `TypeError`. |
| CallPlugin.InheritedDefaultsMissing | plugins/call/plugin.py:10-20 | The plugin inherits "config/None" as its default directory, so its configuration cannot be ensured unless that directory exists. |
| CallPlugin.CallPluginClass | plugins/call/plugin.py:10-12 | The plugin is named "call" and requires the skip-updates plugin among its four dependencies. It keeps the base class's default configuration directory. |
| CallDomain.CodeSumAppend | plugins/call/domains/call.py:6 | The sum of the characters' code points is additive over concatenation. |
| CallDomain.CodeSumRemove | plugins/call/domains/call.py:6 | Removing one character takes exactly its code point off the sum. |
| CallDomain.MultisetRemove | plugins/call/domains/call.py:6 | Removing one character removes exactly one copy of it from the multiset of characters. |
| CallDomain.CodeSumPermutation | plugins/call/domains/call.py:6 | Two names with the same characters, in any order, have the same code-point sum. |
| CallDomain.PickSign | plugins/call/domains/call.py:5-6 | From a non-empty list, the chosen sign is one of the call signs. |
| CallDomain.GetUserEmoji | plugins/call/domains/call.py:5-6 | Succeeds exactly when the list of call signs exists and is non-empty, and then yields one of them. An empty list raises `ZeroDivisionError`, and `None` raises `TypeError`. |
| CallDomain.PickSignPermutation | plugins/call/domains/call.py:6 | The sign depends only on the multiset of the name's characters: anagrams get the same sign. |
| CallDomain.EmptyNameFirstSign | plugins/call/domains/call.py:6 | An empty name gets the first sign. |
| CallHandler.CallMessage | plugins/call/handler.py:43-46 | The text after the trigger word, stripped of whitespace at both ends: no longer than that rest, and empty when nothing follows the word. |
| CallHandler.ChunkCountBounds | plugins/call/handler.py:89 | With members and a positive chunk size, `ceil(n / k)` is at least 1. The chunks before the last hold fewer than n members, and all of them together hold at least n. |
| CallHandler.ConcatChunksPrefix | plugins/call/handler.py:91-92 | The first j slices `[k*i : k*(i+1)]`, joined, are the first `min(k*j, n)` members. |
| CallHandler.ChunksPartition | plugins/call/handler.py:89-92 | The chunks, joined, are exactly the member list, in order. Every chunk but the last holds k members, and the last holds between 1 and k: each member is mentioned exactly once. |
| CallHandler.FullChunk | plugins/call/handler.py:92 | A chunk before the last holds exactly k members. |
| CallHandler.LastChunk | plugins/call/handler.py:92 | The last chunk holds between 1 and k members. |
| CallHandler.HeaderChoice | plugins/call/handler.py:105-109 | Message 0 carries the first header, and the last of two or more messages carries the last header. The messages between carry the bare call text. A single message never carries the last header, so the footer is lost. |
| CallHandler.Mentions | plugins/call/handler.py:94-103 | One link per member of the chunk. |
| CallHandler.MentionsAt | plugins/call/handler.py:94-103 | Link j is the notification link of member j, showing that member's call sign. |
| CallHandler.Tabulate | plugins/call/handler.py:91 | The messages of a loop over `range(n)`: exactly n of them. |
| CallHandler.TabulateAt | plugins/call/handler.py:91-115 | Entry i of the loop's output is what iteration i produces. |
| CallHandler.Messages | plugins/call/handler.py:89-115 | There are exactly `ceil(n / k)` messages. |
| CallHandler.MessagesAt | plugins/call/handler.py:91-115 | Message i is its header, a blank line, and the mentions of chunk i joined by spaces. |
| CallHandler.MentionChunk | plugins/call/handler.py:93-103 | With usable call signs, the links of the chunk, in order. Without them, the first member raises what `get_user_emoji` raises, and an empty chunk raises nothing. |
| CallHandler.SendChunks | plugins/call/handler.py:89-115 | With usable call signs, the messages sent are exactly `Messages`, in order. Otherwise the first member raises before anything is sent. |
| CallHandler.ComposeMessage | plugins/call/handler.py:92-112 | The body of one iteration: message i's text, or the error its chunk raises. |
| CallHandler.SendCall | plugins/call/handler.py:40-115 | Nothing is sent for a sender who is not a super admin, or for an empty member list. A zero chunk size raises `ZeroDivisionError`, and a negative one sends nothing. Unusable call signs raise before any message. Otherwise the messages are exactly `Messages`. |
| CallHandler.FirstChunkNonEmpty | plugins/call/handler.py:86-92 | With at least one member there is at least one message, and its chunk is not empty. |
| CallServices.EmptyTable | plugins/call/services/call.py:11-16 | A new table has no rows, and its identity counter starts at 1. |
| CallServices.FindById | plugins/call/services/call.py:21-22 | `get(id)` finds a row exactly when some row has that primary key, and returns such a row. |
| CallServices.FindByKey | plugins/call/services/call.py:24-25 | `get_by_chat_member_id` and `get_by_chat_id` find a row exactly when some row has that key, and return such a row. |
| CallServices.GetOrCreate | plugins/call/services/call.py:27-31 | `add` returns the stored row when the key is present and leaves the table alone. Otherwise it appends a row with the next identity and that key. Either way the returned row is stored and has the key. |
| CallServices.GetOrCreateKeepsValid | plugins/call/services/call.py:27-31 | `add` keeps the identities positive, below the counter and distinct, and keeps at most one row per key. |
| CallServices.GetOrCreateIdempotent | plugins/call/services/call.py:27-31 | A second `add` of the same key changes nothing and returns the same row. |
| CallServices.FindByKeyAppend | plugins/call/services/call.py:31 | After appending a row for a key that was absent, that key finds the new row. |
| CallServices.Without | plugins/call/services/call.py:47-48 | The rows left after a delete are exactly those different from the deleted one. |
| CallServices.WithoutKeepsDistinct | plugins/call/services/call.py:47-48 | Deleting keeps the rows distinct. |
| CallServices.DeleteRow | plugins/call/services/call.py:47-48 | Deleting succeeds exactly for a stored row. It then removes exactly that row and leaves the identity counter alone; an unstored object raises. |
| CallServices.DeleteKeepsValid | plugins/call/services/call.py:47-48 | Deleting a stored row keeps the table invariant. |
| CallServices.RemoveByKey | plugins/call/services/call.py:42-45 | `remove` deletes the key's row when there is one, and otherwise changes nothing. |
| CallServices.RemoveDeletesKey | plugins/call/services/call.py:42-45 | After `remove`, no row has the key, and every row with another key is still there. |
| CallServices.Check | plugins/call/services/call.py:18-19 | `check(id)` is true exactly when some row has that primary key. |
| CallServices.CheckUsesPrimaryKey | plugins/call/services/call.py:18-19 | The unreg `check` receives a chat-member id but compares it with the primary key. So a member who opted out (key 42, row id 1) reads as not opted out. |
| CallServices.ListNotUnregByChatIds | plugins/call/services/call.py:39-40 | Always raises `TypeError`: the service passes `statuses` to a repository method that takes only the chat ids. So the call handler raises at its member query (plugins/call/handler.py:76-84). |
| CallServices.UnregService.constructor | plugins/call/services/call.py:12-16 | The service keeps the table it is given. |
| CallServices.UnregService.Check | plugins/call/services/call.py:18-19 | True exactly when a row has that primary key. |
| CallServices.UnregService.GetByChatMemberId | plugins/call/services/call.py:24-25 | The row with that chat-member id, exactly when there is one. |
| CallServices.UnregService.Add | plugins/call/services/call.py:27-31 | The table and the returned row are `GetOrCreate`'s, and the invariant is kept. |
| CallServices.UnregService.Remove | plugins/call/services/call.py:42-45 | The table becomes `RemoveByKey`'s, and the invariant is kept. |
| CallServices.UnregService.Delete | plugins/call/services/call.py:47-48 | The table becomes `DeleteRow`'s. An unstored row raises and leaves the table unchanged. |
| CallServices.EnabledService.constructor | plugins/call/services/call.py:51-52 | The service keeps the table it is given. |
| CallServices.EnabledService.Check | plugins/call/services/call.py:54-55 | True exactly when a row has that primary key. |
| CallServices.EnabledService.GetByChatId | plugins/call/services/call.py:60-61 | The row with that chat id, exactly when there is one. |
| CallServices.EnabledService.Add | plugins/call/services/call.py:66-70 | The table and the returned row are `GetOrCreate`'s, and the invariant is kept. |
| CallServices.EnabledService.Delete | plugins/call/services/call.py:72-73 | The table becomes `DeleteRow`'s. An unstored row raises and leaves the table unchanged. |
| ChatAdmins.Elems | plugins/chat_admins_info_collect/plugin.py:42-43 | `set(list)` contains every element of the list. |
| ChatAdmins.ExtendsElems | plugins/chat_admins_info_collect/plugin.py:39-44 | After `update_chat_ids`, the list holds exactly the old ids and the listed ones, and loses none. |
| ChatAdmins.ExtendsKeepsNoDup | plugins/chat_admins_info_collect/plugin.py:42-44 | A duplicate-free id list stays duplicate-free. |
| ChatAdmins.ExtendsWithKnownChatsIsNoop | plugins/chat_admins_info_collect/plugin.py:42-44 | When the table lists no new chat, the list does not change. |
| ChatAdmins.JobIndex | plugins/chat_admins_info_collect/plugin.py:48 | The reduced cursor is a valid index into a non-empty list. |
| ChatAdmins.Visited | plugins/chat_admins_info_collect/plugin.py:48-56 | The index synchronised by the k-th job is a valid index. |
| ChatAdmins.ModShift | plugins/chat_admins_info_collect/plugin.py:48 | A cursor at most one round past the end reduces by one subtraction. |
| ChatAdmins.VisitedWraps | plugins/chat_admins_info_collect/plugin.py:48-56 | Over an unchanging list, successive jobs move on by one index from where the cursor started, wrapping to 0 past the end. |
| ChatAdmins.RoundRobin | plugins/chat_admins_info_collect/plugin.py:46-56 | Over an unchanging list of n chats, any n successive successful jobs synchronise every chat, and none twice. |
| ChatAdmins.StartupOutcome | plugins/chat_admins_info_collect/plugin.py:21-26 | Start-up fails exactly when the factory is not registered (`KeyError`) or is `None` (`RuntimeError`). |
| ChatAdmins.StartupAfterDbManager | plugins/chat_admins_info_collect/plugin.py:24-26 | Once the database manager's `on_load` has succeeded, the start-up check passes. |
| ChatAdmins.ChatAdminSync.constructor | plugins/chat_admins_info_collect/plugin.py:15-19 | No chat ids, the cursor at 0, no factory. |
| ChatAdmins.ChatAdminSync.OnStartup | plugins/chat_admins_info_collect/plugin.py:21-26 | Returns `StartupOutcome`. The factory is stored whenever the lookup succeeds, even when it is `None`; the ids and the cursor are untouched. |
| ChatAdmins.ChatAdminSync.UpdateChatIds | plugins/chat_admins_info_collect/plugin.py:39-44 | The old list is kept as a prefix. The ids the table lists and the list lacks are appended, each once; the cursor and the factory are untouched. |
| ChatAdmins.ChatAdminSync.Job | plugins/chat_admins_info_collect/plugin.py:46-56 | Grows the list first. An empty list raises `ZeroDivisionError` with the cursor unchanged. Otherwise the cursor is reduced modulo the length and that chat is synchronised. The cursor then advances by one, or stays reduced when the synchronisation raised. |
| ChatAdmins.ChatAdminsPlugin | plugins/chat_admins_info_collect/plugin.py:11-24 | The plugin is named "chat_admins_info_collect", requires the database manager and the information collector, and looks up the unit-of-work factory at start-up. |
| DbManager.Str | plugins/db_manager/plugin.py:60 | `str()` of a TOML value never raises. A string stays as it is, an integer is its decimal text, and a boolean is "True" or "False". A list or a table is rendered by Python's `repr`, a parameter here. |
| DbManager.Field | plugins/db_manager/plugin.py:53-58 | A present key yields its value as text, and a missing key its default. |
| DbManager.Fields | plugins/db_manager/plugin.py:52-58 | Raises exactly when "database" is present and not a table, since `.get` on it raises. Otherwise each field is the configured value as text, or its default: "localhost" for the host, "5432" for the port, and empty for the rest. |
| DbManager.AssembleConnection | plugins/db_manager/plugin.py:51-60 | The URL is built exactly when the fields can be read, and is the template filled with them. |
| DbManager.EmptyConfigUrl | plugins/db_manager/plugin.py:52-60 | An empty configuration gives "://:@localhost:5432/". |
| DbManager.DefaultUrl | plugins/db_manager/plugin.py:60 | The template filled with the defaults is "://:@localhost:5432/". |
| DbManager.EmptyConfigFields | plugins/db_manager/plugin.py:52-58 | An empty configuration reads the six defaults. |
| DbManager.DefaultPort | plugins/db_manager/plugin.py:57-60 | The default port 5432 renders as "5432". |
| DbManager.Find | plugins/db_manager/plugin.py:60 | The first position of a separator at or after i, or the end: nothing before it is the separator. |
| DbManager.FindFirst | plugins/db_manager/plugin.py:60 | The search stops at the first occurrence. |
| DbManager.SplitAt | plugins/db_manager/plugin.py:60 | Splitting at the first separator gives the part before it (which does not contain it) and the rest, exactly when the separator occurs. |
| DbManager.SplitAtFirst | plugins/db_manager/plugin.py:60 | A string joined at a separator that its left part does not contain splits back into its two parts. |
| DbManager.ParseUrl | plugins/db_manager/plugin.py:60 | Reading a URL back yields only fields that contain none of the separators that follow them. |
| DbManager.ParseUserInfo | plugins/db_manager/plugin.py:60 | The part after "://" parses only into such fields. |
| DbManager.ParseHostPort | plugins/db_manager/plugin.py:60 | The part after "@" parses only into such fields. |
| DbManager.UrlRoundTrip | plugins/db_manager/plugin.py:60 | A URL built from fields without stray separators reads back into those fields. |
| DbManager.UserInfoRoundTrip | plugins/db_manager/plugin.py:60 | The user-information part reads back into its fields. |
| DbManager.HostPortRoundTrip | plugins/db_manager/plugin.py:60 | The host, port and database part reads back into its fields. |
| DbManager.UrlRoundTripIff | plugins/db_manager/plugin.py:60 | The URL can be read back exactly when no field contains a separator that follows it. Otherwise the URL is ambiguous and another reading wins. |
| DbManager.OnLoad | plugins/db_manager/plugin.py:17-41 | The hook starts with the `ensure_plugin_configs` raise when that step fails. It only raises, registers services or adds a dispatcher middleware: no router and no lookup. A "database" entry that is not a table makes it a single raise. `OnLoadRegisters` and `OnLoadFailures` state the state it leaves. |
| DbManager.OnLoadRegisters | plugins/db_manager/plugin.py:17-41 | When the configuration directory is ensured, the URL built and the engine created from it, `on_load` succeeds. It binds the engine, the base and the unit-of-work factory, appends the session middleware to the dispatcher, and changes nothing else. |
| DbManager.RegistrationsEffect | plugins/db_manager/plugin.py:32-41 | From any application state, the three services are bound in order and the middleware is appended. |
| DbManager.OnLoadFailures | plugins/db_manager/plugin.py:17-25 | `on_load` raises with nothing changed when ensuring the configuration directory fails. It also raises when "database" is not a table, and when `create_async_engine` rejects the URL. The first of these errors is the one raised. |
| DbManager.DbManagerPlugin | plugins/db_manager/plugin.py:11-13 | The plugin is named "db_manager", requires nothing and ships its defaults in "default_configs/". |
| InfoCollect.UserIndex | plugins/telegram_info_collect/services/user.py:15-16 | `get_by_tg_id` finds a row with that Telegram id, or reports that no row has it. |
| InfoCollect.UpsertUserEffect | plugins/telegram_info_collect/services/user.py:21-46 | A known Telegram id has its row overwritten in place with the five new fields, keeping its id and changing no other row. An unknown one is appended with the next id. |
| InfoCollect.UpsertUserKeepsValid | plugins/telegram_info_collect/services/user.py:21-46 | `put` keeps the ids distinct and below the counter, and keeps the Telegram ids unique. |
| InfoCollect.UpsertUserIdempotent | plugins/telegram_info_collect/services/user.py:21-46 | A second identical `put` changes nothing and returns the same user. |
| InfoCollect.UserService.constructor | plugins/telegram_info_collect/services/user.py:9-10 | A new user table is empty, with the counter at 1. |
| InfoCollect.UserService.GetByTgId | plugins/telegram_info_collect/services/user.py:15-16 | A stored user with that Telegram id, exactly when there is one. |
| InfoCollect.UserService.Put | plugins/telegram_info_collect/services/user.py:21-46 | The rows, the counter and the returned user are `UpsertUser`'s, and the invariant is kept. |
| InfoCollect.ChatIndex | plugins/telegram_info_collect/services/chat.py:15-16 | `get_by_tg_id` finds a chat with that Telegram id, or reports that none has it. |
| InfoCollect.UpsertChatKeepsTgIds | plugins/telegram_info_collect/services/chat.py:21-47 | `put` returns a chat with the given fields. Every existing row keeps its id and Telegram id, and a row is added exactly when the Telegram id was unknown. |
| InfoCollect.UpsertChatKeepsValid | plugins/telegram_info_collect/services/chat.py:21-47 | `put` keeps the chat table's invariant. |
| InfoCollect.UpsertChatIdempotent | plugins/telegram_info_collect/services/chat.py:21-47 | A second identical `put` changes nothing. |
| InfoCollect.ChatService.constructor | plugins/telegram_info_collect/services/chat.py:9-10 | A new chat table is empty, with the counter at 1. |
| InfoCollect.ChatService.GetByTgId | plugins/telegram_info_collect/services/chat.py:15-16 | A stored chat with that Telegram id, exactly when there is one. |
| InfoCollect.ChatService.Put | plugins/telegram_info_collect/services/chat.py:21-47 | The rows, the counter and the returned chat are `UpsertChat`'s, and the invariant is kept. |
| InfoCollect.RoleById | plugins/telegram_info_collect/services/chat_member.py:19-20 | The role with that primary key. A member without a role id has none. |
| InfoCollect.RoleByName | plugins/telegram_info_collect/services/chat_member.py:22-23 | A role with that name, or none when no role has it. |
| InfoCollect.PutRoleGetOrCreate | plugins/telegram_info_collect/services/chat_member.py:28-37 | An existing role of that name is returned and nothing changes. Otherwise a role with that name and level is appended. |
| InfoCollect.PermissionByName | plugins/telegram_info_collect/services/chat_member.py:58-59 | A permission with that category and name, or none when no permission has both. |
| InfoCollect.PutPermission | plugins/telegram_info_collect/services/chat_member.py:64-72 | An existing permission is returned. Creating one raises `AttributeError`, because the repository has no `add`. |
| InfoCollect.IsAllowed | plugins/telegram_info_collect/services/chat_member.py:77-81 | Allowed exactly when the role level reaches the permission's level. A missing permission raises. |
| InfoCollect.UpTo | plugins/telegram_info_collect/services/chat_member.py:183-184 | The permissions whose level is at most the given one, and only those. |
| InfoCollect.UpToAppend | plugins/telegram_info_collect/services/chat_member.py:184 | The filter distributes over concatenation, so the order of the list is kept. |
| InfoCollect.RoleService.constructor | plugins/telegram_info_collect/services/chat_member.py:16-17 | The service keeps the given roles. |
| InfoCollect.RoleService.Put | plugins/telegram_info_collect/services/chat_member.py:28-37 | The roles, the counter and the result are `PutRole`'s. |
| InfoCollect.PermissionService.constructor | plugins/telegram_info_collect/services/chat_member.py:52-53 | The service keeps the given permissions. |
| InfoCollect.PermissionService.Put | plugins/telegram_info_collect/services/chat_member.py:64-72 | Returns `PutPermission`'s result and changes nothing. |
| InfoCollect.MemberIndexById | plugins/telegram_info_collect/services/chat_member.py:102-103 | The member with that primary key, or none. |
| InfoCollect.MemberIndex | plugins/telegram_info_collect/services/chat_member.py:105-110 | The member of that user in that chat, or none. |
| InfoCollect.MemberByTgIds | plugins/telegram_info_collect/services/chat_member.py:105-110 | No member is found when the user or the chat is unknown. |
| InfoCollect.MemberRole | plugins/telegram_info_collect/services/chat_member.py:151-155 | A member that does not exist has no role, and a role found is a stored one. |
| InfoCollect.PutMemberExisting | plugins/telegram_info_collect/services/chat_member.py:128-142 | A known member is overwritten in place with the status and the title (even `None`), and no row is added. The role id is the given one; without one, it is the current role's id when that role exists and 0 when it does not. |
| InfoCollect.PutMemberNew | plugins/telegram_info_collect/services/chat_member.py:128-145 | An unknown member is appended with the next id, for the user's and the chat's ids. It gets the given role id, or role 1 when none is given: the `role_id` column's default (plugins/telegram_info_collect/models/chat_member.py:37), which the ORM applies to a `None`. An unknown user or chat raises `AttributeError` on `None.id`. |
| InfoCollect.NewMemberKeepsDefaultRole | plugins/telegram_info_collect/services/chat_member.py:120-145 | A member first put without a role id, as the outer middleware puts everyone but the chat's creator, is stored with role 1, and its role is role 1. Putting it again without a role id updates that row in place and keeps role 1 when that role exists, or 0 when it does not. |
| InfoCollect.PutMemberKeepsValid | plugins/telegram_info_collect/services/chat_member.py:120-145 | `put` keeps the member table's invariant. |
| InfoCollect.SetRole | plugins/telegram_info_collect/services/chat_member.py:157-163 | `set_role` changes only that member's role id. An unknown member yields `None` and no change. |
| InfoCollect.HasPermission | plugins/telegram_info_collect/services/chat_member.py:166-174 | A member without a role has no permission, even when the permission is missing. With a role, a missing permission raises. Otherwise the role's level must reach the permission's. |
| InfoCollect.ListPermissions | plugins/telegram_info_collect/services/chat_member.py:176-184 | A member without a role has none. Otherwise exactly the permissions whose level the role's level reaches. |
| InfoCollect.ListedIffPermitted | plugins/telegram_info_collect/services/chat_member.py:166-184 | A stored permission is listed for a member exactly when `has_permission` allows it. |
| InfoCollect.ChatMemberService.constructor | plugins/telegram_info_collect/services/chat_member.py:87-99 | The service keeps its four collaborators and starts with an empty member table. |
| InfoCollect.ChatMemberService.GetByUserAndChatTgIds | plugins/telegram_info_collect/services/chat_member.py:105-110 | The member `MemberByTgIds` finds, or `None`. |
| InfoCollect.ChatMemberService.GetRole | plugins/telegram_info_collect/services/chat_member.py:151-155 | The member's role, as `MemberRole` says. |
| InfoCollect.ChatMemberService.Put | plugins/telegram_info_collect/services/chat_member.py:120-145 | The table becomes `PutMember`'s, and the member is returned. On an error the table is unchanged. |
| InfoCollect.ChatMemberService.SetRoleOf | plugins/telegram_info_collect/services/chat_member.py:157-163 | The table and the result are `SetRole`'s. |
| InfoCollect.ChatMemberService.HasPermissionOf | plugins/telegram_info_collect/services/chat_member.py:166-174 | Returns `HasPermission`'s answer. |
| InfoCollect.ChatMemberService.ListPermissionsOf | plugins/telegram_info_collect/services/chat_member.py:176-184 | Returns `ListPermissions`'s list. |
| Quotes.Limit | plugins/quotes/plugin.py:49 | `min(limit, 1000)`: never above 1000, and a configured integer under 1000 passes unchanged. A bool counts as 0 or 1, and any other value cannot be compared and raises. |
| Quotes.Patterns | plugins/quotes/plugin.py:47-65 | A list of strings yields exactly its strings as patterns. A number or a bool is not iterable and raises. |
| Quotes.DateSettings | plugins/quotes/plugin.py:69-74 | Without a non-empty "datetime" table, both values are empty strings. With one, the time zone defaults to "Etc/UTC" and the format to "%d.%m.%Y". A truthy non-table raises. |
| Quotes.ReadPlan | plugins/quotes/plugin.py:37-74 | A plan is read only when "backgrounds" and "font" are both tables and both font families are present and non-empty. The limit is at most 1000, and the font families are the configured ones. `ReadPlanErrors` and `ReadPlanDefaults` state its error order and defaults. |
| Quotes.ReadPlanErrors | plugins/quotes/plugin.py:40-56 | A missing "backgrounds" raises first, then a missing "font". A success implies both are tables and both font families are present and non-empty. A missing family raises the font-family `ValueError`. |
| Quotes.ReadPlanDefaults | plugins/quotes/plugin.py:47-74 | With only the two font families configured, the defaults apply: limit 100, randomized, sizes 24 and 18, pattern "*", nothing ignored, no date settings. |
| Quotes.SliceStop | plugins/quotes/plugin.py:67 | The end of `list[:k]`: at most the length. A non-negative k cuts at k or at the end, and a negative k counts back from the end. |
| Quotes.GlobAllowed | plugins/quotes/plugin.py:61-62 | The union, over the allowed patterns, of the files each pattern globs. |
| Quotes.DropIgnored | plugins/quotes/plugin.py:64-65 | Exactly the globbed files that no ignored pattern matches. |
| Quotes.BuildKwargs | plugins/quotes/plugin.py:37-86 | A reading error is returned as is. Otherwise the arguments carry the settings as read, and the backgrounds are the selected files, each once, cut at the limit. |
| Quotes.BuildFromPlan | plugins/quotes/plugin.py:51-86 | The backgrounds are a prefix of some listing of the selected files, without repetition and within a non-negative limit. The source path is the configuration path followed by "src". |
| Quotes.ListOf | plugins/quotes/plugin.py:67 | `list(set)` lists every element exactly once, in some order. |
| Quotes.QuoteService.constructor | plugins/quotes/service.py:27-37 | Keeps the backgrounds and the mode, with the cursor at 0. |
| Quotes.QuoteService.NextBackground | plugins/quotes/service.py:70-80 | No backgrounds raises `ValueError`. In random mode, some loaded background is returned and the cursor is untouched. Otherwise the background at the cursor is returned, and the cursor moves on by one, wrapping around. |
| Quotes.NewQuoteService | plugins/quotes/service.py:13-68 | An empty path list raises `ValueError`. Otherwise one background per path, in order, with the cursor at 0. |
| Quotes.Advance | plugins/quotes/service.py:79 | The next cursor is a valid index. |
| Quotes.CursorAfterWraps | plugins/quotes/service.py:78-79 | Within one round, the cursor moves on by one per call from where it started, wrapping to 0 past the end. |
| Quotes.RoundRobin | plugins/quotes/service.py:75-79 | In non-random mode, n calls over n backgrounds serve each background exactly once and bring the cursor back to where it was. |
| Quotes.OnLoad | plugins/quotes/plugin.py:19-31 | The hook starts with the `ensure_plugin_configs` raise when that step fails, and always ends in a raise. Its only other possible step registers the quote service class. `OnLoadAlwaysFails` states the state it leaves. |
| Quotes.OnLoadAlwaysFails | plugins/quotes/plugin.py:19-31 | Loading the plugin always fails, and no router or router middleware is ever added. A failure to ensure the configuration directory raises first, with nothing changed. A settings error raises before anything changes, and so does an empty background list. Otherwise the service class (not the instance) is registered, and then building the middleware without its skipper raises `TypeError`. |
| Quotes.QuotesPlugin | plugins/quotes/plugin.py:9-12 | The plugin is named "quotes", requires the Telegram adapters and ships "default_configs". |
| QuoteText.BreakIndex | plugins/quotes/service.py:135 | The first line break in the text, or its end. |
| QuoteText.LineBreakIsSpace | plugins/quotes/service.py:135-144 | Every character `splitlines` breaks at is also whitespace to `split`. |
| QuoteText.ParagraphsCompact | plugins/quotes/service.py:135 | `splitlines` loses only line breaks: the paragraphs hold the text's non-whitespace characters, in order. |
| QuoteText.WordsCompact | plugins/quotes/service.py:144 | `split()` loses only whitespace: the words hold the paragraph's non-whitespace characters, in order. |
| QuoteText.WordsOfSpace | plugins/quotes/service.py:144 | A paragraph of whitespace has no words. |
| QuoteText.CompactStrip | plugins/quotes/service.py:147 | `strip()` removes only whitespace. |
| QuoteText.CharSplitSpells | plugins/quotes/service.py:156-166 | Cutting a word character by character keeps its characters in order. Every part fits or is a single character, and the last part is empty only for an empty word. |
| QuoteText.WordStepCompact | plugins/quotes/service.py:146-166 | Handling one word adds exactly that word's characters to what the lines spell. |
| QuoteText.WordStepGood | plugins/quotes/service.py:146-166 | Handling one word keeps every line acceptable and non-empty. |
| QuoteText.WordsWrapCompact | plugins/quotes/service.py:145-166 | The words of a paragraph are laid out without losing or reordering a character. |
| QuoteText.WordsWrapGood | plugins/quotes/service.py:145-166 | Every line from a paragraph's words fits the width, or is a single character that cannot fit. |
| QuoteText.WrapParagraphCompact | plugins/quotes/service.py:138-168 | A paragraph's lines hold its non-whitespace characters, in order. |
| QuoteText.WrapParagraphLines | plugins/quotes/service.py:138-168 | An empty paragraph is one empty line, and a paragraph of whitespace gives no line. Otherwise every line is non-empty and fits, or is a single character. |
| QuoteText.WrapAllCompact | plugins/quotes/service.py:138-169 | The lines of all paragraphs hold the text's non-whitespace characters, in order. |
| QuoteText.WrapAllLines | plugins/quotes/service.py:138-169 | Every line fits, or is a single character, or is the empty line of an empty paragraph. |
| QuoteText.WrapTextKeeps | plugins/quotes/service.py:134-169 | `wrap_text_by_width` neither loses nor reorders a visible character, and its lines respect the width as above. |
| QuoteText.WrapTextByWidth | plugins/quotes/service.py:134-169 | The loops compute `WrapText`, so their lines keep the text's characters and respect the width. |
| QuoteText.WrapParagraphInto | plugins/quotes/service.py:138-168 | One paragraph's iteration appends exactly that paragraph's lines. |
| QuoteText.WrapWords | plugins/quotes/service.py:145-166 | The loop over the words emits the lines and leaves the current line as `WordsWrap` says. |
| QuoteText.AddWord | plugins/quotes/service.py:146-166 | One word's iteration matches `WordStep`. |
| QuoteText.SplitWord | plugins/quotes/service.py:156-165 | The loop over a long word's characters emits the parts and leaves the last one as `CharSplit` says. |
| QuoteText.HeightError | plugins/quotes/service.py:186-193 | No lines never fail. With a line height above 360 pixels, any line fails. `HeightLimit` states the exact bound: `360 / line_height` lines. |
| QuoteText.HeightLimit | plugins/quotes/service.py:186-193 | With a positive line height, the text is accepted exactly when it has at most `360 / line_height` lines. |
| RestDomain.Weekday | plugins/rests/domains/rest.py:105 | `date.weekday()`: 0 (Monday) to 6 (Sunday). |
| RestDomain.Interceps | plugins/rests/domains/rest.py:8-19 | Raises `ValueError` exactly when either rest lacks a start or an end date. |
| RestDomain.IntercepsSymmetric | plugins/rests/domains/rest.py:16-19 | Whether two rests overlap does not depend on their order. |
| RestDomain.IntercepsSharedDay | plugins/rests/domains/rest.py:16-19 | Two well-formed rests overlap exactly when some day lies in both. |
| RestDomain.TouchingRestsOverlap | plugins/rests/domains/rest.py:16-19 | A rest that starts on the day another ends overlaps it, because the bounds are inclusive. |
| RestDomain.CheckAll | plugins/rests/domains/rest.py:22-30 | False exactly when the rest overlaps none of the others. True only when it overlaps one. An error only when some comparison raises. |
| RestDomain.CheckAllEmpty | plugins/rests/domains/rest.py:27-30 | No other rests: no overlap. |
| RestDomain.CheckAllRestsInterceps | plugins/rests/domains/rest.py:22-30 | The loop returns at the first overlap or error, with `CheckAll`'s answer. |
| RestDomain.CheckAllPrefix | plugins/rests/domains/rest.py:27-29 | Once a prefix has found an overlap or an error, the rest of the list does not change the answer. |
| RestDomain.CanTake | plugins/rests/domains/rest.py:33-35 | A rest can start on a weekday, and not on a Saturday or a Sunday. |
| RestDomain.WeekStart | plugins/rests/domains/rest.py:105 | The Monday of a day's week: on or before that day, less than seven days before. |
| RestDomain.WeekdayShift | plugins/rests/domains/rest.py:68 | Whole weeks do not change the weekday. |
| RestDomain.CalculateRestDates | plugins/rests/domains/rest.py:98-107 | The rest starts on the Monday of the given day's week and ends the day before the week count has passed. It has no member, state or revocation. |
| RestDomain.RestEndsOnSunday | plugins/rests/domains/rest.py:105-106 | A rest of one or more weeks ends on a Sunday. |
| RestDomain.Flags | plugins/rests/domains/rest.py:58-96 | The two flags, or the first error met. |
| RestDomain.FlagsOk | plugins/rests/domains/rest.py:58-76 | Two successful flags make the two-flag list. |
| RestDomain.Free | plugins/rests/domains/rest.py:73-75 | Free exactly when the rest overlaps none of the others. It fails exactly when the overlap check raises. |
| RestDomain.PossibleStartsMeaning | plugins/rests/domains/rest.py:52-76 | Two flags. This week's is false on a Saturday or a Sunday. A set flag means that the week's Monday-to-Sunday rest overlaps no other rest. |
| RestDomain.DefinePossibleRestStarts | plugins/rests/domains/rest.py:52-76 | The loop computes `PossibleStarts`: on a weekend this week is skipped, and each other week is free exactly when its one-week rest overlaps nothing. |
| RestDomain.WeekFree | plugins/rests/domains/rest.py:68-75 | One loop body: whether the rest computed for a start and a length is free. |
| RestDomain.DefinePossibleRestDurations | plugins/rests/domains/rest.py:78-96 | The loop computes `PossibleDurations`: one-week and two-week rests from the start's Monday. |
| RestDomain.ShorterStillFree | plugins/rests/domains/rest.py:16-19 | A rest that ends earlier from the same start overlaps nothing the longer one did not. |
| RestDomain.TwoWeeksImpliesOneWeek | plugins/rests/domains/rest.py:78-96 | When two weeks are free, one week is. |
| RestDomain.Formatted | plugins/rests/domains/rest.py:47-48 | A rest with its two instants turned into local days, its other fields unchanged. |
| RestDomain.FilterDropsNothing | plugins/rests/domains/rest.py:38-50 | Comparing an enum state with the string "revoked" is never true, so no rest is dropped. The result is every rest, in order, with its dates converted. It raises exactly when some rest lacks a date. |
| RestDomain.FilterAndFormatRests | plugins/rests/domains/rest.py:38-50 | The loop computes `FilterAndFormat`. |
| RestDomain.FilterPrefixErr | plugins/rests/domains/rest.py:44-48 | A prefix that raised decides the outcome. |
| RestKeyboards.Mark | plugins/rests/services/keyboards.py:12-35 | An option's label starts with ✅ or ❌. |
| RestKeyboards.Flag | plugins/rests/services/keyboards.py:13-36 | An option's data ends in 's' or 'f'. |
| RestKeyboards.FirstIkbm | plugins/rests/services/keyboards.py:8-24 | Building the start-week keyboard raises `IndexError` exactly when fewer than two flags are given. |
| RestKeyboards.SecondIkbm | plugins/rests/services/keyboards.py:26-48 | Building the duration keyboard raises `IndexError` exactly when fewer than two flags are given. |
| RestKeyboards.RejectIkbm | plugins/rests/services/keyboards.py:50-57 | One row, holding Back and Cancel. |
| RestKeyboards.DecodeChoice | plugins/rests/handler.py:51-76 | The option handler accepts exactly the data that begins "rest:", a kind, a digit 0 to 2 and 's' or 'f'. It reads the kind, the number and the availability from those characters. |
| RestKeyboards.OptionButtonDecodes | plugins/rests/services/keyboards.py:11-36 | An option button's data decodes back into its kind, number and availability, and its mark agrees with its data. |
| RestKeyboards.FirstIkbmChoices | plugins/rests/services/keyboards.py:8-24 | The first row's two buttons decode as start weeks 0 and 1 with the given availability. Cancel is on the second row. |
| RestKeyboards.SecondIkbmChoices | plugins/rests/services/keyboards.py:26-48 | The first row's two buttons decode as durations 1 and 2 with the given availability. Back and Cancel are on the last row. |
| RestKeyboards.ConfirmIkbm | plugins/rests/services/keyboards.py:59-67 | Confirm sits alone on the first row. The second row holds a Back button and then Cancel. This Back button is not the start keyboard's: its data selects a start week marked available. `ConfirmBackDecodes` proves the data decodes to that start week. |
| RestKeyboards.ConfirmBackDecodes | plugins/rests/services/keyboards.py:59-67 | The confirm keyboard's Back button decodes as the chosen start week, marked available. Cancel is only on the second row. |
| RestHandler.LongerRestCheckIsWeaker | plugins/rests/handler.py:201-208 | The longer-rest handler joins its two tests with `and`, so another user in the same chat passes it. The other handlers, which use `or`, stop that user. The dispatcher keeps a separate dialogue state per user in each chat (zuki/app.py:17-20), so another user's callback reads that user's own state: the difference lies in the guard as written and is rarely reachable. |
| RestHandler.StoredVersusShown | plugins/rests/handler.py:137-158 | The confirm handler stores dates that differ from the ones it shows. The stored start is `weekday(today)` days after the shown Monday, and the stored end is one day more after the shown Sunday. They agree only on a Monday, and the stored end is always later. |
| RestHandler.RestDialogue.constructor | plugins/rests/handler.py:19-21 | A new dialogue is idle, with no booking data and nothing stored. |
| RestHandler.RestDialogue.TakeRest | plugins/rests/handler.py:23-49 | Outside a group, the update is not handled. A failed fetch or flag computation raises with nothing changed. With no week available, the member is told so and nothing changes. Otherwise the start-week keyboard is shown, the dialogue moves to taking a rest, and the booking records only the user and the chat. |
| RestHandler.RestDialogue.ChooseOption | plugins/rests/handler.py:51-124 | Unhandled unless the dialogue is taking a rest and the data matches. The wrong user or chat is shooed. An unavailable option shows the reject keyboard. A start week is recorded and the duration keyboard shown. A duration is recorded and the confirmation shown, which raises `KeyError` when no start week was chosen. The state and the stored rests never change. |
| RestHandler.RestDialogue.ConfirmRest | plugins/rests/handler.py:126-162 | Unhandled outside the dialogue, and the wrong user or chat is shooed. A missing start week or duration raises `KeyError` with nothing changed. Otherwise exactly one active, unrevoked rest is requested from the rests service, from today plus the start weeks to today plus the start and duration weeks. The Monday-aligned dates are shown, and the dialogue is cleared. |
| RestHandler.RestDialogue.Restart | plugins/rests/handler.py:164-189 | Unhandled outside the dialogue, and the wrong user or chat is shooed. Otherwise the start-week keyboard is shown again (even with no week free), or the fetch's or the flags' error is raised. |
| RestHandler.RestDialogue.Cancel | plugins/rests/handler.py:191-199 | Unhandled outside the dialogue, and the wrong user or chat is shooed. Otherwise the dialogue is cancelled and cleared, and nothing is stored. |
| RestHandler.RestDialogue.LongerRest | plugins/rests/handler.py:201-208 | Unhandled outside the dialogue. A caller is shooed exactly when both the user and the chat differ; everyone else gets the longer-rest notice. |
| RestHandler.DurationsReply | plugins/rests/handler.py:79-99 | A failed fetch raises. Otherwise the duration keyboard is for the chosen start week. |
| RestHandler.AdminGive | plugins/rests/handler.py:210-266 | Without a replied-to message the command asks for one and writes nothing. It writes rests exactly when it reports a rest as given, to the replied-to user. Then it writes two rests, and the first spans the dates it shows. `AdminGiveEffect` states the conditions and the dates. |
| RestHandler.AdminGiveEffect | plugins/rests/handler.py:210-266 | Something is stored exactly when the command answers a message and the target's role level is at least 6 and the duration is positive. A lower level gets "not enough rights", and a zero duration gets its refusal. Then two rests are stored, both for the sender rather than the target. The first is active over whole Monday-to-Sunday weeks covering the chosen start. The second is blocked, starts the day after, and has the same length. |
| RestService.StateValue | plugins/rests/services/rest.py:56 | A rest state's stored value is "blocked" or "active". |
| RestService.ChatById | plugins/rests/services/rest.py:53 | A chat that is found is in the table and carries the id asked for. |
| RestService.ThenAssoc | plugins/rests/services/rest.py:51-62 | Chaining the loop's partial results is associative, so the loop may be split at any row. |
| RestService.ListRestsMeaning | plugins/rests/services/rest.py:42-63 | `list` raises exactly when some row's member or chat is missing. Otherwise it keeps exactly the rows whose chat has the given Telegram id and whose state and dates pass the filters. |
| RestService.ListRestsAppend | plugins/rests/services/rest.py:51-62 | Listing two runs of rows is listing the first and then the second. |
| RestService.ListStep | plugins/rests/services/rest.py:51-62 | One loop step: a lookup error is raised; otherwise the row is appended exactly when its chat matches and the filters keep it. |
| RestService.ListPrefixErr | plugins/rests/services/rest.py:52-53 | Once a prefix of the rows raised, the whole listing raises the same error. |
| RestService.RepoFilter | plugins/rests/repositories/rest.py:17-40 | The query keeps exactly the member's rows whose state passes and which meet either date bound. |
| RestService.RepoFilterIsWeaker | plugins/rests/repositories/rest.py:31-37 | The query joins the two date bounds with OR while `list` requires both: a rest of days 10 to 12 asked for days 20 to 30 passes the query and not `list`. |
| RestService.FiltersAgreeOnOneDate | plugins/rests/repositories/rest.py:31-37 | With at most one date bound the query and `list` agree. |
| RestService.RestsService.constructor | plugins/rests/services/rest.py:12-18 | A new service over a member service, with no rests stored. |
| RestService.RestsService.GetByTgIds | plugins/rests/services/rest.py:23-40 | No member for the Telegram ids gives None. Otherwise the result is the query over that member's rests. |
| RestService.RestsService.List | plugins/rests/services/rest.py:42-63 | The loop computes `ListRests`, whose meaning `ListRestsMeaning` states. |
| RestService.RestsService.Put | plugins/rests/services/rest.py:65-87 | No member gives None and nothing changes. Otherwise exactly one rest is appended, for that member, with the given state, dates and revoked flag, and it is returned. |
| PyStr.StripInfix | plugins/call/handler.py:46 | `str.strip()` returns a contiguous slice of its input. Only whitespace lies outside the slice, and the slice neither starts nor ends with whitespace. |
| PyStr.StripIdempotent | plugins/quotes/service.py:147 | Stripping twice is stripping once. |
| PyStr.ParseFormatNat | plugins/telegram_adapters/adapters/user_link.py:11-17 | The decimal text an f-string writes for a user id reads back as the same number. |
| Toml.Get | plugins/db_manager/plugin.py:52-58 | `dict.get` gives the key's value when the key is present and the default otherwise. |
| Toml.SubTable | plugins/db_manager/plugin.py:52 | A missing section reads as an empty table and a table section as itself. Any other value is an error. |

## Left out

- RestHandler.AdminGiveEffect: models the admin command's evident logic, from the parsed arguments on. As written it would fail earlier: the handler asks for `app_tz` while the middleware supplies `app_tzinfo` (plugins/rests/handler.py:211), it builds `UnitOfWork()` with no session factory (line 217), and it passes keyword names that `get_by_user_and_chat_tg_ids` does not accept (line 219).
- CallHandler.SendCall: starts after the member query and the chat-enabled check. The query it depends on, `list_not_unreg_by_chat_ids`, always raises (`CallServices` states this), and the bot calls are outputs.
- DbManager.Str: Python's `repr` of a list or a table is the parameter `render`; the model does not spell out that text.
- PluginManager.PluginManager.RegisterAllFromPackage: which registrations survive when a candidate is rejected part-way is not specified; only the error is.
- ChatAdmins.ChatAdminSync.UpdateChatIds: the order in which new ids are appended is left open; that nothing is removed and no id is duplicated is stated.
- Quotes.QuoteService.NextBackground: in randomized mode the result is only "some background of the list", since `random.choice` is not modelled.
- ConfigManager.ConfigManager.EnsurePluginConfigs: files copied before a collision error are not modelled; the error is.
- Discovery by reflection (`importlib`, `pkgutil`) is a given ordered list of candidate plugin classes.
- The aiogram transport is an input or an output: the bot, the dispatcher, polling and every bot call (`answer`, `edit_text`, `get_chat_member`, `get_chat_administrators`). The inverted storage condition at zuki/app.py:17-20 is dispatcher plumbing and is not modelled.
- SQLAlchemy models, repositories, the unit of work and the seed listeners are not modelled. The one column default a service relies on, role 1 for an inserted member, is modelled. Each table is a sequence of rows inside its service class. The rests repository's filter is kept as a function.
- The plain get, list and delete pass-throughs of the services are not modelled, since each only forwards to its repository. These include `list_unreg_by_chat_ids`, `list_by_chat_tg_id`, `list_by_user_tg_id`, `get_members`, `get_user` and `get_chat`.
- `is_standard_member_rights` is not modelled; no handler in the modelled core calls it.
- The call plugin's unreg, enable and disable handlers are not modelled; the services they call are.
- TOML parsing and file reading are not modelled; a plugin's configuration is a parsed table.
- Image rendering, avatars and floating point are not modelled (`create_quote_image`, `prepare_avatar`, `fetch_last_avatar`). Text width is an abstract measure.
- Time zones and the clock are inputs: today as a day number, now in microseconds.
- The chat-admins scheduler and `sync_chat_admins_job` (bot and database orchestration) are not modelled; the cursor arithmetic of `job` is.
- The middlewares that mainly do database and bot I/O (`telegram_info_collect`'s outer middleware and the call plugin's message middleware) are not modelled.
- Table creation in `db_manager`'s `on_startup` is not modelled, and neither is `on_shutdown`, which nothing in the source calls.
- main.py and settings.py are not modelled. main.py:28 calls a `bootstrap` the plugin manager does not define, and main.py:20 passes `timezone=` to `App`, which does not accept it.
- The rests plugin's `on_load` is not modelled. It reads `app.timezone`, which `App` never sets, so it raises `AttributeError` (plugins/rests/plugin.py:19). It would then pass `update_types=` where `App` takes `update_type` (line 21).
- Two failing call sites are modelled as they stand. The call plugin passes `update_types=` (`CallPlugin.OnLoadFails`), and the quotes plugin builds its middleware with one argument where two are required (`Quotes.OnLoadAlwaysFails`).
- `KeyError` texts write the key in single quotes, as Python's `repr` does for a key without quotes, backslashes or unprintable characters. The escaping `repr` applies to other keys is not modelled; every key the plugins use is a plain literal.
- Quotes.NewQuoteService: every non-empty path list loads. In the source, `load_backgrounds` raises `RuntimeError` when a background or the mask image `src/img/mask.png` cannot be opened (plugins/quotes/service.py:54-67), before the class is registered (plugins/quotes/plugin.py:25). Image files and their decoding are not modelled.
- The texts of Python's built-in `AttributeError` and `TypeError` for a value of the wrong type (`object has no attribute 'get'`, `'<' not supported between instances`, `object is not iterable`) leave out the type names Python puts in them, such as `'str'`.
- Host.App.AddRouterMiddleware: appends a binding for any update-type name. In the source, `getattr(router, update_type)` raises `AttributeError` for a name that is not an event observer (zuki/app.py:43); no modelled hook reaches that call with such a name.
- Quotes.ReadPlan: a non-string item in "ignored" raises `TypeError` here as soon as the settings are read. The source uses those patterns only inside a comprehension over the backgrounds matched so far (plugins/quotes/plugin.py:64-65). With no background matched it gets past them, and fails later with the no-backgrounds error.
- Reading "config.toml" in each `on_load` is not modelled, so neither is a missing or malformed file: the hook gets the parsed table.
