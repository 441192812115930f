/** The call plugin's settings and its `on_load` wiring. */
module CallPlugin {
  import opened Wrappers
  import opened PluginBase
  import Toml
  import Host
  import SkipUpdates
  import ConfigManager

  /** `load_call_settings_from_config`: four keys read with their defaults;
      `None` is Python's `None` (the default of "emojies"). Other
      configuration keys are not copied. */
  function Settings(config: Toml.Table): (s: map<string, Option<Toml.Value>>)
    ensures s.Keys == {"users_tag_per_line", "emojies", "default_call_message", "call_footer"}
    ensures "users_tag_per_line" !in config ==> s["users_tag_per_line"] == Some(Toml.TInt(5))
    ensures "emojies" !in config ==> s["emojies"] == None
    ensures "default_call_message" !in config ==> s["default_call_message"] == Some(Toml.TStr("Калл!"))
    ensures "call_footer" !in config ==> s["call_footer"] == Some(Toml.TStr(""))
    ensures forall k :: k in s && k in config ==> s[k] == Some(config[k])
  {
    map[
      "users_tag_per_line" := Some(Toml.Get(config, "users_tag_per_line", Toml.TInt(5))),
      "emojies" := if "emojies" in config then Some(config["emojies"]) else None,
      "default_call_message" := Some(Toml.Get(config, "default_call_message", Toml.TStr("Калл!"))),
      "call_footer" := Some(Toml.Get(config, "call_footer", Toml.TStr("")))]
  }

  const CallRouter := "call.router"

  /** `add_router_middleware` has the keyword `update_type`; the call passes
      `update_types`, which Python rejects before the method body runs. */
  const UpdateTypesError := "TypeError: add_router_middleware() got an unexpected keyword argument 'update_types'"

  /** `on_load` from the outcome of `ensure_plugin_configs`: ensure the
      configuration directory, include the router, look up the skipper, then
      the failing middleware binding. */
  function OnLoad(ensured: Outcome<string>): (steps: seq<HookStep>)
    ensures ensured.Fail? ==> |steps| >= 1 && steps[0] == Raise(ensured.error)
    ensures |steps| >= 1 && steps[|steps| - 1] == Raise(UpdateTypesError)
    ensures forall i :: 0 <= i < |steps| ==> !steps[i].AddRouterMiddleware? && !steps[i].AddDispatcherMiddleware?
  {
    EnsureConfigs(ensured) + [IncludeRouter(CallRouter), GetService(SkipUpdates.SkipperKey), Raise(UpdateTypesError)]
  }

  /** Loading the call plugin always fails. When ensuring the configuration
      directory raises, nothing changes. Otherwise the router is included and
      then the skipper lookup fails when it is missing, or else the
      middleware binding; no middleware is bound either way. */
  lemma OnLoadFails(st: Host.HostState, ensured: Outcome<string>)
    ensures ensured.Fail? ==> Host.Run(st, OnLoad(ensured)) == (st, ensured)
    ensures ensured.Pass? ==>
      Host.Run(st, OnLoad(ensured)) ==
        (st.(routers := st.routers + [CallRouter]),
         Fail(if SkipUpdates.SkipperKey in st.services then UpdateTypesError else Host.KeyErrorText(SkipUpdates.SkipperKey)))
  {
    var rest := [IncludeRouter(CallRouter), GetService(SkipUpdates.SkipperKey), Raise(UpdateTypesError)];
    Host.RunEnsured(st, ensured, rest);
    var st1 := st.(routers := st.routers + [CallRouter]);
    assert Host.Run(st, rest) == Host.Run(st1, rest[1..]);
    assert rest[1..][1..] == [Raise(UpdateTypesError)];
    assert Host.Run(st1, rest[1..][1..]) == (st1, Fail(UpdateTypesError));
  }

  /** The plugin class: four dependencies, and no default configuration
      directory of its own. */
  function CallPluginClass(moduleDir: seq<string>, ensured: Outcome<string>): (c: PluginClass)
    ensures c.name == Some("call") && SkipUpdates.Name in c.required
    ensures c.defaultConfigDir == BasePlugin(moduleDir).defaultConfigDir
  {
    BasePlugin(moduleDir).(name := Some("call"),
      required := ["db_manager", "skip_updates", "telegram_adapters", "telegram_info_collect"],
      onLoad := OnLoad(ensured))
  }

  /** Like the skipper plugin, the call plugin inherits "config/None" as its
      default directory, so its `on_load` raises unless that exists. */
  lemma InheritedDefaultsMissing(configs: map<string, ConfigManager.Tree>, source: ConfigManager.Tree,
                                 moduleDir: seq<string>, ensured: Outcome<string>)
    requires ConfigManager.Get(source, moduleDir + ["config", "None"]).None?
    ensures ConfigManager.EnsureOutcome(configs, source, CallPluginClass(moduleDir, ensured)).Fail?
  {
  }
}

/** Choosing a user's emoji from the call signs. */
module CallDomain {
  import opened Wrappers

  /** The sum of the code points of `s`. */
  function CodeSum(s: string): nat
  {
    if s == [] then 0 else s[0] as nat + CodeSum(s[1..])
  }

  lemma {:induction false} CodeSumAppend(a: string, b: string)
    ensures CodeSum(a + b) == CodeSum(a) + CodeSum(b)
  {
    if a == [] {
      assert a + b == b;
    } else {
      assert (a + b)[0] == a[0];
      assert (a + b)[1..] == a[1..] + b;
      CodeSumAppend(a[1..], b);
    }
  }

  /** Taking out the character at `j` takes its code from the sum. */
  lemma CodeSumRemove(b: string, j: nat)
    requires j < |b|
    ensures CodeSum(b) == b[j] as nat + CodeSum(b[..j] + b[j + 1..])
  {
    var l, r := b[..j], b[j + 1..];
    assert b == l + ([b[j]] + r);
    CodeSumAppend(l, [b[j]] + r);
    CodeSumAppend(l, r);
    assert ([b[j]] + r)[1..] == r;
  }

  /** Taking out the character at `j` takes one occurrence from the
      multiset. */
  lemma MultisetRemove(b: string, j: nat)
    requires j < |b|
    ensures multiset(b[..j] + b[j + 1..]) == multiset(b) - multiset{b[j]}
  {
    var l, r := b[..j], b[j + 1..];
    assert b == l + [b[j]] + r;
  }

  /** The sum depends only on which characters occur how often. */
  lemma {:induction false} CodeSumPermutation(a: string, b: string)
    requires multiset(a) == multiset(b)
    ensures CodeSum(a) == CodeSum(b)
    decreases |a|
  {
    if a != [] {
      assert a[0] in multiset(b);
      var j :| 0 <= j < |b| && b[j] == a[0];
      var rest := b[..j] + b[j + 1..];
      CodeSumRemove(b, j);
      MultisetRemove(b, j);
      assert a == [a[0]] + a[1..];
      assert multiset(a[1..]) == multiset(rest);
      CodeSumPermutation(a[1..], rest);
    }
  }

  /** `get_user_emoji` with a non-empty list of signs. */
  function PickSign(name: string, signs: seq<string>): (r: string)
    requires signs != []
    ensures r in signs
  {
    signs[CodeSum(name) % |signs|]
  }

  /** `get_user_emoji` for any value of the setting: `None` has no length,
      and an empty list divides by zero. */
  function GetUserEmoji(name: string, signs: Option<seq<string>>): (r: Result<string, string>)
    ensures r.Ok? <==> signs.Some? && signs.value != []
    ensures r.Ok? ==> r.value in signs.value
  {
    match signs
    case None => Err("TypeError: object of type 'NoneType' has no len()")
    case Some(s) => if s == [] then Err("ZeroDivisionError: integer modulo by zero") else Ok(PickSign(name, s))
  }

  /** Reordering the characters of a name does not change its sign. */
  lemma PickSignPermutation(a: string, b: string, signs: seq<string>)
    requires signs != [] && multiset(a) == multiset(b)
    ensures PickSign(a, signs) == PickSign(b, signs)
  {
    CodeSumPermutation(a, b);
  }

  /** An empty name gets the first sign. */
  lemma EmptyNameFirstSign(signs: seq<string>)
    requires signs != []
    ensures PickSign("", signs) == signs[0]
  {
  }
}

/** The call handler from the point where the sender has been looked up:
    the call text, the split of the members into messages, and each
    message's header and links. */
module CallHandler {
  import opened Wrappers
  import PyStr
  import MemberRights
  import UserLink
  import CallDomain

  /** A member to mention: Telegram id, first name and optional last name. */
  datatype User = User(tgId: int, firstName: string, lastName: Option<string>)

  /** `first_name + (last_name or "")`. */
  function FullName(u: User): string
  {
    u.firstName + (if u.lastName.Some? then u.lastName.value else "")
  }

  /** The trigger word, matched case-insensitively. */
  predicate CallWord(w: string)
  {
    |w| == 4 && w[0] in {'к', 'К'} && w[1] in {'а', 'А'} && w[2] in {'л', 'Л'} && w[3] in {'л', 'Л'}
  }

  /** `call_message`: the text after the trigger word, stripped; "" when
      nothing follows. The router only passes texts that begin with the word. */
  function CallMessage(text: string): (r: string)
    requires |text| >= 4 && CallWord(text[..4])
    ensures |text| == 4 ==> r == ""
    ensures r == "" || (!PyStr.IsSpace(r[0]) && !PyStr.IsSpace(r[|r| - 1]))
    ensures |r| <= |text| - 4
  {
    PyStr.StripEnds(text[4..]);
    PyStr.Strip(text[4..])
  }

  /** The header of the first message: the call text, or when it is empty
      the formatted default message. */
  function FirstMessage(callMessage: string, formattedDefault: string): string
  {
    if callMessage != "" then callMessage else formattedDefault
  }

  /** The header of the last message: the call text followed by the
      formatted footer. */
  function LastMessage(callMessage: string, formattedFooter: string): string
  {
    callMessage + formattedFooter
  }

  function Min(a: int, b: int): int
  {
    if a <= b then a else b
  }

  /** `math.ceil(n / k)`, and 0 for a negative `k` (the range is empty). */
  function ChunkCount(n: nat, k: int): (c: nat)
    requires k != 0
  {
    if k < 0 then 0 else (n + k - 1) / k
  }

  lemma ChunkCountBounds(n: nat, k: int)
    requires n > 0 && k > 0
    ensures ChunkCount(n, k) >= 1
    ensures (ChunkCount(n, k) - 1) * k < n <= ChunkCount(n, k) * k
  {
    var c := ChunkCount(n, k);
    var r := (n + k - 1) % k;
    assert n + k - 1 == c * k + r;
    assert (c - 1) * k == c * k - k;
  }

  /** `members[k*i : k*(i+1)]`, with Python's clamping of slice bounds. */
  function Chunk<T>(members: seq<T>, k: int, i: nat): seq<T>
    requires k > 0
  {
    members[Min(k * i, |members|)..Min(k * (i + 1), |members|)]
  }

  /** The chunks 0 .. j-1 laid end to end. */
  function ConcatChunks<T>(members: seq<T>, k: int, j: nat): seq<T>
    requires k > 0
  {
    if j == 0 then [] else ConcatChunks(members, k, j - 1) + Chunk(members, k, j - 1)
  }

  lemma {:induction false} ConcatChunksPrefix<T>(members: seq<T>, k: int, j: nat)
    requires k > 0
    ensures ConcatChunks(members, k, j) == members[..Min(k * j, |members|)]
  {
    if j > 0 {
      ConcatChunksPrefix(members, k, j - 1);
      assert k * j == k * (j - 1) + k;
      var a := Min(k * (j - 1), |members|);
      var b := Min(k * j, |members|);
      assert members[..a] + members[a..b] == members[..b];
    }
  }

  /** The messages' chunks partition the members in order: laid end to end
      they give back the list; every chunk but the last has exactly `k`
      members and the last has between 1 and `k`. */
  lemma ChunksPartition<T>(members: seq<T>, k: int)
    requires members != [] && k > 0
    ensures ConcatChunks(members, k, ChunkCount(|members|, k)) == members
    ensures forall i :: 0 <= i < ChunkCount(|members|, k) - 1 ==> |Chunk(members, k, i)| == k
    ensures 1 <= |Chunk(members, k, ChunkCount(|members|, k) - 1)| <= k
  {
    var c := ChunkCount(|members|, k);
    ChunkCountBounds(|members|, k);
    ConcatChunksPrefix(members, k, c);
    forall i | 0 <= i < c - 1
      ensures |Chunk(members, k, i)| == k
    {
      FullChunk(members, k, i, c);
    }
    LastChunk(members, k, c);
  }

  lemma FullChunk<T>(members: seq<T>, k: int, i: nat, c: nat)
    requires k > 0 && i + 1 < c && (c - 1) * k < |members|
    ensures |Chunk(members, k, i)| == k
  {
    assert k * (i + 1) <= k * (c - 1) by {
      MulMono(k, i + 1, c - 1);
    }
    assert k * (i + 1) == k * i + k;
  }

  lemma LastChunk<T>(members: seq<T>, k: int, c: nat)
    requires k > 0 && c >= 1 && (c - 1) * k < |members| <= c * k
    ensures 1 <= |Chunk(members, k, c - 1)| <= k
  {
    assert k * c == k * (c - 1) + k;
  }

  lemma MulMono(k: int, a: int, b: int)
    requires k > 0 && a <= b
    ensures k * a <= k * b
  {
    assert k * b - k * a == k * (b - a);
  }

  /** The header of message `i` of `count`. */
  function Header(i: nat, count: nat, callMessage: string, first: string, last: string): string
  {
    if i == 0 then first
    else if i == count - 1 then last
    else callMessage
  }

  /** Message 0 carries the first header, the last of two or more the last
      header, the others the plain call text; a single message never
      carries the last header. */
  lemma HeaderChoice(count: nat, callMessage: string, first: string, last: string)
    requires count >= 1
    ensures Header(0, count, callMessage, first, last) == first
    ensures count >= 2 ==> Header(count - 1, count, callMessage, first, last) == last
    ensures forall i :: 0 < i < count - 1 ==> Header(i, count, callMessage, first, last) == callMessage
    ensures count == 1 ==> forall i :: 0 <= i < count ==> Header(i, count, callMessage, first, last) == first
  {
  }

  /** One mention: a notification link showing the user's sign. */
  function Mention(u: User, signs: seq<string>): string
    requires signs != []
  {
    UserLink.NotificationLink(u.tgId, CallDomain.PickSign(FullName(u), signs))
  }

  function Mentions(chunk: seq<User>, signs: seq<string>): (r: seq<string>)
    requires signs != []
    ensures |r| == |chunk|
  {
    if chunk == [] then [] else Mentions(chunk[..|chunk| - 1], signs) + [Mention(chunk[|chunk| - 1], signs)]
  }

  /** The mentions are the members' mentions, one for one and in order. */
  lemma {:induction false} MentionsAt(chunk: seq<User>, signs: seq<string>)
    requires signs != []
    ensures forall j :: 0 <= j < |chunk| ==> Mentions(chunk, signs)[j] == Mention(chunk[j], signs)
  {
    if chunk != [] {
      var init := chunk[..|chunk| - 1];
      MentionsAt(init, signs);
      forall j | 0 <= j < |chunk| - 1
        ensures Mentions(chunk, signs)[j] == Mention(chunk[j], signs)
      {
        assert Mentions(chunk, signs)[j] == Mentions(init, signs)[j];
        assert init[j] == chunk[j];
      }
    }
  }

  /** The text of one message: the header, a blank line, the mentions
      separated by spaces. */
  function Text(header: string, mentions: seq<string>): string
  {
    header + "\n\n" + PyStr.Join(" ", mentions)
  }

  /** Message `i` of `count`: its header and the mentions of its chunk. */
  function MessageAt(members: seq<User>, k: int, count: nat, callMessage: string, first: string, last: string,
                     signs: seq<string>, i: nat): string
    requires k > 0 && signs != []
  {
    Text(Header(i, count, callMessage, first, last), Mentions(Chunk(members, k, i), signs))
  }

  /** The list `[f(0), ..., f(n - 1)]`. */
  function Tabulate<T>(f: nat -> T, n: nat): (r: seq<T>)
    ensures |r| == n
  {
    if n == 0 then [] else Tabulate(f, n - 1) + [f(n - 1)]
  }

  lemma {:induction false} TabulateAt<T>(f: nat -> T, n: nat)
    ensures forall i :: 0 <= i < n ==> Tabulate(f, n)[i] == f(i)
  {
    if n > 0 {
      TabulateAt(f, n - 1);
      assert forall i :: 0 <= i < n - 1 ==> Tabulate(f, n)[i] == Tabulate(f, n - 1)[i];
    }
  }

  /** Message `i` of `count`, as a function of `i`. */
  function MessageFn(members: seq<User>, k: int, count: nat, callMessage: string, first: string, last: string,
                     signs: seq<string>): nat -> string
    requires k > 0 && signs != []
  {
    (i: nat) => MessageAt(members, k, count, callMessage, first, last, signs, i)
  }

  /** What is sent for a non-empty member list with a positive chunk size
      and a non-empty list of signs: one message per chunk. */
  function Messages(members: seq<User>, k: int, callMessage: string, first: string, last: string,
                    signs: seq<string>): (r: seq<string>)
    requires k > 0 && signs != []
    ensures |r| == ChunkCount(|members|, k)
  {
    var count := ChunkCount(|members|, k);
    Tabulate(MessageFn(members, k, count, callMessage, first, last, signs), count)
  }

  /** Message `i` of the list is the header of message `i` followed by the
      mentions of chunk `i`. */
  lemma MessagesAt(members: seq<User>, k: int, callMessage: string, first: string, last: string, signs: seq<string>)
    requires k > 0 && signs != []
    ensures var count := ChunkCount(|members|, k);
            forall i :: 0 <= i < count ==>
              Messages(members, k, callMessage, first, last, signs)[i] ==
              MessageAt(members, k, count, callMessage, first, last, signs, i)
  {
    var count := ChunkCount(|members|, k);
    TabulateAt(MessageFn(members, k, count, callMessage, first, last, signs), count);
  }

  const ZeroChunkError := "ZeroDivisionError: division by zero"

  /** The mentions of one chunk, in order; the first member whose sign
      cannot be chosen raises. */
  method MentionChunk(chunk: seq<User>, emojis: Option<seq<string>>) returns (mentions: seq<string>, err: Option<string>)
    ensures emojis.Some? && emojis.value != [] ==> err == None && mentions == Mentions(chunk, emojis.value)
    ensures (emojis.None? || emojis.value == []) ==>
              err == (if chunk == [] then None else Some(CallDomain.GetUserEmoji("", emojis).error))
  {
    mentions, err := [], None;
    for j := 0 to |chunk|
      invariant (emojis.None? || emojis.value == []) ==> j == 0
      invariant emojis.Some? && emojis.value != [] ==> mentions == Mentions(chunk[..j], emojis.value)
    {
      var e := CallDomain.GetUserEmoji(FullName(chunk[j]), emojis);
      if e.Err? {
        err := Some(e.error);
        assert e.error == CallDomain.GetUserEmoji("", emojis).error;
        return;
      }
      ghost var signs := emojis.value;
      assert e.value == CallDomain.PickSign(FullName(chunk[j]), signs);
      assert chunk[..j + 1][..j] == chunk[..j];
      mentions := mentions + [UserLink.NotificationLink(chunk[j].tgId, e.value)];
    }
    assert chunk[..|chunk|] == chunk;
  }

  /** One message per chunk, in order; an unusable sign list raises at the
      first member, before anything is sent. */
  method SendChunks(members: seq<User>, k: int, callMessage: string, first: string, last: string,
                    emojis: Option<seq<string>>) returns (sent: seq<string>, err: Option<string>)
    requires members != [] && k > 0
    ensures emojis.Some? && emojis.value != [] ==>
              err == None && sent == Messages(members, k, callMessage, first, last, emojis.value)
    ensures emojis.None? || emojis.value == [] ==>
              sent == [] && err == Some(CallDomain.GetUserEmoji("", emojis).error)
  {
    sent, err := [], None;
    var count := ChunkCount(|members|, k);
    ghost var usable := emojis.Some? && emojis.value != [];
    FirstChunkNonEmpty(members, k);
    for i := 0 to count
      invariant err == None
      invariant usable ==> sent == Tabulate(MessageFn(members, k, count, callMessage, first, last, emojis.value), i)
      invariant !usable ==> i == 0 && sent == []
    {
      var text, e := ComposeMessage(members, k, count, callMessage, first, last, emojis, i);
      if e.Some? {
        err := e;
        return;
      }
      sent := sent + [text];
    }
  }

  /** The body of the loop over chunks: the text of message `i`, or the
      error its chunk raises. */
  method ComposeMessage(members: seq<User>, k: int, count: nat, callMessage: string, first: string, last: string,
                        emojis: Option<seq<string>>, i: nat) returns (text: string, e: Option<string>)
    requires k > 0
    ensures emojis.Some? && emojis.value != [] ==>
              e == None && text == MessageAt(members, k, count, callMessage, first, last, emojis.value, i)
    ensures (emojis.None? || emojis.value == []) ==>
              e == (if Chunk(members, k, i) == [] then None else Some(CallDomain.GetUserEmoji("", emojis).error))
  {
    var mentions;
    mentions, e := MentionChunk(Chunk(members, k, i), emojis);
    text := Text(Header(i, count, callMessage, first, last), mentions);
  }

  /** Sends the call: nothing for a sender who is not a super-admin or an
      empty member list; otherwise one message per chunk. A zero chunk size
      and an unusable sign list raise before anything is sent. */
  method SendCall(sender: MemberRights.Member, members: seq<User>, k: int, callMessage: string,
                  first: string, last: string, emojis: Option<seq<string>>)
    returns (sent: seq<string>, err: Option<string>)
    ensures !MemberRights.Truthy(MemberRights.IsSuperAdmin(sender)) || members == [] ==> sent == [] && err == None
    ensures MemberRights.Truthy(MemberRights.IsSuperAdmin(sender)) && members != [] ==>
      if k == 0 then sent == [] && err == Some(ZeroChunkError)
      else if k < 0 then sent == [] && err == None
      else if emojis.None? || emojis.value == [] then
        sent == [] && err == Some(CallDomain.GetUserEmoji("", emojis).error)
      else err == None && sent == Messages(members, k, callMessage, first, last, emojis.value)
  {
    sent, err := [], None;
    if !MemberRights.Truthy(MemberRights.IsSuperAdmin(sender)) || members == [] {
      return;
    }
    if k == 0 {
      err := Some(ZeroChunkError);
      return;
    }
    if k < 0 {
      // the ceiling of a negative quotient is at most zero: no message
      return;
    }
    sent, err := SendChunks(members, k, callMessage, first, last, emojis);
  }

  lemma FirstChunkNonEmpty<T>(members: seq<T>, k: int)
    requires k > 0 && members != []
    ensures ChunkCount(|members|, k) >= 1 && Chunk(members, k, 0) != []
  {
    ChunkCountBounds(|members|, k);
    assert k * 0 == 0;
  }
}
