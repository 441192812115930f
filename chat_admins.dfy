/** The chat-admins collection plugin: every ten minutes one chat known to
    the database has its administrators synchronised. The plugin keeps the
    list of chat ids it has seen (`chat_ids`), grown from the chats table
    before every job, and a cursor (`iteration`) that walks the list round
    robin.

    The scheduler, the synchronisation job itself (bot and database calls)
    and the database read are outside the model: a job is given the
    Telegram ids the chats table lists and whether the synchronisation
    raised. */
module ChatAdmins {
  import opened Wrappers
  import opened PluginBase
  import Host
  import DbManager
  import Toml

  const ZeroDivisionError := "ZeroDivisionError: integer modulo by zero"
  const UowMissing := "RuntimeError: UnitOfWork factory is not available"

  /** A service registered as Python's `None`. */
  const NoneService := Service("None")

  /** The elements of a list, as `set(list)` sees them. */
  function Elems(s: seq<int>): (e: set<int>)
    ensures forall i :: 0 <= i < |s| ==> s[i] in e
    ensures s != [] ==> s[0] in e
  {
    set x | x in s
  }

  predicate NoDup(s: seq<int>)
  {
    forall i, j :: 0 <= i < j < |s| ==> s[i] != s[j]
  }

  /** What `update_chat_ids` does to the list: `after` is `before` extended
      by the ids `listed` names that `before` lacks, each once, in an order
      the set difference leaves open. */
  predicate Extends(before: seq<int>, after: seq<int>, listed: seq<int>)
  {
    |before| <= |after| && after[..|before|] == before &&
    Elems(after[|before|..]) == Elems(listed) - Elems(before) && NoDup(after[|before|..])
  }

  /** Nothing is removed and nothing is lost: the new list holds exactly the
      old ids and the listed ones. */
  lemma ExtendsElems(before: seq<int>, after: seq<int>, listed: seq<int>)
    requires Extends(before, after, listed)
    ensures Elems(before) <= Elems(after)
    ensures Elems(after) == Elems(before) + Elems(listed)
  {
    assert after == before + after[|before|..];
    forall x | x in Elems(after)
      ensures x in Elems(before) || x in Elems(after[|before|..])
    {
      var i :| 0 <= i < |after| && after[i] == x;
      if i >= |before| {
        assert after[|before|..][i - |before|] == x;
      }
    }
    forall x | x in Elems(after[|before|..])
      ensures x in Elems(after)
    {
      var i :| 0 <= i < |after[|before|..]| && after[|before|..][i] == x;
      assert after[|before| + i] == x;
    }
  }

  /** A duplicate-free list stays duplicate-free. */
  lemma ExtendsKeepsNoDup(before: seq<int>, after: seq<int>, listed: seq<int>)
    requires Extends(before, after, listed) && NoDup(before)
    ensures NoDup(after)
  {
    var added := after[|before|..];
    forall i, j | 0 <= i < j < |after|
      ensures after[i] != after[j]
    {
      if j >= |before| {
        assert after[j] == added[j - |before|];
        if i >= |before| {
          assert after[i] == added[i - |before|];
        } else {
          assert after[i] == before[i];
          assert after[j] in Elems(added);
        }
      } else {
        assert after[i] == before[i] && after[j] == before[j];
      }
    }
  }

  /** When the table lists no chat the plugin has not seen, the list is
      left as it is: with a fixed set of chats the list is fixed. */
  lemma ExtendsWithKnownChatsIsNoop(before: seq<int>, after: seq<int>, listed: seq<int>)
    requires Extends(before, after, listed) && Elems(listed) <= Elems(before)
    ensures after == before
  {
    var added := after[|before|..];
    assert Elems(added) == {};
    assert after == before + added;
  }

  /** The index `job` reads for a cursor value: the cursor reduced modulo the
      length. With a positive length Python's `%` and Dafny's agree. */
  function JobIndex(iteration: int, n: nat): (k: nat)
    requires n > 0
    ensures k < n
  {
    iteration % n
  }

  /** The cursor after `k` successful jobs from `i` over a list of `n` chats
      that does not change: each job reduces it, then adds one. */
  function IterationAfter(i: int, n: nat, k: nat): (r: int)
    requires n > 0
    decreases k
  {
    if k == 0 then i else JobIndex(IterationAfter(i, n, k - 1), n) + 1
  }

  /** The index the job numbered `k` (from 0) synchronises. */
  function Visited(i: int, n: nat, k: nat): (r: nat)
    requires n > 0
    ensures r < n
  {
    JobIndex(IterationAfter(i, n, k), n)
  }

  lemma ModShift(x: nat, n: nat)
    requires n > 0 && x < 2 * n
    ensures x % n == if x < n then x else x - n
  {
    if x >= n {
      assert x == n + (x - n);
    }
  }

  /** Within `n` jobs the index moves on by one each time from where the
      cursor starts, wrapping to 0 once past the end. */
  lemma {:induction false} VisitedWraps(i: int, n: nat, k: nat)
    requires n > 0 && k < n
    ensures var r := JobIndex(i, n);
            Visited(i, n, k) == if r + k < n then r + k else r + k - n
    decreases k
  {
    if k > 0 {
      VisitedWraps(i, n, k - 1);
      ModShift(Visited(i, n, k - 1) + 1, n);
    }
  }

  /** The indexes the first `n` jobs synchronise. */
  function Round(i: int, n: nat): set<nat>
    requires n > 0
  {
    set k | 0 <= k < n :: Visited(i, n, k)
  }

  /** Round robin: over an unchanging list of `n` chats, any `n` successive
      jobs synchronise every chat, and no chat twice. */
  lemma RoundRobin(i: int, n: nat)
    requires n > 0
    ensures forall j :: 0 <= j < n ==> j in Round(i, n)
    ensures forall a, b :: 0 <= a < b < n ==> Visited(i, n, a) != Visited(i, n, b)
  {
    var r := JobIndex(i, n);
    forall j | 0 <= j < n
      ensures j in Round(i, n)
    {
      var k := if r <= j then j - r else j + n - r;
      VisitedWraps(i, n, k);
    }
    forall a, b | 0 <= a < b < n
      ensures Visited(i, n, a) != Visited(i, n, b)
    {
      VisitedWraps(i, n, a);
      VisitedWraps(i, n, b);
    }
  }

  /** The outcome of `on_startup` up to starting the scheduler: reading the
      factory raises `KeyError` when no plugin registered it, before the
      `None` check is reached. */
  function StartupOutcome(st: Host.HostState): (o: Outcome<string>)
    ensures DbManager.UowFactoryKey !in st.services ==> o == Fail(Host.KeyErrorText(DbManager.UowFactoryKey))
    ensures o.Fail? <==>
      (DbManager.UowFactoryKey !in st.services || st.services[DbManager.UowFactoryKey] == NoneService)
  {
    match Host.Lookup(st, DbManager.UowFactoryKey)
    case Err(e) => Fail(e)
    case Ok(f) => if f == NoneService then Fail(UowMissing) else Pass
  }

  /** Once the database manager has loaded, the start-up check passes: the
      factory it registers is not `None`. */
  lemma StartupAfterDbManager(st: Host.HostState, ensured: Outcome<string>, config: Toml.Table,
                              render: Toml.Value -> string, createEngine: string -> Result<Service, string>)
    requires ensured.Pass?
    requires DbManager.AssembleConnection(config, render).Ok?
    requires createEngine(DbManager.AssembleConnection(config, render).value).Ok?
    ensures StartupOutcome(Host.Run(st, DbManager.OnLoad(ensured, config, render, createEngine)).0) == Pass
  {
    DbManager.OnLoadRegisters(st, ensured, config, render, createEngine);
  }

  /** The plugin object: the chat ids seen so far, the cursor, and the
      unit-of-work factory read at start-up (`None` until then). */
  class ChatAdminSync {
    var chatIds: seq<int>
    var iteration: int
    var uow: Option<Service>

    constructor ()
      ensures chatIds == [] && iteration == 0 && uow == None
    {
      chatIds := [];
      iteration := 0;
      uow := None;
    }

    /** `on_startup` up to the scheduler: the factory is stored when the
        lookup succeeds, even when it is `None`. */
    method OnStartup(st: Host.HostState) returns (o: Outcome<string>)
      modifies this
      ensures o == StartupOutcome(st)
      ensures DbManager.UowFactoryKey in st.services ==> uow == Some(st.services[DbManager.UowFactoryKey])
      ensures DbManager.UowFactoryKey !in st.services ==> uow == old(uow)
      ensures chatIds == old(chatIds) && iteration == old(iteration)
    {
      var found := Host.Lookup(st, DbManager.UowFactoryKey);
      if found.Err? {
        return Fail(found.error);
      }
      uow := Some(found.value);
      if found.value == NoneService {
        return Fail(UowMissing);
      }
      o := Pass;
    }

    /** `update_chat_ids`, given the Telegram ids of the chats the table
        lists: the ids not yet in the list are appended at once. The body
        appends them in listing order, one order among those the contract
        allows. */
    method UpdateChatIds(listed: seq<int>)
      modifies this
      ensures Extends(old(chatIds), chatIds, listed)
      ensures iteration == old(iteration) && uow == old(uow)
    {
      ghost var before := chatIds;
      var added: seq<int> := [];
      for i := 0 to |listed|
        invariant forall x :: x in added <==> x in listed[..i] && x !in before
        invariant NoDup(added)
      {
        if listed[i] !in chatIds && listed[i] !in added {
          added := added + [listed[i]];
        }
        assert listed[..i + 1] == listed[..i] + [listed[i]];
      }
      assert listed[..|listed|] == listed;
      forall x
        ensures x in Elems(added) <==> x in Elems(listed) - Elems(before)
      {
        assert x in Elems(added) <==> x in added;
        assert x in Elems(listed) <==> x in listed;
        assert x in Elems(before) <==> x in before;
      }
      chatIds := chatIds + added;
      assert chatIds[..|before|] == before && chatIds[|before|..] == added;
    }

    /** `job`: grow the list, reduce the cursor modulo its length (raising
        on an empty list), synchronise the chat at the cursor, then advance
        the cursor. `syncError` is what the synchronisation raised, if
        anything; the cursor then stays reduced. The result is the chat id
        synchronised. */
    method Job(listed: seq<int>, syncError: Option<string>) returns (r: Result<int, string>)
      modifies this
      ensures Extends(old(chatIds), chatIds, listed) && uow == old(uow)
      ensures chatIds == [] ==> r == Err(ZeroDivisionError) && iteration == old(iteration)
      ensures chatIds != [] ==>
        var k := JobIndex(old(iteration), |chatIds|);
        (syncError.Some? ==> r == Err(syncError.value) && iteration == k) &&
        (syncError.None? ==> r == Ok(chatIds[k]) && iteration == k + 1)
    {
      UpdateChatIds(listed);
      if |chatIds| == 0 {
        return Err(ZeroDivisionError);
      }
      iteration := iteration % |chatIds|;
      var chat := chatIds[iteration];
      if syncError.Some? {
        return Err(syncError.value);
      }
      iteration := iteration + 1;
      r := Ok(chat);
    }
  }

  /** The plugin class: it needs the database manager and the Telegram
      information collector, and its start-up reads the factory. The hook
      holds only the lookup; `StartupOutcome` adds the `RuntimeError` for a
      factory registered as `None`. */
  function ChatAdminsPlugin(moduleDir: seq<string>): (c: PluginClass)
    ensures c.name == Some("chat_admins_info_collect")
    ensures c.required == ["db_manager", "telegram_info_collect"]
    ensures GetService(DbManager.UowFactoryKey) in c.onStartup
  {
    BasePlugin(moduleDir).(name := Some("chat_admins_info_collect"),
      required := ["db_manager", "telegram_info_collect"],
      onStartup := [GetService(DbManager.UowFactoryKey)])
  }
}
