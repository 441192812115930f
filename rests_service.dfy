/** `ChatMemberRestsService`: the rests table and the queries over it.
    Stored dates are numbers; `day` turns a stored value into the calendar
    day the queries compare (the `.date()` of a stored instant). */
module RestService {
  import opened Wrappers
  import opened RestDomain
  import InfoCollect

  const NoneHasNoChatId := "AttributeError: 'NoneType' object has no attribute 'chat_id'"
  const NoneHasNoTgId := "AttributeError: 'NoneType' object has no attribute 'tg_id'"

  /** The enum value a state is stored and filtered by. */
  function StateValue(s: RestState): (v: string)
    ensures v == "blocked" || v == "active"
  {
    match s
    case Blocked => "blocked"
    case Active => "active"
  }

  /** A row of the rests table: every column set. */
  predicate Stored(r: Rest)
  {
    r.chatMemberId.Some? && r.state.Some? && HasDates(r)
  }

  /** The conditions `list` applies besides the chat, all of them:
      the state is among `states` unless that is empty, the rest ends on or
      after `fromDate` and starts on or before `toDate` when they are given. */
  predicate ListKeeps(r: Rest, states: seq<string>, fromDate: Option<int>, toDate: Option<int>, day: int -> int)
    requires Stored(r)
  {
    (states == [] || StateValue(r.state.value) in states) &&
    (fromDate.None? || day(r.endsAt.value) >= fromDate.value) &&
    (toDate.None? || day(r.startsAt.value) <= toDate.value)
  }

  /** The repository's `get_by_chat_member_id` condition: the member and
      the states as in `list`, but the two date conditions joined by OR. */
  predicate RepoKeeps(r: Rest, memberId: int, states: seq<string>, fromDate: Option<int>, toDate: Option<int>, day: int -> int)
    requires Stored(r)
  {
    r.chatMemberId.value == memberId &&
    (states == [] || StateValue(r.state.value) in states) &&
    ((fromDate.None? && toDate.None?) ||
     (fromDate.Some? && day(r.endsAt.value) >= fromDate.value) ||
     (toDate.Some? && day(r.startsAt.value) <= toDate.value))
  }

  /** The Telegram id of the chat a member belongs to, or the error of
      dereferencing a missing member or chat. */
  function ChatTgIdOf(members: seq<InfoCollect.ChatMember>, chats: seq<InfoCollect.Chat>, memberId: int): (r: Result<int, string>)
  {
    match InfoCollect.MemberIndexById(members, memberId)
    case None => Err(NoneHasNoChatId)
    case Some(i) =>
      match ChatById(chats, members[i].chatId)
      case None => Err(NoneHasNoTgId)
      case Some(c) => Ok(c.tgId)
  }

  function ChatById(chats: seq<InfoCollect.Chat>, id: int): (r: Option<InfoCollect.Chat>)
    ensures r.Some? ==> r.value in chats && r.value.id == id
  {
    if chats == [] then None
    else if chats[|chats| - 1].id == id then Some(chats[|chats| - 1])
    else ChatById(chats[..|chats| - 1], id)
  }

  /** What one row contributes to `list`: itself when its chat and every
      condition match, nothing when they do not, and the error of a missing
      member or chat. */
  function RowListed(x: Rest, members: seq<InfoCollect.ChatMember>, chats: seq<InfoCollect.Chat>,
                     chatTgId: int, states: seq<string>, fromDate: Option<int>, toDate: Option<int>,
                     day: int -> int): (r: Result<seq<Rest>, string>)
    requires Stored(x)
  {
    match ChatTgIdOf(members, chats, x.chatMemberId.value)
    case Err(e) => Err(e)
    case Ok(tg) => if tg == chatTgId && ListKeeps(x, states, fromDate, toDate, day) then Ok([x]) else Ok([])
  }

  /** Two listings one after the other: the first error, else both lists. */
  function Then(r: Result<seq<Rest>, string>, s: Result<seq<Rest>, string>): Result<seq<Rest>, string>
  {
    match r
    case Err(e) => Err(e)
    case Ok(k) =>
      match s
      case Err(e) => Err(e)
      case Ok(m) => Ok(k + m)
  }

  lemma ThenAssoc(r: Result<seq<Rest>, string>, s: Result<seq<Rest>, string>, t: Result<seq<Rest>, string>)
    ensures Then(Then(r, s), t) == Then(r, Then(s, t))
  {
    if r.Ok? && s.Ok? && t.Ok? {
      assert (r.value + s.value) + t.value == r.value + (s.value + t.value);
    }
  }

  /** `list` as a value: the rows in table order whose member's chat has
      Telegram id `chatTgId` and that meet `ListKeeps`; the first row whose
      member or chat is missing raises. */
  function ListRests(rows: seq<Rest>, members: seq<InfoCollect.ChatMember>, chats: seq<InfoCollect.Chat>,
                     chatTgId: int, states: seq<string>, fromDate: Option<int>, toDate: Option<int>,
                     day: int -> int): (r: Result<seq<Rest>, string>)
    requires forall k :: 0 <= k < |rows| ==> Stored(rows[k])
  {
    if rows == [] then Ok([])
    else
      var last := rows[|rows| - 1];
      assert Stored(last);
      Then(ListRests(rows[..|rows| - 1], members, chats, chatTgId, states, fromDate, toDate, day),
           RowListed(last, members, chats, chatTgId, states, fromDate, toDate, day))
  }

  /** A rest is listed exactly when its chat matches and every condition
      holds; the listing fails exactly when some row's member or chat is
      missing. */
  lemma {:induction false} ListRestsMeaning(rows: seq<Rest>, members: seq<InfoCollect.ChatMember>,
                                            chats: seq<InfoCollect.Chat>, chatTgId: int, states: seq<string>,
                                            fromDate: Option<int>, toDate: Option<int>, day: int -> int)
    requires forall k :: 0 <= k < |rows| ==> Stored(rows[k])
    ensures var r := ListRests(rows, members, chats, chatTgId, states, fromDate, toDate, day);
            (r.Err? <==> exists k :: 0 <= k < |rows| && ChatTgIdOf(members, chats, rows[k].chatMemberId.value).Err?) &&
            (r.Ok? ==> forall x :: x in r.value <==>
               x in rows && ChatTgIdOf(members, chats, x.chatMemberId.value) == Ok(chatTgId) &&
               ListKeeps(x, states, fromDate, toDate, day))
  {
    if rows != [] {
      var init := rows[..|rows| - 1];
      assert rows == init + [rows[|rows| - 1]];
      ListRestsMeaning(init, members, chats, chatTgId, states, fromDate, toDate, day);
    }
  }

  /** Listing a table split in two is listing each part in turn: the order
      of the table is kept, and the first error is the first part's if it
      has one. */
  lemma {:induction false} ListRestsAppend(a: seq<Rest>, b: seq<Rest>, members: seq<InfoCollect.ChatMember>,
                                           chats: seq<InfoCollect.Chat>, chatTgId: int, states: seq<string>,
                                           fromDate: Option<int>, toDate: Option<int>, day: int -> int)
    requires forall k :: 0 <= k < |a| ==> Stored(a[k])
    requires forall k :: 0 <= k < |b| ==> Stored(b[k])
    ensures forall k :: 0 <= k < |a + b| ==> Stored((a + b)[k])
    ensures ListRests(a + b, members, chats, chatTgId, states, fromDate, toDate, day) ==
              Then(ListRests(a, members, chats, chatTgId, states, fromDate, toDate, day),
                   ListRests(b, members, chats, chatTgId, states, fromDate, toDate, day))
    decreases |b|
  {
    if b == [] {
      assert a + b == a;
      var A := ListRests(a, members, chats, chatTgId, states, fromDate, toDate, day);
      assert A.Ok? ==> A.value + [] == A.value;
    } else {
      var b0, x := b[..|b| - 1], b[|b| - 1];
      assert (a + b)[..|a + b| - 1] == a + b0;
      assert (a + b)[|a + b| - 1] == x;
      ListRestsAppend(a, b0, members, chats, chatTgId, states, fromDate, toDate, day);
      ThenAssoc(ListRests(a, members, chats, chatTgId, states, fromDate, toDate, day),
                ListRests(b0, members, chats, chatTgId, states, fromDate, toDate, day),
                RowListed(x, members, chats, chatTgId, states, fromDate, toDate, day));
    }
  }

  /** With both dates given the repository filter keeps a rest that `list`
      drops: one that ends before `fromDate` but starts before `toDate`. */
  lemma RepoFilterIsWeaker(day: int -> int)
    requires forall d :: day(d) == d
    ensures var r := Rest(Some(1), Some(Active), Some(10), Some(12), false);
            RepoKeeps(r, 1, [], Some(20), Some(30), day) && !ListKeeps(r, [], Some(20), Some(30), day)
  {
  }

  /** With at most one date given, the two filters agree on the rests of
      a member. */
  lemma FiltersAgreeOnOneDate(r: Rest, states: seq<string>, fromDate: Option<int>, toDate: Option<int>, day: int -> int)
    requires Stored(r) && (fromDate.None? || toDate.None?)
    ensures RepoKeeps(r, r.chatMemberId.value, states, fromDate, toDate, day) <==> ListKeeps(r, states, fromDate, toDate, day)
  {
  }

  /** The repository query, in table order. */
  function RepoFilter(rows: seq<Rest>, memberId: int, states: seq<string>, fromDate: Option<int>,
                      toDate: Option<int>, day: int -> int): (r: seq<Rest>)
    requires forall k :: 0 <= k < |rows| ==> Stored(rows[k])
    ensures forall k :: 0 <= k < |r| ==> Stored(r[k])
    ensures forall x :: x in r <==> x in rows && RepoKeeps(x, memberId, states, fromDate, toDate, day)
  {
    if rows == [] then []
    else
      var init := RepoFilter(rows[..|rows| - 1], memberId, states, fromDate, toDate, day);
      assert rows == rows[..|rows| - 1] + [rows[|rows| - 1]];
      if RepoKeeps(rows[|rows| - 1], memberId, states, fromDate, toDate, day) then init + [rows[|rows| - 1]]
      else init
  }

  class RestsService {
    const members: InfoCollect.ChatMemberService
    var rows: seq<Rest>

    ghost predicate Valid()
      reads this
    {
      forall k :: 0 <= k < |rows| ==> Stored(rows[k])
    }

    constructor (members: InfoCollect.ChatMemberService)
      ensures this.members == members && rows == [] && Valid()
    {
      this.members := members;
      rows := [];
    }

    /** `get_by_tg_ids`: None rather than an empty list for an unknown
      member, else the repository query for the member. */
    method GetByTgIds(userTgId: int, chatTgId: int, states: seq<string>, fromDate: Option<int>,
                      toDate: Option<int>, day: int -> int) returns (r: Option<seq<Rest>>)
      requires Valid()
      ensures var i := InfoCollect.MemberByTgIds(members.users.rows, members.chats.rows, members.rows, userTgId, chatTgId);
              (i.None? ==> r.None?) &&
              (i.Some? ==> r == Some(RepoFilter(rows, members.rows[i.value].id, states, fromDate, toDate, day)))
    {
      var member := members.GetByUserAndChatTgIds(userTgId, chatTgId);
      if member.None? {
        return None;
      }
      r := Some(RepoFilter(rows, member.value.id, states, fromDate, toDate, day));
    }

    method List(chatTgId: int, states: seq<string>, fromDate: Option<int>, toDate: Option<int>,
                day: int -> int) returns (r: Result<seq<Rest>, string>)
      requires Valid()
      ensures r == ListRests(rows, members.rows, members.chats.rows, chatTgId, states, fromDate, toDate, day)
    {
      var result := [];
      for i := 0 to |rows|
        invariant ListRests(rows[..i], members.rows, members.chats.rows, chatTgId, states, fromDate, toDate, day) == Ok(result)
      {
        var rest := rows[i];
        var tg := ChatTgIdOf(members.rows, members.chats.rows, rest.chatMemberId.value);
        ListStep(rows, members.rows, members.chats.rows, chatTgId, states, fromDate, toDate, day, i);
        if tg.Err? {
          ListPrefixErr(rows, members.rows, members.chats.rows, chatTgId, states, fromDate, toDate, day, i + 1);
          return Err(tg.error);
        }
        if tg.value != chatTgId {
          continue;
        }
        if states != [] && StateValue(rest.state.value) !in states {
          continue;
        }
        if fromDate.Some? && day(rest.endsAt.value) < fromDate.value {
          continue;
        }
        if toDate.Some? && day(rest.startsAt.value) > toDate.value {
          continue;
        }
        result := result + [rest];
      }
      assert rows[..|rows|] == rows;
      r := Ok(result);
    }

    /** `put`: nothing is written for an unknown member; otherwise exactly
        one rest with the given fields is added. */
    method Put(userTgId: int, chatTgId: int, state: RestState, startsAt: int, endsAt: int, revoked: bool)
      returns (r: Option<Rest>)
      requires Valid()
      modifies this
      ensures var i := InfoCollect.MemberByTgIds(members.users.rows, members.chats.rows, members.rows, userTgId, chatTgId);
              (i.None? ==> r.None? && rows == old(rows)) &&
              (i.Some? ==> r == Some(Rest(Some(members.rows[i.value].id), Some(state), Some(startsAt), Some(endsAt), revoked)) &&
                           rows == old(rows) + [r.value])
      ensures Valid()
    {
      var member := members.GetByUserAndChatTgIds(userTgId, chatTgId);
      if member.None? {
        return None;
      }
      var rest := Rest(Some(member.value.id), Some(state), Some(startsAt), Some(endsAt), revoked);
      rows := rows + [rest];
      r := Some(rest);
    }
  }

  /** One more row of the table: listing fails with the row's error, or
      keeps the row exactly when its chat and the conditions match. */
  lemma ListStep(rows: seq<Rest>, members: seq<InfoCollect.ChatMember>,
                 chats: seq<InfoCollect.Chat>, chatTgId: int, states: seq<string>,
                 fromDate: Option<int>, toDate: Option<int>, day: int -> int, i: nat)
    requires forall k :: 0 <= k < |rows| ==> Stored(rows[k])
    requires i < |rows| && ListRests(rows[..i], members, chats, chatTgId, states, fromDate, toDate, day).Ok?
    ensures Stored(rows[i])
    ensures var kept := ListRests(rows[..i], members, chats, chatTgId, states, fromDate, toDate, day).value;
            var tg := ChatTgIdOf(members, chats, rows[i].chatMemberId.value);
            ListRests(rows[..i + 1], members, chats, chatTgId, states, fromDate, toDate, day) ==
              if tg.Err? then Err(tg.error)
              else if tg.value == chatTgId && ListKeeps(rows[i], states, fromDate, toDate, day) then Ok(kept + [rows[i]])
              else Ok(kept)
  {
    assert rows[..i + 1][..i] == rows[..i];
    var kept := ListRests(rows[..i], members, chats, chatTgId, states, fromDate, toDate, day).value;
    assert kept + [] == kept;
  }

  /** An error in a prefix of the table is the error of the whole listing. */
  lemma {:induction false} ListPrefixErr(rows: seq<Rest>, members: seq<InfoCollect.ChatMember>,
                                         chats: seq<InfoCollect.Chat>, chatTgId: int, states: seq<string>,
                                         fromDate: Option<int>, toDate: Option<int>, day: int -> int, n: nat)
    requires forall k :: 0 <= k < |rows| ==> Stored(rows[k])
    requires n <= |rows| && ListRests(rows[..n], members, chats, chatTgId, states, fromDate, toDate, day).Err?
    ensures ListRests(rows, members, chats, chatTgId, states, fromDate, toDate, day) ==
              ListRests(rows[..n], members, chats, chatTgId, states, fromDate, toDate, day)
    decreases |rows| - n
  {
    if n < |rows| {
      assert rows[..n + 1][..n] == rows[..n];
      ListPrefixErr(rows, members, chats, chatTgId, states, fromDate, toDate, day, n + 1);
      assert rows[..|rows|] == rows;
    } else {
      assert rows[..n] == rows;
    }
  }
}
