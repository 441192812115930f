/** Mapping a Telegram chat to the internal chat type. */
module ChatMapper {
  /** The parts of a Telegram chat the mapper reads. */
  datatype Chat = Chat(isForum: bool, kind: string)

  /** The Telegram types that map to themselves. */
  predicate KeptType(kind: string)
  {
    kind in {"private", "group", "supergroup", "channel"}
  }

  /** `to_internal_type`: a forum wins over the type; the four kept types
      map to themselves; anything else is "other". */
  function ToInternalType(chat: Chat): (r: string)
    ensures chat.isForum ==> r == "forum"
    ensures !chat.isForum && KeptType(chat.kind) ==> r == chat.kind
    ensures !chat.isForum && !KeptType(chat.kind) ==> r == "other"
  {
    if chat.isForum then "forum"
    else if KeptType(chat.kind) then chat.kind
    else "other"
  }

  /** The values of the stored chat-type enumeration; the channel member is
      spelled "chanel" there. */
  const EnumValues: set<string> := {"private", "group", "supergroup", "forum", "chanel", "other"}

  /** The mapper's output is always one of six strings, and a channel maps
      to "channel", which is not a value of the enumeration. */
  lemma OutputRange(chat: Chat)
    ensures ToInternalType(chat) in {"private", "group", "supergroup", "channel", "forum", "other"}
    ensures ToInternalType(chat) in EnumValues <==> ToInternalType(chat) != "channel"
  {
  }

  lemma ChannelNotInEnum()
    ensures ToInternalType(Chat(false, "channel")) !in EnumValues
  {
  }
}

/** The chat-member classifiers. Each returns `True`, `False` or, falling
    off its end, `None`; `None` is falsy. */
module MemberRights {
  import opened Wrappers

  /** The concrete chat-member classes Telegram reports. */
  datatype Member =
    | Owner
    | Administrator(canPromoteMembers: bool)
    | Plain
    | Restricted
    | Left
    | Banned

  /** A Python value returned by a classifier: `Some(b)` is a bool,
      `None` is `None`. */
  type PyBool = Option<bool>

  predicate Truthy(v: PyBool)
  {
    v == Some(true)
  }

  function IsBanned(m: Member): (r: PyBool)
    ensures r == Some(true) <==> m.Banned?
    ensures r != Some(false)
  {
    if m.Banned? then Some(true) else None
  }

  function IsRestricted(m: Member): (r: PyBool)
    ensures r == Some(true) <==> m.Restricted?
    ensures r != Some(false)
  {
    if m.Restricted? then Some(true) else None
  }

  /** `is_admin` is `True` for administrators and the owner and `None`
      (never `False`) for everyone else. */
  function IsAdmin(m: Member): (r: PyBool)
    ensures r == Some(true) <==> m.Administrator? || m.Owner?
    ensures r != Some(false)
  {
    if m.Administrator? || m.Owner? then Some(true) else None
  }

  function IsOwner(m: Member): (r: PyBool)
    ensures r == Some(true) <==> m.Owner?
    ensures r != Some(false)
  {
    if m.Owner? then Some(true) else None
  }

  /** `is_super_admin_rights` always returns a bool. */
  function IsSuperAdmin(m: Member): (r: PyBool)
    ensures r.Some?
  {
    match m
    case Administrator(canPromote) => Some(canPromote)
    case Owner => Some(true)
    case _ => Some(false)
  }

  /** The owner is a super-admin; an administrator is one exactly when it
      may promote members; nobody else is. */
  lemma SuperAdminCases(m: Member)
    ensures m.Owner? ==> Truthy(IsSuperAdmin(m))
    ensures m.Administrator? ==> (Truthy(IsSuperAdmin(m)) <==> m.canPromoteMembers)
    ensures !m.Owner? && !m.Administrator? ==> IsSuperAdmin(m) == Some(false)
  {
  }

  /** Every super-admin is an admin, and the owner is both. */
  lemma SuperAdminIsAdmin(m: Member)
    ensures Truthy(IsSuperAdmin(m)) ==> Truthy(IsAdmin(m))
    ensures Truthy(IsOwner(m)) ==> Truthy(IsAdmin(m)) && Truthy(IsSuperAdmin(m))
  {
  }

  /** The banned and restricted classifiers never both hold, and neither
      holds for an admin. */
  lemma StatusesExclusive(m: Member)
    ensures !(Truthy(IsBanned(m)) && Truthy(IsRestricted(m)))
    ensures Truthy(IsAdmin(m)) ==> !Truthy(IsBanned(m)) && !Truthy(IsRestricted(m))
  {
  }
}

/** HTML links to users. */
module UserLink {
  import opened Wrappers
  import PyStr

  /** `<a href='HREF'>TEXT</a>`. */
  function Anchor(href: string, text: string): string
  {
    "<a href='" + href + "'>" + text + "</a>"
  }

  /** The link that notifies the user, showing `callSign` as its text. */
  function NotificationLink(userId: int, callSign: string): (r: string)
    ensures r == Anchor("tg://tg?id=" + PyStr.IntToString(userId), callSign)
  {
    "<a href='tg://tg?id=" + PyStr.IntToString(userId) + "'>" + callSign + "</a>"
  }

  /** What the chat-member lookup yields: the user's full name and username. */
  datatype UserInfo = UserInfo(fullName: string, username: Option<string>)

  /** The href used without a username; it begins with a stray backtick. */
  function OpenMessageHref(userId: int): string
  {
    "`tg://openmessage?id=" + PyStr.IntToString(userId)
  }

  /** `get_user_link`, with the lookup's result as a parameter (`None` when
      it raised). An empty username counts as none. */
  function GetUserLink(userId: int, lookup: Option<UserInfo>): (r: string)
    ensures lookup.Some? && lookup.value.username.Some? && lookup.value.username.value != "" ==>
              r == Anchor("https://t.me/" + lookup.value.username.value, lookup.value.fullName)
    ensures lookup.Some? && (lookup.value.username.None? || lookup.value.username.value == "") ==>
              r == Anchor(OpenMessageHref(userId), lookup.value.fullName)
    ensures lookup.None? ==> r == Anchor(OpenMessageHref(userId), PyStr.IntToString(userId))
  {
    match lookup
    case None => Anchor(OpenMessageHref(userId), PyStr.IntToString(userId))
    case Some(u) =>
      if u.username.Some? && u.username.value != "" then Anchor("https://t.me/" + u.username.value, u.fullName)
      else Anchor(OpenMessageHref(userId), u.fullName)
  }

  /** Reads an anchor back into its href and text. */
  function ParseAnchor(s: string): (r: Option<(string, string)>)
  {
    var open := "<a href='";
    if |s| < |open| + 6 || s[..|open|] != open || s[|s| - 4..] != "</a>" then None
    else
      var body := s[|open|..|s| - 4];
      match QuoteIndex(body)
      case None => None
      case Some(i) =>
        if i + 1 < |body| && body[i + 1] == '>' then Some((body[..i], body[i + 2..])) else None
  }

  /** The index of the first `'` in `s`. */
  function QuoteIndex(s: string): (r: Option<nat>)
    ensures r.None? <==> '\'' !in s
    ensures r.Some? ==> r.value < |s| && s[r.value] == '\'' && '\'' !in s[..r.value]
  {
    if s == [] then None
    else if s[0] == '\'' then Some(0)
    else match QuoteIndex(s[1..])
      case None => None
      case Some(i) =>
        assert s[..i + 1] == [s[0]] + s[1..][..i];
        Some(i + 1)
  }

  lemma {:induction false} QuoteIndexOf(a: string, b: string)
    requires '\'' !in a
    ensures QuoteIndex(a + ['\''] + b) == Some(|a|)
  {
    if a != [] {
      assert (a + ['\''] + b)[1..] == a[1..] + ['\''] + b;
      QuoteIndexOf(a[1..], b);
    }
  }

  /** An href without a quote reads back from its anchor, text included. */
  lemma AnchorRoundTrip(href: string, text: string)
    requires '\'' !in href
    ensures ParseAnchor(Anchor(href, text)) == Some((href, text))
  {
    var s := Anchor(href, text);
    assert s[..9] == "<a href='";
    assert s[|s| - 4..] == "</a>";
    var body := s[9..|s| - 4];
    assert body == href + ['\''] + (">" + text);
    QuoteIndexOf(href, ">" + text);
    assert body[|href| + 1] == '>';
    assert body[..|href|] == href;
    assert body[|href| + 2..] == text;
  }

  lemma {:induction false} DigitsHaveNoQuote(n: nat)
    ensures '\'' !in PyStr.NatToString(n)
    decreases n
  {
    if n >= 10 {
      DigitsHaveNoQuote(n / 10);
    }
  }

  /** The user link points at the user's t.me page when a non-empty
      username is known, and at the open-message URL otherwise. It shows the
      full name when the lookup succeeded, and the numeric id when it
      raised. A username holding a quote would cut the href short, so the
      round trip is stated for usernames without one. */
  lemma GetUserLinkParts(userId: int, lookup: Option<UserInfo>)
    requires lookup.Some? && lookup.value.username.Some? ==> '\'' !in lookup.value.username.value
    ensures var named := lookup.Some? && lookup.value.username.Some? && lookup.value.username.value != "";
            var href := if named then "https://t.me/" + lookup.value.username.value else OpenMessageHref(userId);
            var text := if lookup.Some? then lookup.value.fullName else PyStr.IntToString(userId);
            ParseAnchor(GetUserLink(userId, lookup)) == Some((href, text))
  {
    if userId < 0 { DigitsHaveNoQuote(-userId); } else { DigitsHaveNoQuote(userId); }
    var open := OpenMessageHref(userId);
    assert open == "`tg://openmessage?id=" + PyStr.IntToString(userId);
    assert '\'' !in open;
    if lookup.Some? && lookup.value.username.Some? && lookup.value.username.value != "" {
      var href := "https://t.me/" + lookup.value.username.value;
      assert '\'' !in href;
      AnchorRoundTrip(href, lookup.value.fullName);
    } else if lookup.Some? {
      AnchorRoundTrip(open, lookup.value.fullName);
    } else {
      AnchorRoundTrip(open, PyStr.IntToString(userId));
    }
  }

  /** The notification link points at the user's id and shows the call sign. */
  lemma NotificationLinkParts(userId: int, callSign: string)
    ensures ParseAnchor(NotificationLink(userId, callSign)) ==
            Some(("tg://tg?id=" + PyStr.IntToString(userId), callSign))
  {
    if userId < 0 { DigitsHaveNoQuote(-userId); } else { DigitsHaveNoQuote(userId); }
    var href := "tg://tg?id=" + PyStr.IntToString(userId);
    assert href == "tg://tg?id=" + PyStr.IntToString(userId);
    assert '\'' !in href;
    AnchorRoundTrip(href, callSign);
  }
}
