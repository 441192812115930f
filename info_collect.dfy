/** The services of the info-collect plugin over its tables: users and
    chats keyed by their Telegram ids, chat members keyed by (user, chat),
    roles keyed by name and permissions keyed by (category, name). Each
    table is its rows in insertion order; a row receives the next identity
    value (starting at 1) when it is added. */
module InfoCollect {
  import opened Wrappers

  const NoneHasNoId := "AttributeError: 'NoneType' object has no attribute 'id'"
  const NoneHasNoLevel := "AttributeError: 'NoneType' object has no attribute 'level'"
  const NoPermissionAdd := "AttributeError: 'ChatMemberPermissionRepository' object has no attribute 'add'"

  // ---------------------------------------------------------------- users

  datatype User = User(
    id: nat,
    tgId: int,
    username: Option<string>,
    firstName: Option<string>,
    lastName: Option<string>,
    isBot: bool,
    isSuperuser: bool)

  /** Where the user with Telegram id `tgId` sits in `rows`. */
  function UserIndex(rows: seq<User>, tgId: int): (r: Option<nat>)
    ensures r.Some? ==> r.value < |rows| && rows[r.value].tgId == tgId
    ensures r.None? ==> forall i :: 0 <= i < |rows| ==> rows[i].tgId != tgId
  {
    if rows == [] then None
    else if rows[|rows| - 1].tgId == tgId then Some(|rows| - 1)
    else UserIndex(rows[..|rows| - 1], tgId)
  }

  /** Telegram ids and identities are unique and identities are below
      `nextId`. */
  ghost predicate UsersValid(rows: seq<User>, nextId: nat)
  {
    (forall i :: 0 <= i < |rows| ==> rows[i].id < nextId) &&
    (forall i, j :: 0 <= i < j < |rows| ==> rows[i].tgId != rows[j].tgId && rows[i].id != rows[j].id)
  }

  /** `UserService.put`: update the user with this Telegram id in place,
      overwriting all five fields, or add a user with exactly these fields. */
  function UpsertUser(rows: seq<User>, nextId: nat, tgId: int, username: Option<string>,
                      firstName: Option<string>, lastName: Option<string>, isBot: bool,
                      isSuperuser: bool): (r: (seq<User>, nat, User))
  {
    match UserIndex(rows, tgId)
    case Some(i) =>
      var u := rows[i].(username := username, firstName := firstName, lastName := lastName,
                        isBot := isBot, isSuperuser := isSuperuser);
      (rows[i := u], nextId, u)
    case None =>
      var u := User(nextId, tgId, username, firstName, lastName, isBot, isSuperuser);
      (rows + [u], nextId + 1, u)
  }

  /** The returned user carries the arguments; a known Telegram id keeps
      its row, identity and position and no row is added; an unknown one
      appends exactly one row; no other row changes. */
  lemma UpsertUserEffect(rows: seq<User>, nextId: nat, tgId: int, username: Option<string>,
                         firstName: Option<string>, lastName: Option<string>, isBot: bool, isSuperuser: bool)
    ensures var (rows', nextId', u) := UpsertUser(rows, nextId, tgId, username, firstName, lastName, isBot, isSuperuser);
            u.tgId == tgId && u.username == username && u.firstName == firstName &&
            u.lastName == lastName && u.isBot == isBot && u.isSuperuser == isSuperuser &&
            (UserIndex(rows, tgId).Some? ==>
               |rows'| == |rows| && nextId' == nextId && rows'[UserIndex(rows, tgId).value] == u &&
               u.id == rows[UserIndex(rows, tgId).value].id &&
               forall k :: 0 <= k < |rows| && k != UserIndex(rows, tgId).value ==> rows'[k] == rows[k]) &&
            (UserIndex(rows, tgId).None? ==>
               rows' == rows + [u] && u.id == nextId && nextId' == nextId + 1)
  {
  }

  lemma UpsertUserKeepsValid(rows: seq<User>, nextId: nat, tgId: int, username: Option<string>,
                             firstName: Option<string>, lastName: Option<string>, isBot: bool, isSuperuser: bool)
    requires UsersValid(rows, nextId)
    ensures var (rows', nextId', _) := UpsertUser(rows, nextId, tgId, username, firstName, lastName, isBot, isSuperuser);
            UsersValid(rows', nextId')
  {
  }

  /** Repeating a put with the same arguments changes nothing more. */
  lemma UpsertUserIdempotent(rows: seq<User>, nextId: nat, tgId: int, username: Option<string>,
                             firstName: Option<string>, lastName: Option<string>, isBot: bool, isSuperuser: bool)
    requires UsersValid(rows, nextId)
    ensures var (rows1, next1, u1) := UpsertUser(rows, nextId, tgId, username, firstName, lastName, isBot, isSuperuser);
            UpsertUser(rows1, next1, tgId, username, firstName, lastName, isBot, isSuperuser) == (rows1, next1, u1)
  {
    var (rows1, next1, u1) := UpsertUser(rows, nextId, tgId, username, firstName, lastName, isBot, isSuperuser);
    UpsertUserKeepsValid(rows, nextId, tgId, username, firstName, lastName, isBot, isSuperuser);
    var i := UserIndex(rows1, tgId);
    var j := if UserIndex(rows, tgId).Some? then UserIndex(rows, tgId).value else |rows|;
    assert rows1[j] == u1 && rows1[j].tgId == tgId;
    assert i.Some? && i.value == j;
    assert rows1[i.value := u1] == rows1;
  }

  class UserService {
    var rows: seq<User>
    var nextId: nat

    ghost predicate Valid()
      reads this
    {
      UsersValid(rows, nextId)
    }

    constructor ()
      ensures rows == [] && nextId == 1 && Valid()
    {
      rows := [];
      nextId := 1;
    }

    /** `get_by_tg_id`. */
    method GetByTgId(tgId: int) returns (u: Option<User>)
      ensures u.Some? <==> exists i :: 0 <= i < |rows| && rows[i].tgId == tgId
      ensures u.Some? ==> u.value in rows && u.value.tgId == tgId
    {
      var i := UserIndex(rows, tgId);
      u := if i.Some? then Some(rows[i.value]) else None;
    }

    method Put(tgId: int, username: Option<string>, firstName: Option<string>, lastName: Option<string>,
               isBot: bool, isSuperuser: bool) returns (u: User)
      requires Valid()
      modifies this
      ensures (rows, nextId, u) == UpsertUser(old(rows), old(nextId), tgId, username, firstName, lastName, isBot, isSuperuser)
      ensures Valid()
    {
      UpsertUserKeepsValid(rows, nextId, tgId, username, firstName, lastName, isBot, isSuperuser);
      var i := UserIndex(rows, tgId);
      if i.Some? {
        u := rows[i.value].(username := username, firstName := firstName, lastName := lastName,
                            isBot := isBot, isSuperuser := isSuperuser);
        rows := rows[i.value := u];
        return;
      }
      u := User(nextId, tgId, username, firstName, lastName, isBot, isSuperuser);
      rows := rows + [u];
      nextId := nextId + 1;
    }
  }

  // ---------------------------------------------------------------- chats

  datatype Chat = Chat(id: nat, tgId: int, name: string, link: Option<string>, kind: string, activated: bool)

  function ChatIndex(rows: seq<Chat>, tgId: int): (r: Option<nat>)
    ensures r.Some? ==> r.value < |rows| && rows[r.value].tgId == tgId
    ensures r.None? ==> forall i :: 0 <= i < |rows| ==> rows[i].tgId != tgId
  {
    if rows == [] then None
    else if rows[|rows| - 1].tgId == tgId then Some(|rows| - 1)
    else ChatIndex(rows[..|rows| - 1], tgId)
  }

  ghost predicate ChatsValid(rows: seq<Chat>, nextId: nat)
  {
    (forall i :: 0 <= i < |rows| ==> rows[i].id < nextId) &&
    (forall i, j :: 0 <= i < j < |rows| ==> rows[i].tgId != rows[j].tgId && rows[i].id != rows[j].id)
  }

  /** `ChatService.put`: update the chat with this Telegram id in place,
      overwriting name, link, type and activation (link and activation take
      their defaults None and False when not passed), or add a chat. */
  function UpsertChat(rows: seq<Chat>, nextId: nat, tgId: int, name: string, kind: string,
                      link: Option<string>, activated: bool): (r: (seq<Chat>, nat, Chat))
  {
    match ChatIndex(rows, tgId)
    case Some(i) =>
      var c := rows[i].(name := name, link := link, kind := kind, activated := activated);
      (rows[i := c], nextId, c)
    case None =>
      var c := Chat(nextId, tgId, name, link, kind, activated);
      (rows + [c], nextId + 1, c)
  }

  /** The put never changes a chat's Telegram id: every row present before
      keeps its Telegram id and identity at its position, and at most one
      row is appended. */
  lemma UpsertChatKeepsTgIds(rows: seq<Chat>, nextId: nat, tgId: int, name: string, kind: string,
                             link: Option<string>, activated: bool)
    ensures var (rows', nextId', c) := UpsertChat(rows, nextId, tgId, name, kind, link, activated);
            c.tgId == tgId && c.name == name && c.link == link && c.kind == kind && c.activated == activated &&
            |rows| <= |rows'| <= |rows| + 1 &&
            (forall k :: 0 <= k < |rows| ==> rows'[k].tgId == rows[k].tgId && rows'[k].id == rows[k].id) &&
            (|rows'| == |rows| + 1 <==> ChatIndex(rows, tgId).None?)
  {
  }

  lemma UpsertChatKeepsValid(rows: seq<Chat>, nextId: nat, tgId: int, name: string, kind: string,
                             link: Option<string>, activated: bool)
    requires ChatsValid(rows, nextId)
    ensures var (rows', nextId', _) := UpsertChat(rows, nextId, tgId, name, kind, link, activated);
            ChatsValid(rows', nextId')
  {
  }

  lemma UpsertChatIdempotent(rows: seq<Chat>, nextId: nat, tgId: int, name: string, kind: string,
                             link: Option<string>, activated: bool)
    requires ChatsValid(rows, nextId)
    ensures var (rows1, next1, c1) := UpsertChat(rows, nextId, tgId, name, kind, link, activated);
            UpsertChat(rows1, next1, tgId, name, kind, link, activated) == (rows1, next1, c1)
  {
    var (rows1, next1, c1) := UpsertChat(rows, nextId, tgId, name, kind, link, activated);
    UpsertChatKeepsValid(rows, nextId, tgId, name, kind, link, activated);
    var i := ChatIndex(rows1, tgId);
    var j := if ChatIndex(rows, tgId).Some? then ChatIndex(rows, tgId).value else |rows|;
    assert rows1[j] == c1 && rows1[j].tgId == tgId;
    assert i.Some? && i.value == j;
    assert rows1[i.value := c1] == rows1;
  }

  class ChatService {
    var rows: seq<Chat>
    var nextId: nat

    ghost predicate Valid()
      reads this
    {
      ChatsValid(rows, nextId)
    }

    constructor ()
      ensures rows == [] && nextId == 1 && Valid()
    {
      rows := [];
      nextId := 1;
    }

    method GetByTgId(tgId: int) returns (c: Option<Chat>)
      ensures c.Some? <==> exists i :: 0 <= i < |rows| && rows[i].tgId == tgId
      ensures c.Some? ==> c.value in rows && c.value.tgId == tgId
    {
      var i := ChatIndex(rows, tgId);
      c := if i.Some? then Some(rows[i.value]) else None;
    }

    method Put(tgId: int, name: string, kind: string, link: Option<string>, activated: bool) returns (c: Chat)
      requires Valid()
      modifies this
      ensures (rows, nextId, c) == UpsertChat(old(rows), old(nextId), tgId, name, kind, link, activated)
      ensures Valid()
    {
      UpsertChatKeepsValid(rows, nextId, tgId, name, kind, link, activated);
      var i := ChatIndex(rows, tgId);
      if i.Some? {
        c := rows[i.value].(name := name, link := link, kind := kind, activated := activated);
        rows := rows[i.value := c];
        return;
      }
      c := Chat(nextId, tgId, name, link, kind, activated);
      rows := rows + [c];
      nextId := nextId + 1;
    }
  }

  // ----------------------------------------------------- roles, permissions

  datatype Role = Role(id: nat, name: string, level: int)

  datatype Permission = Permission(id: nat, category: string, name: string, level: int)

  /** The role with primary key `id`; a member whose role id is None has
      none. */
  function RoleById(roles: seq<Role>, id: Option<int>): (r: Option<Role>)
    ensures r.Some? ==> r.value in roles && id == Some(r.value.id)
    ensures r.None? ==> forall i :: 0 <= i < |roles| ==> id != Some(roles[i].id)
  {
    if roles == [] || id.None? then None
    else if roles[|roles| - 1].id == id.value then Some(roles[|roles| - 1])
    else RoleById(roles[..|roles| - 1], id)
  }

  function RoleByName(roles: seq<Role>, name: string): (r: Option<Role>)
    ensures r.Some? ==> r.value in roles && r.value.name == name
    ensures r.None? ==> forall i :: 0 <= i < |roles| ==> roles[i].name != name
  {
    if roles == [] then None
    else if roles[|roles| - 1].name == name then Some(roles[|roles| - 1])
    else RoleByName(roles[..|roles| - 1], name)
  }

  /** `ChatMemberRoleService.put`: get-or-create by name. */
  function PutRole(roles: seq<Role>, nextId: nat, name: string, level: int): (r: (seq<Role>, nat, Role))
  {
    match RoleByName(roles, name)
    case Some(role) => (roles, nextId, role)
    case None => (roles + [Role(nextId, name, level)], nextId + 1, Role(nextId, name, level))
  }

  /** An existing role is returned unchanged and `level` is ignored;
      otherwise exactly one role with the name and level is added. */
  lemma PutRoleGetOrCreate(roles: seq<Role>, nextId: nat, name: string, level: int)
    ensures var (roles', nextId', role) := PutRole(roles, nextId, name, level);
            role.name == name && role in roles' &&
            (RoleByName(roles, name).Some? ==> roles' == roles && nextId' == nextId && role in roles) &&
            (RoleByName(roles, name).None? ==> roles' == roles + [role] && role.level == level)
  {
  }

  function PermissionByName(perms: seq<Permission>, category: string, name: string): (r: Option<Permission>)
    ensures r.Some? ==> r.value in perms && r.value.category == category && r.value.name == name
    ensures r.None? ==> forall i :: 0 <= i < |perms| ==> perms[i].category != category || perms[i].name != name
  {
    if perms == [] then None
    else if perms[|perms| - 1].category == category && perms[|perms| - 1].name == name then Some(perms[|perms| - 1])
    else PermissionByName(perms[..|perms| - 1], category, name)
  }

  /** `ChatMemberPermissionService.put`: an existing permission is
      returned; creating one calls an `add` the repository does not have. */
  function PutPermission(perms: seq<Permission>, category: string, name: string, level: int): (r: Result<Permission, string>)
    ensures r.Ok? <==> PermissionByName(perms, category, name).Some?
    ensures r.Ok? ==> r.value in perms && r.value.category == category && r.value.name == name
    ensures r.Err? ==> r.error == NoPermissionAdd
  {
    match PermissionByName(perms, category, name)
    case Some(p) => Ok(p)
    case None => Err(NoPermissionAdd)
  }

  /** `is_allowed`: the role level reaches the permission's level; a
      missing permission is dereferenced and raises. */
  function IsAllowed(permission: Option<Permission>, roleLevel: int): (r: Result<bool, string>)
    ensures permission.None? <==> r.Err?
    ensures r.Ok? ==> (r.value <==> roleLevel >= permission.value.level)
  {
    if permission.None? then Err(NoneHasNoLevel) else Ok(roleLevel >= permission.value.level)
  }

  /** The permissions a role of `level` may use, in table order. */
  function UpTo(perms: seq<Permission>, level: int): (r: seq<Permission>)
    ensures |r| <= |perms|
    ensures forall p :: p in r <==> p in perms && p.level <= level
  {
    if perms == [] then []
    else
      var init := UpTo(perms[..|perms| - 1], level);
      assert perms == perms[..|perms| - 1] + [perms[|perms| - 1]];
      if perms[|perms| - 1].level <= level then init + [perms[|perms| - 1]] else init
  }

  /** Filtering commutes with concatenation, so the result keeps the
      table's order. */
  lemma {:induction false} UpToAppend(a: seq<Permission>, b: seq<Permission>, level: int)
    ensures UpTo(a + b, level) == UpTo(a, level) + UpTo(b, level)
    decreases |b|
  {
    if b == [] {
      assert a + b == a;
    } else {
      var b0 := b[..|b| - 1];
      assert (a + b)[..|a + b| - 1] == a + b0;
      assert (a + b)[|a + b| - 1] == b[|b| - 1];
      UpToAppend(a, b0, level);
    }
  }

  class RoleService {
    var rows: seq<Role>
    var nextId: nat

    constructor (rows: seq<Role>, nextId: nat)
      ensures this.rows == rows && this.nextId == nextId
    {
      this.rows := rows;
      this.nextId := nextId;
    }

    method Put(name: string, level: int) returns (role: Role)
      modifies this
      ensures (rows, nextId, role) == PutRole(old(rows), old(nextId), name, level)
    {
      var found := RoleByName(rows, name);
      if found.Some? {
        return found.value;
      }
      role := Role(nextId, name, level);
      rows := rows + [role];
      nextId := nextId + 1;
    }
  }

  class PermissionService {
    var rows: seq<Permission>

    constructor (rows: seq<Permission>)
      ensures this.rows == rows
    {
      this.rows := rows;
    }

    method Put(category: string, name: string, level: int) returns (r: Result<Permission, string>)
      ensures r == PutPermission(rows, category, name, level)
    {
      var found := PermissionByName(rows, category, name);
      if found.None? {
        return Err(NoPermissionAdd);
      }
      r := Ok(found.value);
    }
  }

  // -------------------------------------------------------------- members

  datatype MemberStatus = Banned | Left | Restricted | Pending | Member | Administrator | Owner

  datatype ChatMember = ChatMember(
    id: nat,
    userId: int,
    chatId: int,
    status: MemberStatus,
    roleId: Option<int>,
    title: Option<string>)

  function MemberIndexById(rows: seq<ChatMember>, id: int): (r: Option<nat>)
    ensures r.Some? ==> r.value < |rows| && rows[r.value].id == id
    ensures r.None? ==> forall i :: 0 <= i < |rows| ==> rows[i].id != id
  {
    if rows == [] then None
    else if rows[|rows| - 1].id == id then Some(|rows| - 1)
    else MemberIndexById(rows[..|rows| - 1], id)
  }

  function MemberIndex(rows: seq<ChatMember>, userId: int, chatId: int): (r: Option<nat>)
    ensures r.Some? ==> r.value < |rows| && rows[r.value].userId == userId && rows[r.value].chatId == chatId
    ensures r.None? ==> forall i :: 0 <= i < |rows| ==> rows[i].userId != userId || rows[i].chatId != chatId
  {
    if rows == [] then None
    else if rows[|rows| - 1].userId == userId && rows[|rows| - 1].chatId == chatId then Some(|rows| - 1)
    else MemberIndex(rows[..|rows| - 1], userId, chatId)
  }

  /** One member per (user, chat) pair; identities unique and below
      `nextId`. */
  ghost predicate MembersValid(rows: seq<ChatMember>, nextId: nat)
  {
    (forall i :: 0 <= i < |rows| ==> rows[i].id < nextId) &&
    (forall i, j :: 0 <= i < j < |rows| ==>
       rows[i].id != rows[j].id && (rows[i].userId != rows[j].userId || rows[i].chatId != rows[j].chatId))
  }

  /** `get_by_user_and_chat_tg_ids`: both the user and the chat must be
      known before the member is looked up by their identities. */
  function MemberByTgIds(users: seq<User>, chats: seq<Chat>, rows: seq<ChatMember>,
                         userTgId: int, chatTgId: int): (r: Option<nat>)
    ensures UserIndex(users, userTgId).None? || ChatIndex(chats, chatTgId).None? ==> r.None?
    ensures r.Some? ==> r.value < |rows|
  {
    var u := UserIndex(users, userTgId);
    var c := ChatIndex(chats, chatTgId);
    if u.None? || c.None? then None
    else MemberIndex(rows, users[u.value].id, chats[c.value].id)
  }

  /** `get_role`: the role of the member with this identity, if both exist. */
  function MemberRole(rows: seq<ChatMember>, roles: seq<Role>, memberId: int): (r: Option<Role>)
    ensures MemberIndexById(rows, memberId).None? ==> r.None?
    ensures r.Some? ==> r.value in roles
  {
    match MemberIndexById(rows, memberId)
    case None => None
    case Some(i) => RoleById(roles, rows[i].roleId)
  }

  /** The role id `put` stores: the given one, or for a known member
      called without one, its current role's id when that role exists and
      0 when it does not. */
  function ResolvedRoleId(rows: seq<ChatMember>, roles: seq<Role>, member: Option<nat>, roleId: Option<int>): (r: Option<int>)
    requires member.Some? ==> member.value < |rows|
  {
    if roleId.None? && member.Some? then
      match MemberRole(rows, roles, rows[member.value].id)
      case None => Some(0)
      case Some(role) => Some(role.id)
    else roleId
  }

  /** The `role_id` column's default: the role a member is inserted with
      when no role id is given. The ORM leaves a `None` out of the INSERT
      for a column that has a default, so the default is stored. */
  const RoleIdColumnDefault := 1

  /** The role id an inserted member row holds. */
  function InsertedRoleId(rid: Option<int>): Option<int>
  {
    if rid.None? then Some(RoleIdColumnDefault) else rid
  }

  /** `ChatMemberService.put`: a known member is updated in place (status,
      role id and title, the title even when None); otherwise a member is
      added for the user and chat, which raises when either is unknown. */
  function PutMember(users: seq<User>, chats: seq<Chat>, roles: seq<Role>, rows: seq<ChatMember>, nextId: nat,
                     userTgId: int, chatTgId: int, status: MemberStatus, roleId: Option<int>,
                     title: Option<string>): (r: Result<(seq<ChatMember>, nat, ChatMember), string>)
  {
    var member := MemberByTgIds(users, chats, rows, userTgId, chatTgId);
    var rid := ResolvedRoleId(rows, roles, member, roleId);
    if member.Some? then
      var m := rows[member.value].(status := status, roleId := rid, title := title);
      Ok((rows[member.value := m], nextId, m))
    else
      var u := UserIndex(users, userTgId);
      var c := ChatIndex(chats, chatTgId);
      if u.None? || c.None? then Err(NoneHasNoId)
      else
        var m := ChatMember(nextId, users[u.value].id, chats[c.value].id, status, InsertedRoleId(rid), title);
        Ok((rows + [m], nextId + 1, m))
  }

  /** A known member is overwritten in place and no row is added; without
      a role id it keeps its role's id when the role exists, else gets 0. */
  lemma PutMemberExisting(users: seq<User>, chats: seq<Chat>, roles: seq<Role>, rows: seq<ChatMember>, nextId: nat,
                          userTgId: int, chatTgId: int, status: MemberStatus, roleId: Option<int>, title: Option<string>)
    requires MembersValid(rows, nextId)
    requires MemberByTgIds(users, chats, rows, userTgId, chatTgId).Some?
    ensures var i := MemberByTgIds(users, chats, rows, userTgId, chatTgId).value;
            var r := PutMember(users, chats, roles, rows, nextId, userTgId, chatTgId, status, roleId, title);
            r.Ok? && |r.value.0| == |rows| && r.value.1 == nextId &&
            r.value.2 == r.value.0[i] && r.value.2.id == rows[i].id &&
            r.value.2.userId == rows[i].userId && r.value.2.chatId == rows[i].chatId &&
            r.value.2.status == status && r.value.2.title == title &&
            (roleId.Some? ==> r.value.2.roleId == roleId) &&
            (roleId.None? && RoleById(roles, rows[i].roleId).Some? ==> r.value.2.roleId == rows[i].roleId) &&
            (roleId.None? && RoleById(roles, rows[i].roleId).None? ==> r.value.2.roleId == Some(0)) &&
            forall k :: 0 <= k < |rows| && k != i ==> r.value.0[k] == rows[k]
  {
    var i := MemberByTgIds(users, chats, rows, userTgId, chatTgId).value;
    var j := MemberIndexById(rows, rows[i].id);
    assert j == Some(i);
  }

  /** A new member gets the user's and chat's identities and the role id
      as passed, or the column's default role 1 when none is given; an
      unknown user or chat raises. */
  lemma PutMemberNew(users: seq<User>, chats: seq<Chat>, roles: seq<Role>, rows: seq<ChatMember>, nextId: nat,
                     userTgId: int, chatTgId: int, status: MemberStatus, roleId: Option<int>, title: Option<string>)
    requires MemberByTgIds(users, chats, rows, userTgId, chatTgId).None?
    ensures var r := PutMember(users, chats, roles, rows, nextId, userTgId, chatTgId, status, roleId, title);
            (UserIndex(users, userTgId).None? || ChatIndex(chats, chatTgId).None? ==> r == Err(NoneHasNoId)) &&
            (UserIndex(users, userTgId).Some? && ChatIndex(chats, chatTgId).Some? ==>
               r.Ok? && r.value.0 == rows + [r.value.2] && r.value.1 == nextId + 1 &&
               r.value.2 == ChatMember(nextId, users[UserIndex(users, userTgId).value].id,
                                       chats[ChatIndex(chats, chatTgId).value].id, status,
                                       if roleId.Some? then roleId else Some(RoleIdColumnDefault), title))
  {
  }

  /** A member first seen without a role id, as the outer middleware puts
      everyone but the chat's creator, gets the default role, and putting
      it again without one keeps that role when it exists (0 otherwise). */
  lemma NewMemberKeepsDefaultRole(users: seq<User>, chats: seq<Chat>, roles: seq<Role>, rows: seq<ChatMember>,
                                  nextId: nat, userTgId: int, chatTgId: int,
                                  status: MemberStatus, title: Option<string>,
                                  status2: MemberStatus, title2: Option<string>)
    requires MemberByTgIds(users, chats, rows, userTgId, chatTgId).None?
    requires UserIndex(users, userTgId).Some? && ChatIndex(chats, chatTgId).Some?
    ensures var r1 := PutMember(users, chats, roles, rows, nextId, userTgId, chatTgId, status, None, title);
            r1.Ok? && r1.value.2.roleId == Some(RoleIdColumnDefault) &&
            MemberRole(r1.value.0, roles, r1.value.2.id) == RoleById(roles, Some(RoleIdColumnDefault)) &&
            var r2 := PutMember(users, chats, roles, r1.value.0, r1.value.1, userTgId, chatTgId, status2, None, title2);
            r2.Ok? && r2.value.0 == r1.value.0[|rows| := r2.value.2] &&
            r2.value.2.roleId == (if RoleById(roles, Some(RoleIdColumnDefault)).Some? then Some(RoleIdColumnDefault) else Some(0))
  {
    PutMemberNew(users, chats, roles, rows, nextId, userTgId, chatTgId, status, None, title);
    var r1 := PutMember(users, chats, roles, rows, nextId, userTgId, chatTgId, status, None, title);
    var rows1 := r1.value.0;
    var m := r1.value.2;
    assert rows1[|rows1| - 1] == m;
    assert MemberIndexById(rows1, m.id) == Some(|rows|);
    assert MemberIndex(rows1, m.userId, m.chatId) == Some(|rows|);
    assert MemberByTgIds(users, chats, rows1, userTgId, chatTgId) == Some(|rows|);
  }

  lemma PutMemberKeepsValid(users: seq<User>, chats: seq<Chat>, roles: seq<Role>, rows: seq<ChatMember>, nextId: nat,
                            userTgId: int, chatTgId: int, status: MemberStatus, roleId: Option<int>, title: Option<string>)
    requires MembersValid(rows, nextId)
    ensures var r := PutMember(users, chats, roles, rows, nextId, userTgId, chatTgId, status, roleId, title);
            r.Ok? ==> MembersValid(r.value.0, r.value.1)
  {
  }

  /** `set_role`: the member with this identity gets the role id. */
  function SetRole(rows: seq<ChatMember>, memberId: int, roleId: int): (r: (seq<ChatMember>, Option<ChatMember>))
    ensures MemberIndexById(rows, memberId).None? ==> r == (rows, None)
    ensures MemberIndexById(rows, memberId).Some? ==>
              var i := MemberIndexById(rows, memberId).value;
              r.1 == Some(rows[i].(roleId := Some(roleId))) && r.0 == rows[i := r.1.value]
  {
    match MemberIndexById(rows, memberId)
    case None => (rows, None)
    case Some(i) => (rows[i := rows[i].(roleId := Some(roleId))], Some(rows[i].(roleId := Some(roleId))))
  }

  /** `has_permission`: false without a role; with one, `is_allowed`,
      which raises when the permission does not exist. */
  function HasPermission(rows: seq<ChatMember>, roles: seq<Role>, perms: seq<Permission>,
                         memberId: int, category: string, name: string): (r: Result<bool, string>)
    ensures MemberRole(rows, roles, memberId).None? ==> r == Ok(false)
    ensures MemberRole(rows, roles, memberId).Some? && PermissionByName(perms, category, name).None? ==> r.Err?
    ensures MemberRole(rows, roles, memberId).Some? && PermissionByName(perms, category, name).Some? ==>
              r == Ok(MemberRole(rows, roles, memberId).value.level >= PermissionByName(perms, category, name).value.level)
  {
    var role := MemberRole(rows, roles, memberId);
    var permission := PermissionByName(perms, category, name);
    if role.None? then Ok(false) else IsAllowed(permission, role.value.level)
  }

  /** `list_permissions`: nothing without a role, else the permissions up
      to the role's level. */
  function ListPermissions(rows: seq<ChatMember>, roles: seq<Role>, perms: seq<Permission>, memberId: int): (r: seq<Permission>)
    ensures MemberRole(rows, roles, memberId).None? ==> r == []
    ensures MemberRole(rows, roles, memberId).Some? ==>
              forall p :: p in r <==> p in perms && p.level <= MemberRole(rows, roles, memberId).value.level
  {
    match MemberRole(rows, roles, memberId)
    case None => []
    case Some(role) => UpTo(perms, role.level)
  }

  /** A member may use exactly the listed permissions. */
  lemma ListedIffPermitted(rows: seq<ChatMember>, roles: seq<Role>, perms: seq<Permission>, memberId: int, p: Permission)
    requires p in perms && PermissionByName(perms, p.category, p.name) == Some(p)
    ensures p in ListPermissions(rows, roles, perms, memberId) <==>
              HasPermission(rows, roles, perms, memberId, p.category, p.name) == Ok(true)
  {
  }

  class ChatMemberService {
    const users: UserService
    const chats: ChatService
    const roles: RoleService
    const permissions: PermissionService
    var rows: seq<ChatMember>
    var nextId: nat

    ghost predicate Valid()
      reads this
    {
      MembersValid(rows, nextId)
    }

    constructor (users: UserService, chats: ChatService, roles: RoleService, permissions: PermissionService)
      ensures this.users == users && this.chats == chats && this.roles == roles && this.permissions == permissions
      ensures rows == [] && nextId == 1 && Valid()
    {
      this.users := users;
      this.chats := chats;
      this.roles := roles;
      this.permissions := permissions;
      rows := [];
      nextId := 1;
    }

    method GetByUserAndChatTgIds(userTgId: int, chatTgId: int) returns (m: Option<ChatMember>)
      ensures var i := MemberByTgIds(users.rows, chats.rows, rows, userTgId, chatTgId);
              m == if i.Some? then Some(rows[i.value]) else None
    {
      var u := UserIndex(users.rows, userTgId);
      var c := ChatIndex(chats.rows, chatTgId);
      if u.None? || c.None? {
        return None;
      }
      var i := MemberIndex(rows, users.rows[u.value].id, chats.rows[c.value].id);
      m := if i.Some? then Some(rows[i.value]) else None;
    }

    method GetRole(memberId: int) returns (role: Option<Role>)
      ensures role == MemberRole(rows, roles.rows, memberId)
    {
      var i := MemberIndexById(rows, memberId);
      if i.None? {
        return None;
      }
      role := RoleById(roles.rows, rows[i.value].roleId);
    }

    method Put(userTgId: int, chatTgId: int, status: MemberStatus, roleId: Option<int>, title: Option<string>)
      returns (r: Result<ChatMember, string>)
      requires Valid()
      modifies this
      ensures var spec := PutMember(users.rows, chats.rows, roles.rows, old(rows), old(nextId),
                                    userTgId, chatTgId, status, roleId, title);
              (spec.Err? ==> r == Err(spec.error) && rows == old(rows) && nextId == old(nextId)) &&
              (spec.Ok? ==> r == Ok(spec.value.2) && rows == spec.value.0 && nextId == spec.value.1)
      ensures Valid()
    {
      PutMemberKeepsValid(users.rows, chats.rows, roles.rows, rows, nextId, userTgId, chatTgId, status, roleId, title);
      var member := MemberByTgIds(users.rows, chats.rows, rows, userTgId, chatTgId);
      var rid := roleId;
      if rid.None? && member.Some? {
        var role := GetRole(rows[member.value].id);
        rid := if role.None? then Some(0) else Some(role.value.id);
      }
      if member.Some? {
        var m := rows[member.value].(status := status, roleId := rid, title := title);
        rows := rows[member.value := m];
        return Ok(m);
      }
      var u := UserIndex(users.rows, userTgId);
      var c := ChatIndex(chats.rows, chatTgId);
      if u.None? || c.None? {
        return Err(NoneHasNoId);
      }
      var m := ChatMember(nextId, users.rows[u.value].id, chats.rows[c.value].id, status, InsertedRoleId(rid), title);
      rows := rows + [m];
      nextId := nextId + 1;
      r := Ok(m);
    }

    method SetRoleOf(memberId: int, roleId: int) returns (m: Option<ChatMember>)
      modifies this
      ensures (rows, m) == SetRole(old(rows), memberId, roleId)
      ensures nextId == old(nextId)
    {
      var i := MemberIndexById(rows, memberId);
      if i.None? {
        return None;
      }
      var updated := rows[i.value].(roleId := Some(roleId));
      rows := rows[i.value := updated];
      m := Some(updated);
    }

    method HasPermissionOf(memberId: int, category: string, name: string) returns (r: Result<bool, string>)
      ensures r == HasPermission(rows, roles.rows, permissions.rows, memberId, category, name)
    {
      var role := GetRole(memberId);
      var permission := PermissionByName(permissions.rows, category, name);
      if role.None? {
        return Ok(false);
      }
      r := IsAllowed(permission, role.value.level);
    }

    method ListPermissionsOf(memberId: int) returns (r: seq<Permission>)
      ensures r == ListPermissions(rows, roles.rows, permissions.rows, memberId)
    {
      var role := GetRole(memberId);
      if role.None? {
        return [];
      }
      r := UpTo(permissions.rows, role.value.level);
    }
  }
}
