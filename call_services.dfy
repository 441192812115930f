/** The call plugin's two tables and the services over them: members who
    opted out of calls ("unreg", keyed by chat-member id) and chats where
    calls are enabled (keyed by chat id). Both tables have an identity
    primary key starting at 1 and one foreign-key column, so they share one
    model: `Row(id, key)`. */
module CallServices {
  import opened Wrappers

  datatype Row = Row(id: nat, key: int)

  /** A table: its rows in insertion order and the next identity value. */
  datatype Table = Table(rows: seq<Row>, nextId: nat)

  /** Identities are positive, below `nextId` and distinct; the services
      keep at most one row per key. */
  ghost predicate Valid(t: Table)
  {
    t.nextId >= 1 &&
    (forall i :: 0 <= i < |t.rows| ==> 1 <= t.rows[i].id < t.nextId) &&
    Distinct(t.rows)
  }

  function EmptyTable(): (t: Table)
    ensures t.rows == [] && t.nextId == 1
  {
    Table([], 1)
  }

  /** The row with primary key `id`, if any (`repo.get`). */
  function FindById(rows: seq<Row>, id: int): (r: Option<Row>)
    ensures r.Some? <==> exists i :: 0 <= i < |rows| && rows[i].id == id
    ensures r.Some? ==> r.value in rows && r.value.id == id
  {
    if rows == [] then None
    else if rows[0].id == id then Some(rows[0])
    else FindById(rows[1..], id)
  }

  /** The row whose key column equals `key`, if any. */
  function FindByKey(rows: seq<Row>, key: int): (r: Option<Row>)
    ensures r.Some? <==> exists i :: 0 <= i < |rows| && rows[i].key == key
    ensures r.Some? ==> r.value in rows && r.value.key == key
  {
    if rows == [] then None
    else if rows[0].key == key then Some(rows[0])
    else FindByKey(rows[1..], key)
  }

  /** `add(key)`: get-or-create on the key column. An existing row is
      returned and nothing is inserted; otherwise one row with the next
      identity is appended. */
  function GetOrCreate(t: Table, key: int): (r: (Table, Row))
    ensures r.1.key == key && r.1 in r.0.rows
    ensures FindByKey(t.rows, key).Some? ==> r.0 == t && r.1 == FindByKey(t.rows, key).value
    ensures FindByKey(t.rows, key).None? ==>
              r.0.rows == t.rows + [Row(t.nextId, key)] && r.0.nextId == t.nextId + 1
  {
    match FindByKey(t.rows, key)
    case Some(row) => (t, row)
    case None => (Table(t.rows + [Row(t.nextId, key)], t.nextId + 1), Row(t.nextId, key))
  }

  lemma GetOrCreateKeepsValid(t: Table, key: int)
    requires Valid(t)
    ensures Valid(GetOrCreate(t, key).0)
  {
  }

  /** Adding the same key twice is adding it once. */
  lemma GetOrCreateIdempotent(t: Table, key: int)
    ensures GetOrCreate(GetOrCreate(t, key).0, key) == GetOrCreate(t, key)
  {
    var (t1, row) := GetOrCreate(t, key);
    if FindByKey(t.rows, key).None? {
      FindByKeyAppend(t.rows, key, t.nextId);
    }
  }

  lemma {:induction false} FindByKeyAppend(rows: seq<Row>, key: int, id: nat)
    requires FindByKey(rows, key).None?
    ensures FindByKey(rows + [Row(id, key)], key) == Some(Row(id, key))
  {
    if rows != [] {
      assert (rows + [Row(id, key)])[1..] == rows[1..] + [Row(id, key)];
      FindByKeyAppend(rows[1..], key, id);
    } else {
      assert rows + [Row(id, key)] == [Row(id, key)];
    }
  }

  /** The rows other than `row`, in order. */
  function Without(rows: seq<Row>, row: Row): (r: seq<Row>)
    ensures forall x :: x in r <==> x in rows && x != row
    ensures |r| <= |rows|
  {
    if rows == [] then []
    else if rows[0] == row then Without(rows[1..], row)
    else [rows[0]] + Without(rows[1..], row)
  }

  /** No two rows share an identity or a key. */
  ghost predicate Distinct(rows: seq<Row>)
  {
    forall i, j :: 0 <= i < j < |rows| ==> rows[i].id != rows[j].id && rows[i].key != rows[j].key
  }

  lemma {:induction false} WithoutKeepsDistinct(rows: seq<Row>, row: Row)
    requires Distinct(rows)
    ensures Distinct(Without(rows, row))
  {
    if rows != [] {
      assert Distinct(rows[1..]);
      WithoutKeepsDistinct(rows[1..], row);
      if rows[0] != row {
        var w := Without(rows, row);
        var w1 := Without(rows[1..], row);
        assert w == [rows[0]] + w1;
        forall i, j | 0 <= i < j < |w|
          ensures w[i].id != w[j].id && w[i].key != w[j].key
        {
          if i == 0 {
            assert w[j] in rows[1..];
            var b :| 0 <= b < |rows[1..]| && rows[1..][b] == w[j];
            assert w[j] == rows[b + 1];
          } else {
            assert w[i] == w1[i - 1] && w[j] == w1[j - 1];
          }
        }
      }
    }
  }

  /** `delete(obj)`: removes exactly that row. Deleting an object that is
      not stored raises. */
  function DeleteRow(t: Table, row: Row): (r: Result<Table, string>)
    ensures r.Ok? <==> row in t.rows
    ensures r.Ok? ==> r.value.nextId == t.nextId
    ensures r.Ok? ==> forall x :: x in r.value.rows <==> x in t.rows && x != row
  {
    if row in t.rows then Ok(Table(Without(t.rows, row), t.nextId))
    else Err("InvalidRequestError: instance is not persisted")
  }

  lemma DeleteKeepsValid(t: Table, row: Row)
    requires Valid(t) && row in t.rows
    ensures Valid(DeleteRow(t, row).value)
  {
    WithoutKeepsDistinct(t.rows, row);
    var w := Without(t.rows, row);
    forall i | 0 <= i < |w|
      ensures 1 <= w[i].id < t.nextId
    {
      assert w[i] in t.rows;
    }
  }

  /** `remove(key)`: deletes the row with that key if there is one, and
      otherwise does nothing. */
  function RemoveByKey(t: Table, key: int): (r: Table)
    ensures FindByKey(t.rows, key).None? ==> r == t
    ensures FindByKey(t.rows, key).Some? ==> DeleteRow(t, FindByKey(t.rows, key).value) == Ok(r)
  {
    match FindByKey(t.rows, key)
    case None => t
    case Some(row) => DeleteRow(t, row).value
  }

  /** After `remove(key)` on a valid table no row has that key, and every
      other row is still there. */
  lemma RemoveDeletesKey(t: Table, key: int)
    requires Valid(t)
    ensures FindByKey(RemoveByKey(t, key).rows, key).None?
    ensures forall x :: x in t.rows && x.key != key ==> x in RemoveByKey(t, key).rows
  {
    var found := FindByKey(t.rows, key);
    if found.Some? {
      forall x | x in RemoveByKey(t, key).rows
        ensures x.key != key
      {
        var i :| 0 <= i < |t.rows| && t.rows[i] == x;
        var j :| 0 <= j < |t.rows| && t.rows[j] == found.value;
        assert i != j;
      }
    }
  }

  /** `check(id)`: whether a row has primary key `id`. */
  function Check(t: Table, id: int): (b: bool)
    ensures b <==> exists i :: 0 <= i < |t.rows| && t.rows[i].id == id
  {
    FindById(t.rows, id).Some?
  }

  /** The unreg `check` takes a chat-member id but looks it up as a primary
      key: an opted-out member whose row id differs reads as not opted out. */
  lemma CheckUsesPrimaryKey()
    ensures var t := GetOrCreate(EmptyTable(), 42).0;
            FindByKey(t.rows, 42).Some? && !Check(t, 42) && Check(t, 1)
  {
    var t := GetOrCreate(EmptyTable(), 42).0;
    assert t.rows == [Row(1, 42)];
  }

  const ExtraArgumentError :=
    "TypeError: CallPluginChatMemberUnregRepository.list_not_unreg_by_chat_ids() takes 2 positional arguments but 3 were given"

  /** `list_not_unreg_by_chat_ids` forwards a `statuses` argument the
      repository method does not take, so every call raises. */
  function ListNotUnregByChatIds(chatIds: seq<int>, statuses: seq<string>): (r: Result<seq<int>, string>)
    ensures r.Err?
  {
    Err(ExtraArgumentError)
  }

  /** The unreg service over its table. */
  class UnregService {
    var table: Table

    ghost predicate Inv()
      reads this
    {
      Valid(table)
    }

    constructor (table: Table)
      requires Valid(table)
      ensures this.table == table && Inv()
    {
      this.table := table;
    }

    method Check(id: int) returns (b: bool)
      ensures b <==> exists i :: 0 <= i < |table.rows| && table.rows[i].id == id
    {
      b := FindById(table.rows, id).Some?;
    }

    method GetByChatMemberId(chatMemberId: int) returns (r: Option<Row>)
      ensures r.Some? <==> exists i :: 0 <= i < |table.rows| && table.rows[i].key == chatMemberId
      ensures r.Some? ==> r.value in table.rows && r.value.key == chatMemberId
    {
      r := FindByKey(table.rows, chatMemberId);
    }

    method Add(chatMemberId: int) returns (r: Row)
      requires Inv()
      modifies this
      ensures (table, r) == GetOrCreate(old(table), chatMemberId) && Inv()
    {
      var found := FindByKey(table.rows, chatMemberId);
      if found.Some? {
        return found.value;
      }
      GetOrCreateKeepsValid(table, chatMemberId);
      r := Row(table.nextId, chatMemberId);
      table := Table(table.rows + [r], table.nextId + 1);
    }

    method Remove(chatMemberId: int)
      requires Inv()
      modifies this
      ensures table == RemoveByKey(old(table), chatMemberId) && Inv()
    {
      var found := FindByKey(table.rows, chatMemberId);
      if found.Some? {
        DeleteKeepsValid(table, found.value);
        table := DeleteRow(table, found.value).value;
      }
    }

    method Delete(row: Row) returns (o: Outcome<string>)
      requires Inv()
      modifies this
      ensures DeleteRow(old(table), row).Ok? ==> o == Pass && table == DeleteRow(old(table), row).value
      ensures DeleteRow(old(table), row).Err? ==> o == Fail(DeleteRow(old(table), row).error) && table == old(table)
      ensures Inv()
    {
      var r := DeleteRow(table, row);
      if r.Err? {
        return Fail(r.error);
      }
      DeleteKeepsValid(table, row);
      table := r.value;
      o := Pass;
    }
  }

  /** The chat-enabled service over its table. */
  class EnabledService {
    var table: Table

    ghost predicate Inv()
      reads this
    {
      Valid(table)
    }

    constructor (table: Table)
      requires Valid(table)
      ensures this.table == table && Inv()
    {
      this.table := table;
    }

    method Check(id: int) returns (b: bool)
      ensures b <==> exists i :: 0 <= i < |table.rows| && table.rows[i].id == id
    {
      b := FindById(table.rows, id).Some?;
    }

    method GetByChatId(chatId: int) returns (r: Option<Row>)
      ensures r.Some? <==> exists i :: 0 <= i < |table.rows| && table.rows[i].key == chatId
      ensures r.Some? ==> r.value in table.rows && r.value.key == chatId
    {
      r := FindByKey(table.rows, chatId);
    }

    method Add(chatId: int) returns (r: Row)
      requires Inv()
      modifies this
      ensures (table, r) == GetOrCreate(old(table), chatId) && Inv()
    {
      var found := FindByKey(table.rows, chatId);
      if found.Some? {
        return found.value;
      }
      GetOrCreateKeepsValid(table, chatId);
      r := Row(table.nextId, chatId);
      table := Table(table.rows + [r], table.nextId + 1);
    }

    method Delete(row: Row) returns (o: Outcome<string>)
      requires Inv()
      modifies this
      ensures DeleteRow(old(table), row).Ok? ==> o == Pass && table == DeleteRow(old(table), row).value
      ensures DeleteRow(old(table), row).Err? ==> o == Fail(DeleteRow(old(table), row).error) && table == old(table)
      ensures Inv()
    {
      var r := DeleteRow(table, row);
      if r.Err? {
        return Fail(r.error);
      }
      DeleteKeepsValid(table, row);
      table := r.value;
      o := Pass;
    }
  }
}
