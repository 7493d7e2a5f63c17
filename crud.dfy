/**
 * The two user updates of the data-access layer: writing a dictionary of
 * attribute values onto a user found by primary key (only names that are
 * attributes of the user are set), and writing the current income of a user
 * found by Telegram id. The `users` table is a sequence of rows; a query's
 * `.first()` is the first matching row.
 */
module Crud {
  import opened Wrappers
  import opened Models

  /** The index of the first row whose column `key` holds `v`. */
  function FirstWhere(rows: seq<Record>, key: string, v: Value): (r: Option<nat>)
    ensures r.Some? ==> r.value < |rows| && key in rows[r.value] && rows[r.value][key] == v
    ensures r.Some? ==> forall j :: 0 <= j < r.value ==> !(key in rows[j] && rows[j][key] == v)
    ensures r.None? ==> forall j :: 0 <= j < |rows| ==> !(key in rows[j] && rows[j][key] == v)
    decreases |rows|
  {
    if |rows| == 0 then None
    else if key in rows[0] && rows[0][key] == v then Some(0)
    else
      match FirstWhere(rows[1..], key, v)
      case None => None
      case Some(j) => Some(j + 1)
  }

  /** `filter(User.id == userId).first()`. */
  function FindById(rows: seq<Record>, userId: int): Option<nat>
  {
    FirstWhere(rows, "id", Int(userId))
  }

  /** `filter(User.telegram_id == telegramId).first()`. */
  function FindByTelegramId(rows: seq<Record>, telegramId: int): Option<nat>
  {
    FirstWhere(rows, "telegram_id", Int(telegramId))
  }

  /**
   * The user after `setattr(user, k, v)` for every entry whose key is an
   * attribute of the user: no attribute is added or removed, named
   * attributes take the given value, all others keep theirs.
   */
  function SetAttributes(user: Record, data: map<string, Value>): (r: Record)
    ensures r.Keys == user.Keys
    ensures forall k :: k in user && k in data ==> r[k] == data[k]
    ensures forall k :: k in user && k !in data ==> r[k] == user[k]
  {
    map k | k in user :: if k in data then data[k] else user[k]
  }

  /** Entries that name no attribute of the user have no effect. */
  lemma SetAttributesIgnoresUnknown(user: Record, data: map<string, Value>, k: string, v: Value)
    requires k !in user
    ensures SetAttributes(user, data[k := v]) == SetAttributes(user, data)
  {
  }

  /** Writing the same dictionary twice is writing it once. */
  lemma SetAttributesIdempotent(user: Record, data: map<string, Value>)
    ensures SetAttributes(SetAttributes(user, data), data) == SetAttributes(user, data)
  {
  }

  /** A dictionary that names only context-factor columns, each with a Float. */
  predicate FactorValuesOnly(data: map<string, Value>)
  {
    forall k :: k in data ==> k in ContextFactorKeys && data[k].Real?
  }

  predicate AllUserRows(rows: seq<Record>)
  {
    forall i {:trigger IsUserRow(rows[i])} :: 0 <= i < |rows| ==> IsUserRow(rows[i])
  }

  /**
   * The row that `update_user_context_factors(db, user.id, ...)` writes for
   * the user that `get_user_by_telegram_id` finds: the first row with that
   * user's primary key, which is never after the user's own row.
   */
  function KeyedRowOf(rows: seq<Record>, telegramId: int): (r: Option<nat>)
    requires AllUserRows(rows)
    ensures r.Some? <==> FindByTelegramId(rows, telegramId).Some?
    ensures r.Some? ==> r.value <= FindByTelegramId(rows, telegramId).value
    ensures r.Some? ==>
      var u := rows[FindByTelegramId(rows, telegramId).value];
      "id" in rows[r.value] && "id" in u && rows[r.value]["id"] == u["id"]
  {
    match FindByTelegramId(rows, telegramId)
    case None => None
    case Some(j) =>
      assert IsUserRow(rows[j]) && "id" in UserColumns;
      FindById(rows, rows[j]["id"].i)
  }

  /** The found user's primary key is an integer, and looking it up finds the keyed row. */
  lemma KeyedRowFound(rows: seq<Record>, telegramId: int)
    requires AllUserRows(rows) && FindByTelegramId(rows, telegramId).Some?
    ensures var u := rows[FindByTelegramId(rows, telegramId).value];
      && "id" in u && u["id"].Int?
      && KeyedRowOf(rows, telegramId) == FindById(rows, u["id"].i)
  {
    assert IsUserRow(rows[FindByTelegramId(rows, telegramId).value]) && "id" in UserColumns;
  }

  /** Replacing one well-typed row by another keeps the table well typed. */
  lemma ReplaceRowKeepsTable(rows: seq<Record>, i: nat, r: Record)
    requires AllUserRows(rows) && i < |rows| && IsUserRow(r)
    ensures AllUserRows(rows[i := r])
  {
  }

  class UserTable {
    var rows: seq<Record>

    /** Every row is typed as the `users` schema says. */
    predicate Valid()
      reads this
    {
      AllUserRows(rows)
    }

    constructor (rows: seq<Record>)
      ensures this.rows == rows
    {
      this.rows := rows;
    }

    /** `update_user_context_factors`: set every listed attribute of the user with primary key `userId`. */
    method UpdateUserContextFactors(userId: int, factorsData: map<string, Value>) returns (user: Option<Record>)
      modifies this
      ensures FindById(old(rows), userId).None? ==> user.None? && rows == old(rows)
      ensures FindById(old(rows), userId).Some? ==>
        var i := FindById(old(rows), userId).value;
        && rows == old(rows)[i := SetAttributes(old(rows)[i], factorsData)]
        && user == Some(rows[i])
      ensures old(Valid()) && FactorValuesOnly(factorsData) ==> Valid()
    {
      var found := FindById(rows, userId);
      if found.None? {
        return None;
      }
      var i := found.value;
      var original := rows[i];
      var current := original;
      var pending := factorsData.Keys;
      while pending != {}
        invariant pending <= factorsData.Keys
        invariant current.Keys == original.Keys
        invariant forall k :: k in current ==>
          current[k] == if k in factorsData && k !in pending then factorsData[k] else original[k]
        decreases pending
      {
        var factor :| factor in pending;
        if factor in current {
          current := current[factor := factorsData[factor]];
        }
        pending := pending - {factor};
      }
      assert current == SetAttributes(original, factorsData);
      if Valid() && FactorValuesOnly(factorsData) {
        SetFactorsKeepsUserRow(original, factorsData);
        ReplaceRowKeepsTable(rows, i, current);
      }
      rows := rows[i := current];
      user := Some(current);
    }

    /** `update_user_income`: set `current_income` of the user with Telegram id `telegramId`. */
    method UpdateUserIncome(telegramId: int, incomeAmount: int) returns (user: Option<Record>)
      modifies this
      ensures FindByTelegramId(old(rows), telegramId).None? ==> user.None? && rows == old(rows)
      ensures FindByTelegramId(old(rows), telegramId).Some? ==>
        var i := FindByTelegramId(old(rows), telegramId).value;
        && rows == old(rows)[i := old(rows)[i]["current_income" := Int(incomeAmount)]]
        && user == Some(rows[i])
      ensures old(Valid()) ==> Valid()
    {
      var found := FindByTelegramId(rows, telegramId);
      if found.None? {
        return None;
      }
      var i := found.value;
      if Valid() {
        SetIncomeKeepsUserRow(rows[i], incomeAmount);
        ReplaceRowKeepsTable(rows, i, rows[i]["current_income" := Int(incomeAmount)]);
      }
      rows := rows[i := rows[i]["current_income" := Int(incomeAmount)]];
      user := Some(rows[i]);
    }
  }

  lemma ContextFactorKeysAreColumns()
    ensures forall k :: k in ContextFactorKeys ==> k in UserColumns
    ensures "id" !in ContextFactorKeys && "telegram_id" !in ContextFactorKeys
    ensures "current_income" !in ContextFactorKeys
  {
  }

  /** Writing an integer income keeps a user row typed as the schema says. */
  lemma SetIncomeKeepsUserRow(user: Record, amount: int)
    requires IsUserRow(user)
    ensures IsUserRow(user["current_income" := Int(amount)])
  {
    ContextFactorKeysAreColumns();
    assert "current_income" in user;
    assert "id" != "current_income" && "telegram_id" != "current_income";
  }

  /** Writing Float values into context-factor columns keeps a user row typed as the schema says. */
  lemma SetFactorsKeepsUserRow(user: Record, data: map<string, Value>)
    requires IsUserRow(user)
    requires FactorValuesOnly(data)
    ensures IsUserRow(SetAttributes(user, data))
  {
    var r := SetAttributes(user, data);
    ContextFactorKeysAreColumns();
    assert r.Keys == UserColumns;
    assert "id" in user && "id" !in data;
    assert "telegram_id" in user && "telegram_id" !in data;
    assert "current_income" in user && "current_income" !in data;
    forall k | k in ContextFactorKeys
      ensures IsNumericOrNull(r[k])
    {
      assert k in user;
    }
  }
}
