/** The user table of `src/database/models/User.js`: one row per chat account,
    keyed by its id (a Telegram id, or a WhatsApp phone id). */
module Users {
  import opened Wrappers

  /** `preferred_network` is NULL until the user picks one; the two totals start
      at 0. */
  datatype UserRow = UserRow(telegramId: string, username: Option<string>, walletAddress: string,
                             privateKeyEncrypted: string, preferredNetwork: Option<string>,
                             totalSent: real, totalReceived: real)

  ghost predicate UniqueIds(rows: seq<UserRow>) {
    forall i, j :: 0 <= i < j < |rows| ==> rows[i].telegramId != rows[j].telegramId
  }

  /** `findByTelegramId`: the row with that id. */
  function FindByTelegramId(rows: seq<UserRow>, id: string): (r: Option<UserRow>)
    ensures r.Some? ==> r.value in rows && r.value.telegramId == id
    ensures r.None? ==> forall x :: x in rows ==> x.telegramId != id
    decreases |rows|
  {
    if |rows| == 0 then None
    else if rows[0].telegramId == id then Some(rows[0])
    else FindByTelegramId(rows[1..], id)
  }

  /** `findById` is `findByTelegramId` under another name. */
  function FindById(rows: seq<UserRow>, id: string): (r: Option<UserRow>)
    ensures r == FindByTelegramId(rows, id)
  {
    FindByTelegramId(rows, id)
  }

  /** `findByUsername`: the first row, in table order, with that username. */
  function FindByUsername(rows: seq<UserRow>, username: string): (r: Option<UserRow>)
    ensures r.Some? ==> r.value in rows && r.value.username == Some(username)
    ensures r.None? ==> forall x :: x in rows ==> x.username != Some(username)
    decreases |rows|
  {
    if |rows| == 0 then None
    else if rows[0].username == Some(username) then Some(rows[0])
    else FindByUsername(rows[1..], username)
  }

  /** `exists`: some row has the id. */
  function Exists(rows: seq<UserRow>, id: string): (b: bool)
    ensures b <==> FindByTelegramId(rows, id).Some?
    ensures b <==> exists x :: x in rows && x.telegramId == id
  {
    FindByTelegramId(rows, id).Some?
  }

  /** `count`: `SELECT COUNT(*)`. */
  function Count(rows: seq<UserRow>): (n: nat)
    ensures n == |rows|
    decreases |rows|
  {
    if |rows| == 0 then 0 else 1 + Count(rows[1..])
  }

  function NewUser(id: string, username: Option<string>, walletAddress: string, keyEncrypted: string): UserRow {
    UserRow(id, username, walletAddress, keyEncrypted, None, 0.0, 0.0)
  }

  /** `create`: appends the new user; an id already present violates the key and
      the insert fails, leaving the table as it was. */
  function Insert(rows: seq<UserRow>, id: string, username: Option<string>, walletAddress: string,
                  keyEncrypted: string): (r: Result<seq<UserRow>>)
    ensures r.Err? <==> Exists(rows, id)
    ensures r.Ok? ==> r.value == rows + [NewUser(id, username, walletAddress, keyEncrypted)]
  {
    if Exists(rows, id) then Err("SQLITE_CONSTRAINT: UNIQUE constraint failed: users.telegram_id")
    else Ok(rows + [NewUser(id, username, walletAddress, keyEncrypted)])
  }

  /** After a successful `create` the id is found with exactly the given fields,
      one more user is counted, and ids stay unique. */
  lemma {:induction false} InsertThenFind(rows: seq<UserRow>, id: string, username: Option<string>,
                                          walletAddress: string, keyEncrypted: string)
    requires UniqueIds(rows)
    requires !Exists(rows, id)
    ensures var r := Insert(rows, id, username, walletAddress, keyEncrypted).value;
      && UniqueIds(r)
      && FindByTelegramId(r, id) == Some(NewUser(id, username, walletAddress, keyEncrypted))
      && Count(r) == Count(rows) + 1
      && (forall other :: other != id ==> FindByTelegramId(r, other) == FindByTelegramId(rows, other))
    decreases |rows|
  {
    var row := NewUser(id, username, walletAddress, keyEncrypted);
    var r := rows + [row];
    assert UniqueIds(r) by {
      forall i, j | 0 <= i < j < |r| ensures r[i].telegramId != r[j].telegramId {
        if j == |rows| {
          assert r[i] in rows;
        } else {
          assert r[i] == rows[i] && r[j] == rows[j];
        }
      }
    }
    FindInAppend(rows, row, id);
    forall other | other != id ensures FindByTelegramId(r, other) == FindByTelegramId(rows, other) {
      FindInAppend(rows, row, other);
    }
  }

  /** Lookup in a table extended by one row: the old rows are searched first. */
  lemma {:induction false} FindInAppend(rows: seq<UserRow>, row: UserRow, id: string)
    ensures FindByTelegramId(rows + [row], id) ==
      if FindByTelegramId(rows, id).Some? then FindByTelegramId(rows, id)
      else if row.telegramId == id then Some(row) else None
    decreases |rows|
  {
    if |rows| > 0 {
      assert (rows + [row])[1..] == rows[1..] + [row];
      FindInAppend(rows[1..], row, id);
    }
  }

  // ---------------------------------------------------------------------------
  // UPDATE users SET ... WHERE telegram_id = ?

  /** The table after `updateTotals(id, sent, received)`: both totals of the rows
      with that id are overwritten. */
  function SetTotals(rows: seq<UserRow>, id: string, sent: real, received: real): (r: seq<UserRow>)
    ensures |r| == |rows|
    ensures forall i :: 0 <= i < |rows| ==>
      r[i] == if rows[i].telegramId == id then rows[i].(totalSent := sent, totalReceived := received) else rows[i]
    decreases |rows|
  {
    if |rows| == 0 then []
    else
      [if rows[0].telegramId == id then rows[0].(totalSent := sent, totalReceived := received) else rows[0]]
      + SetTotals(rows[1..], id, sent, received)
  }

  /** The table after `updatePreferredNetwork(id, network)`. */
  function SetPreferredNetwork(rows: seq<UserRow>, id: string, network: Option<string>): (r: seq<UserRow>)
    ensures |r| == |rows|
    ensures forall i :: 0 <= i < |rows| ==>
      r[i] == if rows[i].telegramId == id then rows[i].(preferredNetwork := network) else rows[i]
    decreases |rows|
  {
    if |rows| == 0 then []
    else
      [if rows[0].telegramId == id then rows[0].(preferredNetwork := network) else rows[0]]
      + SetPreferredNetwork(rows[1..], id, network)
  }

  /** `updateTotals` changes that user's two totals and nothing else: the user's
      other fields and every other user are as before. */
  lemma {:induction false} SetTotalsOnlyThatUser(rows: seq<UserRow>, id: string, sent: real, received: real, who: string)
    ensures var before := FindByTelegramId(rows, who);
      var after := FindByTelegramId(SetTotals(rows, id, sent, received), who);
      && (who != id ==> after == before)
      && (who == id ==> after == if before.Some? then Some(before.value.(totalSent := sent, totalReceived := received)) else None)
    decreases |rows|
  {
    if |rows| > 0 {
      assert SetTotals(rows, id, sent, received)[1..] == SetTotals(rows[1..], id, sent, received);
      SetTotalsOnlyThatUser(rows[1..], id, sent, received, who);
    }
  }

  /** `updatePreferredNetwork` changes only that user's preferred network. */
  lemma {:induction false} SetPreferredNetworkOnlyThatUser(rows: seq<UserRow>, id: string, network: Option<string>, who: string)
    ensures var before := FindByTelegramId(rows, who);
      var after := FindByTelegramId(SetPreferredNetwork(rows, id, network), who);
      && (who != id ==> after == before)
      && (who == id ==> after == if before.Some? then Some(before.value.(preferredNetwork := network)) else None)
    decreases |rows|
  {
    if |rows| > 0 {
      assert SetPreferredNetwork(rows, id, network)[1..] == SetPreferredNetwork(rows[1..], id, network);
      SetPreferredNetworkOnlyThatUser(rows[1..], id, network, who);
    }
  }

  lemma SetKeepsIds(rows: seq<UserRow>, id: string, sent: real, received: real, network: Option<string>)
    requires UniqueIds(rows)
    ensures UniqueIds(SetTotals(rows, id, sent, received))
    ensures UniqueIds(SetPreferredNetwork(rows, id, network))
  {
    var r := SetTotals(rows, id, sent, received);
    assert forall i :: 0 <= i < |r| ==> r[i].telegramId == rows[i].telegramId;
    SameIdsUnique(rows, r);
    var q := SetPreferredNetwork(rows, id, network);
    assert forall i :: 0 <= i < |q| ==> q[i].telegramId == rows[i].telegramId;
    SameIdsUnique(rows, q);
  }

  /** A table with the same ids, row for row, has unique ids too. */
  lemma SameIdsUnique(rows: seq<UserRow>, r: seq<UserRow>)
    requires UniqueIds(rows) && |r| == |rows|
    requires forall i :: 0 <= i < |r| ==> r[i].telegramId == rows[i].telegramId
    ensures UniqueIds(r)
  {
  }

  // ---------------------------------------------------------------------------
  // The table

  class UserTable {
    var rows: seq<UserRow>

    ghost predicate Valid()
      reads this
    {
      UniqueIds(rows)
    }

    constructor()
      ensures Valid() && rows == []
    {
      rows := [];
    }

    /** `create`; `ok` is false when the id is taken and the table is unchanged. */
    method Create(id: string, username: Option<string>, walletAddress: string, keyEncrypted: string)
      returns (ok: bool)
      requires Valid()
      modifies this
      ensures Valid()
      ensures ok <==> !Exists(old(rows), id)
      ensures ok ==> rows == old(rows) + [NewUser(id, username, walletAddress, keyEncrypted)]
      ensures !ok ==> rows == old(rows)
    {
      var r := Insert(rows, id, username, walletAddress, keyEncrypted);
      if r.Ok? {
        InsertThenFind(rows, id, username, walletAddress, keyEncrypted);
        rows := r.value;
      }
      ok := r.Ok?;
    }

    method UpdateTotals(id: string, sent: real, received: real)
      requires Valid()
      modifies this
      ensures Valid()
      ensures rows == SetTotals(old(rows), id, sent, received)
    {
      SetKeepsIds(rows, id, sent, received, None);
      rows := SetTotals(rows, id, sent, received);
    }

    method UpdatePreferredNetwork(id: string, network: Option<string>)
      requires Valid()
      modifies this
      ensures Valid()
      ensures rows == SetPreferredNetwork(old(rows), id, network)
    {
      SetKeepsIds(rows, id, 0.0, 0.0, network);
      rows := SetPreferredNetwork(rows, id, network);
    }
  }
}
