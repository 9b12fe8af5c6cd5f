/** The balance cache of `src/database/models/Balance.js`: one row per
    (user, token, network) with the last known balance and the time it was
    written. Times are milliseconds on the bot's clock, passed in as `now`. */
module BalanceCache {
  import opened Wrappers
  import opened Ordering

  datatype BalanceRow = BalanceRow(userId: string, token: string, network: string, balance: real,
                                   lastUpdated: int)

  /** `network || 'BASE'`: a missing or empty network is BASE. */
  function NetworkOrBase(network: Option<string>): (n: string)
    ensures network.Some? && network.value != "" ==> n == network.value
    ensures network.None? || network.value == "" ==> n == "BASE"
  {
    if network.Some? && network.value != "" then network.value else "BASE"
  }

  predicate HasKey(row: BalanceRow, user: string, token: string, network: string) {
    row.userId == user && row.token == token && row.network == network
  }

  /** The (user, token, network) key is unique: what INSERT OR REPLACE relies on. */
  ghost predicate UniqueKeys(rows: seq<BalanceRow>) {
    forall i, j :: 0 <= i < j < |rows| ==>
      !HasKey(rows[j], rows[i].userId, rows[i].token, rows[i].network)
  }

  /** `get`: the row with exactly that key. */
  function Get(rows: seq<BalanceRow>, user: string, token: string, network: string): (r: Option<BalanceRow>)
    ensures r.Some? ==> r.value in rows && HasKey(r.value, user, token, network)
    ensures r.None? ==> forall x :: x in rows ==> !HasKey(x, user, token, network)
    decreases |rows|
  {
    if |rows| == 0 then None
    else if HasKey(rows[0], user, token, network) then Some(rows[0])
    else Get(rows[1..], user, token, network)
  }

  /** With unique keys, `Get` finds any row that has the key. */
  lemma {:induction false} GetFindsKeyed(rows: seq<BalanceRow>, x: BalanceRow)
    requires UniqueKeys(rows) && x in rows
    ensures Get(rows, x.userId, x.token, x.network) == Some(x)
    decreases |rows|
  {
    if rows[0] != x {
      assert x in rows[1..];
      GetFindsKeyed(rows[1..], x);
    }
  }

  /** The rows whose key differs from (user, token, network), in table order. */
  function Without(rows: seq<BalanceRow>, user: string, token: string, network: string): (r: seq<BalanceRow>)
    ensures forall x :: x in r <==> x in rows && !HasKey(x, user, token, network)
    decreases |rows|
  {
    if |rows| == 0 then []
    else (if HasKey(rows[0], user, token, network) then [] else [rows[0]]) + Without(rows[1..], user, token, network)
  }

  lemma UniqueCons(x: BalanceRow, s: seq<BalanceRow>)
    requires UniqueKeys(s)
    requires forall y :: y in s ==> !HasKey(y, x.userId, x.token, x.network)
    ensures UniqueKeys([x] + s)
  {
    var r := [x] + s;
    forall i, j | 0 <= i < j < |r| ensures !HasKey(r[j], r[i].userId, r[i].token, r[i].network) {
      if i > 0 {
        assert r[i] == s[i - 1] && r[j] == s[j - 1];
      } else {
        assert r[j] in s;
      }
    }
  }

  lemma {:induction false} WithoutKeepsUnique(rows: seq<BalanceRow>, user: string, token: string, network: string)
    requires UniqueKeys(rows)
    ensures UniqueKeys(Without(rows, user, token, network))
    decreases |rows|
  {
    if |rows| > 0 {
      assert UniqueKeys(rows[1..]) by {
        forall i, j | 0 <= i < j < |rows[1..]|
          ensures !HasKey(rows[1..][j], rows[1..][i].userId, rows[1..][i].token, rows[1..][i].network)
        {
          assert rows[1..][i] == rows[i + 1] && rows[1..][j] == rows[j + 1];
        }
      }
      WithoutKeepsUnique(rows[1..], user, token, network);
      if !HasKey(rows[0], user, token, network) {
        var rest := Without(rows[1..], user, token, network);
        forall y | y in rest ensures !HasKey(y, rows[0].userId, rows[0].token, rows[0].network) {
          var k :| 0 <= k < |rows[1..]| && rows[1..][k] == y;
          assert rows[k + 1] == y;
        }
        UniqueCons(rows[0], rest);
      }
    }
  }

  // ---------------------------------------------------------------------------
  // INSERT OR REPLACE

  /** The table after `createOrUpdate`: the row holding the key is deleted and a
      fresh one with the balance and the current time is appended. */
  function Upsert(rows: seq<BalanceRow>, user: string, token: string, network: Option<string>,
                  balance: real, now: int): seq<BalanceRow>
  {
    Without(rows, user, token, NetworkOrBase(network)) + [BalanceRow(user, token, NetworkOrBase(network), balance, now)]
  }

  /** After `createOrUpdate` the key has exactly the new row, keys stay unique, and
      every row with another key is still there and nothing else is. */
  lemma UpsertProperties(rows: seq<BalanceRow>, user: string, token: string, network: Option<string>,
                         balance: real, now: int)
    requires UniqueKeys(rows)
    ensures var r := Upsert(rows, user, token, network, balance, now);
      && UniqueKeys(r)
      && Get(r, user, token, NetworkOrBase(network)) == Some(BalanceRow(user, token, NetworkOrBase(network), balance, now))
      && (forall x :: !HasKey(x, user, token, NetworkOrBase(network)) ==> (x in r <==> x in rows))
  {
    var n := NetworkOrBase(network);
    var w := Without(rows, user, token, n);
    var row := BalanceRow(user, token, n, balance, now);
    var r := w + [row];
    WithoutKeepsUnique(rows, user, token, n);
    assert UniqueKeys(r) by {
      forall i, j | 0 <= i < j < |r| ensures !HasKey(r[j], r[i].userId, r[i].token, r[i].network) {
        if j == |w| {
          assert r[i] in w;
        } else {
          assert r[i] == w[i] && r[j] == w[j];
        }
      }
    }
    GetFindsKeyed(r, row);
  }

  /** `createOrUpdate` leaves the lookup of every other key as it was. */
  lemma UpsertKeepsOtherKeys(rows: seq<BalanceRow>, user: string, token: string, network: Option<string>,
                             balance: real, now: int, user': string, token': string, network': string)
    requires UniqueKeys(rows)
    requires !(user' == user && token' == token && network' == NetworkOrBase(network))
    ensures Get(Upsert(rows, user, token, network, balance, now), user', token', network') == Get(rows, user', token', network')
  {
    var r := Upsert(rows, user, token, network, balance, now);
    UpsertProperties(rows, user, token, network, balance, now);
    var before := Get(rows, user', token', network');
    var after := Get(r, user', token', network');
    if before.Some? {
      GetFindsKeyed(r, before.value);
    }
  }

  // ---------------------------------------------------------------------------
  // UPDATE ... WHERE key

  function Restamp(row: BalanceRow, user: string, token: string, network: string, balance: real, now: int): BalanceRow {
    if HasKey(row, user, token, network) then row.(balance := balance, lastUpdated := now) else row
  }

  /** The table after `updateBalance`: only the row with the key, if any, gets the
      new balance and the current time. */
  function Update(rows: seq<BalanceRow>, user: string, token: string, network: Option<string>,
                  balance: real, now: int): (r: seq<BalanceRow>)
    ensures |r| == |rows|
    ensures forall i :: 0 <= i < |rows| ==> r[i] == Restamp(rows[i], user, token, NetworkOrBase(network), balance, now)
    decreases |rows|
  {
    if |rows| == 0 then []
    else [Restamp(rows[0], user, token, NetworkOrBase(network), balance, now)] + Update(rows[1..], user, token, network, balance, now)
  }

  /** `updateBalance` creates nothing: without a row for the key the table is
      unchanged; with one, that row now carries the balance and time. */
  lemma UpdateProperties(rows: seq<BalanceRow>, user: string, token: string, network: Option<string>,
                         balance: real, now: int)
    requires UniqueKeys(rows)
    ensures var r := Update(rows, user, token, network, balance, now);
      var n := NetworkOrBase(network);
      && UniqueKeys(r)
      && (Get(rows, user, token, n).None? ==> r == rows)
      && (Get(rows, user, token, n).Some? ==>
            Get(r, user, token, n) == Some(Get(rows, user, token, n).value.(balance := balance, lastUpdated := now)))
  {
    var r := Update(rows, user, token, network, balance, now);
    var n := NetworkOrBase(network);
    var old_ := Get(rows, user, token, n);
    UpdateKeepsUnique(rows, user, token, network, balance, now);
    if old_.None? {
      assert forall i :: 0 <= i < |rows| ==> r[i] == rows[i];
    } else {
      var k :| 0 <= k < |rows| && rows[k] == old_.value;
      assert r[k] == old_.value.(balance := balance, lastUpdated := now);
      GetFindsKeyed(r, r[k]);
    }
  }

  /** Restamping changes no key, so the keys stay unique. */
  lemma UpdateKeepsUnique(rows: seq<BalanceRow>, user: string, token: string, network: Option<string>,
                          balance: real, now: int)
    requires UniqueKeys(rows)
    ensures UniqueKeys(Update(rows, user, token, network, balance, now))
  {
    var r := Update(rows, user, token, network, balance, now);
    forall i, j | 0 <= i < j < |r|
      ensures !HasKey(r[j], r[i].userId, r[i].token, r[i].network)
    {
      assert r[i].userId == rows[i].userId && r[i].token == rows[i].token && r[i].network == rows[i].network;
      assert r[j].userId == rows[j].userId && r[j].token == rows[j].token && r[j].network == rows[j].network;
    }
  }

  /** `updateBalance` leaves the lookup of every other key as it was. */
  lemma {:induction false} UpdateKeepsOtherKeys(rows: seq<BalanceRow>, user: string, token: string,
                                                network: Option<string>, balance: real, now: int,
                                                user': string, token': string, network': string)
    requires !(user' == user && token' == token && network' == NetworkOrBase(network))
    ensures Get(Update(rows, user, token, network, balance, now), user', token', network') == Get(rows, user', token', network')
    decreases |rows|
  {
    if |rows| > 0 {
      var r := Update(rows, user, token, network, balance, now);
      assert r[1..] == Update(rows[1..], user, token, network, balance, now);
      UpdateKeepsOtherKeys(rows[1..], user, token, network, balance, now, user', token', network');
    }
  }

  // ---------------------------------------------------------------------------
  // isBalanceCacheValid

  /** False without a row; otherwise true iff the row is younger than
      `maxAgeMinutes` (strictly). */
  function IsCacheValid(rows: seq<BalanceRow>, user: string, token: string, network: string,
                        maxAgeMinutes: real, now: int): (valid: bool)
    ensures valid <==> Get(rows, user, token, network).Some? &&
                       ((now - Get(rows, user, token, network).value.lastUpdated) as real) < maxAgeMinutes * 60000.0
  {
    match Get(rows, user, token, network)
    case None => false
    case Some(row) =>
      var diffMinutes := ((now - row.lastUpdated) as real) / 60000.0;
      diffMinutes < maxAgeMinutes
  }

  const DefaultMaxAgeMinutes: real := 5.0

  /** A freshly written row is valid until `maxAgeMinutes` have passed, and not
      from then on. */
  lemma FreshRowValidUntilExpiry(rows: seq<BalanceRow>, user: string, token: string, network: Option<string>,
                                 balance: real, written: int, now: int, maxAgeMinutes: real)
    requires UniqueKeys(rows)
    ensures IsCacheValid(Upsert(rows, user, token, network, balance, written), user, token, NetworkOrBase(network),
                         maxAgeMinutes, now)
            <==> ((now - written) as real) < maxAgeMinutes * 60000.0
  {
    UpsertProperties(rows, user, token, network, balance, written);
  }

  // ---------------------------------------------------------------------------
  // getUserBalances / getAllUserBalances

  function ByToken(): (BalanceRow, BalanceRow) -> bool {
    (a: BalanceRow, b: BalanceRow) => StrLe(a.token, b.token)
  }

  function ByNetworkThenToken(): (BalanceRow, BalanceRow) -> bool {
    (a: BalanceRow, b: BalanceRow) =>
      if a.network != b.network then StrLe(a.network, b.network) else StrLe(a.token, b.token)
  }

  lemma ByTokenIsPreorder()
    ensures TotalPreorder(ByToken())
  {
    forall a: BalanceRow, b: BalanceRow ensures ByToken()(a, b) || ByToken()(b, a) {
      StrLeTotal(a.token, b.token);
    }
    forall a: BalanceRow, b: BalanceRow, c: BalanceRow | ByToken()(a, b) && ByToken()(b, c)
      ensures ByToken()(a, c)
    {
      StrLeTransitive(a.token, b.token, c.token);
    }
  }

  lemma ByNetworkThenTokenIsPreorder()
    ensures TotalPreorder(ByNetworkThenToken())
  {
    var le := ByNetworkThenToken();
    forall a: BalanceRow, b: BalanceRow ensures le(a, b) || le(b, a) {
      StrLeTotal(a.network, b.network);
      StrLeTotal(a.token, b.token);
    }
    forall a: BalanceRow, b: BalanceRow, c: BalanceRow | le(a, b) && le(b, c) ensures le(a, c) {
      if a.network != b.network && b.network != c.network {
        StrLeTransitive(a.network, b.network, c.network);
        if a.network == c.network {
          StrLeAntisymmetric(a.network, b.network);
        }
      } else if a.network == b.network && b.network == c.network {
        StrLeTransitive(a.token, b.token, c.token);
      }
    }
  }

  function RowsOf(rows: seq<BalanceRow>, user: string): (r: seq<BalanceRow>)
    ensures forall x :: x in r <==> x in rows && x.userId == user
    ensures forall x :: multiset(r)[x] == (if x.userId == user then multiset(rows)[x] else 0)
    decreases |rows|
  {
    if |rows| == 0 then []
    else
      assert rows == [rows[0]] + rows[1..];
      (if rows[0].userId == user then [rows[0]] else []) + RowsOf(rows[1..], user)
  }

  function RowsOn(rows: seq<BalanceRow>, network: string): (r: seq<BalanceRow>)
    ensures forall x :: x in r <==> x in rows && x.network == network
    ensures forall x :: multiset(r)[x] == (if x.network == network then multiset(rows)[x] else 0)
    decreases |rows|
  {
    if |rows| == 0 then []
    else
      assert rows == [rows[0]] + rows[1..];
      (if rows[0].network == network then [rows[0]] else []) + RowsOn(rows[1..], network)
  }

  /** `getUserBalances`: the user's rows on one network, ordered by symbol. */
  function GetUserBalances(rows: seq<BalanceRow>, user: string, network: string): (r: seq<BalanceRow>)
    ensures SortedBy(r, ByToken())
    ensures forall x :: multiset(r)[x] == (if x.userId == user && x.network == network then multiset(rows)[x] else 0)
  {
    ByTokenIsPreorder();
    SortBy(RowsOn(RowsOf(rows, user), network), ByToken())
  }

  /** `getAllUserBalances`: all the user's rows, ordered by network, then symbol. */
  function GetAllUserBalances(rows: seq<BalanceRow>, user: string): (r: seq<BalanceRow>)
    ensures SortedBy(r, ByNetworkThenToken())
    ensures forall x :: multiset(r)[x] == (if x.userId == user then multiset(rows)[x] else 0)
  {
    ByNetworkThenTokenIsPreorder();
    SortBy(RowsOf(rows, user), ByNetworkThenToken())
  }

  // ---------------------------------------------------------------------------
  // The table

  class BalanceTable {
    var rows: seq<BalanceRow>

    ghost predicate Valid()
      reads this
    {
      UniqueKeys(rows)
    }

    constructor()
      ensures Valid() && rows == []
    {
      rows := [];
    }

    /** `createOrUpdate(user, token, network, balance)` at time `now`. */
    method CreateOrUpdate(user: string, token: string, network: Option<string>, balance: real, now: int)
      requires Valid()
      modifies this
      ensures Valid()
      ensures rows == Upsert(old(rows), user, token, network, balance, now)
    {
      UpsertProperties(rows, user, token, network, balance, now);
      rows := Upsert(rows, user, token, network, balance, now);
    }

    /** `updateBalance(user, token, network, balance)` at time `now`. */
    method UpdateBalance(user: string, token: string, network: Option<string>, balance: real, now: int)
      requires Valid()
      modifies this
      ensures Valid()
      ensures rows == Update(old(rows), user, token, network, balance, now)
    {
      UpdateProperties(rows, user, token, network, balance, now);
      rows := Update(rows, user, token, network, balance, now);
    }
  }
}
