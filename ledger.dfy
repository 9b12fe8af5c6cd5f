/** The transfer ledger of `src/database/models/Transaction.js`: the
    `transactions` table as a sequence of rows in insertion (rowid) order, the two
    statements that change it, and the queries over it. */
module Ledger {
  import opened Wrappers

  /** The three values the bot ever writes to the `status` column. */
  datatype Status = Pending | Completed | Failed

  /** One row; NULL-able columns are `Option`s. `id` is the AUTOINCREMENT key. */
  datatype TxRow = TxRow(id: nat, senderId: string, recipientId: string, amount: real, token: string,
                         network: Option<string>, txHash: Option<string>, message: Option<string>,
                         status: Status)

  /** The object `create` is given; `status: None` is a missing status. */
  datatype NewTx = NewTx(senderId: string, recipientId: string, amount: real, token: string,
                         network: Option<string>, txHash: Option<string>, message: Option<string>,
                         status: Option<Status>)

  /** The row `create` inserts under `id`: the given fields, status defaulting to
      pending. */
  function RowOf(id: nat, d: NewTx): (r: TxRow)
    ensures r.id == id && r.senderId == d.senderId && r.recipientId == d.recipientId
    ensures r.amount == d.amount && r.token == d.token && r.network == d.network
    ensures r.txHash == d.txHash && r.message == d.message
    ensures r.status == if d.status.Some? then d.status.value else Pending
  {
    TxRow(id, d.senderId, d.recipientId, d.amount, d.token, d.network, d.txHash, d.message,
          d.status.GetOr(Pending))
  }

  /** Ids grow with insertion order. */
  ghost predicate Ascending(rows: seq<TxRow>) {
    forall i, j :: 0 <= i < j < |rows| ==> rows[i].id < rows[j].id
  }

  ghost predicate IdsBelow(rows: seq<TxRow>, bound: nat) {
    forall i :: 0 <= i < |rows| ==> rows[i].id < bound
  }

  // ---------------------------------------------------------------------------
  // UPDATE transactions SET status = ?, tx_hash = ? WHERE id = ?

  function Restamp(row: TxRow, id: nat, status: Status, txHash: Option<string>): TxRow {
    if row.id == id then row.(status := status, txHash := txHash) else row
  }

  /** The table after `updateStatus(id, status, txHash)`: the row with that id gets
      both the status and the hash (a missing hash writes NULL); every other row,
      and the order, stays. */
  function SetStatus(rows: seq<TxRow>, id: nat, status: Status, txHash: Option<string>): (r: seq<TxRow>)
    ensures |r| == |rows|
    ensures forall i :: 0 <= i < |rows| ==> r[i] == Restamp(rows[i], id, status, txHash)
    decreases |rows|
  {
    if |rows| == 0 then []
    else SetStatus(rows[..|rows| - 1], id, status, txHash) + [Restamp(rows[|rows| - 1], id, status, txHash)]
  }

  // ---------------------------------------------------------------------------
  // Lookups

  /** `SELECT * ... WHERE id = ?`: the first matching row. */
  function FindById(rows: seq<TxRow>, id: nat): (r: Option<TxRow>)
    ensures r.Some? ==> r.value in rows && r.value.id == id
    ensures r.None? ==> forall i :: 0 <= i < |rows| ==> rows[i].id != id
    decreases |rows|
  {
    if |rows| == 0 then None
    else if rows[0].id == id then Some(rows[0])
    else FindById(rows[1..], id)
  }

  /** `SELECT * ... WHERE tx_hash = ?`: the first row carrying that hash. */
  function FindByHash(rows: seq<TxRow>, hash: string): (r: Option<TxRow>)
    ensures r.Some? ==> r.value in rows && r.value.txHash == Some(hash)
    ensures r.None? ==> forall i :: 0 <= i < |rows| ==> rows[i].txHash != Some(hash)
    decreases |rows|
  {
    if |rows| == 0 then None
    else if rows[0].txHash == Some(hash) then Some(rows[0])
    else FindByHash(rows[1..], hash)
  }

  // ---------------------------------------------------------------------------
  // Filters and sums

  /** The rows satisfying `p`, in table order. */
  function Filter(rows: seq<TxRow>, p: TxRow -> bool): (r: seq<TxRow>)
    ensures |r| <= |rows|
    ensures forall x :: x in r ==> x in rows && p(x)
    ensures forall x :: x in rows && p(x) ==> x in r
    decreases |rows|
  {
    if |rows| == 0 then []
    else Filter(rows[..|rows| - 1], p) + (if p(rows[|rows| - 1]) then [rows[|rows| - 1]] else [])
  }

  lemma FilterAppend(rows: seq<TxRow>, row: TxRow, p: TxRow -> bool)
    ensures Filter(rows + [row], p) == Filter(rows, p) + (if p(row) then [row] else [])
    ensures !p(row) ==> Filter(rows + [row], p) == Filter(rows, p)
  {
    assert (rows + [row])[..|rows|] == rows;
    assert Filter(rows, p) + [] == Filter(rows, p);
  }

  /** `SUM(amount)` with NULL read as 0 (the `|| 0` of the callers). */
  function SumAmounts(rows: seq<TxRow>): real
    decreases |rows|
  {
    if |rows| == 0 then 0.0 else SumAmounts(rows[..|rows| - 1]) + rows[|rows| - 1].amount
  }

  lemma SumAppend(rows: seq<TxRow>, row: TxRow)
    ensures SumAmounts(rows + [row]) == SumAmounts(rows) + row.amount
  {
    assert (rows + [row])[..|rows|] == rows;
  }

  predicate IsStablecoin(token: string) { token == "USDC" || token == "USDT" }

  function CompletedStable(): TxRow -> bool {
    (r: TxRow) => r.status == Completed && IsStablecoin(r.token)
  }

  function Involves(user: string): TxRow -> bool {
    (r: TxRow) => r.senderId == user || r.recipientId == user
  }

  /** A subsequence of rows with ascending ids has ascending ids. */
  lemma {:induction false} FilterAscending(rows: seq<TxRow>, p: TxRow -> bool)
    requires Ascending(rows)
    ensures Ascending(Filter(rows, p))
    ensures forall i :: 0 <= i < |Filter(rows, p)| ==> exists j :: 0 <= j < |rows| && Filter(rows, p)[i] == rows[j]
    decreases |rows|
  {
    if |rows| > 0 {
      var init := rows[..|rows| - 1];
      FilterAscending(init, p);
      var f := Filter(init, p);
      var last := rows[|rows| - 1];
      forall i | 0 <= i < |f| ensures f[i].id < last.id {
        var j :| 0 <= j < |init| && f[i] == init[j];
        assert init[j] == rows[j];
      }
    }
  }

  // ---------------------------------------------------------------------------
  // getUserHistory / getRecentTransactions

  function Reverse(s: seq<TxRow>): (r: seq<TxRow>)
    ensures |r| == |s|
    ensures forall i :: 0 <= i < |s| ==> r[i] == s[|s| - 1 - i]
    decreases |s|
  {
    if |s| == 0 then [] else [s[|s| - 1]] + Reverse(s[..|s| - 1])
  }

  /** Rows where the user is sender or recipient, newest first, at most `limit`;
      `created_at` follows insertion order, so newest first is reverse table order.
      `created_at` has a resolution of one second, so the query leaves the order of
      rows written within the same second (the legs of one batch tip, say)
      unspecified; reverse table order is one of the orders it may give. */
  function GetUserHistory(rows: seq<TxRow>, user: string, limit: nat): seq<TxRow> {
    var newestFirst := Reverse(Filter(rows, Involves(user)));
    if |newestFirst| <= limit then newestFirst else newestFirst[..limit]
  }

  /** `getRecentTransactions` is the same query with a default limit of 20. */
  function GetRecentTransactions(rows: seq<TxRow>, user: string, limit: nat): seq<TxRow> {
    GetUserHistory(rows, user, limit)
  }

  lemma ReverseDescending(f: seq<TxRow>)
    requires Ascending(f)
    ensures forall i, j :: 0 <= i < j < |Reverse(f)| ==> Reverse(f)[i].id > Reverse(f)[j].id
  {
    var rev := Reverse(f);
    forall i, j | 0 <= i < j < |rev| ensures rev[i].id > rev[j].id {
      assert rev[i] == f[|f| - 1 - i] && rev[j] == f[|f| - 1 - j];
    }
  }

  lemma ReverseMembers(f: seq<TxRow>)
    ensures forall x :: x in Reverse(f) <==> x in f
  {
    var rev := Reverse(f);
    forall x | x in f ensures x in rev {
      var k :| 0 <= k < |f| && f[k] == x;
      assert rev[|f| - 1 - k] == x;
    }
  }

  /** The history holds only the user's rows, at most `limit` of them, newest first,
      and all of them when there are no more than `limit`. */
  lemma UserHistoryProperties(rows: seq<TxRow>, user: string, limit: nat)
    requires Ascending(rows)
    ensures var h := GetUserHistory(rows, user, limit);
      && |h| <= limit
      && (forall x :: x in h ==> x in rows && (x.senderId == user || x.recipientId == user))
      && (forall i, j :: 0 <= i < j < |h| ==> h[i].id > h[j].id)
      && (|Filter(rows, Involves(user))| <= limit ==>
            forall x :: x in rows && (x.senderId == user || x.recipientId == user) ==> x in h)
  {
    var f := Filter(rows, Involves(user));
    FilterAscending(rows, Involves(user));
    ReverseDescending(f);
    ReverseMembers(f);
    var rev := Reverse(f);
    var h := GetUserHistory(rows, user, limit);
    assert h == if |rev| <= limit then rev else rev[..limit];
    forall x | x in h ensures x in rows && (x.senderId == user || x.recipientId == user) {
      assert x in rev;
      assert Involves(user)(x);
    }
    forall x | x in rows && (x.senderId == user || x.recipientId == user) && |f| <= limit ensures x in h {
      assert Involves(user)(x);
    }
  }

  // ---------------------------------------------------------------------------
  // getTotalVolume

  /** The sum of the amounts of completed USDC and USDT rows; 0 when there are none. */
  function GetTotalVolume(rows: seq<TxRow>): real {
    SumAmounts(Filter(rows, CompletedStable()))
  }

  /** Inserting a row adds its amount to the volume exactly when it is a completed
      stablecoin row. */
  lemma VolumeAfterInsert(rows: seq<TxRow>, row: TxRow)
    ensures GetTotalVolume(rows + [row]) ==
      GetTotalVolume(rows) + (if row.status == Completed && IsStablecoin(row.token) then row.amount else 0.0)
  {
    FilterAppend(rows, row, CompletedStable());
    if row.status == Completed && IsStablecoin(row.token) {
      SumAppend(Filter(rows, CompletedStable()), row);
    }
  }

  function StableWithId(id: nat): TxRow -> bool {
    (r: TxRow) => r.id == id && IsStablecoin(r.token)
  }

  /** Completing a pending stablecoin row adds its amount to the volume. */
  lemma {:induction false} VolumeAfterCompletion(rows: seq<TxRow>, id: nat, hash: Option<string>)
    requires forall i :: 0 <= i < |rows| && rows[i].id == id ==> rows[i].status == Pending
    ensures GetTotalVolume(SetStatus(rows, id, Completed, hash)) ==
      GetTotalVolume(rows) + SumAmounts(Filter(rows, StableWithId(id)))
    decreases |rows|
  {
    if |rows| > 0 {
      var init := rows[..|rows| - 1];
      var last := rows[|rows| - 1];
      VolumeAfterCompletion(init, id, hash);
      var updated := SetStatus(init, id, Completed, hash);
      var stamped := Restamp(last, id, Completed, hash);
      assert rows == init + [last];
      assert SetStatus(rows, id, Completed, hash) == updated + [stamped];
      VolumeAfterInsert(updated, stamped);
      VolumeAfterInsert(init, last);
      FilterAppend(init, last, StableWithId(id));
      if StableWithId(id)(last) {
        SumAppend(Filter(init, StableWithId(id)), last);
      }
    }
  }

  // ---------------------------------------------------------------------------
  // getNetworkStats

  datatype NetworkStats = NetworkStats(transactionCount: nat, volume: real, uniqueUsers: nat,
                                       avgTransaction: real)

  function CompletedOn(network: string): TxRow -> bool {
    (r: TxRow) => r.status == Completed && r.network == Some(network)
  }

  function Senders(rows: seq<TxRow>): set<string> {
    set i | 0 <= i < |rows| :: rows[i].senderId
  }

  function Recipients(rows: seq<TxRow>): set<string> {
    set i | 0 <= i < |rows| :: rows[i].recipientId
  }

  /** A row has one sender: there are at most as many senders as rows, and at
      least one when there is a row. */
  lemma {:induction false} SendersBound(rows: seq<TxRow>)
    ensures |Senders(rows)| <= |rows|
    ensures |rows| > 0 ==> |Senders(rows)| >= 1
    decreases |rows|
  {
    if |rows| > 0 {
      var n := |rows| - 1;
      SendersBound(rows[..n]);
      assert Senders(rows) == Senders(rows[..n]) + {rows[n].senderId} by {
        forall x | x in Senders(rows) ensures x in Senders(rows[..n]) + {rows[n].senderId} {
          var i :| 0 <= i < |rows| && rows[i].senderId == x;
          if i < n {
            assert rows[..n][i] == rows[i];
          }
        }
        forall x | x in Senders(rows[..n]) ensures x in Senders(rows) {
          var i :| 0 <= i < n && rows[..n][i].senderId == x;
          assert rows[i] == rows[..n][i];
        }
      }
    }
  }

  /** The same for recipients. */
  lemma {:induction false} RecipientsBound(rows: seq<TxRow>)
    ensures |Recipients(rows)| <= |rows|
    ensures |rows| > 0 ==> |Recipients(rows)| >= 1
    decreases |rows|
  {
    if |rows| > 0 {
      var n := |rows| - 1;
      RecipientsBound(rows[..n]);
      assert Recipients(rows) == Recipients(rows[..n]) + {rows[n].recipientId} by {
        forall x | x in Recipients(rows) ensures x in Recipients(rows[..n]) + {rows[n].recipientId} {
          var i :| 0 <= i < |rows| && rows[i].recipientId == x;
          if i < n {
            assert rows[..n][i] == rows[i];
          }
        }
        forall x | x in Recipients(rows[..n]) ensures x in Recipients(rows) {
          var i :| 0 <= i < n && rows[..n][i].recipientId == x;
          assert rows[i] == rows[..n][i];
        }
      }
    }
  }

  lemma DivideThenMultiply(v: real, n: real)
    requires n != 0.0
    ensures (v / n) * n == v
  {
  }

  /** Count, sum, distinct senders plus distinct recipients, and average of the
      completed rows of one network; every field is 0 when there are none. */
  function GetNetworkStats(rows: seq<TxRow>, network: string): (s: NetworkStats)
    ensures s.transactionCount == |Filter(rows, CompletedOn(network))|
    ensures s.transactionCount == 0 ==> s == NetworkStats(0, 0.0, 0, 0.0)
    ensures s.volume == SumAmounts(Filter(rows, CompletedOn(network)))
    ensures s.transactionCount > 0 ==> 2 <= s.uniqueUsers <= 2 * s.transactionCount
  {
    var c := Filter(rows, CompletedOn(network));
    SendersBound(c);
    RecipientsBound(c);
    var volume := SumAmounts(c);
    if |c| == 0 then NetworkStats(0, 0.0, 0, 0.0)
    else NetworkStats(|c|, volume, |Senders(c)| + |Recipients(c)|, volume / |c| as real)
  }

  /** The average times the count gives back the volume. */
  lemma NetworkAverage(rows: seq<TxRow>, network: string)
    ensures var s := GetNetworkStats(rows, network);
      s.transactionCount > 0 ==> s.avgTransaction * (s.transactionCount as real) == s.volume
  {
    var s := GetNetworkStats(rows, network);
    if s.transactionCount > 0 {
      DivideThenMultiply(s.volume, s.transactionCount as real);
    }
  }

  /** Only completed rows of the network count: adding any other row leaves the
      statistics as they were. */
  lemma NetworkStatsIgnoreOtherRows(rows: seq<TxRow>, row: TxRow, network: string)
    requires !(row.status == Completed && row.network == Some(network))
    ensures GetNetworkStats(rows + [row], network) == GetNetworkStats(rows, network)
  {
    FilterAppend(rows, row, CompletedOn(network));
  }

  // ---------------------------------------------------------------------------
  // getUserStats

  datatype UserStats = UserStats(totalSent: real, totalReceived: real, transactionCount: nat,
                                 uniqueContacts: nat)

  function SentStable(user: string): TxRow -> bool {
    (r: TxRow) => r.senderId == user && r.status == Completed && IsStablecoin(r.token)
  }

  function ReceivedStable(user: string): TxRow -> bool {
    (r: TxRow) => r.recipientId == user && r.status == Completed && IsStablecoin(r.token)
  }

  function CompletedWith(user: string): TxRow -> bool {
    (r: TxRow) => (r.senderId == user || r.recipientId == user) && r.status == Completed
  }

  /** The other party of a row the user is in (the user when sending to itself). */
  function Counterpart(r: TxRow, user: string): string {
    if r.senderId == user then r.recipientId else r.senderId
  }

  function Contacts(rows: seq<TxRow>, user: string): set<string> {
    set i | 0 <= i < |rows| :: Counterpart(rows[i], user)
  }

  function GetUserStats(rows: seq<TxRow>, user: string): (s: UserStats)
    ensures s.transactionCount == |Filter(rows, SentStable(user))| + |Filter(rows, ReceivedStable(user))|
    ensures s.totalSent == SumAmounts(Filter(rows, SentStable(user)))
    ensures s.totalReceived == SumAmounts(Filter(rows, ReceivedStable(user)))
    ensures s.uniqueContacts <= |Filter(rows, CompletedWith(user))|
  {
    var sent := Filter(rows, SentStable(user));
    var received := Filter(rows, ReceivedStable(user));
    ContactsBound(Filter(rows, CompletedWith(user)), user);
    UserStats(SumAmounts(sent), SumAmounts(received), |sent| + |received|,
              |Contacts(Filter(rows, CompletedWith(user)), user)|)
  }

  /** Each row has one other party: there are at most as many contacts as rows. */
  lemma {:induction false} ContactsBound(rows: seq<TxRow>, user: string)
    ensures |Contacts(rows, user)| <= |rows|
    decreases |rows|
  {
    if |rows| > 0 {
      var n := |rows| - 1;
      ContactsBound(rows[..n], user);
      assert Contacts(rows, user) <= Contacts(rows[..n], user) + {Counterpart(rows[n], user)} by {
        forall x | x in Contacts(rows, user) ensures x in Contacts(rows[..n], user) + {Counterpart(rows[n], user)} {
          var i :| 0 <= i < |rows| && Counterpart(rows[i], user) == x;
          if i < n {
            assert rows[..n][i] == rows[i];
          }
        }
      }
      SubsetSize(Contacts(rows, user), Contacts(rows[..n], user) + {Counterpart(rows[n], user)});
    }
  }

  lemma SubsetSize(a: set<string>, b: set<string>)
    requires a <= b
    ensures |a| <= |b|
  {
    assert b == a + (b - a);
  }

  function InvolvedStable(user: string): TxRow -> bool {
    (r: TxRow) => (r.senderId == user || r.recipientId == user) && r.status == Completed && IsStablecoin(r.token)
  }

  function SelfStable(user: string): TxRow -> bool {
    (r: TxRow) => r.senderId == user && r.recipientId == user && r.status == Completed && IsStablecoin(r.token)
  }

  /** `transactionCount` counts a completed stablecoin row once per side the user
      is on: it is the number of such rows plus the number of those the user sent
      to itself. */
  lemma {:induction false} UserStatsCountsSelfTwice(rows: seq<TxRow>, user: string)
    ensures GetUserStats(rows, user).transactionCount ==
      |Filter(rows, InvolvedStable(user))| + |Filter(rows, SelfStable(user))|
    decreases |rows|
  {
    if |rows| > 0 {
      UserStatsCountsSelfTwice(rows[..|rows| - 1], user);
    }
  }

  // ---------------------------------------------------------------------------
  // getGroupStats

  datatype GroupStats = GroupStats(totalTips: nat, totalVolume: real, topTippers: seq<string>,
                                   topReceivers: seq<string>)

  /** The second `getGroupStats` of the class replaces the first, SQL-backed one,
      so whatever the chat, the answer is empty. */
  function GetGroupStats(chatId: string): (s: GroupStats)
    ensures s.totalTips == 0 && s.totalVolume == 0.0 && s.topTippers == [] && s.topReceivers == []
  {
    GroupStats(0, 0.0, [], [])
  }

  // ---------------------------------------------------------------------------
  // The table

  class LedgerTable {
    var rows: seq<TxRow>
    var nextId: nat

    ghost predicate Valid()
      reads this
    {
      Ascending(rows) && IdsBelow(rows, nextId)
    }

    constructor()
      ensures Valid() && rows == [] && nextId == 1
    {
      rows := [];
      nextId := 1;
    }

    /** `create`: appends exactly one row, under the next id. */
    method Create(d: NewTx) returns (id: nat)
      requires Valid()
      modifies this
      ensures Valid()
      ensures id == old(nextId) && nextId == old(nextId) + 1
      ensures rows == old(rows) + [RowOf(id, d)]
    {
      id := nextId;
      rows := rows + [RowOf(id, d)];
      nextId := nextId + 1;
    }

    /** `updateStatus`: rewrites status and hash of the row with that id. */
    method UpdateStatus(id: nat, status: Status, txHash: Option<string>)
      requires Valid()
      modifies this
      ensures Valid()
      ensures rows == SetStatus(old(rows), id, status, txHash) && nextId == old(nextId)
    {
      rows := SetStatus(rows, id, status, txHash);
    }
  }
}
