/** The `/balance` command of `src/bot/commands/balance.js`: for each token of
    the user's network, in table order, the cached balance while it is fresh,
    otherwise the wallet's balance (written back to the cache), and after a
    failed query the stale cached balance if there is one. The wallet's answers
    are an input: `fetch(symbol)` is the balance the chain reports for that token
    on the network, or `None` when the query throws. */
module BalanceCommand {
  import opened Wrappers
  import opened Chat
  import Users
  import BalanceCache
  import Formatter
  import Constants

  /** The list the loop collects and the cache rows it leaves. */
  datatype Scan = Scan(entries: seq<Formatter.BalanceEntry>, rows: seq<BalanceCache.BalanceRow>)

  /** One pass of the loop body for `symbol`. */
  function ScanStep(s: Scan, id: string, network: string, symbol: string, fetch: string -> Option<real>,
                    now: int): Scan
  {
    var cached := BalanceCache.Get(s.rows, id, symbol, network);
    if cached.Some? && BalanceCache.IsCacheValid(s.rows, id, symbol, network, BalanceCache.DefaultMaxAgeMinutes, now) then
      Scan(s.entries + [Formatter.BalanceEntry(symbol, cached.value.balance, network)], s.rows)
    else
      match fetch(symbol)
      case Some(b) =>
        Scan(s.entries + [Formatter.BalanceEntry(symbol, b, network)],
             BalanceCache.Upsert(s.rows, id, symbol, Some(network), b, now))
      case None =>
        if cached.Some? then Scan(s.entries + [Formatter.BalanceEntry(symbol, cached.value.balance, network)], s.rows)
        else s
  }

  /** One pass adds at most one entry, for `symbol` on `network`, and leaves the
      rows alone unless the query answered, when the answer is upserted. */
  lemma StepShape(s: Scan, id: string, network: string, symbol: string, fetch: string -> Option<real>, now: int)
    ensures var s' := ScanStep(s, id, network, symbol, fetch, now);
      && (s'.entries == s.entries
          || (|s'.entries| == |s.entries| + 1 && s'.entries[..|s.entries|] == s.entries
              && s'.entries[|s.entries|].tokenSymbol == symbol && s'.entries[|s.entries|].network == network))
      && (s'.rows == s.rows
          || (fetch(symbol).Some? && s'.rows == BalanceCache.Upsert(s.rows, id, symbol, Some(network), fetch(symbol).value, now)))
      && (s'.entries == s.entries <==> fetch(symbol).None? && BalanceCache.Get(s.rows, id, symbol, network).None?)
  {
  }

  /** The loop over the first `|tokens|` entries of the network's token table. */
  function ScanTokens(rows: seq<BalanceCache.BalanceRow>, id: string, network: string,
                      tokens: seq<(string, Constants.TokenInfo)>, fetch: string -> Option<real>, now: int): Scan
    decreases |tokens|
  {
    if |tokens| == 0 then Scan([], rows)
    else ScanStep(ScanTokens(rows, id, network, tokens[..|tokens| - 1], fetch, now), id, network,
                  tokens[|tokens| - 1].0, fetch, now)
  }

  function Keys(tokens: seq<(string, Constants.TokenInfo)>): seq<string>
    ensures |Keys(tokens)| == |tokens|
    ensures forall k :: 0 <= k < |tokens| ==> Keys(tokens)[k] == tokens[k].0
  {
    seq(|tokens|, k requires 0 <= k < |tokens| => tokens[k].0)
  }

  predicate DistinctKeys(tokens: seq<(string, Constants.TokenInfo)>) {
    forall i, j :: 0 <= i < j < |tokens| ==> tokens[i].0 != tokens[j].0
  }

  /** The token tables have no repeated key. */
  lemma TokenKeysDistinct(network: string)
    requires Constants.Tokens(network).Some?
    ensures DistinctKeys(Constants.Tokens(network).value)
  {
    if network == "BASE" {
    } else if network == "POLYGON" {
    } else {
    }
  }

  /** The list follows the token table: every entry is on the user's network,
      names a token of the table, and no token is listed twice. */
  lemma {:induction false} ScanFollowsTable(rows: seq<BalanceCache.BalanceRow>, id: string, network: string,
                                            tokens: seq<(string, Constants.TokenInfo)>,
                                            fetch: string -> Option<real>, now: int)
    requires DistinctKeys(tokens)
    ensures var es := ScanTokens(rows, id, network, tokens, fetch, now).entries;
      && |es| <= |tokens|
      && (forall k :: 0 <= k < |es| ==> es[k].network == network && es[k].tokenSymbol in Keys(tokens))
      && (forall i, j :: 0 <= i < j < |es| ==> es[i].tokenSymbol != es[j].tokenSymbol)
    decreases |tokens|
  {
    if |tokens| > 0 {
      var p := tokens[..|tokens| - 1];
      var symbol := tokens[|tokens| - 1].0;
      ScanFollowsTable(rows, id, network, p, fetch, now);
      var es0 := ScanTokens(rows, id, network, p, fetch, now).entries;
      var es := ScanTokens(rows, id, network, tokens, fetch, now).entries;
      assert forall k :: 0 <= k < |es0| ==> es0[k].tokenSymbol != symbol by {
        forall k | 0 <= k < |es0| ensures es0[k].tokenSymbol != symbol {
          var m :| 0 <= m < |p| && Keys(p)[m] == es0[k].tokenSymbol;
          assert tokens[m].0 == es0[k].tokenSymbol;
        }
      }
      assert forall k :: 0 <= k < |es0| ==> es0[k].tokenSymbol in Keys(tokens) by {
        forall k | 0 <= k < |es0| ensures es0[k].tokenSymbol in Keys(tokens) {
          var m :| 0 <= m < |p| && Keys(p)[m] == es0[k].tokenSymbol;
          assert Keys(tokens)[m] == es0[k].tokenSymbol;
        }
      }
      assert Keys(tokens)[|tokens| - 1] == symbol;
      StepShape(ScanTokens(rows, id, network, p, fetch, now), id, network, symbol, fetch, now);
    }
  }

  /** The loop keeps the cache's keys unique, and it touches the cached row of a
      key only for the user's tokens on the network whose query answered, where
      the row now holds the answer and the time. */
  lemma {:induction false} ScanCacheWrites(rows: seq<BalanceCache.BalanceRow>, id: string, network: string,
                                           tokens: seq<(string, Constants.TokenInfo)>,
                                           fetch: string -> Option<real>, now: int,
                                           u: string, t: string, n: string)
    requires BalanceCache.UniqueKeys(rows) && network != ""
    ensures var r := ScanTokens(rows, id, network, tokens, fetch, now).rows;
      && BalanceCache.UniqueKeys(r)
      && (BalanceCache.Get(r, u, t, n) == BalanceCache.Get(rows, u, t, n)
          || (u == id && n == network && t in Keys(tokens) && fetch(t).Some?
              && BalanceCache.Get(r, u, t, n) == Some(BalanceCache.BalanceRow(id, t, network, fetch(t).value, now))))
    decreases |tokens|
  {
    if |tokens| > 0 {
      var p := tokens[..|tokens| - 1];
      var symbol := tokens[|tokens| - 1].0;
      ScanCacheWrites(rows, id, network, p, fetch, now, u, t, n);
      var s0 := ScanTokens(rows, id, network, p, fetch, now);
      var r := ScanTokens(rows, id, network, tokens, fetch, now).rows;
      assert forall x :: x in Keys(p) ==> x in Keys(tokens) by {
        forall x | x in Keys(p) ensures x in Keys(tokens) {
          var m :| 0 <= m < |p| && Keys(p)[m] == x;
          assert Keys(tokens)[m] == x;
        }
      }
      assert Keys(tokens)[|tokens| - 1] == symbol;
      StepShape(s0, id, network, symbol, fetch, now);
      if r != s0.rows {
        BalanceCache.UpsertProperties(s0.rows, id, symbol, Some(network), fetch(symbol).value, now);
        if !(u == id && t == symbol && n == network) {
          BalanceCache.UpsertKeepsOtherKeys(s0.rows, id, symbol, Some(network), fetch(symbol).value, now, u, t, n);
        }
      }
    }
  }

  /** Whether the list has an entry for `symbol`. */
  predicate Lists(entries: seq<Formatter.BalanceEntry>, symbol: string) {
    exists k :: 0 <= k < |entries| && entries[k].tokenSymbol == symbol
  }

  /** A token of the table is listed exactly when the chain answered for it or
      the cache held a row for it when the command started. */
  lemma {:induction false} ScanListsToken(rows: seq<BalanceCache.BalanceRow>, id: string, network: string,
                                          tokens: seq<(string, Constants.TokenInfo)>,
                                          fetch: string -> Option<real>, now: int, symbol: string)
    requires BalanceCache.UniqueKeys(rows) && DistinctKeys(tokens) && network != ""
    requires symbol in Keys(tokens)
    ensures Lists(ScanTokens(rows, id, network, tokens, fetch, now).entries, symbol) <==>
            fetch(symbol).Some? || BalanceCache.Get(rows, id, symbol, network).Some?
    decreases |tokens|, 1
  {
    if symbol == tokens[|tokens| - 1].0 {
      LastListed(rows, id, network, tokens, fetch, now, symbol);
    } else {
      EarlierListed(rows, id, network, tokens, fetch, now, symbol);
    }
  }

  /** The last token of the table is listed as its own step decides. */
  lemma {:induction false} LastListed(rows: seq<BalanceCache.BalanceRow>, id: string, network: string,
                                      tokens: seq<(string, Constants.TokenInfo)>,
                                      fetch: string -> Option<real>, now: int, symbol: string)
    requires BalanceCache.UniqueKeys(rows) && DistinctKeys(tokens) && network != ""
    requires |tokens| > 0 && symbol == tokens[|tokens| - 1].0
    ensures Lists(ScanTokens(rows, id, network, tokens, fetch, now).entries, symbol) <==>
            fetch(symbol).Some? || BalanceCache.Get(rows, id, symbol, network).Some?
  {
    var p := tokens[..|tokens| - 1];
    var last := tokens[|tokens| - 1].0;
    var s0 := ScanTokens(rows, id, network, p, fetch, now);
    var es := ScanTokens(rows, id, network, tokens, fetch, now).entries;
    ScanCacheWrites(rows, id, network, p, fetch, now, id, symbol, network);
    StepShape(s0, id, network, last, fetch, now);
    assert forall k :: 0 <= k < |s0.entries| ==> es[k] == s0.entries[k];
    assert forall m :: 0 <= m < |p| ==> Keys(p)[m] != symbol by {
      forall m | 0 <= m < |p| ensures Keys(p)[m] != symbol {
        assert Keys(p)[m] == tokens[m].0;
      }
    }
    ScanFollowsTable(rows, id, network, p, fetch, now);
    assert !Lists(s0.entries, symbol);
    assert BalanceCache.Get(s0.rows, id, symbol, network) == BalanceCache.Get(rows, id, symbol, network);
  }

  /** A token before the last is listed as the shorter table decides. */
  lemma {:induction false} EarlierListed(rows: seq<BalanceCache.BalanceRow>, id: string, network: string,
                                         tokens: seq<(string, Constants.TokenInfo)>,
                                         fetch: string -> Option<real>, now: int, symbol: string)
    requires BalanceCache.UniqueKeys(rows) && DistinctKeys(tokens) && network != ""
    requires symbol in Keys(tokens) && symbol != tokens[|tokens| - 1].0
    ensures Lists(ScanTokens(rows, id, network, tokens, fetch, now).entries, symbol) <==>
            fetch(symbol).Some? || BalanceCache.Get(rows, id, symbol, network).Some?
    decreases |tokens|, 0
  {
    var p := tokens[..|tokens| - 1];
    var last := tokens[|tokens| - 1].0;
    var s0 := ScanTokens(rows, id, network, p, fetch, now);
    assert ScanTokens(rows, id, network, tokens, fetch, now) == ScanStep(s0, id, network, last, fetch, now);
    StepShape(s0, id, network, last, fetch, now);
    assert symbol in Keys(p) by {
      var m :| 0 <= m < |tokens| && Keys(tokens)[m] == symbol;
      assert m < |p| && Keys(p)[m] == symbol;
    }
    assert DistinctKeys(p);
    ScanListsToken(rows, id, network, p, fetch, now, symbol);
    ListsAfterStep(s0.entries, ScanStep(s0, id, network, last, fetch, now).entries, symbol, last);
  }

  /** A step for another token lists `symbol` exactly when the entries before
      it did. */
  lemma ListsAfterStep(entries: seq<Formatter.BalanceEntry>, es: seq<Formatter.BalanceEntry>, symbol: string,
                       last: string)
    requires symbol != last
    requires es == entries || (|es| == |entries| + 1 && es[..|entries|] == entries && es[|entries|].tokenSymbol == last)
    ensures Lists(es, symbol) <==> Lists(entries, symbol)
  {
    if Lists(es, symbol) {
      var k :| 0 <= k < |es| && es[k].tokenSymbol == symbol;
      if es != entries {
        assert k < |entries| && entries[k] == es[k];
      }
    }
    if Lists(entries, symbol) && es != entries {
      var k :| 0 <= k < |entries| && entries[k].tokenSymbol == symbol;
      assert es[k] == entries[k];
    }
  }

  // ---------------------------------------------------------------------------
  // The handler

  datatype BalanceOutcome =
    | Unregistered
    | InvalidNetwork(network: string)
    | Listed(entries: seq<Formatter.BalanceEntry>)

  /** `handleBalance` for the user `id` at `now`. */
  method HandleBalance(users: Users.UserTable, cache: BalanceCache.BalanceTable, id: string,
                       fetch: string -> Option<real>, now: int)
    returns (o: BalanceOutcome)
    requires cache.Valid()
    modifies cache
    ensures cache.Valid()
    ensures Users.FindByTelegramId(users.rows, id).None? ==> o == Unregistered && cache.rows == old(cache.rows)
    ensures Users.FindByTelegramId(users.rows, id).Some? ==>
      var network := BalanceCache.NetworkOrBase(Users.FindByTelegramId(users.rows, id).value.preferredNetwork);
      match Constants.Tokens(network)
      case None => o == InvalidNetwork(network) && cache.rows == old(cache.rows)
      case Some(tokens) =>
        var s := ScanTokens(old(cache.rows), id, network, tokens, fetch, now);
        o == Listed(s.entries) && cache.rows == s.rows
  {
    var user := Users.FindByTelegramId(users.rows, id);
    if user.None? {
      return Unregistered;
    }
    var network := BalanceCache.NetworkOrBase(user.value.preferredNetwork);
    var table := Constants.Tokens(network);
    if table.None? {
      return InvalidNetwork(network);
    }
    var tokens := table.value;
    var entries := ScanLoop(cache, id, network, tokens, fetch, now);
    o := Listed(entries);
  }

  /** The `for ... of Object.entries(tokens)` loop of `handleBalance`. */
  method ScanLoop(cache: BalanceCache.BalanceTable, id: string, network: string,
                  tokens: seq<(string, Constants.TokenInfo)>, fetch: string -> Option<real>, now: int)
    returns (entries: seq<Formatter.BalanceEntry>)
    requires cache.Valid()
    modifies cache
    ensures cache.Valid()
    ensures Scan(entries, cache.rows) == ScanTokens(old(cache.rows), id, network, tokens, fetch, now)
  {
    entries := [];
    var i := 0;
    while i < |tokens|
      invariant i <= |tokens|
      invariant cache.Valid()
      invariant Scan(entries, cache.rows) == ScanTokens(old(cache.rows), id, network, tokens[..i], fetch, now)
    {
      var symbol := tokens[i].0;
      assert tokens[..i + 1][..i] == tokens[..i];
      var cached := BalanceCache.Get(cache.rows, id, symbol, network);
      var valid := cached.Some? &&
        BalanceCache.IsCacheValid(cache.rows, id, symbol, network, BalanceCache.DefaultMaxAgeMinutes, now);
      if valid {
        entries := entries + [Formatter.BalanceEntry(symbol, cached.value.balance, network)];
      } else {
        var answer := fetch(symbol);
        if answer.Some? {
          cache.CreateOrUpdate(id, symbol, Some(network), answer.value, now);
          entries := entries + [Formatter.BalanceEntry(symbol, answer.value, network)];
        } else {
          var again := BalanceCache.Get(cache.rows, id, symbol, network);
          if again.Some? {
            entries := entries + [Formatter.BalanceEntry(symbol, again.value.balance, network)];
          }
        }
      }
      i := i + 1;
    }
    assert tokens[..i] == tokens;
  }

  /** What the chat shows. */
  function BalanceReply(o: BalanceOutcome): string {
    match o
    case Unregistered => StartFirst
    case InvalidNetwork(network) => "❌ Invalid network: " + network + ". Use /network to switch."
    case Listed(entries) => Formatter.BalanceMessage(entries)
  }
}
