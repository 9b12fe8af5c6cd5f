/** The `/start` command of `src/bot/commands/start.js`: a known user is
    welcomed back; a new one gets a wallet, a user row, and a zero balance row in
    the cache for every token of every network, in the order of the token
    tables. Key generation and encryption are inputs. */
module StartHandler {
  import opened Wrappers
  import Users
  import BalanceCache
  import Formatter
  import Constants

  // ---------------------------------------------------------------------------
  // Seeding the cache

  /** A (token symbol, network) pair the cache is seeded with. */
  type Pair = (string, string)

  /** The cache after `createOrUpdate(id, symbol, network, 0)` for each pair in
      turn. */
  function SeedRows(rows: seq<BalanceCache.BalanceRow>, id: string, pairs: seq<Pair>, now: int)
    : seq<BalanceCache.BalanceRow>
    decreases |pairs|
  {
    if |pairs| == 0 then rows
    else
      var last := pairs[|pairs| - 1];
      BalanceCache.Upsert(SeedRows(rows, id, pairs[..|pairs| - 1], now), id, last.0, Some(last.1), 0.0, now)
  }

  /** The row the seeding leaves for a pair. */
  function ZeroRow(id: string, p: Pair, now: int): BalanceCache.BalanceRow {
    BalanceCache.BalanceRow(id, p.0, p.1, 0.0, now)
  }

  /** Seeding keeps the cache's keys unique. */
  lemma {:induction false} SeedKeepsUnique(rows: seq<BalanceCache.BalanceRow>, id: string, pairs: seq<Pair>, now: int)
    requires BalanceCache.UniqueKeys(rows)
    ensures BalanceCache.UniqueKeys(SeedRows(rows, id, pairs, now))
    decreases |pairs|
  {
    if |pairs| > 0 {
      var last := pairs[|pairs| - 1];
      SeedKeepsUnique(rows, id, pairs[..|pairs| - 1], now);
      BalanceCache.UpsertProperties(SeedRows(rows, id, pairs[..|pairs| - 1], now), id, last.0, Some(last.1), 0.0, now);
    }
  }

  /** After seeding, every seeded pair of the user holds a zero balance stamped
      `now`, and every other key is as it was. */
  lemma {:induction false} SeedRowsEffect(rows: seq<BalanceCache.BalanceRow>, id: string, pairs: seq<Pair>,
                                          now: int, u: string, t: string, n: string)
    requires BalanceCache.UniqueKeys(rows)
    requires forall k :: 0 <= k < |pairs| ==> pairs[k].1 != ""
    ensures BalanceCache.Get(SeedRows(rows, id, pairs, now), u, t, n) ==
           (if u == id && (t, n) in pairs then Some(ZeroRow(id, (t, n), now)) else BalanceCache.Get(rows, u, t, n))
    decreases |pairs|
  {
    if |pairs| > 0 {
      var init := pairs[..|pairs| - 1];
      var last := pairs[|pairs| - 1];
      assert pairs == init + [last];
      assert forall k :: 0 <= k < |init| ==> init[k] == pairs[k];
      SeedRowsEffect(rows, id, init, now, u, t, n);
      SeedKeepsUnique(rows, id, init, now);
      var r0 := SeedRows(rows, id, init, now);
      assert BalanceCache.NetworkOrBase(Some(last.1)) == last.1;
      if u == id && t == last.0 && n == last.1 {
        BalanceCache.UpsertProperties(r0, id, last.0, Some(last.1), 0.0, now);
        assert (t, n) == last;
      } else {
        BalanceCache.UpsertKeepsOtherKeys(r0, id, last.0, Some(last.1), 0.0, now, u, t, n);
        if u == id {
          assert (t, n) != last;
          assert (t, n) in pairs <==> (t, n) in init;
        }
      }
    }
  }

  /** Seeding two lists in turn is seeding their concatenation. */
  lemma {:induction false} SeedRowsAppend(rows: seq<BalanceCache.BalanceRow>, id: string, a: seq<Pair>,
                                          b: seq<Pair>, now: int)
    ensures SeedRows(SeedRows(rows, id, a, now), id, b, now) == SeedRows(rows, id, a + b, now)
    decreases |b|
  {
    if |b| == 0 {
      assert a + b == a;
    } else {
      assert (a + b)[..|a + b| - 1] == a + b[..|b| - 1];
      SeedRowsAppend(rows, id, a, b[..|b| - 1], now);
    }
  }

  /** The pairs of one network's token table, in table order. */
  function NetworkPairs(network: string, tokens: seq<(string, Constants.TokenInfo)>): (r: seq<Pair>)
    ensures |r| == |tokens|
    ensures forall k :: 0 <= k < |tokens| ==> r[k] == (tokens[k].1.symbol, network)
  {
    seq(|tokens|, k requires 0 <= k < |tokens| => (tokens[k].1.symbol, network))
  }

  /** The pairs of the listed networks' tables, network by network. */
  function Pairs(networks: seq<string>): seq<Pair>
    decreases |networks|
  {
    if |networks| == 0 then []
    else
      var last := networks[|networks| - 1];
      Pairs(networks[..|networks| - 1])
      + (match Constants.Tokens(last) case Some(tokens) => NetworkPairs(last, tokens) case None => [])
  }

  /** The pairs `/start` seeds: every token of every network. */
  function StartPairs(): seq<Pair> {
    Pairs(Constants.NetworkNames)
  }

  /** Token `t` is in the token table of network `n`. */
  predicate Listed(t: string, n: string) {
    match Constants.Tokens(n)
    case None => false
    case Some(tokens) => exists k :: 0 <= k < |tokens| && tokens[k].1.symbol == t
  }

  /** The seeded pairs are exactly the nine (token, network) pairs of the token
      tables. */
  lemma StartPairsAreTheTables()
    ensures |StartPairs()| == 9
    ensures forall q: Pair :: q in StartPairs() <==> Listed(q.0, q.1)
  {
    var names := Constants.NetworkNames;
    var a := NetworkPairs("BASE", Constants.Tokens("BASE").value);
    var b := NetworkPairs("POLYGON", Constants.Tokens("POLYGON").value);
    var c := NetworkPairs("ARBITRUM", Constants.Tokens("ARBITRUM").value);
    StartPairsSpelled(a, b, c);
    forall q: Pair | q in a + b + c ensures Listed(q.0, q.1) {
      PairListed(q, a, b, c);
    }
    forall q: Pair | Listed(q.0, q.1) ensures q in a + b + c {
      ListedPair(q, a, b, c);
    }
  }

  /** The start pairs, network by network. */
  lemma StartPairsSpelled(a: seq<Pair>, b: seq<Pair>, c: seq<Pair>)
    requires a == NetworkPairs("BASE", Constants.Tokens("BASE").value)
    requires b == NetworkPairs("POLYGON", Constants.Tokens("POLYGON").value)
    requires c == NetworkPairs("ARBITRUM", Constants.Tokens("ARBITRUM").value)
    ensures StartPairs() == a + b + c && |a| == |b| == |c| == 3
  {
    var names := Constants.NetworkNames;
    assert names[..0] == [];
    assert names[..1][..0] == [];
    assert names[..2][..1] == names[..1];
    assert names[..3] == names;
    assert names[..3][..2] == names[..2];
    assert Pairs(names[..1]) == a;
    assert Pairs(names[..2]) == a + b;
  }

  lemma PairListed(q: Pair, a: seq<Pair>, b: seq<Pair>, c: seq<Pair>)
    requires a == NetworkPairs("BASE", Constants.Tokens("BASE").value)
    requires b == NetworkPairs("POLYGON", Constants.Tokens("POLYGON").value)
    requires c == NetworkPairs("ARBITRUM", Constants.Tokens("ARBITRUM").value)
    requires q in a + b + c
    ensures Listed(q.0, q.1)
  {
    if q in a {
      var k :| 0 <= k < |a| && a[k] == q;
      assert Constants.Tokens("BASE").value[k].1.symbol == q.0;
    } else if q in b {
      var k :| 0 <= k < |b| && b[k] == q;
      assert Constants.Tokens("POLYGON").value[k].1.symbol == q.0;
    } else {
      var k :| 0 <= k < |c| && c[k] == q;
      assert Constants.Tokens("ARBITRUM").value[k].1.symbol == q.0;
    }
  }

  lemma ListedPair(q: Pair, a: seq<Pair>, b: seq<Pair>, c: seq<Pair>)
    requires a == NetworkPairs("BASE", Constants.Tokens("BASE").value)
    requires b == NetworkPairs("POLYGON", Constants.Tokens("POLYGON").value)
    requires c == NetworkPairs("ARBITRUM", Constants.Tokens("ARBITRUM").value)
    requires Listed(q.0, q.1)
    ensures q in a + b + c
  {
    var tokens := Constants.Tokens(q.1).value;
    var k :| 0 <= k < |tokens| && tokens[k].1.symbol == q.0;
    if q.1 == "BASE" {
      assert a[k] == q;
    } else if q.1 == "POLYGON" {
      assert b[k] == q;
    } else {
      assert q.1 == "ARBITRUM";
      assert c[k] == q;
    }
  }

  /** After seeding, the user has a zero balance for every token of every
      network, and only the seeded pairs of the user changed. */
  lemma StartSeedsEveryToken(rows: seq<BalanceCache.BalanceRow>, id: string, now: int,
                             u: string, t: string, n: string)
    requires BalanceCache.UniqueKeys(rows)
    ensures var r := SeedRows(rows, id, StartPairs(), now);
      && BalanceCache.UniqueKeys(r)
      && (Listed(t, n) && u == id ==> BalanceCache.Get(r, u, t, n) == Some(BalanceCache.BalanceRow(id, t, n, 0.0, now)))
      && (!Listed(t, n) || u != id ==> BalanceCache.Get(r, u, t, n) == BalanceCache.Get(rows, u, t, n))
  {
    var pairs := StartPairs();
    assert (t, n) in pairs <==> Listed(t, n) by {
      StartPairsAreTheTables();
    }
    StartPairsNamed();
    SeedKeepsUnique(rows, id, pairs, now);
    SeedRowsEffect(rows, id, pairs, now, u, t, n);
  }

  /** Every start pair names a network. */
  lemma StartPairsNamed()
    ensures forall k :: 0 <= k < |StartPairs()| ==> StartPairs()[k].1 != ""
  {
    StartPairsAreTheTables();
    forall k | 0 <= k < |StartPairs()| ensures StartPairs()[k].1 != "" {
      var q := StartPairs()[k];
      assert Listed(q.0, q.1);
      ListedNamed(q.0, q.1);
    }
  }

  lemma ListedNamed(t: string, n: string)
    requires Listed(t, n)
    ensures n != ""
  {
  }

  // ---------------------------------------------------------------------------
  // The handler

  datatype StartOutcome =
    | WelcomeBack(username: Option<string>)
    | Registered(walletAddress: string)

  /** `handleStart` for `id` with the Telegram username `username`, at `now`.
      `walletAddress` and `keyEncrypted` are the generated wallet's address and
      its encrypted private key. */
  method HandleStart(users: Users.UserTable, cache: BalanceCache.BalanceTable, id: string,
                     username: Option<string>, walletAddress: string, keyEncrypted: string, now: int)
    returns (o: StartOutcome)
    requires users.Valid() && cache.Valid()
    modifies users, cache
    ensures users.Valid() && cache.Valid()
    ensures Users.Exists(old(users.rows), id) ==>
      o == WelcomeBack(username) && users.rows == old(users.rows) && cache.rows == old(cache.rows)
    ensures !Users.Exists(old(users.rows), id) ==>
      && o == Registered(walletAddress)
      && users.rows == old(users.rows) + [Users.NewUser(id, username, walletAddress, keyEncrypted)]
      && cache.rows == SeedRows(old(cache.rows), id, StartPairs(), now)
  {
    var existing := Users.FindByTelegramId(users.rows, id);
    if existing.Some? {
      return WelcomeBack(username);
    }
    var ok := users.Create(id, username, walletAddress, keyEncrypted);
    SeedCache(cache, id, now);
    o := Registered(walletAddress);
  }

  /** The outer loop of `handleStart` over `Object.entries(TOKENS)`. */
  method SeedCache(cache: BalanceCache.BalanceTable, id: string, now: int)
    requires cache.Valid()
    modifies cache
    ensures cache.Valid()
    ensures cache.rows == SeedRows(old(cache.rows), id, StartPairs(), now)
  {
    EveryNetworkListed();
    SeedNetworks(cache, id, Constants.NetworkNames, now);
  }

  /** Every network of the table has its token list. */
  lemma EveryNetworkListed()
    ensures forall k :: 0 <= k < |Constants.NetworkNames| ==> Constants.Tokens(Constants.NetworkNames[k]).Some?
  {
  }

  /** The loop over the networks `names`, each of which has a token list. */
  method SeedNetworks(cache: BalanceCache.BalanceTable, id: string, names: seq<string>, now: int)
    requires cache.Valid()
    requires forall k :: 0 <= k < |names| ==> Constants.Tokens(names[k]).Some?
    modifies cache
    ensures cache.Valid()
    ensures cache.rows == SeedRows(old(cache.rows), id, Pairs(names), now)
  {
    var i := 0;
    while i < |names|
      invariant i <= |names|
      invariant cache.Valid()
      invariant cache.rows == SeedRows(old(cache.rows), id, Pairs(names[..i]), now)
    {
      var network := names[i];
      assert names[..i + 1][..i] == names[..i];
      var tokens := Constants.Tokens(network).value;
      SeedNetwork(cache, id, network, tokens, now);
      SeedRowsAppend(old(cache.rows), id, Pairs(names[..i]), NetworkPairs(network, tokens), now);
      i := i + 1;
    }
    assert names[..i] == names;
  }

  /** The inner loop over one network's tokens. */
  method SeedNetwork(cache: BalanceCache.BalanceTable, id: string, network: string,
                     tokens: seq<(string, Constants.TokenInfo)>, now: int)
    requires cache.Valid()
    modifies cache
    ensures cache.Valid()
    ensures cache.rows == SeedRows(old(cache.rows), id, NetworkPairs(network, tokens), now)
  {
    var j := 0;
    assert NetworkPairs(network, tokens[..0]) == [];
    while j < |tokens|
      invariant j <= |tokens|
      invariant cache.Valid()
      invariant cache.rows == SeedRows(old(cache.rows), id, NetworkPairs(network, tokens[..j]), now)
    {
      var pairs := NetworkPairs(network, tokens[..j]);
      assert NetworkPairs(network, tokens[..j + 1]) == pairs + [(tokens[j].1.symbol, network)];
      assert (pairs + [(tokens[j].1.symbol, network)])[..|pairs|] == pairs;
      cache.CreateOrUpdate(id, tokens[j].1.symbol, Some(network), 0.0, now);
      j := j + 1;
    }
    assert tokens[..j] == tokens;
  }

  /** The replies: the welcome back, or the welcome followed by the deposit
      address. */
  function StartReplies(o: StartOutcome): seq<string> {
    match o
    case WelcomeBack(username) =>
      ["👋 Welcome back, @" + (if username.Some? then username.value else "undefined")
       + "!\n\nYour wallet is ready. Use /help for commands."]
    case Registered(address) => [Constants.Welcome, Formatter.FormatDepositInfo(address)]
  }
}
