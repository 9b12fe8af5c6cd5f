/** The literal tables of the bot: the supported networks, the token table of each
    network, the numeric limits and the reply templates. */
module Constants {
  import opened Wrappers
  import opened Text

  datatype NetworkInfo = NetworkInfo(chainId: nat, rpcUrl: string, name: string, explorer: string)

  datatype TokenInfo = TokenInfo(address: string, decimals: nat, symbol: string)

  /** The address recorded for a network's own coin. */
  const Native: string := "native"

  // ---------------------------------------------------------------------------
  // NETWORKS

  /** The keys of `NETWORKS`, in declaration order. */
  const NetworkNames: seq<string> := ["BASE", "POLYGON", "ARBITRUM"]

  /** `NETWORKS[name]`; `None` when the key is not in the table. */
  function Networks(name: string): (r: Option<NetworkInfo>)
    ensures r.Some? <==> name in NetworkNames
  {
    if name == "BASE" then
      Some(NetworkInfo(84532, "https://sepolia.base.org", "Base Sepolia", "https://sepolia.basescan.org"))
    else if name == "POLYGON" then
      Some(NetworkInfo(80001, "https://rpc-mumbai.maticvigil.com", "Polygon Mumbai", "https://mumbai.polygonscan.com"))
    else if name == "ARBITRUM" then
      Some(NetworkInfo(421613, "https://goerli-rollup.arbitrum.io/rpc", "Arbitrum Goerli", "https://goerli.arbiscan.io"))
    else None
  }

  // ---------------------------------------------------------------------------
  // TOKENS

  /** `Object.entries(TOKENS[network])`: (key, token) pairs in declaration order;
      `None` when the network is not a key of `TOKENS`. */
  function Tokens(network: string): Option<seq<(string, TokenInfo)>> {
    if network == "BASE" then
      Some([("USDC", TokenInfo("0x036CbD53842c5426634e7929541eC2318f3dCF7e", 6, "USDC")),
            ("USDT", TokenInfo("0xf175520C52418dfE19C8098071a252da48Cd1C19", 6, "USDT")),
            ("ETH", TokenInfo(Native, 18, "ETH"))])
    else if network == "POLYGON" then
      Some([("USDC", TokenInfo("0x0FA8781a83E46826621b3BC094Ea2A0212e71B23", 6, "USDC")),
            ("USDT", TokenInfo("0xA02f6adc7926efeBBd59Fd43A84f4E0c0c91e832", 6, "USDT")),
            ("MATIC", TokenInfo(Native, 18, "MATIC"))])
    else if network == "ARBITRUM" then
      Some([("USDC", TokenInfo("0x8FB1E3fC51F3b789dED7557E680551d93Ea9d892", 6, "USDC")),
            ("USDT", TokenInfo("0x533046F316590C19d99c74eE661c6d541b64471C", 6, "USDT")),
            ("ETH", TokenInfo(Native, 18, "ETH"))])
    else None
  }

  /** The token stored under `symbol` in a list of entries. */
  function FindToken(entries: seq<(string, TokenInfo)>, symbol: string): (r: Option<TokenInfo>)
    ensures r.Some? <==> exists k :: 0 <= k < |entries| && entries[k].0 == symbol
    ensures r.Some? ==> exists k :: 0 <= k < |entries| && entries[k] == (symbol, r.value)
    decreases |entries|
  {
    if |entries| == 0 then None
    else if entries[0].0 == symbol then Some(entries[0].1)
    else
      var r := FindToken(entries[1..], symbol);
      assert forall k :: 1 <= k < |entries| ==> entries[k] == entries[1..][k - 1];
      r
  }

  /** The outcome of `TOKENS[network][symbol]`: an unknown network makes the
      expression throw, an unknown symbol gives `undefined`. */
  datatype TokenLookup = NoSuchNetwork | NoSuchToken | Found(token: TokenInfo)

  function LookupToken(network: string, symbol: string): TokenLookup {
    match Tokens(network)
    case None => NoSuchNetwork
    case Some(entries) =>
      match FindToken(entries, symbol)
      case None => NoSuchToken
      case Some(t) => Found(t)
  }

  /** `TOKENS` and `NETWORKS` have exactly the same keys. */
  lemma TablesShareKeys(name: string)
    ensures Tokens(name).Some? <==> Networks(name).Some?
  {
  }

  /** Every network has three tokens; USDC and USDT have 6 decimals, each
      token's `symbol` equals its key, and the one native coin (18 decimals) is ETH
      on BASE and ARBITRUM and MATIC on POLYGON. */
  lemma TokenTableShape(network: string)
    requires network in NetworkNames
    ensures Tokens(network).Some? && |Tokens(network).value| == 3
    ensures forall k :: 0 <= k < 3 ==> Tokens(network).value[k].0 == Tokens(network).value[k].1.symbol
    ensures forall k :: 0 <= k < 3 ==> Tokens(network).value[k].0 in ["USDC", "USDT"] ==> Tokens(network).value[k].1.decimals == 6
    ensures forall k :: 0 <= k < 3 ==>
      (Tokens(network).value[k].1.address == Native <==> k == 2)
    ensures Tokens(network).value[2].1.decimals == 18
    ensures Tokens(network).value[2].0 == (if network == "POLYGON" then "MATIC" else "ETH")
  {
    if network == "BASE" {
      assert Tokens(network) == Tokens("BASE");
    } else if network == "POLYGON" {
      assert Tokens(network) == Tokens("POLYGON");
    } else {
      assert network == "ARBITRUM";
    }
  }

  /** A symbol with no upper-case letter is never a key of a token table: the
      lookup of a lower-cased symbol always fails. */
  lemma LowerCaseSymbolNotFound(network: string, symbol: string)
    requires NoAsciiUpper(symbol)
    ensures !LookupToken(network, symbol).Found?
  {
    if Tokens(network).Some? {
      var entries := Tokens(network).value;
      KeysStartUpper(network);
      forall k | 0 <= k < |entries| ensures entries[k].0 != symbol {
        assert IsAsciiUpper(entries[k].0[0]);
      }
    }
  }

  /** Every key of a token table starts with an upper-case letter. */
  lemma KeysStartUpper(network: string)
    requires Tokens(network).Some?
    ensures forall k :: 0 <= k < |Tokens(network).value| ==>
      |Tokens(network).value[k].0| > 0 && IsAsciiUpper(Tokens(network).value[k].0[0])
  {
    if network == "BASE" {
      assert Tokens(network) == Tokens("BASE");
    } else if network == "POLYGON" {
      assert Tokens(network) == Tokens("POLYGON");
    } else {
      assert network == "ARBITRUM";
    }
  }

  // ---------------------------------------------------------------------------
  // LIMITS

  const MaxTipAmount: real := 100.0
  const MaxDailyAmount: real := 500.0
  const MaxGasSubsidy: real := 1.0
  const RateLimitWindowMs: nat := 3600000
  const RateLimitMax: nat := 10
  const BalanceCacheMinutes: nat := 5

  /** The per-tip maximum fits within the daily maximum. */
  lemma LimitsConsistent()
    ensures 0.0 < MaxTipAmount <= MaxDailyAmount
    ensures RateLimitWindowMs == 3600 * 1000 && RateLimitMax == 10
  {
  }

  // ---------------------------------------------------------------------------
  // MESSAGES (numbers are passed in already rendered as text)

  const Welcome: string := "🎉 Welcome to CryptoTip Bot!\n\nYour multi-chain crypto wallet has been created! 🚀\n\n🌐 **Supported Networks:**\n✅ Base Sepolia (Default)\n⚪ Polygon Mumbai  \n⚪ Arbitrum Goerli\n\n💰 **Available Tokens:**\n• USDC, USDT, ETH/MATIC on all networks\n\n🔧 **Quick Commands:**\n• /balance - Check all balances\n• /deposit - Get wallet address\n• /network - Switch networks\n• /tip @user 5 USDC - Send tips\n\nType /help for detailed commands."

  const Help: string := "💡 CryptoTip Bot Commands:\n\n💰 **Wallet:**\n/deposit [network] - Get your wallet address\n/balance [network] - Check your balances  \n/withdraw USDC 10 0x123... [network] - Send to external wallet\n/network - Switch default network\n\n🎁 **Tipping:**\n/tip @alice 5 USDC thanks! - Send $5 USDC to alice\n/tip @bob 0.001 ETH great meme - Send ETH\n/batchtip @alice @bob 5 USDC - Send to multiple users\n/split 20 @alice @bob @charlie - Split bill equally\n\n📊 **Stats:**\n/history - Recent transactions\n/stats - Your tipping stats\n/groupstats - Group leaderboard\n\n🌐 **Networks:** Base, Polygon, Arbitrum\n**Tokens:** USDC, USDT, ETH/MATIC\nMax tip: $100 | Daily limit: $500"

  function InsufficientFunds(available: string, needed: string, token: string): string {
    "❌ Insufficient balance. You have " + available + " " + token + ", need " + needed + " " + token + "."
  }

  function UserNotFound(username: string): string {
    "❌ User @" + username + " not found. They need to /start the bot first."
  }

  function TipSuccess(amount: string, token: string, recipient: string, txHash: string): string {
    "✅ Sent " + amount + " " + token + " to @" + recipient + "! Transaction: " + txHash
  }

  /** The notice a recipient gets: the memo is quoted after a colon when there is
      one, otherwise the line ends with "!". */
  function TipReceived(sender: string, amount: string, token: string, message: string): (r: string)
    ensures message != "" ==> r == "🎉 @" + sender + " sent you " + amount + " " + token + ": \"" + message + "\""
    ensures message == "" ==> r == "🎉 @" + sender + " sent you " + amount + " " + token + "!"
  {
    "🎉 @" + sender + " sent you " + amount + " " + token + (if message != "" then ": \"" + message + "\"" else "!")
  }

  function DepositDetected(amount: string, token: string): string {
    "💰 Deposit confirmed! +" + amount + " " + token
  }

  const NetworkError: string := "⚠️ Network busy, trying again... Please wait."
  const InvalidCommand: string := "Invalid command format. Type /help for usage examples."
  const RateLimited: string := "You are sending tips too quickly. Please wait a moment."

  function WithdrawalSuccess(amount: string, token: string, address: string, txHash: string): string {
    "✅ Withdrew " + amount + " " + token + " to " + address + "\nTransaction: " + txHash
  }
}
