# LATEM-BOT core in Dafny

LATEM-BOT is a custodial tipping bot. Users of a Telegram chat (and of a
WhatsApp bridge) register a wallet with `/start` and tip each other in USDC,
USDT or the network's native coin. They can also batch-tip several users,
split a bill among the users they mention, withdraw to an outside address,
and switch between three test networks. This project models the core of
that bot and proves properties of the model:

- the **constants**: networks, token tables, limits and message templates;
- the **validation** of amounts, token symbols, addresses, usernames and
  memos, and the `/tip` and `/withdraw` command grammars;
- the **rate limiter**: per-user fixed windows for tips and commands, plus a
  per-user daily cap;
- the three **stores** as classes over rows: transactions (the ledger),
  cached balances and users;
- the **Telegram handlers**: `/tip`, `/withdraw`, `/balance`, `/start`,
  `/network`, `/batchtip`, `/split`, `/help`, and the `/split` calculator of
  the help module;
- the **dispatch** of `src/index.js`: the rate-limit gate, the shutdown flag,
  and the rewrite of a natural-language message into a `/tip` command;
- the **WhatsApp bot**: routing in `handleMessage`, the checks of
  `handleTip`, `processTip`, `handleNaturalLanguage`, and the withdraw stub;
- the **message formatter**.

The chain, the clock and the users are inputs to the model:

- The chain's answers are parameters: a balance check, a gas estimate, a
  transfer result, and a mined hash or an exception.
- The current time and the day are parameters.
- The messages that arrive while a withdrawal waits for confirmation are a
  sequence parameter.

Amounts are `real`, and every decimal text is parsed exactly. `toFixed` is
modelled as rounding half up to the stated places. Case mapping covers ASCII
letters only.

The stores are classes whose methods are proved against functions on their
rows, with the keys unique as an invariant. The handlers are methods that
take those classes. Each handler's guards are a pure function, and lemmas
prove the guards' order, that the handler goes ahead only when every guard
holds, and that it does go ahead when they all pass.

## Model

| member | source | states |
|---|---|---|
| Constants.Networks | src/utils/constants.js:2-21 | a network is known exactly when it is BASE, POLYGON or ARBITRUM |
| Constants.FindToken | src/utils/constants.js:23-75 | a symbol is found exactly when the table has an entry with that key, and the entry found is that entry |
| Constants.TablesShareKeys | src/utils/constants.js:2-75 | `TOKENS` and `NETWORKS` have the same network keys |
| Constants.TokenTableShape | src/utils/constants.js:23-75 | every network lists three tokens, each keyed by its own symbol; the stablecoins have 6 decimals; exactly the third is native, with 18 decimals, and it is MATIC on Polygon and ETH elsewhere |
| Constants.LowerCaseSymbolNotFound | src/utils/constants.js:23-75 | a symbol with no upper-case letter is on no network's table |
| Constants.LimitsConsistent | src/utils/constants.js:77-84 | the tip maximum is positive and at most the daily maximum; the rate window is one hour and allows 10 tips |
| Constants.TipReceived | src/utils/constants.js:139-140 | the notice quotes the memo when there is one and ends in "!" otherwise |
| Validation.ValidateAmount | src/utils/validation.js:10-34 | "not a number", "invalid format", "must be positive", "exceeds maximum limit" and "too many decimal places" each come exactly when that check is the first to fail; an amount is accepted exactly when its parsed value is in (0, 100] with at most 8 decimals, and is then that value |
| Validation.ValidateDecimalAmount | src/utils/validation.js:10-34 | a decimal text is accepted exactly when its value is in (0, 100] with at most 8 decimals, and the value returned is that value |
| Validation.ValidateTokenSymbol | src/utils/validation.js:36-55 | an empty or missing symbol is "required"; a symbol is accepted exactly when its upper-case form is USDC, USDT or ETH, and gives that form and its address |
| Validation.TokenSymbolIgnoresCase | src/utils/validation.js:41-43 | two symbols equal up to case validate the same |
| Validation.MaticRejected | src/utils/validation.js:4-8 | MATIC, in any case, is an unsupported token even though Polygon lists it |
| Validation.ValidateEthereumAddress | src/utils/validation.js:57-72 | an empty address is "required"; an address is accepted exactly when the checksum oracle accepts it, and gives the checksummed form |
| Validation.ValidateTelegramUsername | src/utils/validation.js:74-89 | an empty or missing name is "required"; a name is accepted exactly when, with its first "@" removed, it is 5 to 32 word characters, and that cleaned name, without "@", is returned |
| Validation.UsernameAtIsOptional | src/utils/validation.js:79 | one leading "@" makes no difference; two are refused |
| Validation.ValidateMessage | src/utils/validation.js:91-107 | an empty memo gives ""; a memo is refused exactly when it is longer than 200 UTF-16 code units, as `length` counts; an accepted memo has no angle brackets and only characters of the input |
| Validation.AstralMemoRefused | src/utils/validation.js:100-102 | a memo of more than 100 characters outside the Basic Multilingual Plane is refused although it has at most 200 characters |
| Validation.MessageWithoutBracketsIsTrimmed | src/utils/validation.js:104 | a memo without angle brackets is returned trimmed |
| Validation.MessageMayEndInSpace | src/utils/validation.js:104 | sanitising is not idempotent: "x <" gives "x " |
| Validation.ParseTipSound | src/utils/validation.js:110-111 | whatever the tip pattern matches has the pattern's shape and renders back to the text |
| Validation.ParseTipComplete | src/utils/validation.js:110-111 | every text of the tip pattern's shape matches with the parts it was built from |
| Validation.NameArgumentsOnComplete | src/utils/validation.js:110 | a rendered user name followed by well-formed arguments parses back to that name and those arguments |
| Validation.ParseWithdrawSound | src/utils/validation.js:147-148 | whatever the withdraw pattern matches renders back to the text |
| Validation.ParseWithdrawComplete | src/utils/validation.js:147-148 | every text of the withdraw pattern's shape matches with its parts |
| Validation.ParseTipCommand | src/utils/validation.js:109-144 | an unmatched text gives the usage error; a matched one is validated on its captures |
| Validation.ValidateTipCaptures | src/utils/validation.js:120-143 | username, amount, token and memo are checked in that order and the first error is returned unchanged; the command is accepted exactly when all four pass, and then carries the validators' username, amount, symbol, address and memo |
| Validation.ParseTipAccepts | src/utils/validation.js:109-144 | a rendered tip command whose name, amount, token and memo (at most 200 code units) are valid parses to exactly those parts, the memo losing only its angle brackets |
| Validation.ValidateWithdrawCaptures | src/utils/validation.js:156-176 | token, amount and address are checked in that order and the first two errors are returned as such; a command is accepted exactly when all three pass, with the upper-cased token, its address, the parsed amount and the checksummed address |
| Validation.ParseWithdrawCommand | src/utils/validation.js:146-177 | an unmatched text gives the usage error; a matched one gives the token, amount and address checks in that order |
| RateLimiting.Charge | src/bot/middleware/rateLimiter.js:21-24 | a consume inside a live window adds one point to it; every charged window holds at least one point and does not end before now |
| RateLimiting.AfterConsume | src/bot/middleware/rateLimiter.js:23 | the consumed key gets the charged window and every other key is unchanged |
| RateLimiting.Refusal | src/bot/middleware/rateLimiter.js:21-34 | a consume is refused exactly when the charged window is over its points, and reports the time to the window's end |
| RateLimiting.RetryAfter | src/bot/middleware/rateLimiter.js:32 | the retry hint is at least 1 second and is the wait rounded to seconds |
| RateLimiting.AtMostPointsPerWindow | src/bot/middleware/rateLimiter.js:5-16 | within one window at most the limiter's points are let through |
| RateLimiting.Admit | src/bot/middleware/rateLimiter.js:21-48 | a check allows exactly when nothing refused, and a denial carries the message and the retry hint |
| RateLimiting.DailyKeyInjective | src/bot/middleware/rateLimiter.js:51-52 | distinct users or distinct days never share a daily key |
| RateLimiting.DailyCheck | src/bot/middleware/rateLimiter.js:50-72 | a tip is allowed exactly when the day's total plus the amount is at most 500; a refusal reports the remainder, which is less than the amount |
| RateLimiting.DailyAfter | src/bot/middleware/rateLimiter.js:57-65 | a refused tip leaves the tracker as it was; an allowed one records the new total, at most 500; other keys are unchanged |
| RateLimiting.DailyAfterKeepsCap | src/bot/middleware/rateLimiter.js:50-72 | no day's recorded total ever exceeds the cap |
| RateLimiting.DailyTotalsAccumulate | src/bot/middleware/rateLimiter.js:54-65 | allowed tips add up in the day's total |
| RateLimiting.RateLimiter.constructor | src/bot/middleware/rateLimiter.js:5-19 | all counters start empty |
| RateLimiting.RateLimiter.CheckTipRateLimit | src/bot/middleware/rateLimiter.js:21-35 | answers by the tip window and consumes from it, touching nothing else |
| RateLimiting.RateLimiter.CheckCommandRateLimit | src/bot/middleware/rateLimiter.js:37-48 | answers by the command window and consumes from it, touching nothing else |
| RateLimiting.RateLimiter.CheckDailyTipLimit | src/bot/middleware/rateLimiter.js:50-72 | answers by the daily check and updates only the daily tracker |
| RateLimiting.RateLimiter.Middleware | src/bot/middleware/rateLimiter.js:74-88 | the command counter is always consumed; the tip counter is asked and consumed only for tips that the command counter let through |
| RateLimiting.RateLimiter.Reset | src/bot/middleware/rateLimiter.js:94-101 | removes the user's two windows and today's daily entry, and nothing else |
| Ledger.RowOf | src/database/models/Transaction.js:4-15 | the inserted row carries the given fields, with status pending when none is given |
| Ledger.SetStatus | src/database/models/Transaction.js:17-24 | the rows with the id get the status and the hash (NULL when missing); every other row and the order stay |
| Ledger.FindById | src/database/models/Transaction.js:26-29 | finds a row with the id, or reports that none has it |
| Ledger.FindByHash | src/database/models/Transaction.js:161-164 | finds a row with the hash, or reports that none has it |
| Ledger.UserHistoryProperties | src/database/models/Transaction.js:31-43 | the history has at most `limit` rows, all involving the user, newest first, and misses none when there are no more than `limit` |
| Ledger.VolumeAfterInsert | src/database/models/Transaction.js:96-104 | inserting a row adds its amount to the total volume exactly when it is a completed stablecoin row |
| Ledger.VolumeAfterCompletion | src/database/models/Transaction.js:17-24 | completing the pending rows with an id adds the amounts of those that are stablecoin rows to the volume |
| Ledger.GetNetworkStats | src/database/models/Transaction.js:106-123 | count and volume are those of the network's completed rows, all zero when there are none; with rows there are between 2 and twice the count of distinct senders plus distinct recipients |
| Ledger.NetworkAverage | src/database/models/Transaction.js:112 | when the network has completed rows, average times count is the volume |
| Ledger.NetworkStatsIgnoreOtherRows | src/database/models/Transaction.js:114 | a row that is not completed on the network does not change its statistics |
| Ledger.GetUserStats | src/database/models/Transaction.js:125-159 | the count is the user's completed stablecoin rows sent plus those received, the totals are their summed amounts, and there are no more contacts than completed rows with the user |
| Ledger.UserStatsCountsSelfTwice | src/database/models/Transaction.js:125-159 | a tip to oneself is counted twice |
| Ledger.GetGroupStats | src/database/models/Transaction.js:166-175 | the stats are always empty |
| Ledger.LedgerTable.constructor | src/database/models/Transaction.js:3 | an empty table whose first id is 1 |
| Ledger.LedgerTable.Create | src/database/models/Transaction.js:4-15 | appends one row with the next id and returns that id |
| Ledger.LedgerTable.UpdateStatus | src/database/models/Transaction.js:17-24 | the rows become `SetStatus` of the old rows |
| BalanceCache.NetworkOrBase | src/database/models/Balance.js:4-11 | a missing or empty network is BASE |
| BalanceCache.Get | src/database/models/Balance.js:13-19 | finds the row with the key, or reports that none has it |
| BalanceCache.GetFindsKeyed | src/database/models/Balance.js:13-19 | with unique keys, every row is found by its own key |
| BalanceCache.UpsertProperties | src/database/models/Balance.js:4-11 | keys stay unique, the key then holds exactly the new row, and other keys' rows are unchanged |
| BalanceCache.UpsertKeepsOtherKeys | src/database/models/Balance.js:4-11 | an upsert changes no other key's lookup |
| BalanceCache.UpdateProperties | src/database/models/Balance.js:39-46 | an update of a missing key changes nothing; otherwise that row gets the balance and the time |
| BalanceCache.UpdateKeepsOtherKeys | src/database/models/Balance.js:39-46 | an update changes no other key's lookup |
| BalanceCache.IsCacheValid | src/database/models/Balance.js:48-62 | a cached balance is valid exactly when its row exists and is younger than the maximum age |
| BalanceCache.FreshRowValidUntilExpiry | src/database/models/Balance.js:4-62 | a row just written stays valid exactly until the maximum age has passed |
| BalanceCache.GetUserBalances | src/database/models/Balance.js:21-28 | exactly the user's rows on the network, as a permutation, sorted by token |
| BalanceCache.GetAllUserBalances | src/database/models/Balance.js:30-37 | exactly the user's rows, as a permutation, sorted by network then token |
| BalanceCache.BalanceTable.constructor | src/database/models/Balance.js:3 | an empty cache |
| BalanceCache.BalanceTable.CreateOrUpdate | src/database/models/Balance.js:4-11 | the rows become the upsert of the old rows, with keys kept unique |
| BalanceCache.BalanceTable.UpdateBalance | src/database/models/Balance.js:39-46 | the rows become the update of the old rows, with keys kept unique |
| Users.FindByTelegramId | src/database/models/User.js:13-16 | finds the user with the id, or reports that none has it |
| Users.FindById | src/database/models/User.js:37-39 | the same lookup as by telegram id |
| Users.FindByUsername | src/database/models/User.js:18-21 | finds a user with the name, or reports that none has it |
| Users.Exists | src/database/models/User.js:32-35 | true exactly when some row has the id |
| Users.Count | src/database/models/User.js:41-45 | the number of rows |
| Users.Insert | src/database/models/User.js:4-11 | a duplicate id fails; otherwise the new user is appended |
| Users.InsertThenFind | src/database/models/User.js:4-16 | after an insert, the id finds the new user, the count grows by one and other ids find what they found before |
| Users.SetTotalsOnlyThatUser | src/database/models/User.js:23-30 | only that user's totals change |
| Users.SetPreferredNetworkOnlyThatUser | src/database/models/User.js:47-54 | only that user's preference changes |
| Users.SetKeepsIds | src/database/models/User.js:23-54 | updates keep ids unique |
| Users.UserTable.constructor | src/database/models/User.js:3 | an empty table |
| Users.UserTable.Create | src/database/models/User.js:4-11 | succeeds exactly when the id is new, and then appends the user; otherwise the table is unchanged |
| Users.UserTable.UpdateTotals | src/database/models/User.js:23-30 | the rows become `SetTotals` of the old rows |
| Users.UserTable.UpdatePreferredNetwork | src/database/models/User.js:47-54 | the rows become `SetPreferredNetwork` of the old rows |
| Chat.NetworkOf | src/bot/commands/batchtip.js:60 | the stored network, or BASE when there is none |
| Chat.Args | src/bot/commands/batchtip.js:14 | the words after the first space-separated word, joined back they give the text |
| Chat.ParseAmount | src/bot/commands/batchtip.js:49-52 | some amount exactly when the text is a decimal with a positive value, and the amount is that value |
| Chat.Mentions | src/bot/commands/batchtip.js:28-35 | the leading "@" words, each without its "@" |
| Formatter.FormatError | src/bot/utils/messageFormatter.js:129-135 | a string error gets the ❌ prefix; anything else gives the generic apology |
| Formatter.FormatSuccess | src/bot/utils/messageFormatter.js:137-139 | the message after a two-character prefix that opens with ✅ (see NoticesAreDistinct) |
| Formatter.FormatWarning | src/bot/utils/messageFormatter.js:141-143 | the message after a three-character prefix that opens with ⚠ (see NoticesAreDistinct) |
| Formatter.NoticesAreDistinct | src/bot/utils/messageFormatter.js:129-143 | errors, successes and warnings open with ❌, ✅ and ⚠ and never coincide |
| Formatter.FormatTxHash | src/bot/utils/messageFormatter.js:145-150 | empty exactly when the hash is missing or empty |
| Formatter.TxHashLinkRoundTrip | src/bot/utils/messageFormatter.js:145-150 | the link's target gives back the full hash |
| Formatter.ShortHash | src/bot/utils/messageFormatter.js:148 | a hash of at least 10 characters keeps its first six and last four characters, 13 in all; every character is a dot or one of the hash's |
| Formatter.EscapeMarkdown | src/bot/utils/messageFormatter.js:152-157 | a non-string is returned as is; a string grows by one backslash per special character |
| Formatter.UnescapeEscape | src/bot/utils/messageFormatter.js:152-157 | removing the backslashes gives back the text |
| Formatter.EscapeChangesOnlySpecials | src/bot/utils/messageFormatter.js:156 | escaping changes a text exactly when it has a special character |
| Formatter.FormatLeaderboard | src/bot/utils/messageFormatter.js:83-100 | the loop builds exactly the leaderboard text |
| Formatter.LeaderboardNumbering | src/bot/utils/messageFormatter.js:90-96 | the k-th user's line with position k + 1 is at its place |
| Formatter.LeaderboardShape | src/bot/utils/messageFormatter.js:88-99 | a nonempty board is the heading and the lines, trimmed at the end |
| Formatter.MedalsDistinct | src/bot/utils/messageFormatter.js:92 | the first three positions get distinct medals; later ones share one |
| Formatter.StatusIcon | src/bot/utils/messageFormatter.js:53 | ✅ exactly for completed, ❌ exactly for failed, ⏳ otherwise |
| Formatter.FormatHistory | src/bot/utils/messageFormatter.js:41-66 | the loop builds exactly the history text |
| Formatter.HistoryShowsAtMostTen | src/bot/utils/messageFormatter.js:48 | rows after the tenth make no difference |
| Formatter.HistoryEntryAt | src/bot/utils/messageFormatter.js:48-63 | each shown row's entry, starting with its status icon, is at its place |
| Formatter.GroupByNetwork | src/bot/utils/messageFormatter.js:9-16 | groups every entry under its network, with the networks in order of first appearance |
| Formatter.NetworkOrderProperties | src/bot/utils/messageFormatter.js:9-16 | the networks are distinct and are exactly those of the entries |
| Formatter.GroupsPartition | src/bot/utils/messageFormatter.js:9-16 | the groups together hold every entry once |
| Formatter.FormatBalance | src/bot/utils/messageFormatter.js:4-39 | the loop builds exactly the balance text |
| Formatter.NetworkBlock | src/bot/utils/messageFormatter.js:21-33 | an unknown network adds nothing; a known one opens with its name |
| Formatter.TokenLineShown | src/bot/utils/messageFormatter.js:27-30 | a token line is shown exactly when the amount rounded to 8 places is positive |
| Formatter.DepositAddressRoundTrip | src/bot/utils/messageFormatter.js:115-127 | the quoted code in the deposit text is the address |
| Formatter.PerPersonNear | src/bot/utils/messageFormatter.js:159-160 | the per-person text is a decimal within half a cent of the share |
| NaturalLanguage.CurrencyAt | src/index.js:213-215 | the currency group takes a prefix that is a currency word in any case, or reports that none fits |
| NaturalLanguage.MatchAt | src/index.js:213-215 | a match at an index has a word username, a decimal amount and a currency word |
| NaturalLanguage.Search | src/index.js:219 | the match is at the leftmost index where the pattern matches, or nowhere |
| NaturalLanguage.FirstHit | src/index.js:218-230 | the first pattern that matches is used, and none before it matches |
| NaturalLanguage.TokenOfCurrency | src/index.js:222-226 | the token is supported, and it is USDC exactly for the dollar and buck words and usdc |
| NaturalLanguage.NaturalLanguageTip | src/index.js:211-233 | null exactly when no pattern matches; otherwise the rewrite of the first match |
| NaturalLanguage.ParseNaturalLanguage | src/index.js:211-233 | the loop gives exactly the natural-language rewrite |
| NaturalLanguage.PhraseMatches | src/index.js:213-215 | a well-formed phrase matches at its start with its own parts |
| NaturalLanguage.SendPhraseRewritten | src/index.js:213-228 | a send phrase is rewritten into the `/tip` command of its parts |
| NaturalLanguage.RewriteAccepted | src/index.js:228 | the rewritten command with a valid name and amount parses to that name, amount and token, with no memo |
| NaturalLanguage.RewriteIsCommand | src/index.js:228 | every rewrite starts with a slash, so the `message` listener leaves it alone |
| TelegramApp.Gate | src/index.js:179-196 | ignored when shutting down; otherwise dispatched exactly when the limiter allows, and a refusal carries its error |
| TelegramApp.GeneralGate | src/index.js:185 | only the command counter can stop a handler, with its own message |
| TelegramApp.GateReply | src/index.js:187-208 | the limiter's error when refused; the generic apology exactly when the handler threw |
| TelegramApp.Reroute | src/index.js:164-172 | only texts that are not commands are rewritten, and with the natural-language rewrite |
| TelegramApp.RerouteOnce | src/index.js:164-172 | a rewritten message is a command, so it is not rewritten again |
| TelegramApp.Rewritten | src/index.js:165-170 | the listener's check, then the rewrite |
| TelegramApp.CryptoTipBot.constructor | src/index.js:179-180 | the bot starts not shutting down |
| TelegramApp.CryptoTipBot.GracefulShutdown | src/index.js:235-238 | sets the shutdown flag |
| TelegramApp.CryptoTipBot.HandleWithRateLimit | src/index.js:179-209 | answers by `Gate`; when shutting down the limiter is untouched, otherwise only the command counter is consumed |
| TelegramApp.CryptoTipBot.OnMessage | src/index.js:164-176 | the rewrite, and the rate-limited dispatch only when there is one |
| TelegramApp.CryptoTipBot.DispatchRewrite | src/index.js:169-172 | with no rewrite nothing is dispatched and the limiter is untouched; with one, the answer is the rate-limited gate and only the command counter is consumed |
| TelegramApp.ShutdownIsFinal | src/index.js:180 | after shutdown every message is ignored and the limiter is untouched |
| TipHandler.TipAdmission | src/bot/commands/tip.js:16-21 | the command counter refuses first; otherwise the tip counter decides |
| TipHandler.TipGuards | src/bot/commands/tip.js:16-78 | a refusal is one of the refused outcomes |
| TipHandler.TipProceedsOnlyWhenSafe | src/bot/commands/tip.js:16-78 | a tip proceeds only when admitted, parsed, under the daily cap, between two distinct registered users, and covered by the checked balance |
| TipHandler.TipProceedsWhenAllGuardsPass | src/bot/commands/tip.js:16-78 | when every guard passes the tip proceeds |
| TipHandler.TipGuardOrder | src/bot/commands/tip.js:16-78 | throttled exactly when the limiter refuses, rejected exactly when admitted but not parsed, over the cap exactly when parsed but past the daily cap; the later refusals only when their own guard fails |
| TipHandler.PendingTip | src/bot/commands/tip.js:83-92 | the pending row names sender, recipient, amount, token and memo, with no hash and no network |
| TipHandler.TipCacheSender | src/bot/commands/tip.js:120-124 | the sender's cached row, if any, gets the checked balance less the amount |
| TipHandler.TipCacheRecipient | src/bot/commands/tip.js:126-128 | the recipient's cached row, if any, gets the amount added |
| TipHandler.TipCacheOthers | src/bot/commands/tip.js:120-128 | no other cached balance changes |
| TipHandler.SettleLastRow | src/bot/commands/tip.js:113-118 | updating the new row's status rewrites just that last row |
| TipHandler.RunGuards | src/bot/commands/tip.js:16-78 | answers by the guards, consumes the counters the middleware consumes, and records the daily total only past the parse |
| TipHandler.HandleTip | src/bot/commands/tip.js:10-182 | a refused tip changes no store; otherwise the ledger and cache end as `Settled` says for the transfer's result |
| TipHandler.Settle | src/bot/commands/tip.js:83-176 | inserts the pending row, then completes or fails it by the transfer's result, updating the cache only on success |
| WithdrawHandler.Answer | src/bot/commands/withdraw.js:76-105 | the first message from the user in the chat that reads CONFIRM or CANCEL, in any case, decides; none means time out |
| WithdrawHandler.ForeignMessageIgnored | src/bot/commands/withdraw.js:76-80 | a message from another user or chat changes nothing |
| WithdrawHandler.LaterMessagesIgnored | src/bot/commands/withdraw.js:84-99 | messages after the answer change nothing |
| WithdrawHandler.WithdrawGuards | src/bot/commands/withdraw.js:14-105 | a stop is one of the stopping outcomes |
| WithdrawHandler.ConfirmedOnlyWhenSafe | src/bot/commands/withdraw.js:14-105 | a withdrawal is confirmed only in a private chat, for a parsed command of a registered user whose balance covers it, with gas estimated and CONFIRM answered |
| WithdrawHandler.AnswerDecides | src/bot/commands/withdraw.js:84-105 | past the checks, CONFIRM confirms, CANCEL cancels and silence times out |
| WithdrawHandler.WithdrawGuardOrder | src/bot/commands/withdraw.js:14-62 | not private exactly for a group chat, rejected exactly for a private chat whose command does not parse, unregistered exactly when it parses but the user is unknown; insufficient and gas failure only when their own check fails |
| WithdrawHandler.WithdrawCacheEffect | src/bot/commands/withdraw.js:121-126 | only the user's cached row for the token, if any, changes, to the balance less the amount |
| WithdrawHandler.RunWithdrawGuards | src/bot/commands/withdraw.js:14-105 | answers by the guards |
| WithdrawHandler.HandleWithdraw | src/bot/commands/withdraw.js:9-176 | a stop leaves the cache as it was; a confirmed withdrawal updates the cache only when the transfer went through |
| BalanceCommand.StepShape | src/bot/commands/balance.js:36-84 | each token adds at most one entry, for itself on the network, and none exactly when the balance could not be fetched and nothing is cached; the cache is written only with a fetched balance |
| BalanceCommand.ScanFollowsTable | src/bot/commands/balance.js:36-84 | at most one entry per token of the table, each on the user's network, with no token listed twice |
| BalanceCommand.ScanCacheWrites | src/bot/commands/balance.js:47-63 | only fetched balances of the user's network are written, and keys stay unique |
| BalanceCommand.ScanListsToken | src/bot/commands/balance.js:36-84 | a token is listed exactly when it was fetched or the cache held it |
| BalanceCommand.HandleBalance | src/bot/commands/balance.js:7-100 | an unregistered user or an unknown network changes nothing; otherwise the reply lists the scan's entries and the cache gets its writes |
| BalanceCommand.ScanLoop | src/bot/commands/balance.js:36-84 | the loop computes exactly the scan |
| StartHandler.SeedKeepsUnique | src/bot/commands/start.js:35-44 | seeding keeps the cache's keys unique |
| StartHandler.SeedRowsEffect | src/bot/commands/start.js:35-44 | each seeded key holds a zero row; every other key is as it was |
| StartHandler.StartPairsAreTheTables | src/bot/commands/start.js:35-36 | the seeded pairs are exactly the (token, network) pairs listed in the token tables, nine of them |
| StartHandler.StartSeedsEveryToken | src/bot/commands/start.js:35-44 | a token listed on a network gets a zero row for the new user; every other key keeps its row |
| StartHandler.HandleStart | src/bot/commands/start.js:7-61 | an existing user changes nothing; a new one is appended and seeded |
| StartHandler.SeedCache | src/bot/commands/start.js:35-44 | the nested loops seed exactly the start pairs |
| StartHandler.SeedNetworks | src/bot/commands/start.js:35-44 | the loop over any list of configured networks seeds exactly the pairs of those networks and keeps the keys unique |
| StartHandler.SeedNetwork | src/bot/commands/start.js:36-43 | the inner loop seeds exactly one network's pairs |
| NetworkCommand.Decide | src/bot/commands/network.js:4-50 | unregistered exactly without a user, invalid exactly when the upper-cased argument is no network; a switch is to the upper-cased argument, a known network; with no argument a stored preference is shown |
| NetworkCommand.ArgumentCaseInsensitive | src/bot/commands/network.js:30 | the argument's case makes no difference |
| NetworkCommand.HandleNetwork | src/bot/commands/network.js:4-50 | answers by `Decide` and stores the preference only on a switch |
| NetworkCommand.SwitchThenShow | src/bot/commands/network.js:15-37 | after a switch, a later command without argument shows the new network, and one with an argument is decided as before |
| NetworkCommand.Lines | src/bot/commands/network.js:19-21 | one line per network, ticked exactly for the current one |
| Payout.FindAll | src/bot/commands/batchtip.js:66-74 | all users found exactly when every name is registered, and then each name's user in order |
| Payout.FindAllStopsAtFirst | src/bot/commands/batchtip.js:68-72 | the missing name reported is the first missing one |
| Payout.LookupRecipients | src/bot/commands/batchtip.js:66-74 | the loop computes exactly `FindAll` |
| Payout.Results | src/bot/commands/batchtip.js:106-162 | one result per payee, in order, by its leg's outcome |
| Payout.PaidRows | src/bot/commands/batchtip.js:132-141 | one completed row per paid leg, with consecutive ids and the plan's amount, token, network and memo |
| Payout.Notified | src/bot/commands/batchtip.js:146-156 | at most one notice per paid leg, and none to the sender when self-notice is off |
| Payout.PaidLegRecorded | src/bot/commands/batchtip.js:123-141 | every paid leg has a row with its recipient and hash |
| Payout.Partition | src/bot/commands/batchtip.js:165-166 | successes and failures together number all the results |
| Payout.SuccessesArePaid | src/bot/commands/batchtip.js:143-160 | the successes are the paid legs |
| Payout.PayLegs | src/bot/commands/batchtip.js:106-162 | appends exactly the paid rows and returns the results and the notices |
| Payout.NoLegPaysAsWritten | src/bot/commands/batchtip.js:123-129 | with the undefined `sendTransaction` every leg fails: no row is added, nobody is notified and no result is a success |
| Payout.PayLeg | src/bot/commands/batchtip.js:108-158 | one leg extends the results, the notices and the paid rows exactly as the specification of the first i+1 legs says |
| Numbers.UnitsText | src/blockchain/wallet.js:51-66 | the balance text `getWalletBalance` returns always has a decimal point, as `formatUnits` and `formatEther` keep a fractional digit; the batch, split and WhatsApp insufficient-balance replies show it |
| BatchTip.Parse | src/bot/commands/batchtip.js:24-47 | the recipients are the leading mentions and the amount is the first word after them |
| BatchTip.CollectRecipients | src/bot/commands/batchtip.js:24-35 | the loop collects exactly the mentions and the amount's index |
| BatchTip.BatchWords | src/bot/commands/batchtip.js:17-52 | no recipients and more than ten recipients each give their reply; a pass has 1 to 10 recipients and a positive amount |
| BatchTip.BatchWordsOrder | src/bot/commands/batchtip.js:17-52 | fewer than three words is exactly the usage reply; after one to ten mentions the amount is invalid exactly when it does not parse, and otherwise the words pass |
| BatchTip.BatchChecks | src/bot/commands/batchtip.js:54-64 | a pass has a registered sender and a token listed on the sender's network |
| BatchTip.PayeeChecks | src/bot/commands/batchtip.js:66-97 | a pass finds every recipient, keeps the amount at most the maximum, and has a balance covering amount times recipients |
| BatchTip.BatchChecksPass | src/bot/commands/batchtip.js:54-97 | a registered sender, a listed token, registered recipients, an amount within the limit and a covering balance let the batch go ahead |
| BatchTip.BatchProceedsWhenAllPass | src/bot/commands/batchtip.js:17-97 | when every check passes the batch goes ahead, to exactly the mentioned users with the parsed amount |
| BatchTip.KeyFieldAsWrittenCrashes | src/bot/commands/batchtip.js:84-85 | as written, the sender's key is read from a field the user rows lack, so the decryption throws: a batch passing every earlier check ends in the "Batch tip failed" outcome |
| BatchTip.NoBatchAsWritten | src/bot/commands/batchtip.js:84-85 | as written, no input lets a batch go ahead |
| BatchTip.HandleBatchTip | src/bot/commands/batchtip.js:11-194 | a stop changes no store; otherwise the legs are paid and exactly their rows are appended |
| BatchTip.BatchReportAddsUp | src/bot/commands/batchtip.js:165-182 | successes and failures add up to the recipients, and the reported total is the amount times the rows written |
| SplitCommand.TokenAndDescription | src/bot/commands/split.js:84-92 | the token is one the split command accepts |
| SplitCommand.CalcWords | src/bot/commands/split.js:33-53 | the calculation comes exactly when the total parses nonzero and the count parses to at least 2 |
| SplitCommand.SplitWords | src/bot/commands/split.js:17-106 | an automatic split has a positive total, at least one mention and an accepted token; a manual one at least 2 people |
| SplitCommand.CollectMentions | src/bot/commands/split.js:67-73 | the loop collects exactly the mentions |
| SplitCommand.SenderPaysOneShareEach | src/bot/commands/split.js:131-137 | the sender pays one share per recipient |
| SplitCommand.ShareTimesPeople | src/bot/commands/split.js:73-94 | the shares of the recipients and the sender add up to the total |
| SplitCommand.SplitMessage | src/bot/commands/split.js:190 | the memo starts "Bill split" and is just that exactly when there is no description |
| SplitCommand.SplitChecks | src/bot/commands/split.js:108-118 | a pass has a registered sender and a token listed on the sender's network |
| SplitCommand.PayeeChecks | src/bot/commands/split.js:120-153 | a pass finds every recipient, keeps the share at most the maximum, and has a balance covering the sender's payment |
| SplitCommand.SplitProceedsWhenAllPass | src/bot/commands/split.js:17-153 | when every check passes the split goes ahead, to exactly the mentioned users, with the parsed total |
| SplitCommand.KeyFieldAsWrittenCrashes | src/bot/commands/split.js:139-140 | as written, the sender's key is read from a field the user rows lack: a split passing every earlier check ends in the "Bill split failed" outcome |
| SplitCommand.NoSplitAsWritten | src/bot/commands/split.js:139-140 | as written, no input lets a split go ahead |
| SplitCommand.OnlyMentionsPay | src/bot/commands/split.js:55-94 | only the mentioned users are paid, each one share |
| SplitCommand.HandleSplit | src/bot/commands/split.js:11-249 | a stop changes no store; otherwise the legs are paid and exactly their rows are appended |
| HelpCommand.HelpReplies | src/bot/commands/help.js:4-21 | the help text, followed by the apology exactly when sending it failed |
| HelpCommand.MatchSound | src/bot/commands/help.js:28-29 | a match has the pattern's shape with its groups in place |
| HelpCommand.MatchComplete | src/bot/commands/help.js:28-29 | every text of the shape matches with its groups |
| HelpCommand.Decide | src/bot/commands/help.js:25-41 | a missing text throws; otherwise the trimmed text is checked |
| HelpCommand.OnTrimmed | src/bot/commands/help.js:29-65 | bad format exactly when the pattern fails; a calculation has a positive amount and 2 to 20 participants |
| HelpCommand.ChecksInOrder | src/bot/commands/help.js:43-65 | amount, too few, too many, in that order; a calculation exactly when all pass |
| HelpCommand.CommandRoundTrip | src/bot/commands/help.js:23-67 | `/split a n` with valid numbers calculates exactly those numbers |
| HelpCommand.Reply | src/bot/commands/help.js:31-78 | the calculation text for a calculation, the matching error otherwise |
| WhatsApp.UserIdOfContact | src/whatsapp/bot.js:85 | a number with the contact suffix gives back the number |
| WhatsApp.CommandWordsName | src/whatsapp/bot.js:93-126 | a word is some command exactly when it is one of the fourteen command words |
| WhatsApp.SlashOptional | src/whatsapp/bot.js:94-121 | a leading slash makes no difference |
| WhatsApp.RouteOf | src/whatsapp/bot.js:79-93 | status updates and groups are dropped exactly; others go by the first word of the lower-cased trimmed text |
| WhatsApp.RouteIgnoresCase | src/whatsapp/bot.js:86 | the body's case makes no difference to routing |
| WhatsApp.CheckTip | src/whatsapp/bot.js:271-295 | not a reply, own message and usage each come exactly under their conditions; a request tips the quoted author with the upper-cased token and the joined memo |
| WhatsApp.TipTokenFindsKey | src/whatsapp/bot.js:294 | a token typed in any case names the table key |
| WhatsApp.ProcessGuards | src/whatsapp/bot.js:305-333 | a pass keeps the amount at most the maximum |
| WhatsApp.CheckGuards | src/whatsapp/bot.js:306-333 | the early returns stop or pass exactly as the guard specification does |
| WhatsApp.Process | src/whatsapp/bot.js:305-409 | a guard's stop is the outcome |
| WhatsApp.SentOnlyWhenSafe | src/whatsapp/bot.js:305-409 | a tip is sent only with a valid amount at most the maximum, two registered users, a token listed on the sender's network, a covering balance and a mined transfer |
| WhatsApp.SentWhenAllPass | src/whatsapp/bot.js:305-409 | when those guards pass and the transfer is mined, the tip is sent with the parsed amount on the sender's network; no rate limit, daily cap or self-tip check stands in the way |
| WhatsApp.SendAsWrittenFails | src/whatsapp/bot.js:366-373 | with the undefined `sendTransaction` a tip that passes every guard and is covered ends in "Transaction failed" |
| WhatsApp.KeyFieldAsWrittenFails | src/whatsapp/bot.js:336-340 | as written, the sender's key is read from a field the user rows lack: no tip is ever sent, and one passing every guard ends in "Transaction failed" |
| WhatsApp.ProcessGuardOrder | src/whatsapp/bot.js:306-333 | invalid amount exactly when the amount does not parse, sender not started exactly when it parses but the sender is unknown, recipient not started exactly when both earlier pass but the recipient is unknown; token and maximum refusals only when their own check fails |
| WhatsApp.CompletedTip | src/whatsapp/bot.js:372-381 | the row is written completed, with the network and the hash |
| WhatsApp.ProcessTip | src/whatsapp/bot.js:305-409 | the ledger gets one completed row exactly when the tip is sent |
| WhatsApp.Lazy | src/whatsapp/bot.js:414-415 | the lazy group takes the fewest characters after which the rest matches, and never crosses a line end |
| WhatsApp.LazyEnd | src/whatsapp/bot.js:414-415 | the lazy group ends where the rest of the pattern matches, or nowhere |
| WhatsApp.LazyEndFound | src/whatsapp/bot.js:414-415 | the end found is a match of `(.+?)` and the rest as the regular expression defines one, and no shorter group is followed by the rest |
| WhatsApp.LazyEndMissed | src/whatsapp/bot.js:414-415 | when no end is found, no group at all is followed by the rest |
| WhatsApp.RunKept | src/whatsapp/bot.js:414-415 | the verb's greedy `\s+` gives characters back one at a time: the run kept is the longest after which the lazy group and the rest match |
| WhatsApp.RunKeptComplete | src/whatsapp/bot.js:414-415 | any run and group that match leave the kept run at least as long, and the same run ends its group no later |
| WhatsApp.GroupThenTail | src/whatsapp/bot.js:414-415 | a group without line ends followed by text the rest matches is a match |
| WhatsApp.VerbAtSound | src/whatsapp/bot.js:414-415 | every send or give match the model reports is a match of the regular expression |
| WhatsApp.VerbAtComplete | src/whatsapp/bot.js:414-415 | whenever the regular expression matches at an index, the model reports a match there, the first in the engine's order: longest run, then shortest group |
| WhatsApp.NaturalAskComplete | src/whatsapp/bot.js:413-421 | a send or give match anywhere in the text makes `handleNaturalLanguage` find a match |
| WhatsApp.SpacedSendMatches | src/whatsapp/bot.js:414 | "send   5 usdc" matches: the verb's run of three spaces gives two back |
| WhatsApp.SpacedSendVerb | src/whatsapp/bot.js:414 | in "send   5 usdc" one space after the verb, a group of one space and the tail "5 usdc" form a match |
| WhatsApp.SpacedSendRest | src/whatsapp/bot.js:414 | two spaces followed by a matching tail give a one-space group and the tail |
| WhatsApp.NaturalAsk | src/whatsapp/bot.js:413-434 | nothing exactly when no pattern matches; the first match gives a decimal and a word |
| WhatsApp.TailComplete | src/whatsapp/bot.js:414-416 | a decimal and a word after white space match as the tail |
| WhatsApp.TipPhraseMatches | src/whatsapp/bot.js:416 | `tip <amount> <word>` in any case matches with those parts |
| WhatsApp.Natural | src/whatsapp/bot.js:411-440 | a tip is tried exactly for a reply whose text matches a pattern, with the quoted author as recipient; the not-understood reply comes exactly for any other text that mentions tip, send or crypto |
| WhatsApp.NaturalSendsWhenAllPass | src/whatsapp/bot.js:419-434 | a matched reply passing every guard is sent |
| WhatsApp.UnrepliedMatchNotUnderstood | src/whatsapp/bot.js:419-440 | a send or tip match without a quoted message gets the not-understood reply |
| WhatsApp.HandleNaturalLanguage | src/whatsapp/bot.js:411-440 | answers by `Natural`, and the ledger gets one row exactly when a tip is sent |
| WhatsApp.TipStep | src/whatsapp/bot.js:271-302 | refused exactly when the checks fail; otherwise processed with the request's parts |
| WhatsApp.TipSentToQuotedAuthor | src/whatsapp/bot.js:280-297 | a sent tip goes to the quoted author, never the sender |
| WhatsApp.HandleTip | src/whatsapp/bot.js:271-302 | answers by `TipStep`, and the ledger gets one row exactly when a tip is sent |
| WhatsApp.TipReplyAsWritten | src/whatsapp/bot.js:9 | as written, every request past the checks is answered with the failure apology |
| WhatsApp.UndefinedParseAmount | src/whatsapp/bot.js:306 | as written the tip fails; with the parser its callers expect, the same request is sent |
| WhatsApp.NaturalAsWrittenNeverSends | src/whatsapp/bot.js:427-430 | as written, a lower-case natural-language tip stops at the token check whatever the users, balances and chain: it is never sent |
| WhatsApp.RecipientNotice | src/whatsapp/bot.js:384-399 | the notice opens with the received-tip heading |
| WhatsApp.Handle | src/whatsapp/bot.js:79-127 | skipped, tip, withdraw and natural-language handling each come exactly for their route |
| WhatsApp.OnlyRepliesMoveFunds | src/whatsapp/bot.js:79-127 | funds move only for a direct reply routed to tip or to natural language, with a checked balance and a mined transfer |
| WhatsApp.HandleRoute | src/whatsapp/bot.js:93-124 | a routed message goes to `handleTip` exactly for the tip command, to `handleWithdraw` exactly for withdraw and to `handleNaturalLanguage` exactly when the first word names no command; it is never skipped |
| WhatsApp.HandleRouted | src/whatsapp/bot.js:93-124 | answers by `HandleRoute`; the ledger grows by one row, keeping its old rows, exactly when funds move |
| WhatsApp.HandleMessage | src/whatsapp/bot.js:79-127 | answers by `Handle`; the ledger grows by one row exactly when funds move |
| WhatsApp.WithdrawReply | src/whatsapp/bot.js:490-502 | usage exactly with fewer than four words, "coming soon" otherwise |

## Left out

- Network and database I/O are not modelled. The chain is a set of answers
  passed in: balances, gas estimates, transfer results and hashes. Wallet
  generation, encryption and decryption, and Telegram and WhatsApp delivery
  are also not modelled; the model stops at the text of each reply.
- Progress messages, message edits and the 24-hour `setTimeout` cleanup of
  the daily tracker are not modelled. The tracker keeps its entries; the
  date key already separates days.
- Promise ordering and concurrent handlers are not modelled. Each handler
  runs alone against the stores.
- Floating point is not modelled. Amounts are exact reals, `toFixed` rounds
  half up, and `toString` of a number is a decimal text with its trailing
  zeros removed.
- `toUpperCase` and `toLowerCase` are ASCII only, so Unicode case mapping is
  out.
- `toLocaleDateString` and `toDateString` are inputs: the day text and the
  history dates are passed in.
- `ethers.isAddress` and `ethers.getAddress` form one checksum oracle
  parameter.
- The WhatsApp `start`, `help`, `balance`, `deposit` and `network` handlers
  are not modelled. They repeat the Telegram ones against the same stores;
  routing to them is modelled.
- SplitCommand.CalcWords: the total is read with `Text.ParseFloat`, which
  takes the whole word as an optional sign and `\d+(?:\.\d+)?`. JavaScript's
  `parseFloat` reads the longest numeric prefix instead. So "60usd", "5." and
  ".5" give 60, 5 and 0.5 there, and "1e3" and "Infinity" are numbers; the
  model refuses all of them as an invalid total.
- SplitCommand.CalcWords: the people count is read with `Text.ParseInt`, an
  optional sign and the digits that start the word, so "3people" is 3 as in
  JavaScript. But `parseInt` reads "0x3" as hexadecimal 3, where the model
  reads 0. Words never hold white space, so the leading white space
  `parseInt` skips does not arise.
- SplitCommand.SplitWords: the manual people count is read with the same
  `Text.ParseInt`, with the same "0x" difference.
- Validation.ValidateAmount: a text amount is read with the same whole-word
  `Text.ParseFloat`. The handlers only pass it texts that match
  `\d+(?:\.\d+)?`, where the two readings agree.
- WhatsApp.Process does not model `parseFloat` of a non-numeric balance
  string, which JavaScript turns into NaN. The balance check is a number or
  a failure.
- The catch around the `message` listener is not modelled. The rewrite is
  total, so in the model it never throws.
- `getRemainingPoints` is not modelled. It only forwards the tip limiter's
  `get`.
- `Transaction.count` is not modelled. It is not called by the core's
  handlers.
- The SQL `getGroupStats`, `getTopTippers` and `getTopReceivers` are not
  modelled. JavaScript replaces the first `getGroupStats` with the second,
  which Ledger.GetGroupStats models. The other two read a `group_id` column
  that the rows do not have.
- `formatGroupStats` and `formatUserStats` are not modelled. Their handlers
  are outside the core.
- TipHandler.PendingTip: `handleTip` passes eight positional arguments to
  `Transaction.create`, which reads one object. The row modelled is the one
  the call evidently means.
- TipHandler.TipCacheSender and TipHandler.TipCacheRecipient call the
  four-argument `updateBalance` with three arguments. The model writes the
  evidently meant default-network rows. As written, the new balance lands in
  the network parameter. For the recipient it is positive, so no row
  matches. For the sender it can be 0; then `0 || 'BASE'` selects the BASE
  row, and its balance becomes NULL.
- WithdrawHandler.WithdrawCacheEffect (and the WithdrawHandler.WithdrawCache
  write it describes) models the same three-argument `updateBalance` call of
  the withdraw handler as the meant write of the BASE row. As written, no row
  matches unless the balance left is 0; then the BASE row's balance becomes
  NULL.
- BalanceCache.IsCacheValid compares the clock with the stored time
  directly. The database stores `CURRENT_TIMESTAMP`, UTC text with
  one-second resolution, and `new Date` reads that text as local time. On a
  host that is not at UTC every row's age is off by the UTC offset, and the
  model does not capture this.
- Chat.ParseAmount: `/batchtip` and `/split` import the same undefined
  `parseAmount` as the WhatsApp bot. Their models use the positive-decimal
  parser its callers expect. As written, every command that reaches the
  `parseAmount` call answers with its generic failure. `/split calc` does not
  call it, and the usage and recipient-count replies come before the call.
- WhatsApp.Tail: the tail `\s+(\d+(?:\.\d+)?)\s+(\w+)` is modelled with
  greedy runs that never give characters back. A shorter run would leave a
  space, a digit or a '.' where the next part cannot start, so no other match
  exists. This is argued in comments and not proved. The backtracking of the
  verb's `\s+` and of the lazy group is proved (`VerbAtSound`,
  `VerbAtComplete`).

## Findings

| source | as written | input that shows it | evidently intended | confidence | as-written member | corrected member |
|---|---|---|---|---|---|---|
| src/whatsapp/bot.js:9 | `parseAmount` is imported from the validation module, which does not define it; `processTip` calls it first, so it throws and `handleTip` replies "Tip failed" | "tip 5 usdc" replying to a message of another registered user with 5 USDC on the sender's network | a positive decimal amount parser | not executed | WhatsApp.TipReplyAsWritten | Chat.ParseAmount |
| src/whatsapp/bot.js:427-430 | the natural-language token goes to `processTip` as matched in the lower-cased text, and no key of the token tables is lower case | "please send bob 5 usdc" replying to another registered user's message | the token upper-cased, as `handleTip` does at line 294 | not executed | WhatsApp.NaturalAsWrittenNeverSends | WhatsApp.NaturalSendsWhenAllPass |
| src/bot/commands/batchtip.js:123 | each leg calls `transactionManager.sendTransaction`, which neither `TransactionManager` nor the `WalletManager` it extends defines, so every leg throws into its own `catch`; `/split` does the same at split.js:174 | "/batchtip @alice 5 USDC" from a registered sender with enough USDC, once the amount parser exists and the key is read from `private_key_encrypted` (see the batchtip.js:85 row) | a transfer method of the transaction manager that sends the amount and returns the hash | not executed | Payout.NoLegPaysAsWritten | Payout.PayLegs |
| src/whatsapp/bot.js:366 | `processTip` calls the same undefined `sendTransaction`, so a tip that passes every guard ends in "Transaction failed" and records nothing | "tip 5 USDC" replying to another registered user's message, with 5 USDC on the sender's network, the amount parser fixed and the key read from `private_key_encrypted` | the transfer goes through and the completed row is recorded | not executed | WhatsApp.SendAsWrittenFails | WhatsApp.SentWhenAllPass |
| src/bot/commands/batchtip.js:85 | the sender's key is read from `encrypted_private_key`, but the users table stores it as `private_key_encrypted` (src/database/models/User.js:6), so `JSON.parse(undefined)` throws in the decryption and the handler's catch answers "Batch tip failed" | "/batchtip @alice 5 USDC" from a registered sender whose network lists USDC, with @alice registered, once the amount parser exists | the key read from `private_key_encrypted`, as tip.js:102 does | not executed | BatchTip.KeyFieldAsWrittenCrashes | BatchTip.BatchProceedsWhenAllPass |
| src/bot/commands/split.js:140 | the same field name in `/split`, so an automatic split that passes every earlier check answers "Bill split failed" | "/split 10 @alice USDC" from a registered sender whose network lists USDC, with @alice registered, once the amount parser exists | the key read from `private_key_encrypted` | not executed | SplitCommand.KeyFieldAsWrittenCrashes | SplitCommand.SplitProceedsWhenAllPass |
| src/whatsapp/bot.js:338 | the same field name in `processTip`, inside its `try`, so a tip that passes every guard answers "Transaction failed" | "tip 5 USDC" replying to another registered user's message, with the amount parser fixed | the key read from `private_key_encrypted` | not executed | WhatsApp.KeyFieldAsWrittenFails | WhatsApp.SentWhenAllPass |
