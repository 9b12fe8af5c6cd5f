/** The `/tip` command of `src/bot/commands/tip.js`: seven guards in a fixed
    order, then a pending ledger row, the transfer on the chain, and the status
    and cache writes that follow from its answer. The chain's answers (the
    balance check and the transfer) are inputs; the date and the clock are too. */
module TipHandler {
  import opened Wrappers
  import opened Validation
  import opened RateLimiting
  import opened Chat
  import Users
  import Ledger
  import BalanceCache
  import Formatter
  import Numbers
  import Constants

  /** How a tip ends: refused by one of the guards, or after the ledger row was
      written, with the chain's answer. */
  datatype TipOutcome =
    | Throttled(error: string)
    | Rejected(error: string)
    | OverDailyLimit(remaining: real)
    | SenderUnregistered
    | RecipientUnknown(username: string)
    | SelfTip
    | Insufficient(available: string, amount: real, token: string)
    | Completed(txId: nat, cmd: TipCommand, txHash: string)
    | Failed(txId: nat, error: string)
    | Crashed(txId: nat)
  {
    predicate Refused() {
      !(Completed? || Failed? || Crashed?)
    }
  }

  /** `middleware(id, 'tip')`: the command counter's refusal first, then the tip
      counter's. */
  function TipAdmission(commandWindows: map<string, Window>, tipWindows: map<string, Window>,
                        id: string, now: int): (a: Admission)
    ensures Refusal(commandWindows, id, now, CommandLimiter).Some? ==> a == Admit(Refusal(commandWindows, id, now, CommandLimiter), CommandLimited)
    ensures Refusal(commandWindows, id, now, CommandLimiter).None? ==> a == Admit(Refusal(tipWindows, id, now, TipLimiter), Constants.RateLimited)
  {
    match Refusal(commandWindows, id, now, CommandLimiter)
    case Some(_) => Admit(Refusal(commandWindows, id, now, CommandLimiter), CommandLimited)
    case None => Admit(Refusal(tipWindows, id, now, TipLimiter), Constants.RateLimited)
  }

  /** Where the guards of `handleTip` leave a tip: refused with the first
      failing guard's answer, or let through with the parsed command, both users
      and the sender's checked balance. */
  datatype Gate =
    | Refuse(outcome: TipOutcome)
    | Proceed(cmd: TipCommand, from: Users.UserRow, to: Users.UserRow, balance: real)

  /** The guards of `handleTip` in their order, for a message from `id` on the
      day `today`: the rate limiter's answer, the parse, the daily cap, the
      sender, the recipient, the self-tip test and the balance check. */
  function TipGuards(admission: Admission, parsed: Result<TipCommand>, tracker: map<string, real>,
                     id: string, today: string, userRows: seq<Users.UserRow>, check: BalanceCheck): (g: Gate)
    ensures g.Refuse? ==> g.outcome.Refused()
  {
    if admission.Denied? then Refuse(Throttled(admission.error))
    else
      match parsed
      case Err(e) => Refuse(Rejected(e))
      case Ok(cmd) =>
        match DailyCheck(tracker, DailyKey(id, today), cmd.amount)
        case DailyDenied(remaining) => Refuse(OverDailyLimit(remaining))
        case DailyAllowed(_) =>
          match Users.FindByTelegramId(userRows, id)
          case None => Refuse(SenderUnregistered)
          case Some(from) =>
            match Users.FindByUsername(userRows, cmd.username)
            case None => Refuse(RecipientUnknown(cmd.username))
            case Some(to) =>
              if from.telegramId == to.telegramId then Refuse(SelfTip)
              else if !Sufficient(check, cmd.amount) then
                Refuse(Insufficient(BalanceShown(check), cmd.amount, cmd.tokenSymbol))
              else Proceed(cmd, from, to, check.currentBalance)
  }

  /** The guards on the state the limiter and the user table are in. */
  function TipGuardsOf(limiter: RateLimiter, users: Users.UserTable, id: string, text: string,
                       now: int, today: string, check: BalanceCheck): Gate
    reads limiter, users
  {
    TipGuards(TipAdmission(limiter.commandWindows, limiter.tipWindows, id, now), ParseTipCommand(text),
              limiter.dailyTipTracker, id, today, users.rows, check)
  }

  /** A tip the guards let through is admitted, parsed, within today's cap, from
      the registered sender to a registered recipient with another id, and
      leaves the sender's checked balance non-negative. */
  lemma TipProceedsOnlyWhenSafe(admission: Admission, parsed: Result<TipCommand>, tracker: map<string, real>,
                                id: string, today: string, userRows: seq<Users.UserRow>, check: BalanceCheck)
    requires TipGuards(admission, parsed, tracker, id, today, userRows, check).Proceed?
    ensures var g := TipGuards(admission, parsed, tracker, id, today, userRows, check);
      && admission.Allowed? && parsed == Ok(g.cmd)
      && DailyTotal(tracker, DailyKey(id, today)) + g.cmd.amount <= MaxDaily
      && Users.FindByTelegramId(userRows, id) == Some(g.from)
      && Users.FindByUsername(userRows, g.cmd.username) == Some(g.to)
      && g.to.telegramId != id && g.from.telegramId == id
      && check == Checked(g.balance) && g.balance - g.cmd.amount >= 0.0
  {
  }

  /** A tip that passes the admission, the parse and the daily cap, from a
      registered sender to a registered recipient with another id and with
      enough funds, is let through: the guards above are the only ones. */
  lemma TipProceedsWhenAllGuardsPass(admission: Admission, parsed: Result<TipCommand>, tracker: map<string, real>,
                                     id: string, today: string, userRows: seq<Users.UserRow>, check: BalanceCheck)
    requires admission.Allowed? && parsed.Ok?
    requires DailyTotal(tracker, DailyKey(id, today)) + parsed.value.amount <= MaxDaily
    requires Users.FindByTelegramId(userRows, id).Some?
    requires Users.FindByUsername(userRows, parsed.value.username).Some?
    requires Users.FindByUsername(userRows, parsed.value.username).value.telegramId != id
    requires Sufficient(check, parsed.value.amount)
    ensures TipGuards(admission, parsed, tracker, id, today, userRows, check).Proceed?
  {
  }

  /** The order of the guards: a later guard's refusal is reported only when
      the earlier ones pass, and a recipient with the sender's id is refused. */
  lemma TipGuardOrder(admission: Admission, parsed: Result<TipCommand>, tracker: map<string, real>,
                      id: string, today: string, userRows: seq<Users.UserRow>, check: BalanceCheck)
    ensures var g := TipGuards(admission, parsed, tracker, id, today, userRows, check);
      && (admission.Denied? <==> g.Refuse? && g.outcome.Throttled?)
      && (g.Refuse? && g.outcome.Rejected? <==> admission.Allowed? && parsed.Err?)
      && (g.Refuse? && g.outcome.OverDailyLimit? <==>
            admission.Allowed? && parsed.Ok? && DailyTotal(tracker, DailyKey(id, today)) + parsed.value.amount > MaxDaily)
      && (g.Refuse? && g.outcome.SenderUnregistered? ==> Users.FindByTelegramId(userRows, id).None?)
      && (g.Refuse? && g.outcome.SelfTip? ==>
            Users.FindByUsername(userRows, parsed.value.username).Some?
            && Users.FindByUsername(userRows, parsed.value.username).value.telegramId == id)
      && (g.Refuse? && g.outcome.Insufficient? ==> !Sufficient(check, parsed.value.amount))
  {
  }

  // ---------------------------------------------------------------------------
  // What a tip writes

  /** The row `handleTip` means to insert before the transfer: sender and
      recipient ids, the amount, the token and the memo, no network and no hash,
      and the default status. The handler passes these positionally, while
      `create` reads them from one object. */
  function PendingTip(from: Users.UserRow, to: Users.UserRow, cmd: TipCommand): (d: Ledger.NewTx)
    ensures d.status.None? && d.txHash.None? && d.network.None?
    ensures d.senderId == from.telegramId && d.recipientId == to.telegramId
    ensures d.amount == cmd.amount && d.token == cmd.tokenSymbol && d.message == Some(cmd.message)
  {
    Ledger.NewTx(from.telegramId, to.telegramId, cmd.amount, cmd.tokenSymbol, None, None, Some(cmd.message), None)
  }

  /** The cache after a completed tip: the sender's row gets the checked balance
      less the amount, then the recipient's row gets its cached balance plus the
      amount. Both writes use the default network: the handler passes three
      arguments to the four-argument `updateBalance`. */
  function TipCache(rows: seq<BalanceCache.BalanceRow>, fromId: string, toId: string, token: string,
                    senderBalance: real, amount: real, now: int): seq<BalanceCache.BalanceRow>
  {
    var afterSender := BalanceCache.Update(rows, fromId, token, None, Debited(senderBalance, amount), now);
    BalanceCache.Update(afterSender, toId, token, None, Credited(afterSender, toId, token, amount), now)
  }

  /** The sender's new cached balance: the checked balance less the amount. */
  function Debited(balance: real, amount: real): real {
    balance - amount
  }

  /** The recipient's new cached balance: the cached one plus the amount, or the
      amount alone when nothing is cached. */
  function Credited(rows: seq<BalanceCache.BalanceRow>, toId: string, token: string, amount: real): real {
    var toRow := BalanceCache.Get(rows, toId, token, "BASE");
    if toRow.Some? then toRow.value.balance + amount else amount
  }

  /** A completed tip keeps the cache's keys unique and debits the sender's
      cached row, when there is one, to the checked balance less the amount. */
  lemma TipCacheSender(rows: seq<BalanceCache.BalanceRow>, fromId: string, toId: string, token: string,
                       senderBalance: real, amount: real, now: int)
    requires BalanceCache.UniqueKeys(rows)
    requires fromId != toId
    ensures var r := TipCache(rows, fromId, toId, token, senderBalance, amount, now);
      var fromRow := BalanceCache.Get(rows, fromId, token, "BASE");
      && BalanceCache.UniqueKeys(r)
      && BalanceCache.Get(r, fromId, token, "BASE") ==
           (if fromRow.Some? then Some(fromRow.value.(balance := Debited(senderBalance, amount), lastUpdated := now)) else None)
  {
    var afterSender := BalanceCache.Update(rows, fromId, token, None, Debited(senderBalance, amount), now);
    BalanceCache.UpdateProperties(rows, fromId, token, None, Debited(senderBalance, amount), now);
    var newTo := Credited(afterSender, toId, token, amount);
    BalanceCache.UpdateProperties(afterSender, toId, token, None, newTo, now);
    BalanceCache.UpdateKeepsOtherKeys(afterSender, toId, token, None, newTo, now, fromId, token, "BASE");
  }

  /** A completed tip credits the recipient's cached row, when there is one, with
      the amount; without a row nothing is created for the recipient. */
  lemma TipCacheRecipient(rows: seq<BalanceCache.BalanceRow>, fromId: string, toId: string, token: string,
                          senderBalance: real, amount: real, now: int)
    requires BalanceCache.UniqueKeys(rows)
    requires fromId != toId
    ensures var r := TipCache(rows, fromId, toId, token, senderBalance, amount, now);
      var toRow := BalanceCache.Get(rows, toId, token, "BASE");
      BalanceCache.Get(r, toId, token, "BASE") ==
        (if toRow.Some? then Some(toRow.value.(balance := toRow.value.balance + amount, lastUpdated := now)) else None)
  {
    var afterSender := BalanceCache.Update(rows, fromId, token, None, Debited(senderBalance, amount), now);
    BalanceCache.UpdateProperties(rows, fromId, token, None, Debited(senderBalance, amount), now);
    BalanceCache.UpdateKeepsOtherKeys(rows, fromId, token, None, Debited(senderBalance, amount), now, toId, token, "BASE");
    var newTo := Credited(afterSender, toId, token, amount);
    BalanceCache.UpdateProperties(afterSender, toId, token, None, newTo, now);
  }

  /** A completed tip leaves the cached balance of every other key as it was:
      other users, other tokens and other networks. */
  lemma TipCacheOthers(rows: seq<BalanceCache.BalanceRow>, fromId: string, toId: string, token: string,
                       senderBalance: real, amount: real, now: int, u: string, t: string, n: string)
    requires !(t == token && n == "BASE" && (u == fromId || u == toId))
    ensures BalanceCache.Get(TipCache(rows, fromId, toId, token, senderBalance, amount, now), u, t, n)
            == BalanceCache.Get(rows, u, t, n)
  {
    var afterSender := BalanceCache.Update(rows, fromId, token, None, Debited(senderBalance, amount), now);
    var newTo := Credited(afterSender, toId, token, amount);
    BalanceCache.UpdateKeepsOtherKeys(rows, fromId, token, None, Debited(senderBalance, amount), now, u, t, n);
    BalanceCache.UpdateKeepsOtherKeys(afterSender, toId, token, None, newTo, now, u, t, n);
  }

  /** Settling the pending row, the last one of the ledger, rewrites that row
      only: the ledger is the old one plus that row with its new status and
      hash. */
  lemma {:induction false} SettleLastRow(rows: seq<Ledger.TxRow>, id: nat, d: Ledger.NewTx,
                                         status: Ledger.Status, txHash: Option<string>)
    requires Ledger.IdsBelow(rows, id)
    ensures Ledger.SetStatus(rows + [Ledger.RowOf(id, d)], id, status, txHash)
            == rows + [Ledger.RowOf(id, d.(status := Some(status), txHash := txHash))]
  {
    var r := Ledger.SetStatus(rows + [Ledger.RowOf(id, d)], id, status, txHash);
    assert forall i :: 0 <= i < |rows| ==> r[i] == rows[i] by {
      forall i | 0 <= i < |rows| ensures r[i] == rows[i] {
        assert (rows + [Ledger.RowOf(id, d)])[i] == rows[i];
      }
    }
  }

  // ---------------------------------------------------------------------------
  // The handler

  /** The guard phase of `handleTip` on the limiter: the middleware, the parse
      and the daily cap, which charges the tracker as soon as the command parses,
      then the lookups and checks that write nothing. */
  method RunGuards(limiter: RateLimiter, users: Users.UserTable, id: string, text: string,
                   now: int, today: string, check: BalanceCheck)
    returns (g: Gate)
    requires limiter.Valid()
    modifies limiter
    ensures limiter.Valid()
    ensures g == old(TipGuardsOf(limiter, users, id, text, now, today, check))
    // The middleware's counters: a command point always, a tip point unless the
    // command counter refused.
    ensures limiter.commandWindows == AfterConsume(old(limiter.commandWindows), id, now, CommandLimiter)
    ensures limiter.tipWindows ==
      if Refusal(old(limiter.commandWindows), id, now, CommandLimiter).Some? then old(limiter.tipWindows)
      else AfterConsume(old(limiter.tipWindows), id, now, TipLimiter)
    // The daily cap is charged once the command parses, before the
    // registration, self-tip and balance guards.
    ensures g.Refuse? && (g.outcome.Throttled? || g.outcome.Rejected?) ==>
      limiter.dailyTipTracker == old(limiter.dailyTipTracker)
    ensures !(g.Refuse? && (g.outcome.Throttled? || g.outcome.Rejected?)) ==>
      && ParseTipCommand(text).Ok?
      && limiter.dailyTipTracker ==
           DailyAfter(old(limiter.dailyTipTracker), DailyKey(id, today), ParseTipCommand(text).value.amount)
  {
    var admission := limiter.Middleware(id, "tip", now);
    var parsed := ParseTipCommand(text);
    if admission.Denied? {
      return Refuse(Throttled(admission.error));
    }
    if parsed.Err? {
      return Refuse(Rejected(parsed.error));
    }
    var cmd := parsed.value;
    var daily := limiter.CheckDailyTipLimit(id, cmd.amount, today);
    if daily.DailyDenied? {
      return Refuse(OverDailyLimit(daily.remaining));
    }
    var fromUser := Users.FindByTelegramId(users.rows, id);
    if fromUser.None? {
      return Refuse(SenderUnregistered);
    }
    var toUser := Users.FindByUsername(users.rows, cmd.username);
    if toUser.None? {
      return Refuse(RecipientUnknown(cmd.username));
    }
    if fromUser.value.telegramId == toUser.value.telegramId {
      return Refuse(SelfTip);
    }
    if !Sufficient(check, cmd.amount) {
      return Refuse(Insufficient(BalanceShown(check), cmd.amount, cmd.tokenSymbol));
    }
    g := Proceed(cmd, fromUser.value, toUser.value, check.currentBalance);
  }

  /** `handleTip` for the message `text` from `id`, at `now` on the day
      `today`. `check` is what the balance check answers and `transfer` what
      decrypting the key and sending come to; each is consulted only when the
      handler gets that far. */
  method HandleTip(limiter: RateLimiter, users: Users.UserTable, ledger: Ledger.LedgerTable,
                   cache: BalanceCache.BalanceTable, id: string, text: string, now: int, today: string,
                   check: BalanceCheck, transfer: Transfer)
    returns (o: TipOutcome)
    requires limiter.Valid() && ledger.Valid() && cache.Valid()
    modifies limiter, ledger, cache
    ensures limiter.Valid() && ledger.Valid() && cache.Valid()
    // The limiter's counters as the guards leave them: a command point always,
    // a tip point unless the command counter refused, and the daily cap charged
    // once the command parses.
    ensures limiter.commandWindows == AfterConsume(old(limiter.commandWindows), id, now, CommandLimiter)
    ensures limiter.tipWindows ==
      if Refusal(old(limiter.commandWindows), id, now, CommandLimiter).Some? then old(limiter.tipWindows)
      else AfterConsume(old(limiter.tipWindows), id, now, TipLimiter)
    ensures
      var g := old(TipGuardsOf(limiter, users, id, text, now, today, check));
      if g.Refuse? && (g.outcome.Throttled? || g.outcome.Rejected?) then
        limiter.dailyTipTracker == old(limiter.dailyTipTracker)
      else
        && ParseTipCommand(text).Ok?
        && limiter.dailyTipTracker ==
             DailyAfter(old(limiter.dailyTipTracker), DailyKey(id, today), ParseTipCommand(text).value.amount)
    // A refusal is the first failing guard's and touches neither ledger nor cache.
    ensures o.Refused() <==> old(TipGuardsOf(limiter, users, id, text, now, today, check)).Refuse?
    ensures o.Refused() ==>
      && o == old(TipGuardsOf(limiter, users, id, text, now, today, check)).outcome
      && ledger.rows == old(ledger.rows) && ledger.nextId == old(ledger.nextId)
      && cache.rows == old(cache.rows)
    // Past the guards: one pending row, then its settlement.
    ensures !o.Refused() ==>
      var g := old(TipGuardsOf(limiter, users, id, text, now, today, check));
      Settled(old(ledger.rows), old(ledger.nextId), old(cache.rows), ledger.rows, ledger.nextId, cache.rows,
              g.from, g.to, g.cmd, g.balance, now, transfer, o)
  {
    var g := RunGuards(limiter, users, id, text, now, today, check);
    assert g.Refuse? ==> g.outcome.Refused();
    match g {
      case Refuse(out) =>
        o := out;
      case Proceed(cmd, from, to, balance) =>
        o := Settle(ledger, cache, from, to, cmd, balance, now, transfer);
    }
  }

  /** The ledger and the cache after the transfer of a tip let through: one
      pending row, rewritten to completed with the hash or to failed, and on
      completion the two cache writes. */
  ghost predicate Settled(rows: seq<Ledger.TxRow>, nextId: nat, cacheRows: seq<BalanceCache.BalanceRow>,
                          rows': seq<Ledger.TxRow>, nextId': nat, cacheRows': seq<BalanceCache.BalanceRow>,
                          from: Users.UserRow, to: Users.UserRow, cmd: TipCommand, senderBalance: real,
                          now: int, transfer: Transfer, o: TipOutcome)
  {
    var d := PendingTip(from, to, cmd);
    && nextId' == nextId + 1
    && match transfer
       case Sent(h) =>
         && o == Completed(nextId, cmd, h)
         && rows' == rows + [Ledger.RowOf(nextId, d.(status := Some(Ledger.Completed), txHash := Some(h)))]
         && cacheRows' == TipCache(cacheRows, from.telegramId, to.telegramId, cmd.tokenSymbol,
                                   senderBalance, cmd.amount, now)
       case TransferFailed(e) =>
         && o == Failed(nextId, e)
         && rows' == rows + [Ledger.RowOf(nextId, d.(status := Some(Ledger.Failed), txHash := None))]
         && cacheRows' == cacheRows
       case TransferThrew =>
         && o == Crashed(nextId)
         && rows' == rows + [Ledger.RowOf(nextId, d.(status := Some(Ledger.Failed), txHash := None))]
         && cacheRows' == cacheRows
  }

  /** The part of `handleTip` past the guards: the pending row, the transfer,
      and the writes its answer calls for. */
  method Settle(ledger: Ledger.LedgerTable, cache: BalanceCache.BalanceTable, from: Users.UserRow,
                to: Users.UserRow, cmd: TipCommand, senderBalance: real, now: int, transfer: Transfer)
    returns (o: TipOutcome)
    requires ledger.Valid() && cache.Valid()
    modifies ledger, cache
    ensures ledger.Valid() && cache.Valid()
    ensures Settled(old(ledger.rows), old(ledger.nextId), old(cache.rows), ledger.rows, ledger.nextId, cache.rows,
                    from, to, cmd, senderBalance, now, transfer, o)
  {
    var d := PendingTip(from, to, cmd);
    ghost var before := ledger.rows;
    var txId := ledger.Create(d);
    match transfer {
      case Sent(h) =>
        ledger.UpdateStatus(txId, Ledger.Completed, Some(h));
        SettleLastRow(before, txId, d, Ledger.Completed, Some(h));
        cache.UpdateBalance(from.telegramId, cmd.tokenSymbol, None, Debited(senderBalance, cmd.amount), now);
        var toBalance := BalanceCache.Get(cache.rows, to.telegramId, cmd.tokenSymbol, "BASE");
        var newToBalance := if toBalance.Some? then toBalance.value.balance + cmd.amount else cmd.amount;
        assert newToBalance == Credited(cache.rows, to.telegramId, cmd.tokenSymbol, cmd.amount);
        cache.UpdateBalance(to.telegramId, cmd.tokenSymbol, None, newToBalance, now);
        o := Completed(txId, cmd, h);
      case TransferFailed(e) =>
        ledger.UpdateStatus(txId, Ledger.Failed, None);
        SettleLastRow(before, txId, d, Ledger.Failed, None);
        o := Failed(txId, e);
      case TransferThrew =>
        ledger.UpdateStatus(txId, Ledger.Failed, None);
        SettleLastRow(before, txId, d, Ledger.Failed, None);
        o := Crashed(txId);
    }
  }

  // ---------------------------------------------------------------------------
  // Replies

  /** The text `checkDailyTipLimit` refuses with. */
  function DailyLimitError(remaining: real): string {
    "Daily limit exceeded. You can tip $" + Numbers.NumberText(remaining) + " more today."
  }

  /** What the chat finally shows: the refusal, or the processing notice edited
      into the result. */
  function TipReply(o: TipOutcome): string
  {
    match o
    case Throttled(error) => error
    case Rejected(error) => Formatter.FormatError(Formatter.JsString(error))
    case OverDailyLimit(remaining) => Formatter.FormatError(Formatter.JsString(DailyLimitError(remaining)))
    case SenderUnregistered => StartFirst
    case RecipientUnknown(username) => Constants.UserNotFound(username)
    case SelfTip => Formatter.FormatError(Formatter.JsString("You can't tip yourself!"))
    case Insufficient(available, amount, token) =>
      Constants.InsufficientFunds(available, Numbers.NumberText(amount), token)
    case Completed(_, cmd, h) =>
      Constants.TipSuccess(Numbers.NumberText(cmd.amount), cmd.tokenSymbol, cmd.username,
                           Formatter.FormatTxHash(Some(h)))
    case Failed(_, error) => Formatter.FormatError(Formatter.JsString("Transaction failed: " + error))
    case Crashed(_) => Formatter.FormatError(Formatter.JsString("Transaction failed. Please try again."))
  }
}
