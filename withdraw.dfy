/** The `/withdraw` command of `src/bot/commands/withdraw.js`: guards in a fixed
    order, a confirmation prompt, the first CONFIRM or CANCEL the same user sends
    in the same chat within the minute, and on confirmation the transfer and the
    cache write. The chain's answers and the messages that arrive during the
    minute are inputs. Withdrawals are not recorded in the transaction table. */
module WithdrawHandler {
  import opened Wrappers
  import opened Text
  import opened Validation
  import opened Chat
  import Users
  import BalanceCache
  import Formatter
  import Numbers
  import Constants

  /** A chat message as the listener sees it: sender, chat and optional text. */
  datatype ChatMessage = ChatMessage(fromId: string, chatId: string, text: Option<string>)

  /** `estimateTransactionCost`: the gas cost in ETH, or an error. */
  datatype GasEstimate = GasCost(gasCostEth: real) | GasError

  /** How a withdrawal ends. */
  datatype WithdrawOutcome =
    | NotPrivate
    | Rejected(error: string)
    | Unregistered
    | Insufficient(available: string, amount: real, token: string)
    | GasFailed
    | Cancelled
    | TimedOut
    | Withdrawn(cmd: WithdrawCommand, txHash: string)
    | WithdrawFailed(error: string)
    | WithdrawCrashed
  {
    /** Ended before any transfer was attempted. */
    predicate Stopped() {
      !(Withdrawn? || WithdrawFailed? || WithdrawCrashed?)
    }
  }

  // ---------------------------------------------------------------------------
  // The confirmation listener

  /** The listener's filter: same user, same chat, a text that is CONFIRM or
      CANCEL in any letter case. */
  predicate IsAnswer(m: ChatMessage, id: string, chatId: string) {
    m.fromId == id && m.chatId == chatId && m.text.Some?
    && (ToUpper(m.text.value) == "CONFIRM" || ToUpper(m.text.value) == "CANCEL")
  }

  /** The upper-cased text of the first message of the minute that passes the
      filter, or `None` when the minute ends without one. */
  function Answer(incoming: seq<ChatMessage>, id: string, chatId: string): (r: Option<string>)
    ensures r.Some? <==> exists k :: 0 <= k < |incoming| && IsAnswer(incoming[k], id, chatId)
    ensures r.Some? ==> r.value == "CONFIRM" || r.value == "CANCEL"
    ensures r.Some? ==> exists k :: 0 <= k < |incoming| && IsAnswer(incoming[k], id, chatId)
                         && r.value == ToUpper(incoming[k].text.value)
                         && forall j :: 0 <= j < k ==> !IsAnswer(incoming[j], id, chatId)
    decreases |incoming|
  {
    if |incoming| == 0 then None
    else if IsAnswer(incoming[0], id, chatId) then Some(ToUpper(incoming[0].text.value))
    else
      var rest := Answer(incoming[1..], id, chatId);
      assert forall k :: 1 <= k < |incoming| ==> incoming[k] == incoming[1..][k - 1];
      if rest.Some? then
        ghost var k :| 0 <= k < |incoming[1..]| && IsAnswer(incoming[1..][k], id, chatId)
                       && rest.value == ToUpper(incoming[1..][k].text.value)
                       && forall j :: 0 <= j < k ==> !IsAnswer(incoming[1..][j], id, chatId);
        assert IsAnswer(incoming[k + 1], id, chatId);
        rest
      else rest
  }

  /** A message from another user or another chat, arriving at any point of the
      minute, does not change the answer. */
  lemma {:induction false} ForeignMessageIgnored(incoming: seq<ChatMessage>, m: ChatMessage, k: nat,
                                                 id: string, chatId: string)
    requires k <= |incoming|
    requires m.fromId != id || m.chatId != chatId
    ensures Answer(incoming[..k] + [m] + incoming[k..], id, chatId) == Answer(incoming, id, chatId)
    decreases k
  {
    var s := incoming[..k] + [m] + incoming[k..];
    if k == 0 {
      assert s == [m] + incoming;
      assert s[1..] == incoming;
    } else {
      assert s[0] == incoming[0];
      assert s[1..] == incoming[1..][..k - 1] + [m] + incoming[1..][k - 1..];
      ForeignMessageIgnored(incoming[1..], m, k - 1, id, chatId);
    }
  }

  /** Whatever follows the first answer does not change it. */
  lemma {:induction false} LaterMessagesIgnored(incoming: seq<ChatMessage>, later: seq<ChatMessage>,
                                                id: string, chatId: string)
    requires Answer(incoming, id, chatId).Some?
    ensures Answer(incoming + later, id, chatId) == Answer(incoming, id, chatId)
    decreases |incoming|
  {
    var s := incoming + later;
    assert s[0] == incoming[0];
    if !IsAnswer(incoming[0], id, chatId) {
      assert s[1..] == incoming[1..] + later;
      LaterMessagesIgnored(incoming[1..], later, id, chatId);
    }
  }

  // ---------------------------------------------------------------------------
  // The guards

  /** Where the guards leave a withdrawal: stopped with an outcome, or confirmed
      with the command, the user and the checked balance. */
  datatype Stage =
    | Stop(outcome: WithdrawOutcome)
    | Confirmed(cmd: WithdrawCommand, user: Users.UserRow, balance: real)

  /** The guards of `handleWithdraw` in their order: private chat, the parse,
      the registered user, the balance, the gas estimate, then the answer to the
      prompt. */
  function WithdrawGuards(isPrivate: bool, parsed: Result<WithdrawCommand>, userRows: seq<Users.UserRow>,
                          id: string, check: BalanceCheck, gas: GasEstimate, answer: Option<string>): (s: Stage)
    ensures s.Stop? ==> s.outcome.Stopped()
  {
    if !isPrivate then Stop(NotPrivate)
    else
      match parsed
      case Err(e) => Stop(Rejected(e))
      case Ok(cmd) =>
        match Users.FindByTelegramId(userRows, id)
        case None => Stop(Unregistered)
        case Some(user) =>
          if !Sufficient(check, cmd.amount) then
            Stop(Insufficient(BalanceShown(check), cmd.amount, cmd.tokenSymbol))
          else if gas.GasError? then Stop(GasFailed)
          else
            match answer
            case None => Stop(TimedOut)
            case Some(a) =>
              if a == "CANCEL" then Stop(Cancelled)
              else if a == "CONFIRM" then Confirmed(cmd, user, check.currentBalance)
              else Stop(TimedOut)
  }

  /** A transfer is attempted only from a private chat, for a command that
      parsed, by a registered user whose checked balance covers the amount,
      after a gas estimate, and after that user's first answer in this chat was
      CONFIRM. */
  lemma ConfirmedOnlyWhenSafe(isPrivate: bool, parsed: Result<WithdrawCommand>, userRows: seq<Users.UserRow>,
                              id: string, check: BalanceCheck, gas: GasEstimate, answer: Option<string>)
    requires WithdrawGuards(isPrivate, parsed, userRows, id, check, gas, answer).Confirmed?
    ensures var s := WithdrawGuards(isPrivate, parsed, userRows, id, check, gas, answer);
      && isPrivate && parsed == Ok(s.cmd)
      && Users.FindByTelegramId(userRows, id) == Some(s.user) && s.user.telegramId == id
      && check == Checked(s.balance) && s.balance >= s.cmd.amount
      && gas.GasCost? && answer == Some("CONFIRM")
  {
  }

  /** Once every earlier guard passes, the answer alone decides: CONFIRM goes
      ahead, CANCEL cancels, and silence times out. */
  lemma AnswerDecides(isPrivate: bool, parsed: Result<WithdrawCommand>, userRows: seq<Users.UserRow>,
                      id: string, check: BalanceCheck, gas: GasEstimate, answer: Option<string>)
    requires isPrivate && parsed.Ok? && Users.FindByTelegramId(userRows, id).Some?
    requires Sufficient(check, parsed.value.amount) && gas.GasCost?
    ensures var s := WithdrawGuards(isPrivate, parsed, userRows, id, check, gas, answer);
      && (answer == Some("CONFIRM") <==> s.Confirmed?)
      && (answer == Some("CANCEL") <==> s == Stop(Cancelled))
      && (answer.None? ==> s == Stop(TimedOut))
  {
  }

  /** The order of the guards: a group chat is refused before anything is
      parsed, a parse error before any lookup, and so on down the list. */
  lemma WithdrawGuardOrder(isPrivate: bool, parsed: Result<WithdrawCommand>, userRows: seq<Users.UserRow>,
                           id: string, check: BalanceCheck, gas: GasEstimate, answer: Option<string>)
    ensures var s := WithdrawGuards(isPrivate, parsed, userRows, id, check, gas, answer);
      && (!isPrivate <==> s == Stop(NotPrivate))
      && (isPrivate && parsed.Err? <==> s.Stop? && s.outcome.Rejected?)
      && (s.Stop? && s.outcome.Unregistered? <==>
            isPrivate && parsed.Ok? && Users.FindByTelegramId(userRows, id).None?)
      && (s.Stop? && s.outcome.Insufficient? ==> !Sufficient(check, parsed.value.amount))
      && (s.Stop? && s.outcome.GasFailed? ==> Sufficient(check, parsed.value.amount) && gas.GasError?)
  {
  }

  /** The prompt sent before listening. */
  function ConfirmationPrompt(cmd: WithdrawCommand, gasCostEth: real): string {
    "🔄 **Withdrawal Confirmation:**\n\nAmount: " + Numbers.NumberText(cmd.amount) + " " + cmd.tokenSymbol
    + "\nTo: " + cmd.address + "\nGas fee: ~" + Numbers.Fixed(gasCostEth, 6)
    + " ETH\n\nReply with \"CONFIRM\" to proceed or \"CANCEL\" to abort."
  }

  // ---------------------------------------------------------------------------
  // The handler

  /** The cache after a completed withdrawal: the user's row for the token on
      the default network gets the checked balance less the amount. The handler
      passes three arguments to the four-argument `updateBalance`; the model
      gives the call its evident meaning. */
  function WithdrawCache(rows: seq<BalanceCache.BalanceRow>, id: string, token: string, balance: real,
                         amount: real, now: int): seq<BalanceCache.BalanceRow>
  {
    BalanceCache.Update(rows, id, token, None, Debited(balance, amount), now)
  }

  function Debited(balance: real, amount: real): real {
    balance - amount
  }

  /** A completed withdrawal debits the user's cached row for the token, when
      there is one, and leaves every other key's cached balance as it was. */
  lemma WithdrawCacheEffect(rows: seq<BalanceCache.BalanceRow>, id: string, token: string, balance: real,
                            amount: real, now: int, u: string, t: string, n: string)
    requires BalanceCache.UniqueKeys(rows)
    ensures var r := WithdrawCache(rows, id, token, balance, amount, now);
      var row := BalanceCache.Get(rows, id, token, "BASE");
      && BalanceCache.UniqueKeys(r)
      && BalanceCache.Get(r, id, token, "BASE") ==
           (if row.Some? then Some(row.value.(balance := Debited(balance, amount), lastUpdated := now)) else None)
      && (!(u == id && t == token && n == "BASE") ==> BalanceCache.Get(r, u, t, n) == BalanceCache.Get(rows, u, t, n))
  {
    BalanceCache.UpdateProperties(rows, id, token, None, Debited(balance, amount), now);
    if !(u == id && t == token && n == "BASE") {
      BalanceCache.UpdateKeepsOtherKeys(rows, id, token, None, Debited(balance, amount), now, u, t, n);
    }
  }

  /** The guards on the message, the user table and the chain's answers. */
  function WithdrawStageOf(users: Users.UserTable, id: string, chatId: string, isPrivate: bool, text: string,
                           checksum: string -> Option<string>, check: BalanceCheck, gas: GasEstimate,
                           incoming: seq<ChatMessage>): Stage
    reads users
  {
    WithdrawGuards(isPrivate, ParseWithdrawCommand(text, checksum), users.rows, id, check, gas,
                   Answer(incoming, id, chatId))
  }

  /** The guard phase of `handleWithdraw`, up to and including the wait for the
      answer; it writes nothing. */
  method RunWithdrawGuards(users: Users.UserTable, id: string, chatId: string, isPrivate: bool, text: string,
                           checksum: string -> Option<string>, check: BalanceCheck, gas: GasEstimate,
                           incoming: seq<ChatMessage>)
    returns (s: Stage)
    ensures s == WithdrawStageOf(users, id, chatId, isPrivate, text, checksum, check, gas, incoming)
  {
    if !isPrivate {
      return Stop(NotPrivate);
    }
    var parsed := ParseWithdrawCommand(text, checksum);
    if parsed.Err? {
      return Stop(Rejected(parsed.error));
    }
    var cmd := parsed.value;
    var found := Users.FindByTelegramId(users.rows, id);
    if found.None? {
      return Stop(Unregistered);
    }
    if !Sufficient(check, cmd.amount) {
      return Stop(Insufficient(BalanceShown(check), cmd.amount, cmd.tokenSymbol));
    }
    if gas.GasError? {
      return Stop(GasFailed);
    }
    var answer := Answer(incoming, id, chatId);
    if answer.None? {
      return Stop(TimedOut);
    }
    if answer.value == "CANCEL" {
      return Stop(Cancelled);
    }
    if answer.value != "CONFIRM" {
      return Stop(TimedOut);
    }
    s := Confirmed(cmd, found.value, check.currentBalance);
  }

  /** `handleWithdraw` for the message `text` from `id` in the chat `chatId`.
      `checksum` is the address checksummer, `check` the balance check, `gas`
      the estimate, `incoming` the messages of the minute after the prompt, and
      `transfer` what decrypting and sending come to. */
  method HandleWithdraw(users: Users.UserTable, cache: BalanceCache.BalanceTable, id: string, chatId: string,
                        isPrivate: bool, text: string, checksum: string -> Option<string>,
                        check: BalanceCheck, gas: GasEstimate, incoming: seq<ChatMessage>,
                        transfer: Transfer, now: int)
    returns (o: WithdrawOutcome)
    requires cache.Valid()
    modifies cache
    ensures cache.Valid()
    ensures var s := WithdrawStageOf(users, id, chatId, isPrivate, text, checksum, check, gas, incoming);
      && (o.Stopped() <==> s.Stop?)
      && (s.Stop? ==> o == s.outcome && cache.rows == old(cache.rows))
      && (s.Confirmed? ==>
            match transfer
            case Sent(h) =>
              && o == Withdrawn(s.cmd, h)
              && cache.rows == WithdrawCache(old(cache.rows), s.user.telegramId, s.cmd.tokenSymbol,
                                             s.balance, s.cmd.amount, now)
            case TransferFailed(e) => o == WithdrawFailed(e) && cache.rows == old(cache.rows)
            case TransferThrew => o == WithdrawCrashed && cache.rows == old(cache.rows))
  {
    var s := RunWithdrawGuards(users, id, chatId, isPrivate, text, checksum, check, gas, incoming);
    assert s.Stop? ==> s.outcome.Stopped();
    match s {
      case Stop(out) =>
        o := out;
      case Confirmed(cmd, user, balance) =>
        match transfer {
          case Sent(h) =>
            cache.UpdateBalance(user.telegramId, cmd.tokenSymbol, None, Debited(balance, cmd.amount), now);
            o := Withdrawn(cmd, h);
          case TransferFailed(e) =>
            o := WithdrawFailed(e);
          case TransferThrew =>
            o := WithdrawCrashed;
        }
    }
  }

  /** What the chat finally shows. */
  function WithdrawReply(o: WithdrawOutcome): string {
    match o
    case NotPrivate =>
      "🔒 For security, withdrawals can only be done in private chat. Please message me directly."
    case Rejected(error) => Formatter.FormatError(Formatter.JsString(error))
    case Unregistered => StartFirst
    case Insufficient(available, amount, token) =>
      Constants.InsufficientFunds(available, Numbers.NumberText(amount), token)
    case GasFailed => Formatter.FormatError(Formatter.JsString("Failed to estimate gas cost. Please try again."))
    case Cancelled => "❌ Withdrawal cancelled."
    case TimedOut => "⏰ Withdrawal confirmation timed out. Please try again."
    case Withdrawn(cmd, h) =>
      Constants.WithdrawalSuccess(Numbers.NumberText(cmd.amount), cmd.tokenSymbol, cmd.address,
                                  Formatter.FormatTxHash(Some(h)))
    case WithdrawFailed(error) => Formatter.FormatError(Formatter.JsString("Withdrawal failed: " + error))
    case WithdrawCrashed => Formatter.FormatError(Formatter.JsString("Withdrawal failed. Please try again."))
  }
}
