/** The `/batchtip @a @b … <amount> [token] [message]` command of
    `src/bot/commands/batchtip.js`: the same amount to each of up to ten
    registered users, checked in full before anything is sent, then paid leg by
    leg. */
module BatchTip {
  import opened Wrappers
  import opened Text
  import Users
  import Ledger
  import Constants
  import Chat
  import Numbers
  import Payout

  // ---------------------------------------------------------------------------
  // The words of the command

  /** Where the amount is: the first word after the leading mentions, or the
      first word of all when every word is a mention (`amountIndex` keeps its
      initial 0). */
  function AmountIndex(args: seq<string>): (i: nat)
    ensures |args| > 0 ==> i < |args|
  {
    if Chat.MentionRun(args) < |args| then Chat.MentionRun(args) else 0
  }

  /** `(args[amountIndex + 1] || 'USDC').toUpperCase()`. */
  function TokenWord(args: seq<string>, i: nat): string {
    if i + 1 < |args| && args[i + 1] != "" then ToUpper(args[i + 1]) else "USDC"
  }

  /** `args.slice(amountIndex + 2).join(' ')`. */
  function MessageWords(args: seq<string>, i: nat): string {
    if i + 2 <= |args| then Join(args[i + 2..], ' ') else ""
  }

  datatype Parsed = Parsed(names: seq<string>, amountText: string, token: string, message: string)

  function Parse(args: seq<string>): (q: Parsed)
    requires |args| > 0
    ensures q.names == Chat.Mentions(args)
    ensures |q.names| < |args| ==> q.amountText == args[|q.names|] && !StartsWith(q.amountText, "@")
    ensures |q.names| == |args| ==> q.amountText == args[0]
  {
    var i := AmountIndex(args);
    Parsed(Chat.Mentions(args), args[i], TokenWord(args, i), MessageWords(args, i))
  }

  /** The loop that fills `recipients` and sets `amountIndex`. */
  method CollectRecipients(args: seq<string>) returns (names: seq<string>, amountIndex: nat)
    ensures names == Chat.Mentions(args) && amountIndex == AmountIndex(args)
  {
    names := [];
    amountIndex := 0;
    var i := 0;
    while i < |args|
      invariant i <= |args| && i <= Chat.MentionRun(args)
      invariant names == Chat.Mentions(args)[..i]
      invariant amountIndex == 0
    {
      if StartsWith(args[i], "@") {
        names := names + [args[i][1..]];
        i := i + 1;
      } else {
        amountIndex := i;
        break;
      }
    }
    assert names == Chat.Mentions(args);
  }

  // ---------------------------------------------------------------------------
  // The guards

  datatype BatchOutcome =
    | Usage
    | NoRecipients
    | TooManyRecipients
    | InvalidAmount
    | NotRegistered
    | TokenUnsupported(token: string, network: string)
    | RecipientMissing(username: string)
    | OverLimit
    | Insufficient(balance: real, total: real, token: string)
      /** An exception reached the outer catch: the sender's network has no token
          table, or decrypting the key or reading the balance threw. */
    | Crashed
    | Done(plan: Payout.Plan, results: seq<Payout.LegResult>, notified: seq<string>)

  datatype Stage = Stop(outcome: BatchOutcome) | Go(plan: Payout.Plan)

  /** The checks of the words, in order: at least three, one to ten leading
      mentions, then a positive amount. */
  datatype Words = BadWords(outcome: BatchOutcome) | Words(q: Parsed, amount: real)

  function BatchWords(args: seq<string>): (w: Words)
    ensures w.BadWords? ==> !w.outcome.Done?
    // the recipient count is checked before the amount
    ensures |args| >= 3 && |Chat.Mentions(args)| == 0 ==> w == BadWords(NoRecipients)
    ensures |args| >= 3 && |Chat.Mentions(args)| > 10 ==> w == BadWords(TooManyRecipients)
    ensures w.Words? ==>
      && |args| >= 3 && w.q == Parse(args) && 1 <= |w.q.names| <= 10
      && Chat.ParseAmount(w.q.amountText) == Some(w.amount) && w.amount > 0.0
  {
    if |args| < 3 then BadWords(Usage)
    else
      var q := Parse(args);
      if |q.names| == 0 then BadWords(NoRecipients)
      else if |q.names| > 10 then BadWords(TooManyRecipients)
      else match Chat.ParseAmount(q.amountText)
      case None => BadWords(InvalidAmount)
      case Some(amount) => Words(q, amount)
  }

  /** The first and the last check of the words: fewer than three words is the
      usage reply, and after one to ten mentions an amount that does not parse is
      the invalid-amount reply, while one that parses lets the words through. */
  lemma BatchWordsOrder(args: seq<string>)
    ensures |args| < 3 <==> BatchWords(args) == BadWords(Usage)
    ensures |args| >= 3 && 1 <= |Chat.Mentions(args)| <= 10 ==>
      && (Chat.ParseAmount(Parse(args).amountText).None? <==> BatchWords(args) == BadWords(InvalidAmount))
      && (Chat.ParseAmount(Parse(args).amountText).Some? ==>
            BatchWords(args) == Words(Parse(args), Chat.ParseAmount(Parse(args).amountText).value))
  {
  }

  /** The checks after the words, in order: the sender is registered, the token
      is on the sender's network, then the checks of `PayeeChecks`. */
  function BatchChecks(q: Parsed, amount: real, sender: Option<Users.UserRow>, rows: seq<Users.UserRow>,
                       check: Chat.BalanceCheck): (s: Stage)
    ensures s.Stop? ==> !s.outcome.Done?
    ensures s.Go? ==>
      && sender.Some? && s.plan.network == Chat.NetworkOf(sender.value.preferredNetwork)
      && Constants.LookupToken(s.plan.network, q.token).Found?
      && s == PayeeChecks(q, amount, s.plan.network, rows, check)
  {
    match sender
    case None => Stop(NotRegistered)
    case Some(u) =>
      var network := Chat.NetworkOf(u.preferredNetwork);
      match Constants.LookupToken(network, q.token)
      case NoSuchNetwork => Stop(Crashed)
      case NoSuchToken => Stop(TokenUnsupported(q.token, network))
      case Found(_) => PayeeChecks(q, amount, network, rows, check)
  }

  /** The last checks, in order: every recipient is registered, the amount is
      within the limit, and the balance covers amount × recipients. */
  function PayeeChecks(q: Parsed, amount: real, network: string, rows: seq<Users.UserRow>,
                       check: Chat.BalanceCheck): (s: Stage)
    ensures s.Stop? ==> !s.outcome.Done?
    ensures s.Go? ==>
      && s.plan.names == q.names && s.plan.amount == amount && s.plan.token == q.token
      && s.plan.network == network && s.plan.message == q.message
      && |s.plan.payees| == |s.plan.names|
      && (forall k :: 0 <= k < |s.plan.names| ==>
            Users.FindByUsername(rows, s.plan.names[k]) == Some(s.plan.payees[k]))
      && amount <= Constants.MaxTipAmount
      && Chat.Sufficient(check, amount * |q.names| as real)
  {
    match Payout.FindAll(rows, q.names)
    case Missing(name) => Stop(RecipientMissing(name))
    case AllFound(payees) =>
      var total := amount * |q.names| as real;
      if amount > Constants.MaxTipAmount then Stop(OverLimit)
      else match check
      case CheckFailed => Stop(Crashed)
      case Checked(balance) =>
        if balance < total then Stop(Insufficient(balance, total, q.token))
        else Go(Payout.Plan(q.names, payees, amount, q.token, network, q.message))
  }

  /** When every recipient is registered, the amount is within the limit and the
      balance covers the total, the last checks let the batch go ahead. */
  lemma PayeeChecksPass(q: Parsed, amount: real, network: string, rows: seq<Users.UserRow>,
                        check: Chat.BalanceCheck)
    requires forall k :: 0 <= k < |q.names| ==> Users.FindByUsername(rows, q.names[k]).Some?
    requires amount <= Constants.MaxTipAmount && Chat.Sufficient(check, amount * |q.names| as real)
    ensures PayeeChecks(q, amount, network, rows, check).Go?
  {
  }

  /** All the checks of `handleBatchTipCommand`, on the words `args`, the
      sender's row, the user table and the answer of the balance query. */
  function BatchStage(args: seq<string>, sender: Option<Users.UserRow>, rows: seq<Users.UserRow>,
                      check: Chat.BalanceCheck): Stage
  {
    match BatchWords(args)
    case BadWords(o) => Stop(o)
    case Words(q, amount) => BatchChecks(q, amount, sender, rows, check)
  }

  /** The converse of the guards: one to ten leading mentions, an amount that
      parses, a registered sender whose network lists the token, registered
      recipients, an amount within the limit and a balance covering amount ×
      recipients let the batch go ahead, to exactly those recipients. `q` and
      `amount` name the parsed words and the parsed amount. */
  lemma BatchProceedsWhenAllPass(args: seq<string>, sender: Option<Users.UserRow>, rows: seq<Users.UserRow>,
                                 check: Chat.BalanceCheck, q: Parsed, amount: real)
    requires |args| >= 3 && q == Parse(args) && 1 <= |q.names| <= 10
    requires Chat.ParseAmount(q.amountText) == Some(amount)
    requires sender.Some? && Constants.LookupToken(Chat.NetworkOf(sender.value.preferredNetwork), q.token).Found?
    requires forall k :: 0 <= k < |q.names| ==> Users.FindByUsername(rows, q.names[k]).Some?
    requires amount <= Constants.MaxTipAmount && Chat.Sufficient(check, amount * |q.names| as real)
    ensures BatchStage(args, sender, rows, check).Go?
    ensures BatchStage(args, sender, rows, check).plan.names == Chat.Mentions(args)
    ensures BatchStage(args, sender, rows, check).plan.amount == amount
  {
    BatchWordsOrder(args);
    BatchChecksPass(q, amount, sender, rows, check);
  }

  /** As written, the handler decrypts `sender.encrypted_private_key`, a field
      the user rows do not have (the table's column is `private_key_encrypted`),
      so the decryption throws before the balance is read. With the balance
      query always failing, no batch ever goes ahead, and one that passes every
      earlier check ends in `Crashed`, the "Batch tip failed" reply. */
  lemma KeyFieldAsWrittenCrashes(args: seq<string>, sender: Option<Users.UserRow>, rows: seq<Users.UserRow>,
                                 q: Parsed, amount: real)
    requires |args| >= 3 && q == Parse(args) && 1 <= |q.names| <= 10
    requires Chat.ParseAmount(q.amountText) == Some(amount)
    requires sender.Some? && Constants.LookupToken(Chat.NetworkOf(sender.value.preferredNetwork), q.token).Found?
    requires forall k :: 0 <= k < |q.names| ==> Users.FindByUsername(rows, q.names[k]).Some?
    requires amount <= Constants.MaxTipAmount
    ensures BatchStage(args, sender, rows, Chat.CheckFailed) == Stop(Crashed)
  {
    BatchWordsOrder(args);
    assert Payout.FindAll(rows, q.names).AllFound?;
  }

  /** The same defect for every input: with the balance query failing, the
      checks never let a batch go ahead. */
  lemma NoBatchAsWritten(args: seq<string>, sender: Option<Users.UserRow>, rows: seq<Users.UserRow>)
    ensures !BatchStage(args, sender, rows, Chat.CheckFailed).Go?
  {
  }

  /** The checks after the words let the batch go ahead when they all pass. */
  lemma BatchChecksPass(q: Parsed, amount: real, sender: Option<Users.UserRow>, rows: seq<Users.UserRow>,
                        check: Chat.BalanceCheck)
    requires sender.Some? && Constants.LookupToken(Chat.NetworkOf(sender.value.preferredNetwork), q.token).Found?
    requires forall k :: 0 <= k < |q.names| ==> Users.FindByUsername(rows, q.names[k]).Some?
    requires amount <= Constants.MaxTipAmount && Chat.Sufficient(check, amount * |q.names| as real)
    ensures BatchChecks(q, amount, sender, rows, check).Go?
  {
    PayeeChecksPass(q, amount, Chat.NetworkOf(sender.value.preferredNetwork), rows, check);
  }

  /** The checks run on the table as it is. */
  function BatchStageOf(users: Users.UserTable, senderId: string, text: string, check: Chat.BalanceCheck): Stage
    reads users
  {
    BatchStage(Chat.Args(text), Users.FindById(users.rows, senderId), users.rows, check)
  }

  /** The checks of the words as the handler runs them, with the loop over the
      mentions. */
  method RunBatchWords(args: seq<string>) returns (w: Words)
    ensures w == BatchWords(args)
  {
    if |args| < 3 {
      return BadWords(Usage);
    }
    var names, amountIndex := CollectRecipients(args);
    if |names| == 0 {
      return BadWords(NoRecipients);
    }
    if |names| > 10 {
      return BadWords(TooManyRecipients);
    }
    var q := Parsed(names, args[amountIndex], TokenWord(args, amountIndex), MessageWords(args, amountIndex));
    var amount := Chat.ParseAmount(q.amountText);
    if amount.None? {
      return BadWords(InvalidAmount);
    }
    w := Words(q, amount.value);
  }

  /** The checks of the sender and the token as the handler runs them. */
  method RunBatchChecks(users: Users.UserTable, senderId: string, q: Parsed, amount: real,
                        check: Chat.BalanceCheck) returns (s: Stage)
    ensures s == BatchChecks(q, amount, Users.FindById(users.rows, senderId), users.rows, check)
  {
    var sender := Users.FindById(users.rows, senderId);
    if sender.None? {
      return Stop(NotRegistered);
    }
    var network := Chat.NetworkOf(sender.value.preferredNetwork);
    match Constants.LookupToken(network, q.token) {
      case NoSuchNetwork => return Stop(Crashed);
      case NoSuchToken => return Stop(TokenUnsupported(q.token, network));
      case Found(_) =>
    }
    s := RunPayeeChecks(users, q, amount, network, check);
  }

  /** The last checks as the handler runs them, with the loop over the
      recipients. */
  method RunPayeeChecks(users: Users.UserTable, q: Parsed, amount: real, network: string,
                        check: Chat.BalanceCheck) returns (s: Stage)
    ensures s == PayeeChecks(q, amount, network, users.rows, check)
  {
    var lookup := Payout.LookupRecipients(users, q.names);
    if lookup.Missing? {
      return Stop(RecipientMissing(lookup.username));
    }
    var total := amount * |q.names| as real;
    if amount > Constants.MaxTipAmount {
      return Stop(OverLimit);
    }
    if check.CheckFailed? {
      return Stop(Crashed);
    }
    if check.currentBalance < total {
      return Stop(Insufficient(check.currentBalance, total, q.token));
    }
    s := Go(Payout.Plan(q.names, lookup.users, amount, q.token, network, q.message));
  }

  /** The checks as the handler runs them. */
  method RunBatchGuards(users: Users.UserTable, senderId: string, text: string, check: Chat.BalanceCheck)
    returns (s: Stage)
    ensures s == BatchStageOf(users, senderId, text, check)
  {
    var w := RunBatchWords(Chat.Args(text));
    if w.BadWords? {
      return Stop(w.outcome);
    }
    s := RunBatchChecks(users, senderId, w.q, w.amount, check);
  }

  // ---------------------------------------------------------------------------
  // The handler

  /** `handleBatchTipCommand` for the sender `senderId` and the text `text`.
      `check` answers the balance query and `leg(k)` the transfer to the `k`-th
      recipient. A refusal writes nothing; otherwise every recipient gets a leg,
      a leg that went through adds one completed row, and a recipient who is the
      sender is paid but not told. */
  method HandleBatchTip(users: Users.UserTable, ledger: Ledger.LedgerTable, senderId: string, text: string,
                        check: Chat.BalanceCheck, leg: nat -> Chat.Leg)
    returns (o: BatchOutcome)
    requires ledger.Valid()
    modifies ledger
    ensures ledger.Valid()
    ensures var s := BatchStageOf(users, senderId, text, check);
      && (s.Stop? ==> o == s.outcome && ledger.rows == old(ledger.rows) && ledger.nextId == old(ledger.nextId))
      && (s.Go? ==>
            && o == Done(s.plan, Payout.Results(s.plan, leg, |s.plan.names|),
                         Payout.Notified(senderId, s.plan, leg, |s.plan.names|, false))
            && ledger.rows == old(ledger.rows) + Payout.PaidRows(old(ledger.nextId), senderId, s.plan, leg, |s.plan.names|))
  {
    var s := RunBatchGuards(users, senderId, text, check);
    if s.Stop? {
      return s.outcome;
    }
    var results, notified := Payout.PayLegs(ledger, senderId, s.plan, leg, false);
    o := Done(s.plan, results, notified);
  }

  /** `successful.length * parsedAmount`, the total the report says was sent. */
  function TotalSent(successes: nat, amount: real): real {
    successes as real * amount
  }

  /** The report adds up: successes and failures cover every recipient, and the
      total reported sent is the amount times the legs that went through, which
      is the sum the new ledger rows record. */
  lemma BatchReportAddsUp(p: Payout.Plan, leg: nat -> Chat.Leg, firstId: nat, senderId: string)
    requires |p.names| == |p.payees|
    ensures var r := Payout.Results(p, leg, |p.names|);
      && |Payout.Successful(r)| + |Payout.Unsuccessful(r)| == |p.names|
      && TotalSent(|Payout.Successful(r)|, p.amount)
         == TotalSent(|Payout.PaidRows(firstId, senderId, p, leg, |p.names|)|, p.amount)
  {
    Payout.Partition(Payout.Results(p, leg, |p.names|));
    Payout.SuccessesArePaid(p, leg, |p.names|);
  }

  // ---------------------------------------------------------------------------
  // Replies

  function Reply(o: BatchOutcome): string {
    match o
    case Usage =>
      "❌ Usage: /batchtip @user1 @user2 @user3 <amount> <token> [message]\n"
      + "Example: /batchtip @alice @bob 5 USDC lunch split"
    case NoRecipients => "❌ Please specify at least one recipient with @username"
    case TooManyRecipients => "❌ Maximum 10 recipients per batch tip"
    case InvalidAmount => "❌ Invalid amount format"
    case NotRegistered => "❌ " + Chat.StartFirst
    case TokenUnsupported(token, network) => "❌ Token " + token + " not supported on " + network
    case RecipientMissing(name) => "❌ User @" + name + " not found. They need to /start the bot first."
    case OverLimit => "❌ Maximum tip amount is $" + Numbers.NumberText(Constants.MaxTipAmount)
    case Insufficient(balance, total, token) =>
      "❌ Insufficient balance. You have " + Numbers.UnitsText(balance) + " " + token + ", need "
      + Numbers.NumberText(total) + " " + token + " for batch tip."
    case Crashed => "❌ Batch tip failed. Please try again."
    case Done(p, results, _) => Report(p, results)
  }

  function SuccessLines(p: Payout.Plan, s: seq<Payout.LegResult>): string
    decreases |s|
  {
    if |s| == 0 then ""
    else "• @" + s[0].username + ": " + Numbers.NumberText(p.amount) + " " + p.token + "\n" + SuccessLines(p, s[1..])
  }

  function FailureLines(f: seq<Payout.LegResult>): string
    decreases |f|
  {
    if |f| == 0 then ""
    else "• @" + f[0].username + ": " + (if f[0].Failure? then f[0].error else "") + "\n" + FailureLines(f[1..])
  }

  /** The final edit of the progress message. */
  function Report(p: Payout.Plan, results: seq<Payout.LegResult>): string {
    var ok := Payout.Successful(results);
    var failed := Payout.Unsuccessful(results);
    "✅ **Batch Tip Complete**\n\n"
    + "**Successful (" + NatToString(|ok|) + "/" + NatToString(|p.names|) + "):**\n"
    + SuccessLines(p, ok)
    + (if |failed| > 0 then "\n❌ **Failed (" + NatToString(|failed|) + "):**\n" + FailureLines(failed) else "")
    + "\n💰 Total sent: " + Numbers.NumberText(TotalSent(|ok|, p.amount)) + " " + p.token
    + "\n🌐 Network: " + (match Constants.Networks(p.network) case Some(info) => info.name case None => "")
  }
}
