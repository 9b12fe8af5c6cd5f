/** The `/split` command of `src/bot/commands/split.js`. `/split calc <total>
    <people>` and `/split <total> <people> …` only report the share;
    `/split <total> @a @b … [token] [description]` splits the total between the
    mentioned users and the sender, and the sender pays every mentioned user one
    share. */
module SplitCommand {
  import opened Wrappers
  import opened Text
  import Users
  import Ledger
  import Constants
  import Chat
  import Numbers
  import Payout

  // ---------------------------------------------------------------------------
  // The words of the command

  /** The tokens the optional token word may name. */
  const SplitTokens: seq<string> := ["USDC", "USDT", "ETH", "MATIC"]

  /** `args.slice(i).join(' ')` when words remain, '' otherwise. */
  function Description(args: seq<string>, i: nat): string {
    if i < |args| then Join(args[i..], ' ') else ""
  }

  /** The optional token word at `i` and the description after it. */
  datatype Tail = Tail(token: string, description: string)

  function TokenAndDescription(args: seq<string>, i: nat): (t: Tail)
    ensures t.token in SplitTokens
  {
    if i < |args| && ToUpper(args[i]) in SplitTokens then Tail(ToUpper(args[i]), Description(args, i + 1))
    else Tail("USDC", Description(args, i))
  }

  /** What the words ask for: a reply that ends the command, or an automatic
      split of `total` between the sender and `names`. */
  datatype Words =
    | Halt(outcome: SplitOutcome)
    | Auto(total: real, names: seq<string>, token: string, description: string)

  datatype SplitOutcome =
    | Usage
    | CalcInvalid
      /** The calculator's reply: `total` split `people` ways. */
    | Calculation(total: real, people: int)
    | InvalidTotal
    | BadPeopleCount
      /** The manual split's reply, which only reports the share. */
    | Manual(total: real, people: int, token: string, description: string)
    | NotRegistered
    | TokenUnsupported(token: string, network: string)
    | RecipientMissing(username: string)
    | OverLimit(perPerson: real)
    | Insufficient(needed: real, balance: real, token: string)
      /** An exception reached the outer catch: the sender's network has no token
          table, or decrypting the key or reading the balance threw. */
    | Crashed
    | Done(plan: Payout.Plan, total: real, description: string, results: seq<Payout.LegResult>)

  /** The calculator: `parseFloat(total)` must be a number other than 0 and
      `parseInt(people)` at least 2. */
  function CalcWords(args: seq<string>): (w: Words)
    requires |args| >= 3
    ensures w.Halt? && (w.outcome.Calculation? || w.outcome == CalcInvalid)
    ensures w.outcome.Calculation? <==>
      && ParseFloat(args[1]).Some? && ParseFloat(args[1]).value != 0.0
      && ParseInt(args[2]).Some? && ParseInt(args[2]).value >= 2
  {
    match (ParseFloat(args[1]), ParseInt(args[2]))
    case (Some(total), Some(people)) =>
      if total != 0.0 && people != 0 && people >= 2 then Halt(Calculation(total, people)) else Halt(CalcInvalid)
    case _ => Halt(CalcInvalid)
  }

  /** The checks of the words, in order. */
  function SplitWords(args: seq<string>): (w: Words)
    ensures w.Auto? ==>
      && |args| >= 3 && ToLower(args[0]) != "calc" && Chat.ParseAmount(args[0]) == Some(w.total)
      && StartsWith(args[1], "@") && w.names == Chat.Mentions(args[1..]) && |w.names| >= 1
      && w.token in SplitTokens
    ensures w.Halt? && w.outcome.Manual? ==> w.outcome.people >= 2 && w.outcome.token in SplitTokens
  {
    if |args| < 3 then Halt(Usage)
    else if ToLower(args[0]) == "calc" then CalcWords(args)
    else match Chat.ParseAmount(args[0])
    case None => Halt(InvalidTotal)
    case Some(total) =>
      if StartsWith(args[1], "@") then
        var names := Chat.Mentions(args[1..]);
        var tail := TokenAndDescription(args, 1 + |names|);
        Auto(total, names, tail.token, tail.description)
      else match ParseInt(args[1])
      case None => Halt(BadPeopleCount)
      case Some(people) =>
        if people == 0 || people < 2 then Halt(BadPeopleCount)
        else
          var tail := TokenAndDescription(args, 2);
          Halt(Manual(total, people, tail.token, tail.description))
  }

  /** The loop that collects the mentions from `args[start]` on, leaving the
      index of the first word after them. */
  method CollectMentions(args: seq<string>, start: nat) returns (names: seq<string>, next: nat)
    requires start <= |args|
    ensures names == Chat.Mentions(args[start..]) && next == start + |names|
  {
    names := [];
    next := start;
    while next < |args| && StartsWith(args[next], "@")
      invariant start <= next <= |args| && next == start + |names|
      invariant names + MentionsFrom(args, next) == MentionsFrom(args, start)
    {
      ShiftOne(names, args[next][1..], MentionsFrom(args, next + 1), MentionsFrom(args, start));
      names := names + [args[next][1..]];
      next := next + 1;
    }
    NothingLeft(names, MentionsFrom(args, next), MentionsFrom(args, start));
    MentionsFromSuffix(args, start);
  }

  /** The mentions of `args[i..]`, read by index rather than by slicing. */
  ghost function MentionsFrom(args: seq<string>, i: nat): seq<string>
    requires i <= |args|
    decreases |args| - i
  {
    if i < |args| && StartsWith(args[i], "@") then [args[i][1..]] + MentionsFrom(args, i + 1) else []
  }

  lemma {:induction false} MentionsFromSuffix(args: seq<string>, i: nat)
    requires i <= |args|
    ensures MentionsFrom(args, i) == Chat.Mentions(args[i..])
    decreases |args| - i
  {
    if i < |args| {
      assert args[i..][0] == args[i];
      assert args[i..][1..] == args[i + 1..];
      MentionsFromSuffix(args, i + 1);
    }
  }

  /** Moving the head of the remainder onto the collected part keeps the whole. */
  lemma ShiftOne<T>(done: seq<T>, x: T, rest: seq<T>, whole: seq<T>)
    requires done + ([x] + rest) == whole
    ensures (done + [x]) + rest == whole
  {
    assert (done + [x]) + rest == done + ([x] + rest);
  }

  /** Nothing left to collect: the collected part is the whole. */
  lemma NothingLeft<T>(done: seq<T>, rest: seq<T>, whole: seq<T>)
    requires done + rest == whole && rest == []
    ensures done == whole
  {
    assert done + [] == done;
  }

  /** The checks of the words as the handler runs them. */
  method RunSplitWords(args: seq<string>) returns (w: Words)
    ensures w == SplitWords(args)
  {
    if |args| < 3 {
      return Halt(Usage);
    }
    if ToLower(args[0]) == "calc" {
      return CalcWords(args);
    }
    var total := Chat.ParseAmount(args[0]);
    if total.None? {
      return Halt(InvalidTotal);
    }
    var names: seq<string> := [];
    var argIndex := 1;
    if StartsWith(args[1], "@") {
      names, argIndex := CollectMentions(args, 1);
    } else {
      var people := ParseInt(args[1]);
      if people.None? || people.value == 0 || people.value < 2 {
        return Halt(BadPeopleCount);
      }
      argIndex := 2;
      var tail := TokenAndDescription(args, argIndex);
      return Halt(Manual(total.value, people.value, tail.token, tail.description));
    }
    var tail := TokenAndDescription(args, argIndex);
    w := Auto(total.value, names, tail.token, tail.description);
  }

  // ---------------------------------------------------------------------------
  // The shares

  /** `totalAmount / peopleCount`: the sender counts as one of the people. */
  function PerPerson(total: real, recipients: nat): real {
    total / (recipients + 1) as real
  }

  /** `totalAmount - senderShare`: what the sender pays out. */
  function SenderPayment(total: real, recipients: nat): real {
    total - PerPerson(total, recipients)
  }

  /** What the sender pays out is one share for each mentioned user. */
  lemma SenderPaysOneShareEach(total: real, recipients: nat)
    ensures SenderPayment(total, recipients) == PerPerson(total, recipients) * recipients as real
  {
    var q := PerPerson(total, recipients);
    var people := (recipients + 1) as real;
    assert q * people == total;
    assert q * people == q * recipients as real + q;
  }

  /** The ledger message of every leg: "Bill split", then ": " and the
      description when there is one. */
  function SplitMessage(description: string): (m: string)
    ensures StartsWith(m, "Bill split")
    ensures description == "" <==> m == "Bill split"
  {
    "Bill split" + (if description != "" then ": " + description else "")
  }

  // ---------------------------------------------------------------------------
  // The guards of an automatic split

  datatype Stage = Stop(outcome: SplitOutcome) | Go(plan: Payout.Plan, total: real, description: string)

  /** The checks after the words, in order: the sender is registered and the
      token is on the sender's network; then the checks of `PayeeChecks`. */
  function SplitChecks(w: Words, sender: Option<Users.UserRow>, rows: seq<Users.UserRow>,
                       check: Chat.BalanceCheck): (s: Stage)
    requires w.Auto?
    ensures s.Go? ==>
      && sender.Some? && s.plan.network == Chat.NetworkOf(sender.value.preferredNetwork)
      && Constants.LookupToken(s.plan.network, w.token).Found?
      && s == PayeeChecks(w, s.plan.network, rows, check)
  {
    match sender
    case None => Stop(NotRegistered)
    case Some(u) =>
      var network := Chat.NetworkOf(u.preferredNetwork);
      match Constants.LookupToken(network, w.token)
      case NoSuchNetwork => Stop(Crashed)
      case NoSuchToken => Stop(TokenUnsupported(w.token, network))
      case Found(_) => PayeeChecks(w, network, rows, check)
  }

  /** The last checks, in order: every mentioned user is registered, one share is
      within the tip limit, and the balance covers what the sender pays out. */
  function PayeeChecks(w: Words, network: string, rows: seq<Users.UserRow>, check: Chat.BalanceCheck): (s: Stage)
    requires w.Auto?
    ensures s.Go? ==>
      && s.total == w.total && s.description == w.description && s.plan.names == w.names && s.plan.token == w.token
      && s.plan.network == network && s.plan.message == SplitMessage(w.description)
      && s.plan.amount == PerPerson(w.total, |w.names|) <= Constants.MaxTipAmount
      && |s.plan.payees| == |s.plan.names|
      && (forall k :: 0 <= k < |s.plan.names| ==>
            Users.FindByUsername(rows, s.plan.names[k]) == Some(s.plan.payees[k]))
      && Chat.Sufficient(check, SenderPayment(w.total, |w.names|))
  {
    match Payout.FindAll(rows, w.names)
    case Missing(name) => Stop(RecipientMissing(name))
    case AllFound(payees) =>
      var share := PerPerson(w.total, |w.names|);
      if share > Constants.MaxTipAmount then Stop(OverLimit(share))
      else
        var payment := SenderPayment(w.total, |w.names|);
        match check
        case CheckFailed => Stop(Crashed)
        case Checked(balance) =>
          if balance < payment then Stop(Insufficient(payment, balance, w.token))
          else Go(Payout.Plan(w.names, payees, share, w.token, network, SplitMessage(w.description)), w.total, w.description)
  }

  /** All the checks of `handleSplitCommand`. */
  function SplitStage(args: seq<string>, sender: Option<Users.UserRow>, rows: seq<Users.UserRow>,
                      check: Chat.BalanceCheck): Stage
  {
    var w := SplitWords(args);
    if w.Halt? then Stop(w.outcome) else SplitChecks(w, sender, rows, check)
  }

  function SplitStageOf(users: Users.UserTable, senderId: string, text: string, check: Chat.BalanceCheck): Stage
    reads users
  {
    SplitStage(Chat.Args(text), Users.FindById(users.rows, senderId), users.rows, check)
  }

  /** When every mentioned user is registered, one share is within the limit and
      the balance covers the sender's payment, the last checks let the split go
      ahead. */
  lemma PayeeChecksPass(w: Words, network: string, rows: seq<Users.UserRow>, check: Chat.BalanceCheck)
    requires w.Auto?
    requires forall k :: 0 <= k < |w.names| ==> Users.FindByUsername(rows, w.names[k]).Some?
    requires PerPerson(w.total, |w.names|) <= Constants.MaxTipAmount
    requires Chat.Sufficient(check, SenderPayment(w.total, |w.names|))
    ensures PayeeChecks(w, network, rows, check).Go?
  {
  }

  /** The converse of the guards: a total that parses, leading mentions after
      it, a registered sender whose network lists the token, registered mentioned
      users, a share within the limit and a balance covering the sender's
      payment let the split go ahead, to exactly the mentioned users. */
  lemma SplitProceedsWhenAllPass(args: seq<string>, sender: Option<Users.UserRow>, rows: seq<Users.UserRow>,
                                 check: Chat.BalanceCheck)
    requires |args| >= 3 && ToLower(args[0]) != "calc" && Chat.ParseAmount(args[0]).Some?
    requires StartsWith(args[1], "@")
    requires sender.Some?
    requires Constants.LookupToken(Chat.NetworkOf(sender.value.preferredNetwork), SplitWords(args).token).Found?
    requires forall k :: 0 <= k < |Chat.Mentions(args[1..])| ==>
      Users.FindByUsername(rows, Chat.Mentions(args[1..])[k]).Some?
    requires PerPerson(Chat.ParseAmount(args[0]).value, |Chat.Mentions(args[1..])|) <= Constants.MaxTipAmount
    requires Chat.Sufficient(check, SenderPayment(Chat.ParseAmount(args[0]).value, |Chat.Mentions(args[1..])|))
    ensures SplitStage(args, sender, rows, check).Go?
    ensures SplitStage(args, sender, rows, check).plan.names == Chat.Mentions(args[1..])
    ensures SplitStage(args, sender, rows, check).total == Chat.ParseAmount(args[0]).value
  {
    var w := SplitWords(args);
    assert w.Auto? && w.total == Chat.ParseAmount(args[0]).value && w.names == Chat.Mentions(args[1..]);
    PayeeChecksPass(w, Chat.NetworkOf(sender.value.preferredNetwork), rows, check);
  }

  /** As written, the handler decrypts `sender.encrypted_private_key`, a field
      the user rows do not have (the table's column is `private_key_encrypted`),
      so the decryption throws before the balance is read. With the balance
      query always failing, a split that passes every earlier check ends in
      `Crashed`, the "Bill split failed" reply. */
  lemma KeyFieldAsWrittenCrashes(args: seq<string>, sender: Option<Users.UserRow>, rows: seq<Users.UserRow>)
    requires |args| >= 3 && ToLower(args[0]) != "calc" && Chat.ParseAmount(args[0]).Some?
    requires StartsWith(args[1], "@")
    requires sender.Some?
    requires Constants.LookupToken(Chat.NetworkOf(sender.value.preferredNetwork), SplitWords(args).token).Found?
    requires forall k :: 0 <= k < |Chat.Mentions(args[1..])| ==>
      Users.FindByUsername(rows, Chat.Mentions(args[1..])[k]).Some?
    requires PerPerson(Chat.ParseAmount(args[0]).value, |Chat.Mentions(args[1..])|) <= Constants.MaxTipAmount
    ensures SplitStage(args, sender, rows, Chat.CheckFailed) == Stop(Crashed)
  {
    var w := SplitWords(args);
    assert w.Auto? && w.total == Chat.ParseAmount(args[0]).value && w.names == Chat.Mentions(args[1..]);
    PayeeChecksCrash(w, Chat.NetworkOf(sender.value.preferredNetwork), rows);
  }

  lemma PayeeChecksCrash(w: Words, network: string, rows: seq<Users.UserRow>)
    requires w.Auto?
    requires forall k :: 0 <= k < |w.names| ==> Users.FindByUsername(rows, w.names[k]).Some?
    requires PerPerson(w.total, |w.names|) <= Constants.MaxTipAmount
    ensures PayeeChecks(w, network, rows, Chat.CheckFailed) == Stop(Crashed)
  {
  }

  /** The same defect for every input: with the balance query failing, no split
      ever goes ahead. */
  lemma NoSplitAsWritten(args: seq<string>, sender: Option<Users.UserRow>, rows: seq<Users.UserRow>)
    ensures !SplitStage(args, sender, rows, Chat.CheckFailed).Go?
  {
  }

  /** Only an automatic split can pay anyone: the calculator and a split by head
      count end with a reply whatever the tables hold. */
  lemma OnlyMentionsPay(args: seq<string>, sender: Option<Users.UserRow>, rows: seq<Users.UserRow>,
                        check: Chat.BalanceCheck)
    requires SplitStage(args, sender, rows, check).Go?
    ensures |args| >= 3 && ToLower(args[0]) != "calc" && StartsWith(args[1], "@")
    ensures var s := SplitStage(args, sender, rows, check);
      && s.plan.names == Chat.Mentions(args[1..]) && |s.plan.names| >= 1
      && s.plan.amount == PerPerson(s.total, |s.plan.names|)
  {
    var w := SplitWords(args);
    var s := SplitStage(args, sender, rows, check);
    assert w.Auto? && s == SplitChecks(w, sender, rows, check);
    assert s == PayeeChecks(w, s.plan.network, rows, check);
  }

  /** The shares of the sender and of every mentioned user add up to the total. */
  lemma ShareTimesPeople(total: real, recipients: nat)
    ensures PerPerson(total, recipients) * (recipients + 1) as real == total
  {
  }

  method RunSplitChecks(users: Users.UserTable, senderId: string, w: Words, check: Chat.BalanceCheck)
    returns (s: Stage)
    requires w.Auto?
    ensures s == SplitChecks(w, Users.FindById(users.rows, senderId), users.rows, check)
  {
    var sender := Users.FindById(users.rows, senderId);
    if sender.None? {
      return Stop(NotRegistered);
    }
    var network := Chat.NetworkOf(sender.value.preferredNetwork);
    match Constants.LookupToken(network, w.token) {
      case NoSuchNetwork => return Stop(Crashed);
      case NoSuchToken => return Stop(TokenUnsupported(w.token, network));
      case Found(_) =>
    }
    s := RunPayeeChecks(users, w, network, check);
  }

  method RunPayeeChecks(users: Users.UserTable, w: Words, network: string, check: Chat.BalanceCheck)
    returns (s: Stage)
    requires w.Auto?
    ensures s == PayeeChecks(w, network, users.rows, check)
  {
    var lookup := Payout.LookupRecipients(users, w.names);
    if lookup.Missing? {
      return Stop(RecipientMissing(lookup.username));
    }
    var share := PerPerson(w.total, |w.names|);
    if share > Constants.MaxTipAmount {
      return Stop(OverLimit(share));
    }
    var payment := SenderPayment(w.total, |w.names|);
    if check.CheckFailed? {
      return Stop(Crashed);
    }
    if check.currentBalance < payment {
      return Stop(Insufficient(payment, check.currentBalance, w.token));
    }
    s := Go(Payout.Plan(w.names, lookup.users, share, w.token, network, SplitMessage(w.description)), w.total, w.description);
  }

  // ---------------------------------------------------------------------------
  // The handler

  /** `handleSplitCommand` for the sender `senderId` and the text `text`; `check`
      answers the balance query and `leg(k)` the transfer to the `k`-th mentioned
      user. Every reply but the automatic split's report leaves the ledger as it
      was; the automatic split pays one share to each mentioned user and records
      a completed row for each leg that went through. */
  method HandleSplit(users: Users.UserTable, ledger: Ledger.LedgerTable, senderId: string, text: string,
                     check: Chat.BalanceCheck, leg: nat -> Chat.Leg)
    returns (o: SplitOutcome)
    requires ledger.Valid()
    modifies ledger
    ensures ledger.Valid()
    ensures var s := SplitStageOf(users, senderId, text, check);
      && (s.Stop? ==> o == s.outcome && ledger.rows == old(ledger.rows) && ledger.nextId == old(ledger.nextId))
      && (s.Go? ==>
            && o == Done(s.plan, s.total, s.description, Payout.Results(s.plan, leg, |s.plan.names|))
            && ledger.rows == old(ledger.rows) + Payout.PaidRows(old(ledger.nextId), senderId, s.plan, leg, |s.plan.names|))
  {
    var w := RunSplitWords(Chat.Args(text));
    if w.Halt? {
      return w.outcome;
    }
    var s := RunSplitChecks(users, senderId, w, check);
    if s.Stop? {
      return s.outcome;
    }
    var results, notified := Payout.PayLegs(ledger, senderId, s.plan, leg, true);
    o := Done(s.plan, s.total, s.description, results);
  }

  // ---------------------------------------------------------------------------
  // Replies

  const UsageText: string :=
    "💡 **Bill Splitting Commands:**\n\n"
    + "**Auto Split:**\n"
    + "/split <total> @user1 @user2 [token] [description]\n"
    + "Example: /split 60 @alice @bob USDC dinner\n\n"
    + "**Manual Split:**\n"
    + "/split <total> <people_count> [token] [description]\n"
    + "Example: /split 60 4 USDC dinner\n\n"
    + "**Calculate Only:**\n"
    + "/split calc <total> <people_count>\n"
    + "Example: /split calc 87.50 3"

  function IntText(n: int): string {
    if n < 0 then "-" + NatToString(-n) else NatToString(n)
  }

  function DescriptionLine(prefix: string, description: string): string {
    if description != "" then prefix + description + "\n" else ""
  }

  function Reply(o: SplitOutcome): string {
    match o
    case Usage => UsageText
    case CalcInvalid => "❌ Invalid total amount or people count"
    case Calculation(total, people) =>
      "🧮 **Bill Split Calculator**\n\n"
      + "💰 Total: $" + Numbers.Fixed(total, 2) + "\n"
      + "👥 People: " + IntText(people) + "\n"
      + "💸 Per person: $" + (if people != 0 then Numbers.Fixed(total / people as real, 2) else "") + "\n\n"
      + "Use /split " + Numbers.NumberText(total) + " @user1 @user2... to send payments"
    case InvalidTotal => "❌ Invalid total amount format"
    case BadPeopleCount => "❌ People count must be at least 2"
    case Manual(total, people, token, description) =>
      "🧮 **Bill Split Calculation**\n\n"
      + "💰 Total: " + Numbers.NumberText(total) + " " + token + "\n"
      + "👥 People: " + IntText(people) + "\n"
      + "💸 Per person: " + (if people != 0 then Numbers.Fixed(total / people as real, 6) else "") + " " + token + "\n"
      + DescriptionLine("📝 Description: ", description)
      + "\nTo send payments, use:\n/split " + Numbers.NumberText(total) + " @user1 @user2... " + token
      + (if description != "" then " " + description else "")
    case NotRegistered => "❌ " + Chat.StartFirst
    case TokenUnsupported(token, network) => "❌ Token " + token + " not supported on " + network
    case RecipientMissing(name) => "❌ User @" + name + " not found. They need to /start the bot first."
    case OverLimit(share) =>
      "❌ Per person amount (" + Numbers.Fixed(share, 2) + ") exceeds maximum tip limit ($"
      + Numbers.NumberText(Constants.MaxTipAmount) + ")"
    case Insufficient(needed, balance, token) =>
      "❌ Insufficient balance. You need " + Numbers.Fixed(needed, 6) + " " + token + " to cover the split.\n"
      + "Your balance: " + Numbers.UnitsText(balance) + " " + token
    case Crashed => "❌ Bill split failed. Please try again."
    case Done(p, total, description, results) => Report(p, total, description, results)
  }

  function PaidLines(p: Payout.Plan, s: seq<Payout.LegResult>): string
    decreases |s|
  {
    if |s| == 0 then ""
    else "✅ @" + s[0].username + ": " + Numbers.Fixed(p.amount, 6) + " " + p.token + "\n" + PaidLines(p, s[1..])
  }

  function FailureLines(f: seq<Payout.LegResult>): string
    decreases |f|
  {
    if |f| == 0 then ""
    else "• @" + f[0].username + ": " + (if f[0].Failure? then f[0].error else "") + "\n" + FailureLines(f[1..])
  }

  /** The final edit of the progress message. */
  function Report(p: Payout.Plan, total: real, description: string, results: seq<Payout.LegResult>): string {
    var ok := Payout.Successful(results);
    var failed := Payout.Unsuccessful(results);
    "✅ **Bill Split Complete**\n\n"
    + "💰 Total: " + Numbers.NumberText(total) + " " + p.token + "\n"
    + "👥 Split " + NatToString(|p.names| + 1) + " ways: " + Numbers.Fixed(p.amount, 6) + " " + p.token + " each\n"
    + DescriptionLine("📝 ", description)
    + "\n**Payments sent (" + NatToString(|ok|) + "/" + NatToString(|p.names|) + "):**\n"
    + PaidLines(p, ok)
    + (if |failed| > 0 then "\n❌ **Failed:**\n" + FailureLines(failed) else "")
    + "\n🏦 You paid: " + Numbers.Fixed(SenderPayment(total, |p.names|), 6) + " " + p.token
    + "\n🌐 Network: " + (match Constants.Networks(p.network) case Some(info) => info.name case None => "")
  }
}
