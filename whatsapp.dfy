/** The WhatsApp front end of `src/whatsapp/bot.js`: how an incoming message is
    routed, the checks of the `tip` command, `processTip` (which moves funds
    without the rate limiter or the daily cap and writes its ledger row only
    after the chain call returns), the natural-language tip patterns, and the
    `withdraw` placeholder. The chain's answers are inputs. */
module WhatsApp {
  import opened Wrappers
  import opened Text
  import Constants
  import Users
  import Ledger
  import Chat
  import Validation
  import NaturalLanguage
  import Numbers

  // ---------------------------------------------------------------------------
  // handleMessage

  /** The parts of a message the bot reads: the chat it came from, whether that
      is a group, the body, and the chat of the message it replies to, if any. */
  datatype Incoming = Incoming(from: string, isGroupMsg: bool, body: string, quotedFrom: Option<string>)

  const StatusBroadcast: string := "status@broadcast"
  const ContactSuffix: string := "@c.us"

  /** `from.replace('@c.us', '')`: the first occurrence of the suffix is removed. */
  function UserIdOf(chatId: string): string {
    ReplaceFirst(chatId, ContactSuffix, "")
  }

  /** A chat id made of a number and the suffix gives back that number. */
  lemma UserIdOfContact(id: string)
    requires '@' !in id
    ensures UserIdOf(id + ContactSuffix) == id
  {
    var s := id + ContactSuffix;
    assert OccursAt(s, ContactSuffix, |id|) by {
      assert s[|id|..|id| + |ContactSuffix|] == ContactSuffix;
    }
    forall j: nat | j < |id|
      ensures !OccursAt(s, ContactSuffix, j)
    {
      assert s[j] == id[j] != '@';
      assert j + |ContactSuffix| <= |s| ==> s[j..j + |ContactSuffix|][0] == s[j];
    }
    assert s[..|id|] == id;
    assert s[|id| + |ContactSuffix|..] == "";
  }

  /** The commands of the `switch`, each with or without the slash. */
  datatype Command = Start | Help | Balance | Deposit | Tip | Withdraw | Network | Other

  /** The two spellings of one `case` pair: the command word with or without its
      slash. */
  predicate Names(word: string, command: string) {
    word == "/" + command || word == command
  }

  function CommandOf(word: string): Command {
    if Names(word, "start") then Start
    else if Names(word, "help") then Help
    else if Names(word, "balance") then Balance
    else if Names(word, "deposit") then Deposit
    else if Names(word, "tip") then Tip
    else if Names(word, "withdraw") then Withdraw
    else if Names(word, "network") then Network
    else Other
  }

  const CommandWords: set<string> :=
    {"/start", "start", "/help", "help", "/balance", "balance", "/deposit", "deposit",
     "/tip", "tip", "/withdraw", "withdraw", "/network", "network"}

  /** A word names some command exactly when it is one of the fourteen command
      words. */
  lemma CommandWordsName(word: string)
    ensures CommandOf(word) == Other <==> word !in CommandWords
  {
    assert "/" + "start" == "/start" && "/" + "help" == "/help";
    assert "/" + "balance" == "/balance" && "/" + "deposit" == "/deposit";
    assert "/" + "tip" == "/tip" && "/" + "withdraw" == "/withdraw";
    assert "/" + "network" == "/network";
  }

  /** A leading slash makes no difference to which command a word names. */
  lemma SlashOptional(name: string)
    requires !StartsWith(name, "/")
    ensures CommandOf("/" + name) == CommandOf(name)
  {
    SlashCompare(name, "start");
    SlashCompare(name, "help");
    SlashCompare(name, "balance");
    SlashCompare(name, "deposit");
    SlashCompare(name, "tip");
    SlashCompare(name, "withdraw");
    SlashCompare(name, "network");
  }

  /** With and without the slash, `name` spells a command word alike. */
  lemma SlashCompare(name: string, word: string)
    requires |word| > 0 && word[0] != '/' && !StartsWith(name, "/")
    ensures Names("/" + name, word) == Names(name, word)
  {
    if "/" + name == "/" + word {
      assert name == ("/" + name)[1..];
    }
    assert ("/" + name)[0] == '/';
    assert StartsWith("/" + word, "/") by {
      assert ("/" + word)[..1] == "/";
    }
  }

  /** Where `handleMessage` sends a message: nowhere, or to the handler of the
      first word of the lower-cased, trimmed body; the words after it are the
      handler's arguments. */
  datatype Route = Dropped | Routed(userId: string, text: string, args: seq<string>, command: Command)

  function RouteOf(m: Incoming): (r: Route)
    ensures r.Dropped? <==> m.from == StatusBroadcast || m.isGroupMsg
    ensures r.Routed? ==>
      && r.userId == UserIdOf(m.from) && r.text == Trim(ToLower(m.body))
      && r.args == Split(r.text, ' ') && r.command == CommandOf(r.args[0])
      && NoAsciiUpper(r.text)
  {
    if m.from == StatusBroadcast || m.isGroupMsg then Dropped
    else
      var text := Trim(ToLower(m.body));
      LowerText(m.body);
      var args := Split(text, ' ');
      Routed(UserIdOf(m.from), text, args, CommandOf(args[0]))
  }

  /** Lower-cased and trimmed text holds no upper-case letter. */
  lemma LowerText(body: string)
    ensures NoAsciiUpper(Trim(ToLower(body)))
  {
    var l := ToLower(body);
    TrimKeepsCharacters(l);
    assert forall c :: c in l ==> !IsAsciiUpper(c);
  }

  /** Routing ignores case: the body in capitals goes to the same place. */
  lemma RouteIgnoresCase(m: Incoming)
    ensures RouteOf(m.(body := ToUpper(m.body))) == RouteOf(m)
  {
    LowerOfUpper(m.body);
  }

  lemma LowerOfUpper(s: string)
    ensures ToLower(ToUpper(s)) == ToLower(s)
  {
    var u := ToUpper(s);
    forall i | 0 <= i < |s|
      ensures ToLower(u)[i] == ToLower(s)[i]
    {
      assert u[i] == UpperChar(s[i]);
    }
  }

  // ---------------------------------------------------------------------------
  // handleTip

  /** A tip request that passed the checks of `handleTip`. */
  datatype TipRequest = TipRequest(recipientId: string, amountText: string, token: string, memo: string)

  datatype TipCheck = NotAReply | OwnMessage | TipUsage | Request(req: TipRequest)

  /** The checks of `handleTip` in order: the message must reply to another
      user's message and give at least an amount and a token. */
  function CheckTip(userId: string, quotedFrom: Option<string>, args: seq<string>): (c: TipCheck)
    ensures c.NotAReply? <==> quotedFrom.None?
    ensures c.OwnMessage? <==> quotedFrom.Some? && UserIdOf(quotedFrom.value) == userId
    ensures c.TipUsage? <==> quotedFrom.Some? && UserIdOf(quotedFrom.value) != userId && |args| < 3
    ensures c.Request? ==>
      && |args| >= 3 && c.req.recipientId == UserIdOf(quotedFrom.value) && c.req.recipientId != userId
      && c.req.amountText == args[1] && c.req.token == ToUpper(args[2]) && c.req.memo == Join(args[3..], ' ')
  {
    match quotedFrom
    case None => NotAReply
    case Some(q) =>
      var recipientId := UserIdOf(q);
      if recipientId == userId then OwnMessage
      else if |args| < 3 then TipUsage
      else Request(TipRequest(recipientId, args[1], ToUpper(args[2]), Join(args[3..], ' ')))
  }

  /** The token word is upper-cased, so a key of the token tables typed in any
      case (and the routed text is always lower case) names that key. */
  lemma TipTokenFindsKey(userId: string, quotedFrom: Option<string>, args: seq<string>, key: string)
    requires |args| >= 3 && ToUpper(args[2]) == ToUpper(key) && NoAsciiLower(key)
    requires CheckTip(userId, quotedFrom, args).Request?
    ensures CheckTip(userId, quotedFrom, args).req.token == key
  {
    forall i | 0 <= i < |key|
      ensures ToUpper(key)[i] == key[i]
    {
    }
  }

  predicate NoAsciiLower(s: string) { forall i :: 0 <= i < |s| ==> !IsAsciiLower(s[i]) }

  // ---------------------------------------------------------------------------
  // processTip

  /** How `processTip` ends. */
  datatype Outcome =
    | InvalidAmount
    | SenderNotStarted
    | RecipientNotStarted
    | TokenNotSupported(token: string, network: string)
      /** The sender's stored network is no key of `TOKENS`, so the lookup throws
          before the `try`. */
    | LookupThrew
    | OverMaximum
    | Insufficient(balance: real, amount: real, token: string)
    | Sent(txId: nat, amount: real, network: string, txHash: string)
      /** Decrypting a wallet, reading the balance or sending threw. */
    | TransactionFailed

  /** What `sendTransaction` comes to: the hash, or an exception. */
  datatype Send = Mined(txHash: string) | SendThrew

  /** Where the guards before the chain leave a tip: stopped with an outcome, or
      let through with the amount, the network and the token's entry. */
  datatype Gate = Stop(outcome: Outcome) | Go(amount: real, network: string, info: Constants.TokenInfo)

  /** The guards of `processTip` in their order: the amount, the sender, the
      recipient, the token on the sender's network, the maximum. */
  function ProcessGuards(amountText: string, senderId: string, recipientId: string, token: string,
                         rows: seq<Users.UserRow>): (g: Gate)
    ensures g.Go? ==> g.amount <= Constants.MaxTipAmount
  {
    match Chat.ParseAmount(amountText)
    case None => Stop(InvalidAmount)
    case Some(amount) =>
      match Users.FindById(rows, senderId)
      case None => Stop(SenderNotStarted)
      case Some(sender) =>
        if Users.FindById(rows, recipientId).None? then Stop(RecipientNotStarted)
        else
          var network := Chat.NetworkOf(sender.preferredNetwork);
          match Constants.LookupToken(network, token)
          case NoSuchNetwork => Stop(LookupThrew)
          case NoSuchToken => Stop(TokenNotSupported(token, network))
          case Found(info) =>
            if amount > Constants.MaxTipAmount then Stop(OverMaximum) else Go(amount, network, info)
  }

  /** `processTip` past its guards: the balance read from the chain, then the
      transfer. `txId` is the id the ledger row gets. */
  function Process(amountText: string, senderId: string, recipientId: string, token: string,
                   rows: seq<Users.UserRow>, balance: Chat.BalanceCheck, send: Send, txId: nat): (o: Outcome)
    ensures ProcessGuards(amountText, senderId, recipientId, token, rows).Stop? ==>
      o == ProcessGuards(amountText, senderId, recipientId, token, rows).outcome
  {
    match ProcessGuards(amountText, senderId, recipientId, token, rows)
    case Stop(o) => o
    case Go(amount, network, _) =>
      if balance.CheckFailed? then TransactionFailed
      else if balance.currentBalance < amount then Insufficient(balance.currentBalance, amount, token)
      else
        match send
        case SendThrew => TransactionFailed
        case Mined(h) => Sent(txId, amount, network, h)
  }

  /** As written, `processTip` calls `transactionManager.sendTransaction`, which is
      not defined, so the call throws: a tip that passes every guard and whose
      balance covers it ends in "Transaction failed" and records nothing. */
  lemma SendAsWrittenFails(amountText: string, senderId: string, recipientId: string, token: string,
                           rows: seq<Users.UserRow>, balance: Chat.BalanceCheck, txId: nat)
    requires ProcessGuards(amountText, senderId, recipientId, token, rows).Go?
    requires Chat.Sufficient(balance, ProcessGuards(amountText, senderId, recipientId, token, rows).amount)
    ensures Process(amountText, senderId, recipientId, token, rows, balance, SendThrew, txId) == TransactionFailed
  {
  }

  /** As written, `processTip` decrypts `sender.encrypted_private_key`, a field
      the user rows do not have (the table's column is `private_key_encrypted`),
      so `JSON.parse(undefined)` throws before the balance is read. With the
      balance query always failing, no tip is ever sent, and one that passes
      every guard ends in "Transaction failed". */
  lemma KeyFieldAsWrittenFails(amountText: string, senderId: string, recipientId: string, token: string,
                               rows: seq<Users.UserRow>, send: Send, txId: nat)
    ensures !Process(amountText, senderId, recipientId, token, rows, Chat.CheckFailed, send, txId).Sent?
    ensures ProcessGuards(amountText, senderId, recipientId, token, rows).Go? ==>
      Process(amountText, senderId, recipientId, token, rows, Chat.CheckFailed, send, txId) == TransactionFailed
  {
  }

  /** A tip is sent only when the amount parses and is at most the maximum, both
      users are registered, the token is listed on the sender's network, the
      balance covers the amount and the transfer was mined; nothing else (no rate
      limit, no daily cap, no self-tip test) is consulted. */
  lemma SentOnlyWhenSafe(amountText: string, senderId: string, recipientId: string, token: string,
                         rows: seq<Users.UserRow>, balance: Chat.BalanceCheck, send: Send, txId: nat)
    requires Process(amountText, senderId, recipientId, token, rows, balance, send, txId).Sent?
    ensures var o := Process(amountText, senderId, recipientId, token, rows, balance, send, txId);
      && Chat.ParseAmount(amountText) == Some(o.amount) && o.amount <= Constants.MaxTipAmount
      && Users.FindById(rows, senderId).Some? && Users.FindById(rows, recipientId).Some?
      && o.network == Chat.NetworkOf(Users.FindById(rows, senderId).value.preferredNetwork)
      && Constants.LookupToken(o.network, token).Found?
      && balance.Checked? && balance.currentBalance >= o.amount
      && send == Mined(o.txHash) && o.txId == txId
  {
  }

  /** The converse: when every guard passes and the chain answers, the tip is
      sent. */
  lemma SentWhenAllPass(amountText: string, senderId: string, recipientId: string, token: string,
                        rows: seq<Users.UserRow>, balance: Chat.BalanceCheck, h: string, txId: nat)
    requires Chat.ParseAmount(amountText).Some? && Chat.ParseAmount(amountText).value <= Constants.MaxTipAmount
    requires Users.FindById(rows, senderId).Some? && Users.FindById(rows, recipientId).Some?
    requires Constants.LookupToken(Chat.NetworkOf(Users.FindById(rows, senderId).value.preferredNetwork), token).Found?
    requires balance.Checked? && balance.currentBalance >= Chat.ParseAmount(amountText).value
    ensures Process(amountText, senderId, recipientId, token, rows, balance, Mined(h), txId)
      == Sent(txId, Chat.ParseAmount(amountText).value, Chat.NetworkOf(Users.FindById(rows, senderId).value.preferredNetwork), h)
  {
  }

  /** The order of the guards: each refusal is reported only when the guards
      before it pass. */
  lemma ProcessGuardOrder(amountText: string, senderId: string, recipientId: string, token: string,
                          rows: seq<Users.UserRow>)
    ensures var g := ProcessGuards(amountText, senderId, recipientId, token, rows);
      && (g == Stop(InvalidAmount) <==> Chat.ParseAmount(amountText).None?)
      && (g == Stop(SenderNotStarted) <==>
            Chat.ParseAmount(amountText).Some? && Users.FindById(rows, senderId).None?)
      && (g == Stop(RecipientNotStarted) <==>
            Chat.ParseAmount(amountText).Some? && Users.FindById(rows, senderId).Some?
            && Users.FindById(rows, recipientId).None?)
      && (g.Stop? && g.outcome.TokenNotSupported? ==>
            g.outcome.token == token && Users.FindById(rows, senderId).Some? && Users.FindById(rows, recipientId).Some?
            && g.outcome.network == Chat.NetworkOf(Users.FindById(rows, senderId).value.preferredNetwork))
      && (g == Stop(OverMaximum) ==>
            Chat.ParseAmount(amountText).Some? && Chat.ParseAmount(amountText).value > Constants.MaxTipAmount)
  {
  }

  /** The row `processTip` records once the transfer is mined: written directly
      as completed, with the network and the hash. */
  function CompletedTip(senderId: string, recipientId: string, amount: real, token: string,
                        network: string, txHash: string, memo: string): (d: Ledger.NewTx)
    ensures d.status == Some(Ledger.Completed) && d.txHash == Some(txHash) && d.network == Some(network)
  {
    Ledger.NewTx(senderId, recipientId, amount, token, Some(network), Some(txHash), Some(memo), Some(Ledger.Completed))
  }

  /** `processTip` for the tip of `amountText` `token` from `senderId` to
      `recipientId` with the memo `memo`; `balance` and `send` are the chain's
      answers. The ledger gets one completed row when, and only when, the tip
      is sent. */
  method ProcessTip(users: Users.UserTable, ledger: Ledger.LedgerTable, senderId: string, recipientId: string,
                    amountText: string, token: string, memo: string, balance: Chat.BalanceCheck, send: Send)
    returns (o: Outcome)
    requires ledger.Valid()
    modifies ledger
    ensures ledger.Valid()
    ensures o == Process(amountText, senderId, recipientId, token, users.rows, balance, send, old(ledger.nextId))
    ensures o.Sent? ==>
      && ledger.rows == old(ledger.rows) + [Ledger.RowOf(o.txId,
                          CompletedTip(senderId, recipientId, o.amount, token, o.network, o.txHash, memo))]
      && ledger.nextId == old(ledger.nextId) + 1
    ensures !o.Sent? ==> ledger.rows == old(ledger.rows) && ledger.nextId == old(ledger.nextId)
  {
    var g := CheckGuards(amountText, senderId, recipientId, token, users.rows);
    if g.Stop? {
      return g.outcome;
    }
    var amount, network := g.amount, g.network;
    if balance.CheckFailed? {
      return TransactionFailed;
    }
    if balance.currentBalance < amount {
      return Insufficient(balance.currentBalance, amount, token);
    }
    if send.SendThrew? {
      return TransactionFailed;
    }
    var txId := ledger.Create(CompletedTip(senderId, recipientId, amount, token, network, send.txHash, memo));
    o := Sent(txId, amount, network, send.txHash);
  }

  /** The guards of `processTip` before the chain is asked, in their order. */
  method CheckGuards(amountText: string, senderId: string, recipientId: string, token: string,
                     rows: seq<Users.UserRow>) returns (g: Gate)
    ensures g == ProcessGuards(amountText, senderId, recipientId, token, rows)
  {
    var parsed := Chat.ParseAmount(amountText);
    if parsed.None? {
      return Stop(InvalidAmount);
    }
    var amount := parsed.value;
    var sender := Users.FindById(rows, senderId);
    var recipient := Users.FindById(rows, recipientId);
    if sender.None? {
      return Stop(SenderNotStarted);
    }
    if recipient.None? {
      return Stop(RecipientNotStarted);
    }
    var network := Chat.NetworkOf(sender.value.preferredNetwork);
    var lookup := Constants.LookupToken(network, token);
    if lookup.NoSuchNetwork? {
      return Stop(LookupThrew);
    }
    if lookup.NoSuchToken? {
      return Stop(TokenNotSupported(token, network));
    }
    if amount > Constants.MaxTipAmount {
      return Stop(OverMaximum);
    }
    g := Go(amount, network, lookup.token);
  }

  // ---------------------------------------------------------------------------
  // handleNaturalLanguage: the three patterns

  /** The amount and the token a natural-language tip asks for. */
  datatype Ask = Ask(amountText: string, token: string)

  /** The run of white space `\s+` takes at the start of `r`: all of it, since a
      shorter run would leave a space where a digit or a word character has to
      follow, so the greedy choice loses no match. */
  predicate SpaceFirst(r: string) { TakeWhile(r, IsSpace) != "" }

  /** `\s+(\d+(?:\.\d+)?)\s+(\w+)` at the start of `r`: the amount and the token. */
  function Tail(r: string): (a: Option<Ask>)
    ensures a.Some? ==> IsDecimal(a.value.amountText) && |a.value.token| > 0 && AllWord(a.value.token)
    ensures a.Some? && NoAsciiUpper(r) ==> NoAsciiUpper(a.value.token)
  {
    if !SpaceFirst(r) then None else AmountTail(DropWhile(r, IsSpace))
  }

  /** `(\d+(?:\.\d+)?)\s+(\w+)` at the start of `s`. Taking fewer digits, or
      leaving out the fraction, would put a digit or a '.' where white space
      must follow, so the longest decimal is the only one that can match. */
  function AmountTail(s: string): (a: Option<Ask>)
    ensures a.Some? ==> IsDecimal(a.value.amountText) && |a.value.token| > 0 && AllWord(a.value.token)
    ensures a.Some? && NoAsciiUpper(s) ==> NoAsciiUpper(a.value.token)
  {
    var amount := TakeDecimal(s);
    if amount == "" then None else TokenTail(amount, DropDecimal(s))
  }

  /** `\s+(\w+)` at the start of `t`, after the decimal `amount`; nothing is
      required after the word. */
  function TokenTail(amount: string, t: string): (a: Option<Ask>)
    requires IsDecimal(amount)
    ensures a.Some? ==> a.value.amountText == amount && |a.value.token| > 0 && AllWord(a.value.token)
    ensures a.Some? && NoAsciiUpper(t) ==> NoAsciiUpper(a.value.token)
  {
    if !SpaceFirst(t) then None
    else
      var token := TakeWhile(DropWhile(t, IsSpace), IsWordChar);
      if token == "" then None else Some(Ask(amount, token))
  }

  /** `(.+?)` followed by what `tails` records, the group having at least `m`
      characters: `tails[j]` is the match of the rest after a group of `j`
      characters and `ends[j]` says whether character `j` is a line terminator,
      which `.` does not match. The lazy group grows one character at a time
      until the rest matches after it, so the match found is the one after the
      fewest characters. */
  function Lazy<T>(tails: seq<Option<T>>, ends: seq<bool>, m: nat): (r: Option<NaturalLanguage.Found<T>>)
    requires |tails| == |ends| + 1 && 1 <= m
    ensures r.Some? ==>
      && m <= r.value.at < |tails| && tails[r.value.at] == Some(r.value.captures)
      && (forall j :: m <= j < r.value.at ==> tails[j].None?)
      && (forall j :: m - 1 <= j < r.value.at ==> !ends[j])
    ensures r.None? ==> forall j :: m <= j < |tails| && tails[j].Some? ==> exists e :: m - 1 <= e < j && ends[e]
    decreases |tails| - m
  {
    if m >= |tails| || ends[m - 1] then None
    else match tails[m]
      case Some(a) => Some(NaturalLanguage.Found(m, a))
      case None => Lazy(tails, ends, m + 1)
  }

  /** The match of the pattern `tail` after each possible group of the text
      `q`: entry `p` is `tail` tried at index `p`. */
  function Tails<T>(tail: string -> Option<T>, q: string): (t: seq<Option<T>>)
    ensures |t| == |q| + 1
  {
    seq(|q| + 1, p requires 0 <= p <= |q| => tail(q[p..]))
  }

  /** Where `q` has a line terminator. */
  function LineEnds(q: string): (e: seq<bool>)
    ensures |e| == |q|
  {
    seq(|q|, j requires 0 <= j < |q| => IsLineTerminator(q[j]))
  }

  /** `(.+?)` followed by the pattern `tail`, at index `j` of `r`, as a regular
      expression defines a match: the group `r[j..p]`, not empty and without a
      line terminator, and then `tail` matching at `p` with the captures `a`. */
  predicate RestMatch<T(==)>(tail: string -> Option<T>, r: string, j: nat, p: nat, a: T) {
    j < p <= |r| && NoLineTerminator(r[j..p]) && tail(r[p..]) == Some(a)
  }

  /** `(.+?)` at index `j` of `r`, followed by `tail`: where the group ends,
      taking the fewest characters, none a line terminator, after which `tail`
      matches; 0 when there is no such end. */
  function LazyEnd<T>(tail: string -> Option<T>, r: string, j: nat): (p: nat)
    requires j <= |r|
    ensures p == 0 || (j < p <= |r| && tail(r[p..]).Some?)
  {
    match Lazy(Tails(tail, r), LineEnds(r), j + 1)
    case None => 0
    case Some(f) => f.at
  }

  /** The end `LazyEnd` finds is that of a match of the regular expression, and
      no shorter group is followed by a match of `tail`. */
  lemma LazyEndFound<T>(tail: string -> Option<T>, r: string, j: nat)
    requires j <= |r| && LazyEnd(tail, r, j) > 0
    ensures RestMatch(tail, r, j, LazyEnd(tail, r, j), tail(r[LazyEnd(tail, r, j)..]).value)
    ensures forall q :: j < q < LazyEnd(tail, r, j) ==> Tails(tail, r)[q].None?
  {
    var ends := LineEnds(r);
    var p := LazyEnd(tail, r, j);
    assert NoLineTerminator(r[j..p]) by {
      forall e | j <= e < p ensures !IsLineTerminator(r[e]) {
        assert ends[e] == IsLineTerminator(r[e]);
      }
    }
  }

  /** When `LazyEnd` finds no end, the regular expression does not match. */
  lemma LazyEndMissed<T>(tail: string -> Option<T>, r: string, j: nat)
    requires j <= |r| && LazyEnd(tail, r, j) == 0
    ensures forall p, b :: !RestMatch(tail, r, j, p, b)
  {
    var tails := Tails(tail, r);
    var ends := LineEnds(r);
    forall p: nat, b | RestMatch(tail, r, j, p, b) ensures false {
      assert tails[p] == tail(r[p..]);
      forall e | j <= e < p ensures !ends[e] {
        assert r[j..p][e - j] == r[e];
      }
    }
  }

  /** The greedy `\s+` before the lazy group, giving back one character at a
      time: how many characters of `r` it keeps, tried from `k` down to 1, the
      first for which the lazy group and `tail` match after them; 0 when none
      does. */
  function RunKept<T>(tail: string -> Option<T>, r: string, k: nat): (j: nat)
    requires k <= |r|
    ensures j <= k
    ensures j > 0 ==> LazyEnd(tail, r, j) > 0
    ensures forall l :: j < l <= k ==> LazyEnd(tail, r, l) == 0
    decreases k
  {
    if k == 0 || LazyEnd(tail, r, k) > 0 then k else RunKept(tail, r, k - 1)
  }

  /** Whenever `(.+?)` and `tail` match after a run of `j` characters, with
      `j` at most `k`, `RunKept` keeps a run at least as long, and one of the
      same length ends the group no later. */
  lemma RunKeptComplete<T>(tail: string -> Option<T>, r: string, k: nat, j: nat, p: nat, a: T)
    requires k <= |r| && 1 <= j <= k && RestMatch(tail, r, j, p, a)
    ensures j <= RunKept(tail, r, k)
    ensures j == RunKept(tail, r, k) ==> LazyEnd(tail, r, j) <= p
  {
    assert Tails(tail, r)[p] == tail(r[p..]);
    if LazyEnd(tail, r, j) == 0 {
      LazyEndMissed(tail, r, j);
    } else {
      LazyEndFound(tail, r, j);
    }
  }

  /** Every character of `s` is white space. */
  predicate AllSpace(s: string) { forall k :: 0 <= k < |s| ==> IsSpace(s[k]) }

  /** `verb\s+(.+?)\s+(\d+(?:\.\d+)?)\s+(\w+)` at the start of `s` as the
      regular expression defines a match, with the `i` flag: the verb in any
      case, a run of `j` white-space characters, then the rest with the group
      ending at `p` (both counted after the verb) and the captures `a`. */
  predicate VerbMatch(s: string, verb: string, j: nat, p: nat, a: Ask) {
    && NaturalLanguage.CiPrefix(s, verb)
    && 1 <= j <= |s| - |verb| && AllSpace(s[|verb|..][..j])
    && RestMatch(Tail, s[|verb|..], j, p, a)
  }

  /** `verb\s+(.+?)\s+(\d+(?:\.\d+)?)\s+(\w+)` tried at index `i` of `text`,
      backtracking as a regular expression engine does: the first run of white
      space is tried from its whole length down to one character, and for each
      the lazy group from one character up. */
  function VerbAt(text: string, i: nat, verb: string): (a: Option<Ask>)
    requires i <= |text|
    ensures a.Some? ==> IsDecimal(a.value.amountText) && |a.value.token| > 0 && AllWord(a.value.token)
    ensures a.Some? && NoAsciiUpper(text) ==> NoAsciiUpper(a.value.token)
  {
    var s := text[i..];
    if !NaturalLanguage.CiPrefix(s, verb) then None
    else
      var r := s[|verb|..];
      var j := RunKept(Tail, r, |TakeWhile(r, IsSpace)|);
      if j == 0 then None
      else
        var p := LazyEnd(Tail, r, j);
        assert NoAsciiUpper(text) ==> NoAsciiUpper(r[p..]);
        Tail(r[p..])
  }

  /** The first run of white space after the verb can take `j` characters
      exactly when `j` is at most the run `TakeWhile` finds. */
  lemma SpaceRun(r: string, j: nat)
    requires j <= |r|
    ensures AllSpace(r[..j]) <==> j <= |TakeWhile(r, IsSpace)|
  {
  }

  /** Every match `VerbAt` reports is a match of the regular expression. */
  lemma VerbAtSound(text: string, i: nat, verb: string)
    requires i <= |text| && VerbAt(text, i, verb).Some?
    ensures exists j: nat, p: nat :: VerbMatch(text[i..], verb, j, p, VerbAt(text, i, verb).value)
  {
    var s := text[i..];
    var r := s[|verb|..];
    var j := RunKept(Tail, r, |TakeWhile(r, IsSpace)|);
    SpaceRun(r, j);
    LazyEndFound(Tail, r, j);
    assert VerbMatch(s, verb, j, LazyEnd(Tail, r, j), VerbAt(text, i, verb).value);
  }

  /** Whenever the regular expression matches at index `i`, `VerbAt` reports a
      match there, and the one it reports comes first in the order the engine
      tries: the longest run of white space, then the shortest group. */
  lemma VerbAtComplete(text: string, i: nat, verb: string, j: nat, p: nat, a: Ask)
    requires i <= |text| && VerbMatch(text[i..], verb, j, p, a)
    ensures VerbAt(text, i, verb).Some? && exists j': nat, p': nat ::
      && VerbMatch(text[i..], verb, j', p', VerbAt(text, i, verb).value)
      && (j < j' || (j == j' && p' <= p))
  {
    var s := text[i..];
    var r := s[|verb|..];
    var run := |TakeWhile(r, IsSpace)|;
    SpaceRun(r, j);
    RunKeptComplete(Tail, r, run, j, p, a);
    var j' := RunKept(Tail, r, run);
    SpaceRun(r, j');
    LazyEndFound(Tail, r, j');
    assert VerbMatch(s, verb, j', LazyEnd(Tail, r, j'), VerbAt(text, i, verb).value);
  }

  /** The send and give patterns find every match of their regular expressions:
      when one matches anywhere in the text, `handleNaturalLanguage` has a match. */
  lemma NaturalAskComplete(text: string, i: nat, verb: string, j: nat, p: nat, a: Ask)
    requires verb == "send" || verb == "give"
    requires i <= |text| && VerbMatch(text[i..], verb, j, p, a)
    ensures NaturalAsk(text).Some?
  {
    VerbAtComplete(text, i, verb, j, p, a);
    var k := if verb == "send" then 0 else 1;
    assert PatternAt(text, i, k).Some?;
    assert Matches(text)[k] == PatternSearch(text, k);
  }

  /** "send   5 usdc": the verb's run of three spaces gives back two, so the lazy
      group takes a space and the tail the rest. */
  lemma SpacedSendMatches(text: string)
    requires text == "send" + (" " + (" " + (" " + ("5" + (" " + ("usdc" + ""))))))
    ensures NaturalAsk(text).Some?
  {
    SpacedSendVerb(text);
    NaturalAskComplete(text, 0, "send", 1, 2, Ask("5", "usdc"));
  }

  /** The match behind `SpacedSendMatches`: a run of one space after the verb,
      a group of one space, then the tail. */
  lemma SpacedSendVerb(text: string)
    requires text == "send" + (" " + (" " + (" " + ("5" + (" " + ("usdc" + ""))))))
    ensures VerbMatch(text[0..], "send", 1, 2, Ask("5", "usdc"))
  {
    var t := " " + ("5" + (" " + ("usdc" + "")));
    var r := " " + (" " + t);
    assert text[0..] == text && text[..4] == "send" && text[4..] == r;
    assert NaturalLanguage.CiPrefix(text, "send");
    assert AllSpace(r[..1]) by {
      assert r[..1] == " ";
    }
    TailComplete(" ", "5", " ", "usdc", "");
    SpacedSendRest(t, Ask("5", "usdc"));
  }

  lemma SpacedSendRest(t: string, a: Ask)
    requires Tail(t) == Some(a)
    ensures RestMatch(Tail, " " + (" " + t), 1, 2, a)
  {
    GroupThenTail(Tail, " ", " ", t, a);
  }

  /** A group `g` after the first `|x|` characters, followed by a text `t` that
      `tail` matches, is a match of `(.+?)` and then `tail`. */
  lemma GroupThenTail<T>(tail: string -> Option<T>, x: string, g: string, t: string, a: T)
    requires |g| > 0 && NoLineTerminator(g) && tail(t) == Some(a)
    ensures RestMatch(tail, x + (g + t), |x|, |x| + |g|, a)
  {
    var r := x + (g + t);
    assert r[|x|..|x| + |g|] == g;
    assert r[|x| + |g|..] == t;
  }

  /** `tip\s+(\d+(?:\.\d+)?)\s+(\w+)` tried at index `i` of `text`. */
  function TipAt(text: string, i: nat): (a: Option<Ask>)
    requires i <= |text|
    ensures a.Some? ==> IsDecimal(a.value.amountText) && |a.value.token| > 0 && AllWord(a.value.token)
    ensures a.Some? && NoAsciiUpper(text) ==> NoAsciiUpper(a.value.token)
  {
    var s := text[i..];
    if !NaturalLanguage.CiPrefix(s, "tip") then None else Tail(s[3..])
  }

  /** The three patterns in the order they are tried: send, give, tip. */
  const PatternCount: nat := 3

  function PatternAt(text: string, i: nat, k: nat): (a: Option<Ask>)
    requires i <= |text| && k < PatternCount
    ensures a.Some? ==> IsDecimal(a.value.amountText) && |a.value.token| > 0 && AllWord(a.value.token)
    ensures a.Some? && NoAsciiUpper(text) ==> NoAsciiUpper(a.value.token)
  {
    if k == 0 then VerbAt(text, i, "send") else if k == 1 then VerbAt(text, i, "give") else TipAt(text, i)
  }

  /** Pattern `k` tried at each index of `text`. */
  function PatternTries(text: string, k: nat): (t: seq<Option<Ask>>)
    requires k < PatternCount
    ensures |t| == |text|
  {
    seq(|text|, i requires 0 <= i < |text| => PatternAt(text, i, k))
  }

  /** `text.match(pattern)` for pattern `k`: the leftmost index where it matches. */
  function PatternSearch(text: string, k: nat): (r: Option<NaturalLanguage.Found<Ask>>)
    requires k < PatternCount
    ensures r.Some? ==>
      && r.value.at < |text| && PatternAt(text, r.value.at, k) == Some(r.value.captures)
      && forall j :: 0 <= j < r.value.at ==> PatternAt(text, j, k).None?
    ensures r.None? ==> forall j :: 0 <= j < |text| ==> PatternAt(text, j, k).None?
  {
    var tries := PatternTries(text, k);
    assert forall j :: 0 <= j < |text| ==> tries[j] == PatternAt(text, j, k);
    NaturalLanguage.Leftmost(tries, 0)
  }

  /** The outcome of `text.match` for each pattern, in order. */
  function Matches(text: string): (a: seq<Option<NaturalLanguage.Found<Ask>>>)
    ensures |a| == PatternCount
  {
    seq(PatternCount, k requires 0 <= k < PatternCount => PatternSearch(text, k))
  }

  /** What the first pattern that matches asks for. */
  function NaturalAsk(text: string): (a: Option<Ask>)
    ensures a.None? <==> forall k :: 0 <= k < PatternCount ==> Matches(text)[k].None?
    ensures a.Some? ==> IsDecimal(a.value.amountText) && |a.value.token| > 0 && AllWord(a.value.token)
    ensures a.Some? && NoAsciiUpper(text) ==> NoAsciiUpper(a.value.token)
  {
    match NaturalLanguage.FirstHit(Matches(text))
    case None => None
    case Some(h) =>
      assert Matches(text)[h.pattern].Some?;
      Some(h.captures)
  }

  /** `\s+(\w+)` takes the whole of a word that ends where a non-word character
      or the text does. */
  lemma TokenTailComplete(a: string, g2: string, w: string, rest: string)
    requires IsDecimal(a) && Validation.Gap(g2) && Validation.Word(w) && (rest == [] || !IsWordChar(rest[0]))
    ensures TokenTail(a, g2 + (w + rest)) == Some(Ask(a, w))
  {
    var t := g2 + (w + rest);
    assert (w + rest)[0] == w[0];
    assert TakeWhile(t, IsSpace) == g2 && DropWhile(t, IsSpace) == w + rest by {
      assert !IsSpace(w[0]);
      TakeWhileOfConcat(g2, w + rest, IsSpace);
    }
    assert TakeWhile(w + rest, IsWordChar) == w by {
      TakeWhileOfConcat(w, rest, IsWordChar);
    }
  }

  /** The tail matches a decimal, white space and a word, with those two as its
      groups. */
  lemma {:induction false} TailComplete(g1: string, a: string, g2: string, w: string, rest: string)
    requires Validation.Gap(g1) && IsDecimal(a) && Validation.Gap(g2) && Validation.Word(w)
    requires rest == [] || !IsWordChar(rest[0])
    ensures Tail(g1 + (a + (g2 + (w + rest)))) == Some(Ask(a, w))
  {
    DecimalEnds(a);
    assert !IsSpace((a + (g2 + (w + rest)))[0]);
    TakeWhileOfConcat(g1, a + (g2 + (w + rest)), IsSpace);
    assert IsSpace((g2 + (w + rest))[0]);
    TakeDecimalOfConcat(a, g2 + (w + rest));
    TokenTailComplete(a, g2, w, rest);
  }

  /** `tip <amount> <token>` at the head of a text, in any case and with any
      white space between the words, matches the tip pattern there with the
      amount and the token as its groups. */
  lemma TipPhraseMatches(head: string, g1: string, a: string, g2: string, w: string, rest: string)
    requires |head| == 3 && ToLower(head) == "tip"
    requires Validation.Gap(g1) && IsDecimal(a) && Validation.Gap(g2) && Validation.Word(w)
    requires rest == [] || !IsWordChar(rest[0])
    ensures TipAt(head + (g1 + (a + (g2 + (w + rest)))), 0) == Some(Ask(a, w))
  {
    var t := head + (g1 + (a + (g2 + (w + rest))));
    assert t[0..] == t && t[..3] == head && t[3..] == g1 + (a + (g2 + (w + rest)));
    TailComplete(g1, a, g2, w, rest);
  }

  // ---------------------------------------------------------------------------
  // handleNaturalLanguage: what is done with a match

  /** What `handleNaturalLanguage` does: tip the author of the quoted message,
      say that the text was not understood, or stay silent. */
  datatype Reaction = Tipped(recipientId: string, ask: Ask, outcome: Outcome) | NotUnderstood | Silent

  /** The words that make an unmatched text worth a reply. */
  predicate MentionsTipping(text: string) {
    Contains(text, "tip") || Contains(text, "send") || Contains(text, "crypto")
  }

  /** `handleNaturalLanguage` with the token upper-cased before the lookup, as the
      `tip` command does (see `NaturalAsWrittenNeverSends` for the code as
      written). A match counts only when the message is a reply; otherwise the
      text falls through to the not-understood test. */
  function Natural(userId: string, text: string, quotedFrom: Option<string>, rows: seq<Users.UserRow>,
                   balance: Chat.BalanceCheck, send: Send, txId: nat): (n: Reaction)
    ensures n.Tipped? <==> quotedFrom.Some? && NaturalAsk(text).Some?
    ensures n.Tipped? ==>
      && n.recipientId == UserIdOf(quotedFrom.value) && n.ask == NaturalAsk(text).value
      && n.outcome == Process(n.ask.amountText, userId, n.recipientId, ToUpper(n.ask.token), rows, balance, send, txId)
    ensures n.NotUnderstood? <==> !(quotedFrom.Some? && NaturalAsk(text).Some?) && MentionsTipping(text)
  {
    match (quotedFrom, NaturalAsk(text))
    case (Some(q), Some(a)) =>
      var recipientId := UserIdOf(q);
      Tipped(recipientId, a, Process(a.amountText, userId, recipientId, ToUpper(a.token), rows, balance, send, txId))
    case _ => if MentionsTipping(text) then NotUnderstood else Silent
  }

  /** A token with no upper-case letter is never found in the token tables, so
      `processTip` stops at the token check at the latest. */
  lemma LowerTokenStops(amountText: string, userId: string, recipientId: string, token: string,
                        rows: seq<Users.UserRow>, balance: Chat.BalanceCheck, send: Send, txId: nat)
    requires NoAsciiUpper(token)
    ensures var o := Process(amountText, userId, recipientId, token, rows, balance, send, txId);
      !o.Sent? && !o.Insufficient? && !o.OverMaximum? && !o.TransactionFailed?
  {
    forall network: string
      ensures !Constants.LookupToken(network, token).Found?
    {
      Constants.LowerCaseSymbolNotFound(network, token);
    }
  }

  /** As written, the token of a natural-language tip reaches the lookup in the
      case of the message, and the routed message is lower case, while every key
      of the token tables is upper case: such a tip never gets past the token
      check, whatever the users, balances and chain. */
  lemma NaturalAsWrittenNeverSends(userId: string, text: string, recipientId: string, rows: seq<Users.UserRow>,
                                   balance: Chat.BalanceCheck, send: Send, txId: nat)
    requires NoAsciiUpper(text) && NaturalAsk(text).Some?
    ensures var a := NaturalAsk(text).value;
      var o := Process(a.amountText, userId, recipientId, a.token, rows, balance, send, txId);
      !o.Sent? && !o.Insufficient? && !o.OverMaximum? && !o.TransactionFailed?
  {
    var a := NaturalAsk(text).value;
    LowerTokenStops(a.amountText, userId, recipientId, a.token, rows, balance, send, txId);
  }

  /** With the token upper-cased, a natural-language tip that passes every guard
      of `processTip` is sent, for the amount and token the pattern captured. */
  lemma NaturalSendsWhenAllPass(userId: string, text: string, q: string, rows: seq<Users.UserRow>,
                                balance: Chat.BalanceCheck, h: string, txId: nat)
    requires NaturalAsk(text).Some?
    requires var a := NaturalAsk(text).value;
      && Chat.ParseAmount(a.amountText).Some? && Chat.ParseAmount(a.amountText).value <= Constants.MaxTipAmount
      && Users.FindById(rows, userId).Some? && Users.FindById(rows, UserIdOf(q)).Some?
      && Constants.LookupToken(Chat.NetworkOf(Users.FindById(rows, userId).value.preferredNetwork), ToUpper(a.token)).Found?
      && balance.Checked? && balance.currentBalance >= Chat.ParseAmount(a.amountText).value
    ensures var n := Natural(userId, text, Some(q), rows, balance, Mined(h), txId);
      && n.Tipped? && n.outcome.Sent? && n.outcome.txHash == h
      && n.outcome.amount == DecimalValue(NaturalAsk(text).value.amountText)
  {
    var a := NaturalAsk(text).value;
    SentWhenAllPass(a.amountText, userId, UserIdOf(q), ToUpper(a.token), rows, balance, h, txId);
    var o := Process(a.amountText, userId, UserIdOf(q), ToUpper(a.token), rows, balance, Mined(h), txId);
    assert Natural(userId, text, Some(q), rows, balance, Mined(h), txId) == Tipped(UserIdOf(q), a, o);
  }

  /** A lower-case text that `w` starts, ignoring case, starts with `w` itself. */
  lemma CiPrefixOfLower(s: string, w: string)
    requires NoAsciiUpper(s) && NaturalLanguage.CiPrefix(s, w)
    ensures s[..|w|] == w
  {
    var p := s[..|w|];
    forall k | 0 <= k < |w| ensures p[k] == w[k] {
      assert ToLower(p)[k] == LowerChar(p[k]);
    }
  }

  /** A lower-case text that `verb` starts at index `i`, ignoring case, includes
      `verb`. */
  lemma VerbIncluded(text: string, i: nat, verb: string)
    requires i <= |text| && NoAsciiUpper(text) && NaturalLanguage.CiPrefix(text[i..], verb)
    ensures Contains(text, verb)
  {
    CiPrefixOfLower(text[i..], verb);
    assert text[i..][..|verb|] == text[i..i + |verb|];
    assert OccursAt(text, verb, i);
  }

  /** A lower-case text that the send pattern matches mentions tipping. */
  lemma SendMatchMentions(text: string)
    requires NoAsciiUpper(text) && Matches(text)[0].Some?
    ensures MentionsTipping(text)
  {
    var i := Matches(text)[0].value.at;
    assert VerbAt(text, i, "send").Some?;
    VerbIncluded(text, i, "send");
  }

  /** A lower-case text that the tip pattern matches mentions tipping. */
  lemma TipMatchMentions(text: string)
    requires NoAsciiUpper(text) && Matches(text)[2].Some?
    ensures MentionsTipping(text)
  {
    var i := Matches(text)[2].value.at;
    assert TipAt(text, i).Some?;
    VerbIncluded(text, i, "tip");
  }

  /** A lower-case text that the send or the tip pattern matches mentions
      tipping, so when the message is not a reply the bot answers that it did not
      understand. */
  lemma UnrepliedMatchNotUnderstood(userId: string, text: string, rows: seq<Users.UserRow>,
                                    balance: Chat.BalanceCheck, send: Send, txId: nat)
    requires NoAsciiUpper(text) && (Matches(text)[0].Some? || Matches(text)[2].Some?)
    ensures Natural(userId, text, None, rows, balance, send, txId) == NotUnderstood
  {
    if Matches(text)[0].Some? {
      SendMatchMentions(text);
    } else {
      TipMatchMentions(text);
    }
  }

  /** The method `handleNaturalLanguage`: the patterns in order, then the tip for
      the first that matched when the message is a reply, then the fallback. */
  method HandleNaturalLanguage(users: Users.UserTable, ledger: Ledger.LedgerTable, userId: string, text: string,
                               quotedFrom: Option<string>, balance: Chat.BalanceCheck, send: Send)
    returns (n: Reaction)
    requires ledger.Valid()
    modifies ledger
    ensures ledger.Valid()
    ensures n == Natural(userId, text, quotedFrom, users.rows, balance, send, old(ledger.nextId))
    ensures n.Tipped? && n.outcome.Sent? ==>
      && ledger.rows == old(ledger.rows) + [Ledger.RowOf(n.outcome.txId,
           CompletedTip(userId, n.recipientId, n.outcome.amount, ToUpper(n.ask.token), n.outcome.network, n.outcome.txHash, ""))]
      && ledger.nextId == old(ledger.nextId) + 1
    ensures !(n.Tipped? && n.outcome.Sent?) ==> ledger.rows == old(ledger.rows) && ledger.nextId == old(ledger.nextId)
  {
    var hit := NaturalLanguage.FirstHitOf(Matches(text));
    if quotedFrom.Some? && hit.Some? {
      assert Matches(text)[hit.value.pattern].Some?;
      var a := hit.value.captures;
      var recipientId := UserIdOf(quotedFrom.value);
      var o := ProcessTip(users, ledger, userId, recipientId, a.amountText, ToUpper(a.token), "", balance, send);
      return Tipped(recipientId, a, o);
    }
    n := if MentionsTipping(text) then NotUnderstood else Silent;
  }

  // ---------------------------------------------------------------------------
  // handleTip, whole

  /** What `handleTip` comes to: refused by its own checks, or handed to
      `processTip`. */
  datatype TipResult = Refused(check: TipCheck) | Processed(request: TipRequest, outcome: Outcome)

  function TipStep(userId: string, quotedFrom: Option<string>, args: seq<string>, rows: seq<Users.UserRow>,
                   balance: Chat.BalanceCheck, send: Send, txId: nat): (t: TipResult)
    ensures t.Refused? <==> !CheckTip(userId, quotedFrom, args).Request?
    ensures t.Refused? ==> t.check == CheckTip(userId, quotedFrom, args)
    ensures t.Processed? ==>
      && t.request == CheckTip(userId, quotedFrom, args).req
      && t.outcome == Process(t.request.amountText, userId, t.request.recipientId, t.request.token, rows, balance, send, txId)
  {
    match CheckTip(userId, quotedFrom, args)
    case Request(req) => Processed(req, Process(req.amountText, userId, req.recipientId, req.token, rows, balance, send, txId))
    case c => Refused(c)
  }

  /** A tip that `handleTip` sends goes to the author of the quoted message, who
      is not the sender, for the amount of the second word in the token of the
      third, upper-cased. */
  lemma TipSentToQuotedAuthor(userId: string, quotedFrom: Option<string>, args: seq<string>, rows: seq<Users.UserRow>,
                              balance: Chat.BalanceCheck, send: Send, txId: nat)
    requires var t := TipStep(userId, quotedFrom, args, rows, balance, send, txId); t.Processed? && t.outcome.Sent?
    ensures var t := TipStep(userId, quotedFrom, args, rows, balance, send, txId);
      && quotedFrom.Some? && |args| >= 3
      && t.request.recipientId == UserIdOf(quotedFrom.value) && t.request.recipientId != userId
      && Chat.ParseAmount(args[1]) == Some(t.outcome.amount) && t.request.token == ToUpper(args[2])
      && Constants.LookupToken(t.outcome.network, ToUpper(args[2])).Found?
  {
    var t := TipStep(userId, quotedFrom, args, rows, balance, send, txId);
    SentOnlyWhenSafe(t.request.amountText, userId, t.request.recipientId, t.request.token, rows, balance, send, txId);
  }

  /** The method `handleTip` followed by `processTip`. */
  method HandleTip(users: Users.UserTable, ledger: Ledger.LedgerTable, userId: string, quotedFrom: Option<string>,
                   args: seq<string>, balance: Chat.BalanceCheck, send: Send)
    returns (t: TipResult)
    requires ledger.Valid()
    modifies ledger
    ensures ledger.Valid()
    ensures t == TipStep(userId, quotedFrom, args, users.rows, balance, send, old(ledger.nextId))
    ensures t.Processed? && t.outcome.Sent? ==>
      && ledger.rows == old(ledger.rows) + [Ledger.RowOf(t.outcome.txId,
           CompletedTip(userId, t.request.recipientId, t.outcome.amount, t.request.token, t.outcome.network,
                        t.outcome.txHash, t.request.memo))]
      && ledger.nextId == old(ledger.nextId) + 1
    ensures !(t.Processed? && t.outcome.Sent?) ==> ledger.rows == old(ledger.rows) && ledger.nextId == old(ledger.nextId)
  {
    var c := CheckTip(userId, quotedFrom, args);
    if !c.Request? {
      return Refused(c);
    }
    var req := c.req;
    var o := ProcessTip(users, ledger, userId, req.recipientId, req.amountText, req.token, req.memo, balance, send);
    t := Processed(req, o);
  }

  // ---------------------------------------------------------------------------
  // parseAmount as written

  const TipFailed: string := "❌ Tip failed. Please try again."

  /** The reply of `handleTip` as written: `parseAmount` is imported from a module
      that does not define it, so calling it throws a `TypeError` at the start
      of `processTip`, before any other check, and `handleTip` answers every
      request that passes its own checks with its apology. */
  function TipReplyAsWritten(userId: string, quotedFrom: Option<string>, args: seq<string>): (r: string)
    ensures CheckTip(userId, quotedFrom, args).Request? ==> r == TipFailed
    ensures !CheckTip(userId, quotedFrom, args).Request? ==> r == CheckReply(CheckTip(userId, quotedFrom, args))
  {
    var c := CheckTip(userId, quotedFrom, args);
    if c.Request? then TipFailed else CheckReply(c)
  }

  /** As written no tip is ever sent; with `parseAmount` read as the positive
      decimal parser its callers expect, a request that passes every guard is. */
  lemma UndefinedParseAmount(userId: string, q: string, args: seq<string>, rows: seq<Users.UserRow>,
                             balance: Chat.BalanceCheck, h: string, txId: nat)
    requires UserIdOf(q) != userId && |args| >= 3
    requires Chat.ParseAmount(args[1]).Some? && Chat.ParseAmount(args[1]).value <= Constants.MaxTipAmount
    requires Users.FindById(rows, userId).Some? && Users.FindById(rows, UserIdOf(q)).Some?
    requires Constants.LookupToken(Chat.NetworkOf(Users.FindById(rows, userId).value.preferredNetwork), ToUpper(args[2])).Found?
    requires balance.Checked? && balance.currentBalance >= Chat.ParseAmount(args[1]).value
    ensures TipReplyAsWritten(userId, Some(q), args) == TipFailed
    ensures var t := TipStep(userId, Some(q), args, rows, balance, Mined(h), txId); t.Processed? && t.outcome.Sent?
  {
    SentWhenAllPass(args[1], userId, UserIdOf(q), ToUpper(args[2]), rows, balance, h, txId);
  }

  // ---------------------------------------------------------------------------
  // Replies

  const NotAReplyText: string := "❌ To tip someone, reply to their message with:\n*tip 5 USDC thanks!*"
  const OwnMessageText: string := "❌ You cannot tip yourself!"
  const TipUsageText: string := "❌ Usage: *tip <amount> <token> [message]*\nExample: *tip 5 USDC thanks!*"
  const HandlerFailed: string := "❌ An error occurred. Please try again."
  const NotUnderstoodText: string := "🤔 I didn't understand that command.\nType *help* for available commands."

  /** The reply to a tip refused by the checks of `handleTip`. */
  function CheckReply(c: TipCheck): string {
    match c
    case NotAReply => NotAReplyText
    case OwnMessage => OwnMessageText
    case TipUsage => TipUsageText
    case Request(_) => ""
  }

  /** The reply `processTip` sends the tipper for `token`; `thrown` is the text of
      the catch that receives a lookup that throws. */
  function OutcomeReply(o: Outcome, token: string, thrown: string): string {
    match o
    case InvalidAmount => "❌ Invalid amount format"
    case SenderNotStarted => "❌ Please type *start* first to create your wallet."
    case RecipientNotStarted => "❌ Recipient needs to start the bot first."
    case TokenNotSupported(t, network) => "❌ Token " + t + " not supported on " + network
    case LookupThrew => thrown
    case OverMaximum => "❌ Maximum tip amount is $" + Numbers.NumberText(Constants.MaxTipAmount)
    case Insufficient(balance, amount, t) =>
      "❌ Insufficient balance. You have " + Numbers.UnitsText(balance) + " " + t + ", need "
        + Numbers.NumberText(amount) + " " + t + "."
    case Sent(_, amount, network, txHash) =>
      (match Constants.Networks(network)
       case None => "❌ Transaction failed. Please try again."
       case Some(info) =>
         "✅ *Tip Sent!*\n\nAmount: " + Numbers.NumberText(amount) + " " + token + "\nNetwork: " + info.name
           + "\nTransaction: " + info.explorer + "/tx/" + txHash)
    case TransactionFailed => "❌ Transaction failed. Please try again."
  }

  /** The notice the recipient of a sent tip gets; the memo line only when there
      is a memo. */
  function RecipientNotice(amount: real, token: string, memo: string, network: Constants.NetworkInfo, txHash: string): (r: string)
    ensures StartsWith(r, "🎉 *You received a tip!*\n\n")
  {
    "🎉 *You received a tip!*\n\n" + ("Amount: " + Numbers.NumberText(amount) + " " + token + "\n"
      + (if memo != "" then "Message: \"" + memo + "\"\n" else "")
      + "Network: " + network.name + "\nTransaction: " + network.explorer + "/tx/" + txHash)
  }

  /** The reply of `handleTip`. */
  function TipReply(t: TipResult): string {
    match t
    case Refused(c) => CheckReply(c)
    case Processed(req, o) => OutcomeReply(o, req.token, TipFailed)
  }

  /** The reply of `handleNaturalLanguage`, if any; a lookup that throws reaches
      the catch of `handleMessage`. */
  function NaturalReply(n: Reaction): Option<string> {
    match n
    case Tipped(_, a, o) => Some(OutcomeReply(o, ToUpper(a.token), HandlerFailed))
    case NotUnderstood => Some(NotUnderstoodText)
    case Silent => None
  }

  // ---------------------------------------------------------------------------
  // handleMessage, whole

  /** What `handleMessage` does with a message: nothing, one of the modelled
      handlers, or a handler that is not part of this model (start, help,
      balance, deposit, network). */
  datatype Handled =
    | Skipped
    | TipHandled(tip: TipResult)
    | WithdrawHandled(reply: string)
    | NaturalHandled(reaction: Reaction)
    | ElsewhereHandled(command: Command)

  function Handle(m: Incoming, rows: seq<Users.UserRow>, balance: Chat.BalanceCheck, send: Send, txId: nat): (h: Handled)
    ensures h.Skipped? <==> RouteOf(m).Dropped?
    ensures h.TipHandled? <==> RouteOf(m).Routed? && RouteOf(m).command == Tip
    ensures h.WithdrawHandled? <==> RouteOf(m).Routed? && RouteOf(m).command == Withdraw
    ensures h.NaturalHandled? <==> RouteOf(m).Routed? && RouteOf(m).command == Other
    ensures h.TipHandled? ==>
      h.tip == TipStep(RouteOf(m).userId, m.quotedFrom, RouteOf(m).args, rows, balance, send, txId)
    ensures h.WithdrawHandled? ==> h.reply == WithdrawReply(RouteOf(m).args)
    ensures h.NaturalHandled? ==>
      h.reaction == Natural(RouteOf(m).userId, RouteOf(m).text, m.quotedFrom, rows, balance, send, txId)
  {
    var route := RouteOf(m);
    if route.Dropped? then Skipped else HandleRoute(route, m.quotedFrom, rows, balance, send, txId)
  }

  /** What happens to a message that was routed to a command. */
  function HandleRoute(route: Route, quotedFrom: Option<string>, rows: seq<Users.UserRow>, balance: Chat.BalanceCheck,
                       send: Send, txId: nat): (h: Handled)
    requires route.Routed?
    ensures h.TipHandled? <==> route.command == Tip
    ensures h.WithdrawHandled? <==> route.command == Withdraw
    ensures h.NaturalHandled? <==> route.command == Other
    ensures !h.Skipped?
    ensures h.TipHandled? ==> h.tip == TipStep(route.userId, quotedFrom, route.args, rows, balance, send, txId)
    ensures h.WithdrawHandled? ==> h.reply == WithdrawReply(route.args)
    ensures h.NaturalHandled? ==> h.reaction == Natural(route.userId, route.text, quotedFrom, rows, balance, send, txId)
  {
    match route.command
    case Tip => TipHandled(TipStep(route.userId, quotedFrom, route.args, rows, balance, send, txId))
    case Withdraw => WithdrawHandled(WithdrawReply(route.args))
    case Other => NaturalHandled(Natural(route.userId, route.text, quotedFrom, rows, balance, send, txId))
    case _ => ElsewhereHandled(route.command)
  }

  /** A message after which a tip has been sent. */
  predicate Moved(h: Handled) {
    || (h.TipHandled? && h.tip.Processed? && h.tip.outcome.Sent?)
    || (h.NaturalHandled? && h.reaction.Tipped? && h.reaction.outcome.Sent?)
  }

  /** Funds move only for a direct message from a user (not a status update,
      not a group) that replies to another user's message, through the tip
      command or a natural-language tip. */
  lemma OnlyRepliesMoveFunds(m: Incoming, rows: seq<Users.UserRow>, balance: Chat.BalanceCheck, send: Send, txId: nat)
    requires Moved(Handle(m, rows, balance, send, txId))
    ensures m.from != StatusBroadcast && !m.isGroupMsg && m.quotedFrom.Some?
    ensures RouteOf(m).command == Tip || RouteOf(m).command == Other
    ensures send.Mined? && balance.Checked?
  {
    var h := Handle(m, rows, balance, send, txId);
    var r := RouteOf(m);
    if h.TipHandled? {
      TipSentToQuotedAuthor(r.userId, m.quotedFrom, r.args, rows, balance, send, txId);
      var t := h.tip;
      SentOnlyWhenSafe(t.request.amountText, r.userId, t.request.recipientId, t.request.token, rows, balance, send, txId);
    } else {
      var n := h.reaction;
      SentOnlyWhenSafe(n.ask.amountText, r.userId, n.recipientId, ToUpper(n.ask.token), rows, balance, send, txId);
    }
  }

  /** A sequence one element longer than another, which it starts with. */
  lemma GrewByOne<T>(a: seq<T>, b: seq<T>, x: T)
    requires b == a + [x]
    ensures |b| == |a| + 1 && b[..|a|] == a
  {
  }

  /** The command branch of `handleMessage`, for a message that was routed. */
  method HandleRouted(users: Users.UserTable, ledger: Ledger.LedgerTable, route: Route, quotedFrom: Option<string>,
                      balance: Chat.BalanceCheck, send: Send)
    returns (h: Handled)
    requires route.Routed? && ledger.Valid()
    modifies ledger
    ensures ledger.Valid()
    ensures h == HandleRoute(route, quotedFrom, users.rows, balance, send, old(ledger.nextId))
    ensures Moved(h) ==> |ledger.rows| == |old(ledger.rows)| + 1 && ledger.rows[..|old(ledger.rows)|] == old(ledger.rows)
    ensures !Moved(h) ==> ledger.rows == old(ledger.rows) && ledger.nextId == old(ledger.nextId)
  {
    match route.command {
      case Tip =>
        var t := HandleTip(users, ledger, route.userId, quotedFrom, route.args, balance, send);
        h := TipHandled(t);
        if Moved(h) {
          GrewByOne(old(ledger.rows), ledger.rows, Ledger.RowOf(t.outcome.txId,
            CompletedTip(route.userId, t.request.recipientId, t.outcome.amount, t.request.token, t.outcome.network,
                         t.outcome.txHash, t.request.memo)));
        }
      case Withdraw =>
        h := WithdrawHandled(WithdrawReply(route.args));
      case Other =>
        var n := HandleNaturalLanguage(users, ledger, route.userId, route.text, quotedFrom, balance, send);
        h := NaturalHandled(n);
        if Moved(h) {
          GrewByOne(old(ledger.rows), ledger.rows, Ledger.RowOf(n.outcome.txId,
            CompletedTip(route.userId, n.recipientId, n.outcome.amount, ToUpper(n.ask.token), n.outcome.network,
                         n.outcome.txHash, "")));
        }
      case _ =>
        h := ElsewhereHandled(route.command);
    }
  }

  /** The method `handleMessage`. */
  method HandleMessage(users: Users.UserTable, ledger: Ledger.LedgerTable, m: Incoming,
                       balance: Chat.BalanceCheck, send: Send)
    returns (h: Handled)
    requires ledger.Valid()
    modifies ledger
    ensures ledger.Valid()
    ensures h == Handle(m, users.rows, balance, send, old(ledger.nextId))
    ensures Moved(h) ==> |ledger.rows| == |old(ledger.rows)| + 1 && ledger.rows[..|old(ledger.rows)|] == old(ledger.rows)
    ensures !Moved(h) ==> ledger.rows == old(ledger.rows) && ledger.nextId == old(ledger.nextId)
  {
    var route := RouteOf(m);
    if route.Dropped? {
      return Skipped;
    }
    h := HandleRouted(users, ledger, route, m.quotedFrom, balance, send);
  }

  /** The reply `handleMessage` sends the author, if any. */
  function MessageReply(h: Handled): Option<string> {
    match h
    case TipHandled(t) => Some(TipReply(t))
    case WithdrawHandled(reply) => Some(reply)
    case NaturalHandled(n) => NaturalReply(n)
    case _ => None
  }

  // ---------------------------------------------------------------------------
  // handleWithdraw

  const WithdrawUsage: string :=
    "❌ Usage: *withdraw <token> <amount> <address>*\nExample: *withdraw USDC 10 0x742d35Cc6634C0532925a3b8D9C05f814c30e4c7*"
  const ComingSoon: string :=
    "🚧 Withdrawal feature coming soon!\nFor now, you can use external wallets to manage your funds."

  /** `handleWithdraw` moves nothing: with fewer than four words it shows the
      usage, otherwise the notice that withdrawals are not available. */
  function WithdrawReply(args: seq<string>): (r: string)
    ensures r == WithdrawUsage <==> |args| < 4
    ensures r == ComingSoon <==> |args| >= 4
  {
    if |args| < 4 then WithdrawUsage else ComingSoon
  }
}
