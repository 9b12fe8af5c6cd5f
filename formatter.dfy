/** `MessageFormatter` (src/bot/utils/messageFormatter.js): the static helpers
    that turn rows and amounts into the Markdown replies of the bot. The helpers
    that are single expressions are functions; the ones that build `message`
    with `+=` inside a `forEach` are methods proved against the text they build. */
module Formatter {
  import opened Wrappers
  import opened Text
  import opened Numbers
  import opened Constants

  /** A JavaScript argument that may or may not be a string (`typeof x === 'string'`). */
  datatype JsValue = JsString(s: string) | NotAString

  // ---------------------------------------------------------------------------
  // Texts made of one entry per element

  /** The concatenation of `f(i, xs[i])` for every index, in order: the text a
      `forEach((x, i) => message += ...)` appends. */
  function Concat<T>(xs: seq<T>, f: (nat, T) -> string): string
    decreases |xs|
  {
    if |xs| == 0 then "" else Concat(xs[..|xs| - 1], f) + f(|xs| - 1, xs[|xs| - 1])
  }

  /** One more step of the loop appends the next entry. */
  lemma ConcatStep<T>(xs: seq<T>, f: (nat, T) -> string, k: nat)
    requires k < |xs|
    ensures Concat(xs[..k + 1], f) == Concat(xs[..k], f) + f(k, xs[k])
  {
    assert xs[..k + 1][..k] == xs[..k];
  }

  /** The same step after a fixed heading. */
  lemma AppendStep<T>(heading: string, xs: seq<T>, f: (nat, T) -> string, k: nat)
    requires k < |xs|
    ensures heading + Concat(xs[..k + 1], f) == (heading + Concat(xs[..k], f)) + f(k, xs[k])
  {
    ConcatStep(xs, f, k);
  }

  /** The entries of a prefix of the list are a prefix of the text. */
  lemma {:induction false} ConcatPrefix<T>(xs: seq<T>, f: (nat, T) -> string, m: nat)
    requires m <= |xs|
    ensures StartsWith(Concat(xs, f), Concat(xs[..m], f))
    decreases |xs| - m
  {
    if m < |xs| {
      ConcatPrefix(xs, f, m + 1);
      ConcatStep(xs, f, m);
      var a := Concat(xs[..m], f);
      var b := Concat(xs[..m + 1], f);
      var t := Concat(xs, f);
      assert b[..|a|] == a;
      assert t[..|a|] == t[..|b|][..|a|];
    } else {
      assert xs[..m] == xs;
    }
  }

  /** Entry `k` stands in the text right after the entries before it. */
  lemma EntryAt<T>(xs: seq<T>, f: (nat, T) -> string, k: nat)
    requires k < |xs|
    ensures OccursAt(Concat(xs, f), f(k, xs[k]), |Concat(xs[..k], f)|)
  {
    ConcatPrefix(xs, f, k + 1);
    ConcatStep(xs, f, k);
    var a := Concat(xs[..k], f);
    var b := Concat(xs[..k + 1], f);
    var t := Concat(xs, f);
    assert t[|a|..|b|] == b[|a|..];
  }

  /** Whatever an entry starts with stands at that entry's place in the text. */
  lemma EntryPrefixAt<T>(xs: seq<T>, f: (nat, T) -> string, k: nat, p: string)
    requires k < |xs| && StartsWith(f(k, xs[k]), p)
    ensures OccursAt(Concat(xs, f), p, |Concat(xs[..k], f)|)
  {
    EntryAt(xs, f, k);
    var at := |Concat(xs[..k], f)|;
    var e := f(k, xs[k]);
    var t := Concat(xs, f);
    assert t[at..at + |p|] == t[at..at + |e|][..|p|];
  }

  /** The text starts with the first character of the first entry. */
  lemma ConcatFirst<T>(xs: seq<T>, f: (nat, T) -> string)
    requires |xs| > 0 && |f(0, xs[0])| > 0
    ensures |Concat(xs, f)| > 0 && Concat(xs, f)[0] == f(0, xs[0])[0]
  {
    EntryAt(xs, f, 0);
    assert xs[..0] == [];
  }

  /** `trim` of a text that starts with a non-blank heading followed by a
      non-blank character removes only trailing white space and keeps the heading. */
  lemma TrimKeepsHeading(heading: string, body: string)
    requires |heading| > 0 && !IsSpace(heading[0])
    requires |body| > 0 && !IsSpace(body[0])
    ensures Trim(heading + body) == TrimEnd(heading + body)
    ensures StartsWith(Trim(heading + body), heading)
  {
    var t := heading + body;
    assert TrimStart(t) == t;
    var r := TrimEnd(t);
    assert t[|heading|] == body[0];
    assert |r| > |heading|;
    assert r[..|heading|] == t[..|heading|];
  }

  // ---------------------------------------------------------------------------
  // formatError / formatSuccess / formatWarning

  const GenericError: string := "❌ Something went wrong. Please try again."

  /** `formatError`: a string is shown behind ❌; anything else (an `Error`
      object, `undefined`) gives the generic apology. */
  function FormatError(error: JsValue): (r: string)
    ensures error.JsString? ==> r == "❌ " + error.s && r[2..] == error.s
    ensures error.NotAString? ==> r == GenericError
  {
    match error
    case JsString(s) => "❌ " + s
    case NotAString => GenericError
  }

  function FormatSuccess(message: string): (r: string)
    ensures |r| == |message| + 2 && r[2..] == message
  {
    "✅ " + message
  }

  function FormatWarning(message: string): (r: string)
    ensures |r| == |message| + 3 && r[3..] == message
  {
    "⚠️ " + message
  }

  /** The three notices start with three different marks, so no error reads as
      a success or a warning, whatever the texts. */
  lemma NoticesAreDistinct(e: JsValue, s: string, w: string)
    ensures FormatError(e)[0] == '❌' && FormatSuccess(s)[0] == '✅' && FormatWarning(w)[0] == '⚠'
    ensures FormatError(e) != FormatSuccess(s) && FormatError(e) != FormatWarning(w)
    ensures FormatSuccess(s) != FormatWarning(w)
  {
    assert FormatError(e)[0] == '❌';
    assert FormatSuccess(s)[0] == '✅';
    assert FormatWarning(w)[0] == '⚠';
  }

  // ---------------------------------------------------------------------------
  // formatTxHash

  const TxExplorer: string := "https://sepolia.basescan.org/tx/"

  function Min(a: nat, b: nat): nat { if a <= b then a else b }

  /** `${h.slice(0, 6)}...${h.slice(-4)}`; a hash shorter than the slices is taken whole. */
  function ShortHash(h: string): (r: string)
    ensures |h| >= 10 ==> |r| == 13 && r[..6] == h[..6] && r[9..] == h[|h| - 4..]
    ensures forall c :: c in r ==> c == '.' || c in h
  {
    h[..Min(6, |h|)] + "..." + h[|h| - Min(4, |h|)..]
  }

  /** `formatTxHash`: a Markdown link whose text is the shortened hash and whose
      target is the hash's explorer page; no hash gives the empty text. */
  function FormatTxHash(txHash: Option<string>): (r: string)
    ensures r == "" <==> txHash.None? || txHash.value == ""
  {
    if txHash.None? || txHash.value == "" then ""
    else "[" + ShortHash(txHash.value) + "](" + TxExplorer + txHash.value + ")"
  }

  /** The hash a transaction link points at: what follows the explorer's `/tx/`
      inside the parentheses after the first `]`. */
  function LinkTarget(link: string): Option<string> {
    var opening := "(" + TxExplorer;
    if |link| == 0 || link[0] != '[' then None
    else match IndexOfChar(link, ']')
      case None => None
      case Some(i) =>
        var rest := link[i + 1..];
        if StartsWith(rest, opening) && |rest| > |opening| && rest[|rest| - 1] == ')'
        then Some(rest[|opening|..|rest| - 1])
        else None
  }

  /** The link `formatTxHash` builds leads back to the hash it was given (for a
      hash without `]`, as transaction hashes are hexadecimal). */
  lemma TxHashLinkRoundTrip(h: string)
    requires h != "" && ']' !in h
    ensures LinkTarget(FormatTxHash(Some(h))) == Some(h)
  {
    LinkClosesAfterShortHash(h);
    LinkTail(h);
  }

  lemma LinkTail(h: string)
    ensures var opening := "(" + TxExplorer;
      var rest := opening + (h + ")");
      StartsWith(rest, opening) && |rest| > |opening| && rest[|rest| - 1] == ')' && rest[|opening|..|rest| - 1] == h
  {
    var opening := "(" + TxExplorer;
    var rest := opening + (h + ")");
    assert rest[..|opening|] == opening;
    assert rest[|opening|..] == h + ")";
  }

  lemma LinkClosesAfterShortHash(h: string)
    requires h != "" && ']' !in h
    ensures var link := FormatTxHash(Some(h));
      var front := "[" + ShortHash(h);
      IndexOfChar(link, ']') == Some(|front|) && link[|front| + 1..] == "(" + TxExplorer + (h + ")")
  {
    var front := "[" + ShortHash(h);
    var link := FormatTxHash(Some(h));
    assert link == front + ("]" + ("(" + TxExplorer + (h + ")")));
    assert ']' !in front;
    assert link[..|front|] == front;
    FirstIndexOf(link, |front|, ']');
  }

  /** A character's first occurrence is where it stands with none before it. */
  lemma FirstIndexOf(s: string, i: nat, c: char)
    requires i < |s| && s[i] == c && c !in s[..i]
    ensures IndexOfChar(s, c) == Some(i)
  {
    var j := IndexOfChar(s, c).value;
    forall k | 0 <= k < i ensures s[k] != c {
      assert s[k] == s[..i][k];
    }
    forall k | 0 <= k < j ensures s[k] != c {
      assert s[k] == s[..j][k];
    }
  }

  // ---------------------------------------------------------------------------
  // escapeMarkdown

  /** The character class `[_*[\]()~`>#+\-=|{}.!\\]`. */
  predicate IsMarkdownSpecial(c: char) {
    c in {'_', '*', '[', ']', '(', ')', '~', '`', '>', '#', '+', '-', '=', '|', '{', '}', '.', '!', '\\'}
  }

  function CountSpecials(s: string): (n: nat)
    ensures n <= |s|
    decreases |s|
  {
    if |s| == 0 then 0 else (if IsMarkdownSpecial(s[0]) then 1 else 0) + CountSpecials(s[1..])
  }

  /** `text.replace(/[...]/g, '\\$&')`: a backslash before every special character. */
  function Escape(s: string): (r: string)
    ensures |r| == |s| + CountSpecials(s)
    decreases |s|
  {
    if |s| == 0 then ""
    else (if IsMarkdownSpecial(s[0]) then ['\\', s[0]] else [s[0]]) + Escape(s[1..])
  }

  /** `escapeMarkdown`: strings are escaped, anything else is returned as it is. */
  function EscapeMarkdown(v: JsValue): (r: JsValue)
    ensures v.NotAString? ==> r == v
    ensures v.JsString? ==> r.JsString? && |r.s| == |v.s| + CountSpecials(v.s)
  {
    match v
    case JsString(s) => JsString(Escape(s))
    case NotAString => NotAString
  }

  /** Markdown's reading of an escaped text: a backslash stands for the
      character after it. */
  function Unescape(s: string): string
    decreases |s|
  {
    if |s| == 0 then ""
    else if s[0] == '\\' && |s| >= 2 then [s[1]] + Unescape(s[2..])
    else [s[0]] + Unescape(s[1..])
  }

  /** The escaped text displays exactly the original text. */
  lemma {:induction false} UnescapeEscape(s: string)
    ensures Unescape(Escape(s)) == s
    decreases |s|
  {
    if |s| > 0 {
      UnescapeEscape(s[1..]);
      var e := Escape(s);
      if IsMarkdownSpecial(s[0]) {
        assert e == ['\\', s[0]] + Escape(s[1..]);
        assert e[2..] == Escape(s[1..]);
      } else {
        assert e == [s[0]] + Escape(s[1..]);
        assert e[1..] == Escape(s[1..]);
      }
      assert s == [s[0]] + s[1..];
    }
  }

  /** Escaping changes a text exactly when it holds a special character: nothing
      else is escaped. */
  lemma {:induction false} EscapeChangesOnlySpecials(s: string)
    ensures Escape(s) == s <==> forall k :: 0 <= k < |s| ==> !IsMarkdownSpecial(s[k])
    decreases |s|
  {
    if |s| > 0 {
      EscapeChangesOnlySpecials(s[1..]);
      assert s == [s[0]] + s[1..];
      if forall k :: 0 <= k < |s| ==> !IsMarkdownSpecial(s[k]) {
        assert forall k :: 0 <= k < |s[1..]| ==> !IsMarkdownSpecial(s[1..][k]) by {
          forall k | 0 <= k < |s[1..]| ensures !IsMarkdownSpecial(s[1..][k]) {
            assert s[1..][k] == s[k + 1];
          }
        }
      } else {
        var k :| 0 <= k < |s| && IsMarkdownSpecial(s[k]);
        CountPositive(s, k);
      }
    }
  }

  lemma {:induction false} CountPositive(s: string, k: nat)
    requires k < |s| && IsMarkdownSpecial(s[k])
    ensures CountSpecials(s) > 0
    decreases k
  {
    if k > 0 && !IsMarkdownSpecial(s[0]) {
      assert s[1..][k - 1] == s[k];
      CountPositive(s[1..], k - 1);
    }
  }

  // ---------------------------------------------------------------------------
  // formatLeaderboard

  /** A leaderboard row: `user.username` and `user[valueKey]`. */
  datatype Ranked = Ranked(username: string, value: real)

  function Medal(position: nat): string {
    if position == 1 then "🥇" else if position == 2 then "🥈" else if position == 3 then "🥉" else "🏅"
  }

  /** The first three places get three different medals; every later place gets 🏅. */
  lemma MedalsDistinct(p: nat, q: nat)
    requires 1 <= p < q
    ensures q <= 3 ==> Medal(p) != Medal(q)
    ensures p <= 3 ==> Medal(p) != Medal(q)
    ensures p > 3 ==> Medal(p) == Medal(q) == "🏅"
  {
    assert "🥇"[0] != "🥈"[0] && "🥇"[0] != "🥉"[0] && "🥈"[0] != "🥉"[0];
    assert "🏅"[0] != "🥇"[0] && "🏅"[0] != "🥈"[0] && "🏅"[0] != "🥉"[0];
  }

  /** The medal line of a place and the value line under it. */
  function LeaderLine(position: nat, u: Ranked, valueLabel: string): string {
    LeaderHead(position, u.username) + LeaderValue(u.value, valueLabel)
  }

  function LeaderValue(value: real, valueLabel: string): string {
    "    " + Fixed(value, 2) + " " + valueLabel + "\n\n"
  }

  function LeaderHead(position: nat, username: string): string {
    Medal(position) + " " + NatToString(position) + ". @" + username + "\n"
  }

  /** The entry of the user at `index`: positions are counted from 1. */
  function LeaderLineAt(valueLabel: string): (nat, Ranked) -> string {
    (index: nat, u: Ranked) => LeaderLine(index + 1, u, valueLabel)
  }

  function LeaderboardHeader(title: string): string { "🏆 **" + title + ":**\n\n" }

  /** The reply `formatLeaderboard` builds. */
  function Leaderboard(title: string, users: seq<Ranked>, valueLabel: string): string {
    if |users| == 0 then LeaderboardHeader(title) + "No data available yet!"
    else Trim(LeaderboardHeader(title) + Concat(users, LeaderLineAt(valueLabel)))
  }

  method FormatLeaderboard(title: string, users: seq<Ranked>, valueLabel: string) returns (message: string)
    ensures message == Leaderboard(title, users, valueLabel)
  {
    if |users| == 0 {
      return LeaderboardHeader(title) + "No data available yet!";
    }
    var entry := LeaderLineAt(valueLabel);
    message := LeaderboardHeader(title);
    var index := 0;
    while index < |users|
      invariant index <= |users|
      invariant message == LeaderboardHeader(title) + Concat(users[..index], entry)
    {
      AppendStep(LeaderboardHeader(title), users, entry, index);
      message := message + entry(index, users[index]);
      index := index + 1;
    }
    assert users[..index] == users;
    message := Trim(message);
  }

  /** The user at index `k` is listed under position k + 1 with its medal, right
      after the users before it. */
  lemma LeaderboardNumbering(users: seq<Ranked>, valueLabel: string, k: nat)
    requires k < |users|
    ensures OccursAt(Concat(users, LeaderLineAt(valueLabel)), LeaderHead(k + 1, users[k].username),
                     |Concat(users[..k], LeaderLineAt(valueLabel))|)
  {
    var f := LeaderLineAt(valueLabel);
    var head := LeaderHead(k + 1, users[k].username);
    assert StartsWith(f(k, users[k]), head) by {
      assert f(k, users[k]) == LeaderLine(k + 1, users[k], valueLabel);
      LeaderLineStarts(k + 1, users[k], valueLabel);
    }
    EntryPrefixAt(users, f, k, head);
  }

  lemma LeaderLineStarts(position: nat, u: Ranked, valueLabel: string)
    ensures StartsWith(LeaderLine(position, u, valueLabel), LeaderHead(position, u.username))
  {
  }

  /** A non-empty leaderboard is the trophy heading and the entries with only
      the trailing white space removed. */
  lemma LeaderboardShape(title: string, users: seq<Ranked>, valueLabel: string)
    requires |users| > 0
    ensures Leaderboard(title, users, valueLabel) == TrimEnd(LeaderboardHeader(title) + Concat(users, LeaderLineAt(valueLabel)))
    ensures StartsWith(Leaderboard(title, users, valueLabel), LeaderboardHeader(title))
  {
    var f := LeaderLineAt(valueLabel);
    LeaderLineFirst(1, users[0], valueLabel);
    ConcatFirst(users, f);
    TrimKeepsHeading(LeaderboardHeader(title), Concat(users, f));
  }

  lemma LeaderLineFirst(position: nat, u: Ranked, valueLabel: string)
    ensures |LeaderLine(position, u, valueLabel)| > 0
    ensures LeaderLine(position, u, valueLabel)[0] == Medal(position)[0]
  {
  }

  // ---------------------------------------------------------------------------
  // formatHistory

  /** A ledger row as `formatHistory` reads it. `date` is what
      `toLocaleDateString` makes of `created_at`, a text of the host's locale. */
  datatype HistoryItem = HistoryItem(fromTelegramId: Option<string>, amount: real, tokenSymbol: string,
                                     status: string, message: Option<string>, date: string)

  const MaxHistoryShown: nat := 10

  /** ✅ for 'completed', ❌ for 'failed', ⏳ for any other status. */
  function StatusIcon(status: string): (r: string)
    ensures r == "✅" <==> status == "completed"
    ensures r == "❌" <==> status == "failed"
    ensures r == "⏳" <==> status != "completed" && status != "failed"
  {
    if status == "completed" then "✅" else if status == "failed" then "❌" else "⏳"
  }

  /** Outgoing exactly when the row's sender is the reader (strict equality). */
  function Direction(tx: HistoryItem, currentUserId: string): string {
    if tx.fromTelegramId == Some(currentUserId) then "↗️ Sent" else "↙️ Received"
  }

  function HistoryEntry(tx: HistoryItem, currentUserId: string): string {
    StatusIcon(tx.status) + HistoryDetails(tx, currentUserId)
  }

  /** The rest of an entry: direction, amount, token, then the date and the note. */
  function HistoryDetails(tx: HistoryItem, currentUserId: string): string {
    " " + Direction(tx, currentUserId) + " " + AmountText(tx.amount) + " " + tx.tokenSymbol + "\n"
      + "    " + tx.date
      + (if tx.message.Some? && tx.message.value != "" then " - \"" + tx.message.value + "\"" else "")
      + "\n\n"
  }

  function HistoryEntryOf(currentUserId: string): (nat, HistoryItem) -> string {
    (index: nat, tx: HistoryItem) => HistoryEntry(tx, currentUserId)
  }

  const HistoryHeader: string := "📝 **Recent Transactions:**\n\n"
  const NoHistory: string := "📝 **Transaction History:**\n\nNo transactions found."

  /** The reply `formatHistory` builds: the first ten rows, trimmed. */
  function History(txs: seq<HistoryItem>, currentUserId: string): string {
    if |txs| == 0 then NoHistory
    else Trim(HistoryHeader + Concat(txs[..Min(MaxHistoryShown, |txs|)], HistoryEntryOf(currentUserId)))
  }

  method FormatHistory(txs: seq<HistoryItem>, currentUserId: string) returns (message: string)
    ensures message == History(txs, currentUserId)
  {
    if |txs| == 0 {
      return NoHistory;
    }
    var shown := txs[..Min(MaxHistoryShown, |txs|)];
    var entry := HistoryEntryOf(currentUserId);
    message := HistoryHeader;
    var i := 0;
    while i < |shown|
      invariant i <= |shown|
      invariant message == HistoryHeader + Concat(shown[..i], entry)
    {
      AppendStep(HistoryHeader, shown, entry, i);
      message := message + entry(i, shown[i]);
      i := i + 1;
    }
    assert shown[..i] == shown;
    message := Trim(message);
  }

  /** Rows after the tenth never reach the reply. */
  lemma HistoryShowsAtMostTen(txs: seq<HistoryItem>, extra: seq<HistoryItem>, currentUserId: string)
    requires |txs| >= MaxHistoryShown
    ensures History(txs + extra, currentUserId) == History(txs, currentUserId)
  {
    assert (txs + extra)[..MaxHistoryShown] == txs[..MaxHistoryShown];
  }

  /** Each of the shown rows is rendered, in order, starting with its status icon. */
  lemma HistoryEntryAt(txs: seq<HistoryItem>, currentUserId: string, k: nat)
    requires k < Min(MaxHistoryShown, |txs|)
    ensures var shown := txs[..Min(MaxHistoryShown, |txs|)];
      var t := Concat(shown, HistoryEntryOf(currentUserId));
      var at := |Concat(shown[..k], HistoryEntryOf(currentUserId))|;
      OccursAt(t, HistoryEntry(txs[k], currentUserId), at) && OccursAt(t, StatusIcon(txs[k].status), at)
  {
    var shown := txs[..Min(MaxHistoryShown, |txs|)];
    var f := HistoryEntryOf(currentUserId);
    EntryPrefixAt(shown, f, k, HistoryEntry(txs[k], currentUserId));
    HistoryEntryStarts(txs[k], currentUserId);
    EntryPrefixAt(shown, f, k, StatusIcon(txs[k].status));
  }

  lemma HistoryEntryStarts(tx: HistoryItem, currentUserId: string)
    ensures StartsWith(HistoryEntry(tx, currentUserId), StatusIcon(tx.status))
  {
  }

  // ---------------------------------------------------------------------------
  // formatBalance

  /** One `{ token_symbol, balance, network }` of the list `handleBalance` collects. */
  datatype BalanceEntry = BalanceEntry(tokenSymbol: string, balance: real, network: string)

  /** The networks of the list in order of first appearance: the keys of the
      grouping object, in the order `Object.entries` gives them. */
  function NetworkOrder(bs: seq<BalanceEntry>): seq<string>
    decreases |bs|
  {
    if |bs| == 0 then []
    else
      var o := NetworkOrder(bs[..|bs| - 1]);
      var last := bs[|bs| - 1];
      if last.network in o then o else o + [last.network]
  }

  /** Each network of the list is listed once, and nothing else is. */
  lemma {:induction false} NetworkOrderProperties(bs: seq<BalanceEntry>)
    ensures forall i, j :: 0 <= i < j < |NetworkOrder(bs)| ==> NetworkOrder(bs)[i] != NetworkOrder(bs)[j]
    ensures forall n :: n in NetworkOrder(bs) <==> exists e :: e in bs && e.network == n
    decreases |bs|
  {
    if |bs| > 0 {
      var p := bs[..|bs| - 1];
      var last := bs[|bs| - 1];
      assert bs == p + [last];
      NetworkOrderProperties(p);
      var o := NetworkOrder(p);
      forall n | n in o ensures exists e :: e in bs && e.network == n {
        var e :| e in p && e.network == n;
        assert e in bs;
      }
      forall n | (exists e :: e in bs && e.network == n) ensures n in NetworkOrder(bs) {
        var e :| e in bs && e.network == n;
        if e != last {
          assert e in p;
        }
      }
    }
  }

  /** The entries of one network, in list order: the array kept under that key. */
  function OnNetwork(bs: seq<BalanceEntry>, network: string): (r: seq<BalanceEntry>)
    ensures |r| <= |bs|
    decreases |bs|
  {
    if |bs| == 0 then []
    else
      var last := bs[|bs| - 1];
      OnNetwork(bs[..|bs| - 1], network) + (if last.network == network then [last] else [])
  }

  /** A network's group holds exactly the list's entries on that network. */
  lemma {:induction false} OnNetworkMembers(bs: seq<BalanceEntry>, network: string)
    ensures forall e :: e in OnNetwork(bs, network) <==> e in bs && e.network == network
    ensures (forall e :: e in bs ==> e.network != network) ==> OnNetwork(bs, network) == []
    decreases |bs|
  {
    if |bs| > 0 {
      var p := bs[..|bs| - 1];
      assert bs == p + [bs[|bs| - 1]];
      OnNetworkMembers(p, network);
    }
  }

  /** `  SYMBOL: amount` when the 8-place amount text reads as positive, else nothing. */
  function TokenLine(e: BalanceEntry): string {
    var amount := AmountText(e.balance);
    if ParseFloat(amount).GetOr(0.0) > 0.0 then "  " + e.tokenSymbol + ": " + amount + "\n" else ""
  }

  function TokenLineOf(): (nat, BalanceEntry) -> string {
    (index: nat, e: BalanceEntry) => TokenLine(e)
  }

  /** A known network's heading, its token lines and a blank line; an unknown
      network contributes nothing. */
  function NetworkBlock(network: string, entries: seq<BalanceEntry>): (r: string)
    ensures Networks(network).None? ==> r == ""
    ensures Networks(network).Some? ==> StartsWith(r, NetworkHeading(Networks(network).value.name))
  {
    match Networks(network)
    case None => ""
    case Some(info) =>
      var r := NetworkHeading(info.name) + (Concat(entries, TokenLineOf()) + "\n");
      PrefixStarts(NetworkHeading(info.name), Concat(entries, TokenLineOf()) + "\n");
      r
  }

  /** The heading of a network's block. */
  function NetworkHeading(name: string): string {
    "🌐 **" + name + ":**\n"
  }

  /** The block of each network, holding that network's entries of `bs`. */
  function BlockOf(bs: seq<BalanceEntry>): (nat, string) -> string {
    (index: nat, network: string) => NetworkBlock(network, OnNetwork(bs, network))
  }

  const BalanceHeader: string := "💰 **Your Balances:**\n\n"
  const BalanceFooter: string := "Use /deposit to add funds • /network to switch networks"
  const NoBalances: string := "💰 **Your Balances:**\n\nNo tokens found. Use /deposit to fund your wallet."

  /** The reply `formatBalance` builds. */
  function BalanceMessage(bs: seq<BalanceEntry>): string {
    if |bs| == 0 then NoBalances
    else BalanceHeader + Concat(NetworkOrder(bs), BlockOf(bs)) + BalanceFooter
  }

  /** The grouping loop of `formatBalance`: each network's entries in list
      order, and the networks in order of first appearance. */
  method GroupByNetwork(bs: seq<BalanceEntry>) returns (order: seq<string>, groups: map<string, seq<BalanceEntry>>)
    ensures order == NetworkOrder(bs)
    ensures forall n :: n in groups <==> n in order
    ensures forall n :: n in groups ==> groups[n] == OnNetwork(bs, n)
  {
    groups := map[];
    order := [];
    var i := 0;
    while i < |bs|
      invariant i <= |bs|
      invariant Grouped(bs[..i], order, groups)
    {
      var b := bs[i];
      GroupStep(bs[..i], b, order, groups);
      var group := [];
      if b.network in groups {
        group := groups[b.network];
      } else {
        order := order + [b.network];
      }
      groups := groups[b.network := group + [b]];
      assert bs[..i + 1] == bs[..i] + [b];
      i := i + 1;
    }
    assert bs[..i] == bs;
  }

  /** `order` and `groups` are the grouping of `bs`. */
  ghost predicate Grouped(bs: seq<BalanceEntry>, order: seq<string>, groups: map<string, seq<BalanceEntry>>) {
    && order == NetworkOrder(bs)
    && (forall n :: n in groups <==> n in order)
    && (forall n :: n in groups ==> groups[n] == OnNetwork(bs, n))
  }

  /** Grouping one more entry: a new network is appended to the order with an
      empty group, and the entry is pushed onto its network's group. */
  lemma GroupStep(bs: seq<BalanceEntry>, b: BalanceEntry, order: seq<string>, groups: map<string, seq<BalanceEntry>>)
    requires Grouped(bs, order, groups)
    ensures var group := if b.network in groups then groups[b.network] else [];
      Grouped(bs + [b], if b.network in groups then order else order + [b.network], groups[b.network := group + [b]])
  {
    var p := bs + [b];
    assert p[..|bs|] == bs;
    NetworkOrderProperties(bs);
    OnNetworkMembers(bs, b.network);
  }

  method FormatBalance(bs: seq<BalanceEntry>) returns (message: string)
    ensures message == BalanceMessage(bs)
  {
    if |bs| == 0 {
      return NoBalances;
    }
    var order, groups := GroupByNetwork(bs);
    // Show balances for each network.
    message := BalanceHeader;
    var j := 0;
    while j < |order|
      invariant j <= |order|
      invariant message == BalanceHeader + Concat(order[..j], BlockOf(bs))
    {
      AppendStep(BalanceHeader, order, BlockOf(bs), j);
      var block := NetworkBlock(order[j], groups[order[j]]);
      assert block == BlockOf(bs)(j, order[j]);
      message := message + block;
      j := j + 1;
    }
    assert order[..j] == order;
    message := message + BalanceFooter;
  }

  /** A token is listed exactly when its balance is positive and rounds to at
      least one unit of the eighth decimal place. */
  lemma TokenLineShown(e: BalanceEntry)
    ensures TokenLine(e) != "" <==> e.balance > 0.0 && Scaled(e.balance, 8) > 0
  {
    AmountTextPositive(e.balance);
  }

  /** The number of entries across the groups of `order`. */
  function GroupSizes(order: seq<string>, bs: seq<BalanceEntry>): nat
    decreases |order|
  {
    if |order| == 0 then 0 else GroupSizes(order[..|order| - 1], bs) + |OnNetwork(bs, order[|order| - 1])|
  }

  lemma {:induction false} GroupSizesAppendEntry(order: seq<string>, bs: seq<BalanceEntry>, e: BalanceEntry)
    requires forall i, j :: 0 <= i < j < |order| ==> order[i] != order[j]
    ensures GroupSizes(order, bs + [e]) == GroupSizes(order, bs) + (if e.network in order then 1 else 0)
    decreases |order|
  {
    if |order| > 0 {
      var front := order[..|order| - 1];
      var n := order[|order| - 1];
      GroupSizesAppendEntry(front, bs, e);
      assert (bs + [e])[..|bs + [e]| - 1] == bs;
      assert e.network in order <==> e.network in front || e.network == n by {
        assert order == front + [n];
      }
      forall k | 0 <= k < |front| ensures front[k] != n {
        assert front[k] == order[k];
      }
    }
  }

  lemma {:induction false} GroupSizesNewNetwork(order: seq<string>, bs: seq<BalanceEntry>, n: string)
    ensures GroupSizes(order + [n], bs) == GroupSizes(order, bs) + |OnNetwork(bs, n)|
  {
    assert (order + [n])[..|order|] == order;
  }

  /** Grouping loses and repeats nothing: the groups together hold every entry
      exactly once. */
  lemma {:induction false} GroupsPartition(bs: seq<BalanceEntry>)
    ensures GroupSizes(NetworkOrder(bs), bs) == |bs|
    decreases |bs|
  {
    if |bs| > 0 {
      var p := bs[..|bs| - 1];
      var e := bs[|bs| - 1];
      assert bs == p + [e];
      GroupsPartition(p);
      var o := NetworkOrder(p);
      NetworkOrderProperties(p);
      GroupSizesAppendEntry(o, p, e);
      if e.network !in o {
        OnNetworkMembers(p, e.network);
        GroupSizesNewNetwork(o, bs, e.network);
      }
    }
  }

  // ---------------------------------------------------------------------------
  // formatDepositInfo

  const DepositHeading: string := "💳 **Your Deposit Address:**\n\n"
  const DepositNotes: string :=
    "\n\n**Supported Networks:**\n• Base Sepolia Testnet only  \n• Supported tokens: USDC, USDT, ETH\n\n"
    + "⚠️ **Important:** Only send supported tokens to this address on Base Sepolia testnet. "
    + "Tokens sent on other networks will be lost.\n\n"
    + "Your balance will update automatically after deposits are confirmed."

  /** `formatDepositInfo`: the address as a code span between the heading and
      the notes on supported networks. */
  function FormatDepositInfo(walletAddress: string): string {
    DepositHeading + "`" + walletAddress + "`" + DepositNotes
  }

  /** What stands between the first two backticks of a text. */
  function QuotedCode(text: string): Option<string> {
    match IndexOfChar(text, '`')
    case None => None
    case Some(i) =>
      match IndexOfChar(text[i + 1..], '`')
      case None => None
      case Some(j) => Some(text[i + 1..][..j])
  }

  /** The address is embedded verbatim: it is the code span of the reply. */
  lemma DepositAddressRoundTrip(walletAddress: string)
    requires '`' !in walletAddress
    ensures QuotedCode(FormatDepositInfo(walletAddress)) == Some(walletAddress)
  {
    var rest := walletAddress + ("`" + DepositNotes);
    DepositOpeningTick(walletAddress);
    assert rest[..|walletAddress|] == walletAddress;
    FirstIndexOf(rest, |walletAddress|, '`');
  }

  lemma DepositOpeningTick(walletAddress: string)
    ensures var t := FormatDepositInfo(walletAddress);
      && IndexOfChar(t, '`') == Some(|DepositHeading|)
      && t[|DepositHeading| + 1..] == walletAddress + ("`" + DepositNotes)
  {
    var t := FormatDepositInfo(walletAddress);
    assert t == DepositHeading + ("`" + (walletAddress + ("`" + DepositNotes)));
    assert '`' !in DepositHeading;
    FirstIndexOf(t, |DepositHeading|, '`');
  }

  // ---------------------------------------------------------------------------
  // formatSplitCalculation

  /** The share of one participant, `(amount / participants).toFixed(2)`. */
  function PerPerson(amount: real, participants: nat): string
    requires participants >= 1
  {
    Fixed(amount / participants as real, 2)
  }

  /** `formatSplitCalculation`: the total, the head count and the share, then
      the `/tip` command that pays the share. */
  function FormatSplitCalculation(amount: real, participants: nat): string
    requires participants >= 1
  {
    var perPerson := PerPerson(amount, participants);
    "💰 **Bill Split Calculator:**\n\n"
      + "Total: $" + NumberText(amount) + "\n"
      + "Participants: " + NatToString(participants) + "\n"
      + "**Per person: $" + perPerson + "**\n\n"
      + "Tip each person with:\n"
      + SuggestedTip(perPerson)
  }

  /** The last line of the split reply: a tip of the share, in USDC. */
  function SuggestedTip(perPerson: string): string {
    "/tip @username " + perPerson + " USDC"
  }

  /** A number that is not negative, printed with two places, is a plain
      decimal within half a cent of it. */
  lemma FixedTwoNear(x: real)
    requires x >= 0.0
    ensures IsDecimal(Fixed(x, 2)) && -0.005 < DecimalValue(Fixed(x, 2)) - x <= 0.005
  {
    var n := Scaled(x, 2);
    ScaledToCents(x);
    FixedTwoValue(x);
    CentsNear(x, n);
  }

  lemma ScaledToCents(x: real)
    requires x >= 0.0
    ensures Scaled(x, 2) as real - 0.5 <= x * 100.0 < Scaled(x, 2) as real + 0.5
  {
    assert Pow10(2) as real == 100.0;
    ScaledOfNonNegative(x, 2);
  }

  lemma FixedTwoValue(x: real)
    requires x >= 0.0
    ensures IsDecimal(Fixed(x, 2)) && DecimalValue(Fixed(x, 2)) == Scaled(x, 2) as real / 100.0
  {
    var n := Scaled(x, 2);
    FixedOfNonNegative(x, 2);
    FixedBodyValue(n, 2);
    DivideByHundred(n, Pow10(2));
  }

  lemma DivideByHundred(n: nat, p: nat)
    requires p == 100
    ensures n as real / p as real == n as real / 100.0
  {
  }

  lemma FixedOfNonNegative(x: real, d: nat)
    requires x >= 0.0
    ensures Fixed(x, d) == FixedBody(Scaled(x, d), d)
  {
    assert "" + FixedBody(Scaled(x, d), d) == FixedBody(Scaled(x, d), d);
  }

  lemma CentsNear(x: real, n: int)
    requires n as real - 0.5 <= x * 100.0 < n as real + 0.5
    ensures -0.005 < n as real / 100.0 - x <= 0.005
  {
  }

  lemma ScaledOfNonNegative(x: real, d: nat)
    requires x >= 0.0
    ensures Scaled(x, d) == RoundHalfUp(x * Pow10(d) as real)
  {
    var p := Pow10(d) as real;
    assert Abs(x) == x;
    ProductNonNegative(x, p);
    ClampedOfNonNegative(x * p);
  }

  /** Rounding a quantity that is not negative needs no clamping. */
  lemma ClampedOfNonNegative(y: real)
    requires y >= 0.0
    ensures ClampedRound(y) == RoundHalfUp(y)
  {
    RoundNonNegative(y);
  }

  lemma RoundNonNegative(y: real)
    requires y >= 0.0
    ensures RoundHalfUp(y) >= 0
  {
  }

  lemma ProductNonNegative(a: real, b: real)
    requires a >= 0.0 && b >= 0.0
    ensures a * b >= 0.0
  {
  }

  /** For a share that is not negative, the printed share is a plain decimal
      within half a cent of the exact share. */
  lemma PerPersonNear(amount: real, participants: nat)
    requires participants >= 1 && amount >= 0.0
    ensures var share := amount / participants as real;
      var t := PerPerson(amount, participants);
      IsDecimal(t) && -0.005 < DecimalValue(t) - share <= 0.005
  {
    FixedTwoNear(amount / participants as real);
  }
}
