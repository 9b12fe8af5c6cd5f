/** Pieces the command handlers share: the words after a command, the amount
    parser the batch, split and WhatsApp tip commands rely on, the leading run of
    `@` mentions, and the answers of the chain calls, which the model takes as
    inputs rather than computing them. */
module Chat {
  import opened Wrappers
  import opened Text
  import Numbers

  /** The reply to a user who has no wallet yet. */
  const StartFirst: string := "Please /start the bot first to create your wallet."

  /** `user.preferred_network || 'BASE'`: an unset or empty preference is BASE. */
  function NetworkOf(preferred: Option<string>): (n: string)
    ensures n != ""
    ensures preferred.Some? && preferred.value != "" ==> n == preferred.value
    ensures preferred.None? ==> n == "BASE"
  {
    match preferred
    case Some(n) => if n != "" then n else "BASE"
    case None => "BASE"
  }

  // ---------------------------------------------------------------------------
  // text.split(' ').slice(1)

  /** The words after the command word; a text without a space has none. */
  function Args(text: string): (r: seq<string>)
    ensures r == [] <==> ' ' !in text
    ensures forall k :: 0 <= k < |r| ==> ' ' !in r[k]
    ensures Join([Split(text, ' ')[0]] + r, ' ') == text
  {
    SplitOnce(text, ' ');
    JoinSplit(text, ' ');
    var parts := Split(text, ' ');
    assert parts == [parts[0]] + parts[1..];
    parts[1..]
  }

  /** A split gives one part exactly when the separator does not occur. */
  lemma {:induction false} SplitOnce(s: string, sep: char)
    ensures |Split(s, sep)| == 1 <==> sep !in s
    decreases |s|
  {
    if |s| > 0 {
      SplitOnce(s[1..], sep);
      assert s == [s[0]] + s[1..];
    }
  }

  // ---------------------------------------------------------------------------
  // parseAmount

  /** The amount parser the batch, split and WhatsApp tip commands import. The
      module they import it from exports no such function; the model gives it the
      meaning its callers evidently expect: a positive plain decimal. */
  function ParseAmount(s: string): (r: Option<real>)
    ensures r.Some? <==> IsDecimal(s) && DecimalValue(s) > 0.0
    ensures r.Some? ==> r.value == DecimalValue(s) && ParseFloat(s) == Some(r.value)
  {
    if IsDecimal(s) && DecimalValue(s) > 0.0 then Some(DecimalValue(s)) else None
  }

  // ---------------------------------------------------------------------------
  // Leading @mentions

  /** The length of the run of words starting with '@' at the head of `args`. */
  function MentionRun(args: seq<string>): (n: nat)
    ensures n <= |args|
    ensures forall k :: 0 <= k < n ==> StartsWith(args[k], "@")
    ensures n == |args| || !StartsWith(args[n], "@")
    decreases |args|
  {
    if |args| > 0 && StartsWith(args[0], "@") then 1 + MentionRun(args[1..]) else 0
  }

  /** The names of the leading mentions, each without its first character. */
  function Mentions(args: seq<string>): (r: seq<string>)
    ensures |r| == MentionRun(args)
    ensures forall k :: 0 <= k < |r| ==> r[k] == args[k][1..]
    decreases |args|
  {
    if |args| > 0 && StartsWith(args[0], "@") then
      var rest := Mentions(args[1..]);
      [args[0][1..]] + rest
    else []
  }

  // ---------------------------------------------------------------------------
  // Answers of the chain

  /** `checkSufficientBalance`: the wallet's balance, or a failed query, after
      which the check reports "not sufficient" and no balance. */
  datatype BalanceCheck = Checked(currentBalance: real) | CheckFailed

  predicate Sufficient(c: BalanceCheck, amount: real) {
    c.Checked? && c.currentBalance >= amount
  }

  /** How `${balanceCheck.currentBalance}` shows the balance. */
  function BalanceShown(c: BalanceCheck): string {
    match c
    case Checked(b) => Numbers.NumberText(b)
    case CheckFailed => "undefined"
  }

  /** Decrypting the sender's key and `processTip`: a mined transfer with its
      hash, a transfer that reports failure, or an exception. */
  datatype Transfer = Sent(txHash: string) | TransferFailed(error: string) | TransferThrew

  /** One leg of a batch or split payment: `sendTransaction`'s hash, or the
      message of the error that decrypting or sending threw. */
  datatype Leg = Paid(txHash: string) | LegFailed(error: string)
}
