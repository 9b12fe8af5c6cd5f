/** `src/bot/commands/help.js`: `/help` replies with the help text, and the
    `/split` calculator checks a message of the shape
    `/split <decimal> <whole number>` and replies with the share of each
    participant. */
module HelpCommand {
  import opened Wrappers
  import opened Text
  import Constants
  import Formatter

  /** The replies of `handleHelp`: the help text, and the apology after it when
      sending the help text failed. */
  function HelpReplies(sendFails: bool): (r: seq<string>)
    ensures |r| >= 1 && r[0] == Constants.Help
    ensures |r| == 2 <==> sendFails
    ensures sendFails ==> r[1] == Formatter.FormatError(Formatter.JsString(HelpFailed))
  {
    [Constants.Help] + (if sendFails then [Formatter.FormatError(Formatter.JsString(HelpFailed))] else [])
  }

  const HelpFailed: string := "Failed to show help. Please try again."

  // ---------------------------------------------------------------------------
  // The pattern `^\/split\s+(\d+(?:\.\d+)?)\s+(\d+)$`, case-insensitive

  datatype Captures = Captures(amount: string, participants: string)

  predicate AllSpace(s: string) { forall i :: 0 <= i < |s| ==> IsSpace(s[i]) }

  /** `"/split"` in any mix of cases. */
  predicate IsSplitWord(s: string) { |s| == 6 && ToLower(s) == "/split" }

  /** What follows a run of white space at the start of `s`; the run must not
      be empty, and `\s+` takes all of it. */
  function AfterSpaces(s: string): (r: Option<string>)
    ensures r.Some? <==> |s| > 0 && IsSpace(s[0])
    ensures r.Some? ==> |r.value| < |s| && AllSpace(s[..|s| - |r.value|]) && s == s[..|s| - |r.value|] + r.value
  {
    var w := TakeWhile(s, IsSpace);
    if w == "" then None
    else
      assert s == w + s[|w|..];
      Some(s[|w|..])
  }

  /** `(\d+(?:\.\d+)?)\s+(\d+)$` at the start of `s`. */
  function Numbers(s: string): (r: Option<Captures>)
    ensures r.Some? ==> IsDecimal(r.value.amount) && IsDigits(r.value.participants)
  {
    var a := TakeDecimal(s);
    if a == "" then None
    else match AfterSpaces(DropDecimal(s))
    case None => None
    case Some(p) => if IsDigits(p) then Some(Captures(a, p)) else None
  }

  /** `\s+(\d+(?:\.\d+)?)\s+(\d+)$` at the start of `s`. */
  function Arguments(s: string): Option<Captures> {
    match AfterSpaces(s)
    case None => None
    case Some(r) => Numbers(r)
  }

  /** The match of the pattern against the whole of `t`, with its two groups. */
  function Match(t: string): (r: Option<Captures>)
    ensures r.Some? ==> IsDecimal(r.value.amount) && IsDigits(r.value.participants)
  {
    if |t| < 6 || !IsSplitWord(t[..6]) then None else Arguments(t[6..])
  }

  /** The texts of the pattern's shape. */
  ghost predicate Shaped(t: string, c: Captures) {
    exists head, w1, w2 :: (
      && IsSplitWord(head) && |w1| > 0 && AllSpace(w1) && |w2| > 0 && AllSpace(w2)
      && t == head + (w1 + (c.amount + (w2 + c.participants))))
  }

  lemma NumbersSound(s: string) returns (w2: string)
    requires Numbers(s).Some?
    ensures |w2| > 0 && AllSpace(w2) && s == Numbers(s).value.amount + (w2 + Numbers(s).value.participants)
  {
    var rest := DropDecimal(s);
    var p := AfterSpaces(rest).value;
    w2 := rest[..|rest| - |p|];
    assert Numbers(s).value == Captures(TakeDecimal(s), p);
  }

  lemma ArgumentsSound(s: string) returns (w1: string, w2: string)
    requires Arguments(s).Some?
    ensures |w1| > 0 && AllSpace(w1) && |w2| > 0 && AllSpace(w2)
    ensures s == w1 + (Arguments(s).value.amount + (w2 + Arguments(s).value.participants))
  {
    var r := AfterSpaces(s).value;
    w1 := s[..|s| - |r|];
    w2 := NumbersSound(r);
    assert s == w1 + r;
  }

  /** What matches has the pattern's shape, with the groups in their places. */
  lemma MatchSound(t: string)
    requires Match(t).Some?
    ensures Shaped(t, Match(t).value)
  {
    var head, s := MatchArguments(t);
    ShapedOfArguments(head, s);
  }

  /** A match is the split word, then a match of the arguments. */
  lemma MatchArguments(t: string) returns (head: string, s: string)
    requires Match(t).Some?
    ensures IsSplitWord(head) && t == head + s && Arguments(s) == Match(t)
  {
    head, s := t[..6], t[6..];
    assert t == head + s;
  }

  lemma ShapedOfArguments(head: string, s: string)
    requires IsSplitWord(head) && Arguments(s).Some?
    ensures Shaped(head + s, Arguments(s).value)
  {
    var c := Arguments(s).value;
    var w1, w2 := ArgumentsSound(s);
    assert head + s == head + (w1 + (c.amount + (w2 + c.participants)));
  }

  lemma NumbersComplete(a: string, w2: string, p: string)
    requires |w2| > 0 && AllSpace(w2) && IsDecimal(a) && IsDigits(p)
    ensures Numbers(a + (w2 + p)) == Some(Captures(a, p))
  {
    var s := a + (w2 + p);
    DecimalEnds(a);
    assert TakeDecimal(s) == a && DropDecimal(s) == w2 + p by {
      assert (w2 + p)[0] == w2[0];
      TakeDecimalOfConcat(a, w2 + p);
    }
    assert AfterSpaces(w2 + p) == Some(p) by {
      AfterSpacesOfConcat(w2, p);
    }
  }

  /** A run of white space, then text that does not start with one: the run is
      all that `\s+` takes. */
  lemma AfterSpacesOfConcat(w: string, p: string)
    requires |w| > 0 && AllSpace(w) && (p == [] || !IsSpace(p[0]))
    ensures AfterSpaces(w + p) == Some(p)
  {
    TakeWhileOfConcat(w, p, IsSpace);
    assert (w + p)[|w|..] == p;
  }

  lemma ArgumentsComplete(w1: string, a: string, w2: string, p: string)
    requires |w1| > 0 && AllSpace(w1) && |w2| > 0 && AllSpace(w2) && IsDecimal(a) && IsDigits(p)
    ensures Arguments(w1 + (a + (w2 + p))) == Some(Captures(a, p))
  {
    DecimalEnds(a);
    TakeWhileOfConcat(w1, a + (w2 + p), IsSpace);
    NumbersComplete(a, w2, p);
  }

  /** Every text of the pattern's shape matches, with the two groups it was
      built from. */
  lemma MatchComplete(t: string, c: Captures)
    requires IsDecimal(c.amount) && IsDigits(c.participants) && Shaped(t, c)
    ensures Match(t) == Some(c)
  {
    var head, w1, w2 :| && IsSplitWord(head) && |w1| > 0 && AllSpace(w1) && |w2| > 0 && AllSpace(w2)
      && t == head + (w1 + (c.amount + (w2 + c.participants)));
    var rest := w1 + (c.amount + (w2 + c.participants));
    assert t[..6] == head && t[6..] == rest;
    ArgumentsComplete(w1, c.amount, w2, c.participants);
  }

  // ---------------------------------------------------------------------------
  // handleSplit

  datatype CalcOutcome =
    | NoText
    | BadFormat
    | NotPositive
    | TooFew
    | TooMany
    | Calculated(amount: real, participants: nat)

  /** The checks of `handleSplit`, in order, on the message text (absent when the
      message has none, so that `trim` throws). */
  function Decide(text: Option<string>): (o: CalcOutcome)
    ensures o.NoText? <==> text.None?
    ensures text.Some? ==> o == OnTrimmed(Trim(text.value))
  {
    match text
    case None => NoText
    case Some(t) => OnTrimmed(Trim(t))
  }

  /** The checks on the trimmed text: the pattern, then the numbers. */
  function OnTrimmed(t: string): (o: CalcOutcome)
    ensures !o.NoText?
    ensures o.BadFormat? <==> Match(t).None?
    ensures Match(t).Some? ==> o == Judge(Match(t).value)
    ensures o.Calculated? ==> 0.0 < o.amount && 2 <= o.participants <= 20
  {
    match Match(t)
    case None => BadFormat
    case Some(c) => Judge(c)
  }

  /** `parseFloat` and `parseInt` of the two groups, then the checks. */
  function Judge(c: Captures): (o: CalcOutcome)
    requires IsDecimal(c.amount) && IsDigits(c.participants)
    ensures !o.NoText? && !o.BadFormat?
    ensures o.Calculated? ==> 0.0 < o.amount && 2 <= o.participants <= 20
  {
    Verdict(DecimalValue(c.amount), DigitsValue(c.participants))
  }

  /** The three checks of the numbers read from the text. */
  function Verdict(amount: real, participants: nat): (o: CalcOutcome)
    ensures !o.NoText? && !o.BadFormat?
    ensures o.Calculated? ==> o == Calculated(amount, participants) && 0.0 < amount && 2 <= participants <= 20
  {
    if amount <= 0.0 then NotPositive
    else if participants <= 1 then TooFew
    else if participants > 20 then TooMany
    else Calculated(amount, participants)
  }

  /** The amount (which a decimal text makes at least 0) is checked first, then
      too few, then too many participants; a calculation comes out exactly when
      all three pass. */
  lemma ChecksInOrder(amount: real, participants: nat)
    requires amount >= 0.0
    ensures Verdict(amount, participants) == NotPositive <==> amount == 0.0
    ensures Verdict(amount, participants) == TooFew <==> amount > 0.0 && participants <= 1
    ensures Verdict(amount, participants) == TooMany <==> amount > 0.0 && participants > 20
    ensures Verdict(amount, participants).Calculated? <==> amount > 0.0 && 2 <= participants <= 20
  {
  }

  /** The command `/split <a> <p>`, one space apart. */
  function Command(a: string, p: string): string {
    "/split" + (" " + (a + (" " + p)))
  }

  /** Such a command matches, with `a` and `p` as its groups. */
  lemma CommandMatches(a: string, p: string)
    requires IsDecimal(a) && IsDigits(p)
    ensures Match(Command(a, p)) == Some(Captures(a, p))
  {
    var t := Command(a, p);
    var rest := " " + (a + (" " + p));
    assert t[..6] == "/split" && t[6..] == rest;
    assert IsSplitWord("/split");
    ArgumentsComplete(" ", a, " ", p);
  }

  /** Such a command is its own trim. */
  lemma CommandIsTrimmed(a: string, p: string)
    requires IsDigits(p)
    ensures Trim(Command(a, p)) == Command(a, p)
  {
    var t := Command(a, p);
    assert t[0] == '/';
    assert t[|t| - 1] == p[|p| - 1];
    TrimOfTrimmed(t);
  }

  /** `/split <a> <n>` with a positive decimal `a` and 2 to 20 participants is
      answered with the calculation of exactly those numbers. */
  lemma CommandRoundTrip(a: string, n: nat)
    requires IsDecimal(a) && DecimalValue(a) > 0.0 && 2 <= n <= 20
    ensures Decide(Some(Command(a, NatToString(n)))) == Calculated(DecimalValue(a), n)
  {
    var p := NatToString(n);
    CommandIsTrimmed(a, p);
    CommandMatches(a, p);
    NatToStringRoundTrip(n);
    assert Judge(Captures(a, p)) == Verdict(DecimalValue(a), n);
  }

  /** The reply of `handleSplit`. */
  function Reply(o: CalcOutcome): (r: string)
    requires o.Calculated? ==> o.participants >= 2
    ensures o.Calculated? ==> r == Formatter.FormatSplitCalculation(o.amount, o.participants)
    ensures !o.Calculated? ==> r == Formatter.FormatError(Formatter.JsString(Complaint(o)))
  {
    match o
    case Calculated(amount, participants) => Formatter.FormatSplitCalculation(amount, participants)
    case _ => Formatter.FormatError(Formatter.JsString(Complaint(o)))
  }

  /** The error text of each refusal. */
  function Complaint(o: CalcOutcome): string {
    match o
    case NoText => CalcFailed
    case BadFormat => FormatUsage
    case NotPositive => NotPositiveText
    case TooFew => TooFewText
    case TooMany => TooManyText
    case Calculated(_, _) => ""
  }

  const CalcFailed: string := "Failed to calculate split. Please try again."
  const FormatUsage: string := "Invalid format. Use: /split amount participants\nExample: /split 50 4"
  const NotPositiveText: string := "Amount must be positive."
  const TooFewText: string := "Need at least 2 participants."
  const TooManyText: string := "Too many participants (max 20)."
}
