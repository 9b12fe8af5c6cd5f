/** `parseNaturalLanguage` of `src/index.js`: a chat message such as
    "send @alice 5 dollars" is rewritten into the command
    "/tip @alice 5 USDC". Three patterns, `send`, `give` and `tip`, each of the
    shape `<verb>\s+@?(\w+)\s+(\d+(?:\.\d+)?)\s*(usdc|usdt|eth|dollars?|bucks?)`
    with the `i` flag and no anchor, are tried in that order; the first that
    matches anywhere in the message wins. */
module NaturalLanguage {
  import opened Wrappers
  import opened Text
  import Validation

  /** The three groups of a match: the user name, the amount and the currency
      word, each as it stands in the message. */
  datatype Captures = Captures(username: string, amount: string, currency: string)

  /** The currency words of the alternation, in lower case. */
  predicate IsCurrencyWord(w: string) {
    w == "usdc" || w == "usdt" || w == "eth" || w == "dollars" || w == "dollar" || w == "bucks" || w == "buck"
  }

  /** `w` starts `s`, ignoring the case of ASCII letters. */
  predicate CiPrefix(s: string, w: string) {
    |w| <= |s| && ToLower(s[..|w|]) == w
  }

  // ---------------------------------------------------------------------------
  // One pattern at one position

  /** `(usdc|usdt|eth|dollars?|bucks?)` at the start of `r`: the first
      alternative that matches, `s?` taking the `s` when there is one. */
  function CurrencyAt(r: string): (c: Option<string>)
    ensures c.Some? ==> |c.value| <= |r| && c.value == r[..|c.value|] && IsCurrencyWord(ToLower(c.value))
    ensures c.None? ==> forall w :: IsCurrencyWord(w) ==> !CiPrefix(r, w)
  {
    if CiPrefix(r, "usdc") then Some(r[..4])
    else if CiPrefix(r, "usdt") then Some(r[..4])
    else if CiPrefix(r, "eth") then Some(r[..3])
    else if CiPrefix(r, "dollars") then Some(r[..7])
    else if CiPrefix(r, "dollar") then Some(r[..6])
    else if CiPrefix(r, "bucks") then Some(r[..5])
    else if CiPrefix(r, "buck") then Some(r[..4])
    else None
  }

  /** `(\d+(?:\.\d+)?)\s*(currency)` at the start of `r`. */
  function AmountOn(r: string): (m: Option<(string, string)>)
    ensures m.Some? ==> IsDecimal(m.value.0) && IsCurrencyWord(ToLower(m.value.1))
  {
    var amount := TakeDecimal(r);
    if amount == "" then None
    else match CurrencyAt(DropWhile(DropDecimal(r), IsSpace))
      case None => None
      case Some(c) => Some((amount, c))
  }

  /** `@?(\w+)\s+` and the rest at the start of `r`. A '@' not followed by a word
      character fails either way, so taking it whenever it is there loses no
      match. */
  function UserOn(r: string): (m: Option<Captures>)
    ensures m.Some? ==>
      && |m.value.username| > 0 && AllWord(m.value.username)
      && IsDecimal(m.value.amount) && IsCurrencyWord(ToLower(m.value.currency))
  {
    NameOn(if |r| > 0 && r[0] == '@' then r[1..] else r)
  }

  /** `(\w+)\s+` and the rest at the start of `r`. */
  function NameOn(r: string): (m: Option<Captures>)
    ensures m.Some? ==>
      && |m.value.username| > 0 && AllWord(m.value.username)
      && IsDecimal(m.value.amount) && IsCurrencyWord(ToLower(m.value.currency))
  {
    var user := TakeWhile(r, IsWordChar);
    if user == "" then None else GapOn(user, DropWhile(r, IsWordChar))
  }

  /** `\s+` and the amount and currency at the start of `r`, after the name `user`. */
  function GapOn(user: string, r: string): (m: Option<Captures>)
    ensures m.Some? ==> m.value.username == user && IsDecimal(m.value.amount) && IsCurrencyWord(ToLower(m.value.currency))
  {
    if TakeWhile(r, IsSpace) == "" then None
    else match AmountOn(DropWhile(r, IsSpace))
      case None => None
      case Some(ac) => Some(Captures(user, ac.0, ac.1))
  }

  /** The pattern of `verb` tried at index `i` of `text`. */
  function MatchAt(text: string, i: nat, verb: string): (m: Option<Captures>)
    requires i <= |text|
    ensures m.Some? ==>
      && |m.value.username| > 0 && AllWord(m.value.username)
      && IsDecimal(m.value.amount) && IsCurrencyWord(ToLower(m.value.currency))
  {
    var s := text[i..];
    if !CiPrefix(s, verb) then None
    else
      var r := s[|verb|..];
      if TakeWhile(r, IsSpace) == "" then None else UserOn(DropWhile(r, IsSpace))
  }

  // ---------------------------------------------------------------------------
  // Searching the message

  datatype Found<T> = Found(at: nat, captures: T)

  /** The pattern of `verb` tried at each index of `text`. */
  function Tries(text: string, verb: string): (t: seq<Option<Captures>>)
    ensures |t| == |text|
  {
    seq(|text|, i requires 0 <= i < |text| => MatchAt(text, i, verb))
  }

  /** The leftmost try from index `from` on that matched. */
  function Leftmost<T>(tries: seq<Option<T>>, from: nat): (r: Option<Found<T>>)
    requires from <= |tries|
    ensures r.Some? ==>
      && from <= r.value.at < |tries| && tries[r.value.at] == Some(r.value.captures)
      && forall j :: from <= j < r.value.at ==> tries[j].None?
    ensures r.None? ==> forall j :: from <= j < |tries| ==> tries[j].None?
    decreases |tries| - from
  {
    if from == |tries| then None
    else match tries[from]
      case Some(c) => Some(Found(from, c))
      case None => Leftmost(tries, from + 1)
  }

  /** `text.match(pattern)`: the leftmost index at which the pattern of `verb`
      matches, with its groups. */
  function Search(text: string, verb: string): (r: Option<Found<Captures>>)
    ensures r.Some? ==>
      && r.value.at < |text| && MatchAt(text, r.value.at, verb) == Some(r.value.captures)
      && forall j :: 0 <= j < r.value.at ==> MatchAt(text, j, verb).None?
    ensures r.None? ==> forall j :: 0 <= j < |text| ==> MatchAt(text, j, verb).None?
  {
    var tries := Tries(text, verb);
    var r := Leftmost(tries, 0);
    assert forall j :: 0 <= j < |text| ==> tries[j] == MatchAt(text, j, verb);
    r
  }

  /** The verbs of the three patterns, in the order they are tried. */
  const Verbs: seq<string> := ["send", "give", "tip"]

  /** The outcome of `text.match` for each pattern, in order. */
  function Attempts(text: string): (a: seq<Option<Found<Captures>>>)
    ensures |a| == |Verbs|
  {
    seq(|Verbs|, k requires 0 <= k < |Verbs| => Search(text, Verbs[k]))
  }

  /** The pattern (by its position) that matched, and its groups. */
  datatype Hit<T> = Hit(pattern: nat, captures: T)

  /** The first attempt that found a match. */
  function FirstHit<T>(attempts: seq<Option<Found<T>>>): (r: Option<Hit<T>>)
    ensures r.None? <==> forall k :: 0 <= k < |attempts| ==> attempts[k].None?
    ensures r.Some? ==>
      && r.value.pattern < |attempts| && attempts[r.value.pattern].Some?
      && r.value.captures == attempts[r.value.pattern].value.captures
      && forall j :: 0 <= j < r.value.pattern ==> attempts[j].None?
    decreases |attempts|
  {
    if |attempts| == 0 then None
    else match attempts[0]
      case Some(f) => Some(Hit(0, f.captures))
      case None =>
        match FirstHit(attempts[1..])
        case None => None
        case Some(h) => Some(Hit(h.pattern + 1, h.captures))
  }

  /** An attempt that found a match, after attempts that all failed, is the one
      that wins. */
  lemma {:induction false} FirstHitAt<T>(attempts: seq<Option<Found<T>>>, k: nat)
    requires k < |attempts| && attempts[k].Some?
    requires forall j :: 0 <= j < k ==> attempts[j].None?
    ensures FirstHit(attempts) == Some(Hit(k, attempts[k].value.captures))
    decreases k
  {
    if k > 0 {
      assert attempts[1..][k - 1] == attempts[k];
      assert forall j :: 0 <= j < k - 1 ==> attempts[1..][j] == attempts[j + 1];
      FirstHitAt(attempts[1..], k - 1);
    }
  }

  // ---------------------------------------------------------------------------
  // The rewrite

  /** The currency word, upper-cased; the dollar and buck spellings become USDC. */
  function TokenOf(currency: string): string {
    var token := ToUpper(currency);
    if token == "DOLLARS" || token == "DOLLAR" || token == "BUCKS" || token == "BUCK" then "USDC" else token
  }

  /** Every currency word the patterns take names a supported token, and the
      dollar and buck spellings name USDC. */
  lemma TokenOfCurrency(currency: string)
    requires IsCurrencyWord(ToLower(currency))
    ensures TokenOf(currency) in Validation.SupportedSymbols
    ensures TokenOf(currency) == "USDC" <==> ToLower(currency) !in {"usdt", "eth"}
  {
    var l := ToLower(currency);
    assert TokenOf(currency) == TokenOf(l) by {
      UpperOfLower(currency);
    }
    TokenOfWords();
  }

  /** The token of each currency word. */
  lemma TokenOfWords()
    ensures TokenOf("usdc") == "USDC" && TokenOf("usdt") == "USDT" && TokenOf("eth") == "ETH"
    ensures TokenOf("dollars") == "USDC" && TokenOf("dollar") == "USDC"
    ensures TokenOf("bucks") == "USDC" && TokenOf("buck") == "USDC"
  {
    UpperWords();
  }

  lemma UpperWords()
    ensures ToUpper("usdc") == "USDC" && ToUpper("usdt") == "USDT" && ToUpper("eth") == "ETH"
    ensures ToUpper("dollars") == "DOLLARS" && ToUpper("dollar") == "DOLLAR"
    ensures ToUpper("bucks") == "BUCKS" && ToUpper("buck") == "BUCK"
  {
    UpperCoins();
    UpperSlang();
  }

  lemma UpperCoins()
    ensures ToUpper("usdc") == "USDC" && ToUpper("usdt") == "USDT" && ToUpper("eth") == "ETH"
  {
  }

  lemma UpperSlang()
    ensures ToUpper("dollars") == "DOLLARS" && ToUpper("dollar") == "DOLLAR"
    ensures ToUpper("bucks") == "BUCKS" && ToUpper("buck") == "BUCK"
  {
    UpperWord("dollars", "DOLLARS");
    UpperWord("dollar", "DOLLAR");
    UpperWord("bucks", "BUCKS");
    UpperWord("buck", "BUCK");
  }

  /** A lower-case word and its upper-case spelling, letter by letter. */
  lemma UpperWord(w: string, u: string)
    requires |w| == |u| && forall k :: 0 <= k < |w| ==> 'a' <= w[k] <= 'z' && u[k] == (w[k] as int - 32) as char
    ensures ToUpper(w) == u
  {
    assert forall k :: 0 <= k < |w| ==> ToUpper(w)[k] == u[k];
  }

  lemma UpperOfLower(s: string)
    ensures ToUpper(s) == ToUpper(ToLower(s))
  {
    LowerThenUpper(s);
  }

  /** The command that replaces the message, `/tip @<user> <amount> <TOKEN>`. */
  function Rewrite(c: Captures): string {
    "/tip" + (" " + ("@" + (c.username + (" " + (c.amount + (" " + TokenOf(c.currency)))))))
  }

  /** A rewrite is a `/tip` command. */
  lemma RewriteIsCommand(c: Captures)
    ensures StartsWith(Rewrite(c), "/")
  {
    assert Rewrite(c)[..1] == "/";
  }

  /** The rewritten message of `parseNaturalLanguage`, `None` standing for
      `null`: the first pattern that matches gives it. */
  function NaturalLanguageTip(text: string): (r: Option<string>)
    ensures r.None? <==> forall k :: 0 <= k < |Verbs| ==> Attempts(text)[k].None?
    ensures r.Some? ==> r.value == Rewrite(FirstHit(Attempts(text)).value.captures)
  {
    match FirstHit(Attempts(text))
    case None => None
    case Some(h) => Some(Rewrite(h.captures))
  }

  /** `parseNaturalLanguage`: the first pattern that matches gives the rewrite. */
  method ParseNaturalLanguage(text: string) returns (r: Option<string>)
    ensures r == NaturalLanguageTip(text)
  {
    var hit := FirstHitOf(Attempts(text));
    r := if hit.None? then None else Some(Rewrite(hit.value.captures));
  }

  /** The loop over the patterns' outcomes, returning at the first match. */
  method FirstHitOf<T>(attempts: seq<Option<Found<T>>>) returns (h: Option<Hit<T>>)
    ensures h == FirstHit(attempts)
  {
    var k := 0;
    while k < |attempts|
      invariant k <= |attempts|
      invariant forall j :: 0 <= j < k ==> attempts[j].None?
    {
      var found := attempts[k];
      if found.Some? {
        FirstHitAt(attempts, k);
        return Some(Hit(k, found.value.captures));
      }
      k := k + 1;
    }
    h := None;
  }

  // ---------------------------------------------------------------------------
  // Which messages are rewritten, and what `/tip` makes of the rewrite

  /** A phrase the patterns are written for: the verb in any case, white space,
      an optional '@', the user name, white space, the amount, optional white
      space and the currency word in any case. */
  datatype Phrase = Phrase(verb: string, gap1: string, at: bool, username: string, gap2: string,
                           amount: string, gap3: string, currency: string)

  predicate Spaces(s: string) { forall k :: 0 <= k < |s| ==> IsSpace(s[k]) }

  predicate PhraseWellFormed(p: Phrase) {
    && Validation.Gap(p.gap1) && Validation.Word(p.username) && Validation.Gap(p.gap2)
    && IsDecimal(p.amount) && Spaces(p.gap3) && IsCurrencyWord(ToLower(p.currency))
  }

  function RenderPhrase(p: Phrase): string {
    p.verb + (p.gap1 + ((if p.at then "@" else "") + (p.username + (p.gap2 + (p.amount + (p.gap3 + p.currency))))))
  }

  function CapturesOf(p: Phrase): Captures {
    Captures(p.username, p.amount, p.currency)
  }

  lemma CurrencyWhole(w: string)
    requires IsCurrencyWord(ToLower(w))
    ensures CurrencyAt(w) == Some(w)
  {
    var l := ToLower(w);
    LowerPrefix(w, 3);
    if |w| >= 4 {
      LowerPrefix(w, 4);
    }
    if |w| >= 5 {
      LowerPrefix(w, 5);
    }
    if |w| >= 6 {
      LowerPrefix(w, 6);
    }
    assert w[..|w|] == w;
  }

  /** Lower-casing commutes with taking a prefix. */
  lemma LowerPrefix(s: string, n: nat)
    requires n <= |s|
    ensures ToLower(s[..n]) == ToLower(s)[..n]
  {
  }

  lemma AmountOnComplete(a: string, g: string, w: string)
    requires IsDecimal(a) && Spaces(g) && IsCurrencyWord(ToLower(w))
    ensures AmountOn(a + (g + w)) == Some((a, w))
  {
    assert !IsSpace(w[0]) && !IsDigit(w[0]) && w[0] != '.' by {
      assert ToLower(w)[0] == LowerChar(w[0]);
    }
    assert (g + w)[0] == if |g| > 0 then g[0] else w[0];
    TakeDecimalOfConcat(a, g + w);
    TakeWhileOfConcat(g, w, IsSpace);
    CurrencyWhole(w);
  }

  lemma GapOnComplete(user: string, g2: string, a: string, g3: string, w: string)
    requires Validation.Gap(g2) && IsDecimal(a) && Spaces(g3) && IsCurrencyWord(ToLower(w))
    ensures GapOn(user, g2 + (a + (g3 + w))) == Some(Captures(user, a, w))
  {
    var tail := a + (g3 + w);
    DecimalEnds(a);
    TakeWhileOfConcat(g2, tail, IsSpace);
    AmountOnComplete(a, g3, w);
  }

  lemma UserOnComplete(at: bool, user: string, g2: string, a: string, g3: string, w: string)
    requires Validation.Word(user) && Validation.Gap(g2) && IsDecimal(a) && Spaces(g3) && IsCurrencyWord(ToLower(w))
    ensures UserOn((if at then "@" else "") + (user + (g2 + (a + (g3 + w))))) == Some(Captures(user, a, w))
  {
    var rest := g2 + (a + (g3 + w));
    var r := (if at then "@" else "") + (user + rest);
    if !at {
      assert r[0] == user[0] && IsWordChar(user[0]);
    }
    assert (if |r| > 0 && r[0] == '@' then r[1..] else r) == user + rest;
    TakeWhileOfConcat(user, rest, IsWordChar);
    GapOnComplete(user, g2, a, g3, w);
  }

  /** Every well-formed phrase at the start of a message matches the pattern of
      its verb there, with its own user name, amount and currency word. */
  lemma PhraseMatches(p: Phrase)
    requires PhraseWellFormed(p)
    ensures MatchAt(RenderPhrase(p), 0, ToLower(p.verb)) == Some(CapturesOf(p))
  {
    var t := RenderPhrase(p);
    var x := (if p.at then "@" else "") + (p.username + (p.gap2 + (p.amount + (p.gap3 + p.currency))));
    assert t == p.verb + (p.gap1 + x);
    assert t[0..] == t;
    assert t[..|p.verb|] == p.verb;
    assert t[|p.verb|..] == p.gap1 + x;
    assert !IsSpace(x[0]) by {
      assert x[0] == '@' || x[0] == p.username[0];
    }
    TakeWhileOfConcat(p.gap1, x, IsSpace);
    UserOnComplete(p.at, p.username, p.gap2, p.amount, p.gap3, p.currency);
  }

  /** A message that is a well-formed `send` phrase is rewritten into the `/tip`
      command of its user name, amount and token. */
  lemma SendPhraseRewritten(p: Phrase)
    requires PhraseWellFormed(p) && ToLower(p.verb) == "send"
    ensures NaturalLanguageTip(RenderPhrase(p)) == Some(Rewrite(CapturesOf(p)))
  {
    var t := RenderPhrase(p);
    PhraseMatches(p);
    assert Tries(t, "send")[0] == Some(CapturesOf(p));
    assert Attempts(t)[0] == Some(Found(0, CapturesOf(p)));
    FirstHitAt(Attempts(t), 0);
  }

  /** For a user name of 5 to 32 word characters and an amount in (0, 100] with
      at most 8 decimals, `/tip` accepts the rewritten command and reads back
      the same user name, amount and token, with no memo. */
  lemma RewriteAccepted(c: Captures)
    requires Validation.UsernameShape(c.username) && IsDecimal(c.amount)
    requires 0.0 < DecimalValue(c.amount) <= Validation.MaxTip && Validation.AtMost8Decimals(DecimalValue(c.amount))
    requires IsCurrencyWord(ToLower(c.currency))
    ensures var cmd := Validation.ParseTipCommand(Rewrite(c));
      && cmd.Ok? && cmd.value.username == c.username && cmd.value.amount == DecimalValue(c.amount)
      && cmd.value.tokenSymbol == TokenOf(c.currency) && cmd.value.message == ""
      && Some(cmd.value.tokenAddress) == Validation.SupportedAddress(TokenOf(c.currency))
  {
    var token := TokenOf(c.currency);
    TokenOfCurrency(c.currency);
    TokenIsWord(token);
    var p := RewriteSyntax(c);
    RewriteWellFormed(c, token);
    RewriteRendered(c);
    Validation.ParseTipAccepts(p);
  }

  /** The rewrite read as the tip pattern's parts. */
  function RewriteSyntax(c: Captures): Validation.TipSyntax {
    Validation.TipSyntax("/tip", " ", true, c.username, " ", c.amount, " ", TokenOf(c.currency), None)
  }

  lemma RewriteRendered(c: Captures)
    ensures Validation.RenderTip(RewriteSyntax(c)) == Rewrite(c)
  {
  }

  lemma RewriteWellFormed(c: Captures, token: string)
    requires Validation.UsernameShape(c.username) && IsDecimal(c.amount)
    requires token == TokenOf(c.currency) && Validation.Word(token)
    ensures Validation.TipWellFormed(RewriteSyntax(c))
  {
    assert ToUpper("/tip") == "/TIP" by {
      UpperWord("tip", "TIP");
      assert "/tip" == ['/'] + "tip" && "/TIP" == ['/'] + "TIP";
    }
    assert Validation.Gap(" ");
  }

  /** The three tokens are words and already upper case. */
  lemma TokenIsWord(token: string)
    requires token in Validation.SupportedSymbols
    ensures Validation.Word(token) && ToUpper(token) == token
  {
    assert token == "USDC" || token == "USDT" || token == "ETH";
    UpperCaseWord(token);
  }

  /** A word of upper-case letters is a word and its own upper case. */
  lemma UpperCaseWord(w: string)
    requires w == "USDC" || w == "USDT" || w == "ETH"
    ensures Validation.Word(w) && ToUpper(w) == w
  {
    assert forall k :: 0 <= k < |w| ==> 'A' <= w[k] <= 'Z';
    assert forall k :: 0 <= k < |w| ==> ToUpper(w)[k] == w[k];
  }
}
