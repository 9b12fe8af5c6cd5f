/** The command validators of `src/utils/validation.js`: each is a chain of checks
    run in a fixed order, and the first failing check's message is the answer. The
    `/tip` and `/withdraw` regular expressions are written out as a syntax tree,
    a renderer and a parser, proved to be inverse to each other. */
module Validation {
  import opened Wrappers
  import opened Text

  // ---------------------------------------------------------------------------
  // validateAmount

  /** What `validateAmount` may be given: a number, a text, or a value of some
      other type. */
  datatype AmountInput = Num(x: real) | Text(s: string) | OtherType

  const MaxTip: real := 100.0

  /** `toString` of the number shows at most 8 digits after the point: for an
      exactly represented value this means that 10^8 times it is whole. */
  predicate AtMost8Decimals(v: real) {
    (v * 100000000.0).Floor as real == v * 100000000.0
  }

  /** `parseFloat(amount)`; `None` stands for `NaN`. */
  function AmountValue(a: AmountInput): Option<real>
    requires !a.OtherType?
  {
    match a
    case Num(x) => Some(x)
    case Text(s) => ParseFloat(s)
  }

  /** Checks type, then `NaN`, then > 0, then <= 100, then the decimals; the
      first failing check gives the error. */
  function ValidateAmount(a: AmountInput): (r: Result<real>)
    ensures a.OtherType? <==> r == Err("Amount must be a number")
    ensures !a.OtherType? ==>
      (AmountValue(a).None? <==> r == Err("Invalid amount format"))
    ensures !a.OtherType? && AmountValue(a).Some? ==>
      (AmountValue(a).value <= 0.0 <==> r == Err("Amount must be positive"))
    ensures !a.OtherType? && AmountValue(a).Some? ==>
      (AmountValue(a).value > MaxTip <==> r == Err("Amount exceeds maximum limit of $100 per tip"))
    ensures !a.OtherType? && AmountValue(a).Some? && 0.0 < AmountValue(a).value <= MaxTip ==>
      (!AtMost8Decimals(AmountValue(a).value) <==> r == Err("Too many decimal places (max 8)"))
    ensures r.Ok? <==>
      !a.OtherType? && AmountValue(a).Some? && 0.0 < AmountValue(a).value <= MaxTip
      && AtMost8Decimals(AmountValue(a).value)
    ensures r.Ok? ==> r.value == AmountValue(a).value && 0.0 < r.value <= MaxTip
  {
    if a.OtherType? then Err("Amount must be a number")
    else
      match AmountValue(a)
      case None => Err("Invalid amount format")
      case Some(v) =>
        if v <= 0.0 then Err("Amount must be positive")
        else if v > MaxTip then Err("Amount exceeds maximum limit of $100 per tip")
        else if !AtMost8Decimals(v) then Err("Too many decimal places (max 8)")
        else Ok(v)
  }

  /** A decimal text is a valid amount exactly when its value is in (0, 100] and
      has at most 8 decimals; the value is then the text's exact value. */
  lemma ValidateDecimalAmount(s: string)
    requires IsDecimal(s)
    ensures ValidateAmount(Text(s)).Ok? <==>
      0.0 < DecimalValue(s) <= MaxTip && AtMost8Decimals(DecimalValue(s))
    ensures ValidateAmount(Text(s)).Ok? ==> ValidateAmount(Text(s)).value == DecimalValue(s)
  {
  }

  // ---------------------------------------------------------------------------
  // validateTokenSymbol

  /** The keys of `supportedTokens`, in declaration order. */
  const SupportedSymbols: seq<string> := ["USDC", "USDT", "ETH"]

  /** `supportedTokens[symbol]`: the BASE contract addresses and "native". */
  function SupportedAddress(symbol: string): (r: Option<string>)
    ensures r.Some? <==> symbol in SupportedSymbols
  {
    if symbol == "USDC" then Some("0x036CbD53842c5426634e7929541eC2318f3dCF7e")
    else if symbol == "USDT" then Some("0xf175520C52418dfE19C8098071a252da48Cd1C19")
    else if symbol == "ETH" then Some("native")
    else None
  }

  datatype TokenChoice = TokenChoice(symbol: string, address: string)

  const UnsupportedToken: string := "Unsupported token. Supported tokens: USDC, USDT, ETH"

  /** `None` stands for a missing or non-text symbol; "" is rejected the same way.
      The lookup is on the upper-cased symbol, so it ignores case. */
  function ValidateTokenSymbol(symbol: Option<string>): (r: Result<TokenChoice>)
    ensures (symbol.None? || symbol.value == "") <==> r == Err("Token symbol is required")
    ensures r.Ok? <==> symbol.Some? && ToUpper(symbol.value) in SupportedSymbols
    ensures r.Ok? ==>
      (r.value.symbol == ToUpper(symbol.value) && Some(r.value.address) == SupportedAddress(r.value.symbol))
    ensures r.Err? && symbol.Some? && symbol.value != "" ==> r.error == UnsupportedToken
  {
    if symbol.None? || symbol.value == "" then Err("Token symbol is required")
    else
      var upper := ToUpper(symbol.value);
      match SupportedAddress(upper)
      case None => Err(UnsupportedToken)
      case Some(address) => Ok(TokenChoice(upper, address))
  }

  /** The symbol is accepted in any mix of cases, and two spellings that differ
      only in case give the same answer. */
  lemma TokenSymbolIgnoresCase(s: string, t: string)
    requires s != "" && t != "" && EqualsIgnoreCase(s, t)
    ensures ValidateTokenSymbol(Some(s)) == ValidateTokenSymbol(Some(t))
  {
  }

  /** MATIC, the coin of POLYGON, is not a supported symbol in any spelling. */
  lemma MaticRejected(s: string)
    requires ToUpper(s) == "MATIC"
    ensures ValidateTokenSymbol(Some(s)) == Err(UnsupportedToken)
  {
    assert |s| == 5;
  }

  // ---------------------------------------------------------------------------
  // validateEthereumAddress

  /** `ethers.isAddress` followed by `ethers.getAddress` is a foreign call; it is
      the parameter `checksum`, which answers `None` when the text is not an
      address and the normalised address otherwise. */
  function ValidateEthereumAddress(address: Option<string>, checksum: string -> Option<string>): (r: Result<string>)
    ensures (address.None? || address.value == "") <==> r == Err("Address is required")
    ensures r.Ok? <==> address.Some? && address.value != "" && checksum(address.value).Some?
    ensures r.Ok? ==> Some(r.value) == checksum(address.value)
  {
    if address.None? || address.value == "" then Err("Address is required")
    else
      match checksum(address.value)
      case None => Err("Invalid Ethereum address format")
      case Some(a) => Ok(a)
  }

  // ---------------------------------------------------------------------------
  // validateTelegramUsername

  predicate UsernameShape(u: string) {
    5 <= |u| <= 32 && AllWord(u)
  }

  const UsernameFormatError: string :=
    "Invalid username format. Must be 5-32 characters, letters, numbers, and underscores only"

  /** Only the first '@' is removed before the shape check. */
  function ValidateTelegramUsername(username: Option<string>): (r: Result<string>)
    ensures (username.None? || username.value == "") <==> r == Err("Username is required")
    ensures r.Ok? <==>
      username.Some? && username.value != "" && UsernameShape(ReplaceFirst(username.value, "@", ""))
    ensures r.Ok? ==> r.value == ReplaceFirst(username.value, "@", "") && '@' !in r.value
  {
    if username.None? || username.value == "" then Err("Username is required")
    else
      var clean := ReplaceFirst(username.value, "@", "");
      if UsernameShape(clean) then
        assert '@' !in clean by {
          assert forall k :: 0 <= k < |clean| ==> IsWordChar(clean[k]);
        }
        Ok(clean)
      else Err(UsernameFormatError)
  }

  /** A leading '@' is optional, but a second one makes the name invalid. */
  lemma UsernameAtIsOptional(w: string)
    requires w != "" && AllWord(w)
    ensures ValidateTelegramUsername(Some("@" + w)) == ValidateTelegramUsername(Some(w))
    ensures ValidateTelegramUsername(Some("@@" + w)).Err?
  {
    assert '@' !in w by {
      assert forall k :: 0 <= k < |w| ==> IsWordChar(w[k]);
    }
    IndexOfAbsentChar(w, '@');
    var s1 := "@" + w;
    assert OccursAt(s1, "@", 0);
    assert ReplaceFirst(s1, "@", "") == s1[1..] == w;
    var s2 := "@@" + w;
    assert OccursAt(s2, "@", 0);
    var clean := ReplaceFirst(s2, "@", "");
    assert clean == s2[1..] && clean[0] == '@';
  }

  // ---------------------------------------------------------------------------
  // validateMessage

  const MaxMessageLength: nat := 200

  /** `None` stands for an absent memo; it and "" give "". A memo longer than
      200 UTF-16 code units (measured before trimming) is refused; otherwise it is
      trimmed and every '<' and '>' is removed. */
  function ValidateMessage(message: Option<string>): (r: Result<string>)
    ensures (message.None? || message.value == "") ==> r == Ok("")
    ensures r.Err? <==> message.Some? && Utf16Length(message.value) > MaxMessageLength
    ensures r.Err? ==> r.error == "Message too long (max 200 characters)"
    ensures r.Ok? ==> |r.value| <= MaxMessageLength && '<' !in r.value && '>' !in r.value
    ensures r.Ok? && message.Some? ==> forall k :: 0 <= k < |r.value| ==> r.value[k] in message.value
  {
    if message.None? || message.value == "" then Ok("")
    else if Utf16Length(message.value) > MaxMessageLength then Err("Message too long (max 200 characters)")
    else
      var t := Trim(message.value);
      TrimKeepsCharacters(message.value);
      Ok(Without(t, {'<', '>'}))
  }

  /** A memo with no angle brackets is only trimmed. */
  lemma MessageWithoutBracketsIsTrimmed(m: string)
    requires Utf16Length(m) <= MaxMessageLength && '<' !in m && '>' !in m
    ensures ValidateMessage(Some(m)) == Ok(Trim(m))
  {
    if m != "" {
      WithoutUnchanged(Trim(m), {'<', '>'});
    }
  }

  /** Length is counted in UTF-16 code units: a memo of more than 100 characters
      outside the Basic Multilingual Plane (emoji, say) is refused even when it
      has no more than 200 characters. */
  lemma AstralMemoRefused(m: string)
    requires 100 < |m| <= MaxMessageLength
    requires forall k :: 0 <= k < |m| ==> m[k] as int >= 0x1_0000
    ensures ValidateMessage(Some(m)) == Err("Message too long (max 200 characters)")
  {
    Utf16LengthOfAstral(m);
  }

  /** Removing characters that do not occur changes nothing. */
  lemma {:induction false} WithoutUnchanged(s: string, bad: set<char>)
    requires forall k :: 0 <= k < |s| ==> s[k] !in bad
    ensures Without(s, bad) == s
    decreases |s|
  {
    if |s| > 0 {
      WithoutUnchanged(s[1..], bad);
    }
  }

  /** Removing a bracket can leave white space at an end, so the result is not
      always its own trim: "x <" becomes "x ". */
  lemma MessageMayEndInSpace()
    ensures ValidateMessage(Some("x <")) == Ok("x ")
  {
    var m := "x <";
    XBracketTrimmed();
    var bad := {'<', '>'};
    assert m[1..] == " <" && " <"[1..] == "<" && "<"[1..] == "";
    assert Without("<", bad) == "";
    assert Without(" <", bad) == " ";
    assert Without(m, bad) == "x ";
  }

  lemma XBracketTrimmed()
    ensures Trim("x <") == "x <"
  {
    var m := "x <";
    assert !IsSpace(m[0]) && !IsSpace(m[2]);
    assert TrimStart(m) == m;
    assert TrimEnd(m) == m;
  }

  // ---------------------------------------------------------------------------
  // The command grammars, as syntax trees. Each regular expression is anchored at
  // both ends and carries the `i` flag; its parts follow each other so that
  // every run is taken whole, and the parse is unique.

  /** `\s+`: a non-empty run of white space. */
  predicate Gap(s: string) { |s| > 0 && forall k :: 0 <= k < |s| ==> IsSpace(s[k]) }

  /** `\w+`: a non-empty run of word characters. */
  predicate Word(s: string) { |s| > 0 && AllWord(s) }

  /** Text that does not end in white space, as `trim` leaves it. */
  predicate EndsTrimmed(t: string) { t == [] || !IsSpace(t[|t| - 1]) }

  /** The optional tail `(?:\s+(.+))?`: the white space before the memo and the
      memo itself. */
  datatype Memo = Memo(gap: string, text: string)

  /** A match of `^\/tip\s+@?(\w+)\s+(\d+(?:\.\d+)?)\s+(\w+)(?:\s+(.+))?$`. */
  datatype TipSyntax = TipSyntax(head: string, gap1: string, at: bool, username: string,
                                 gap2: string, amount: string, gap3: string, token: string,
                                 memo: Option<Memo>)

  /** The memo's `.+` takes no line terminator; because the white space before it
      is taken greedily the memo starts with a character that is not white space,
      and in trimmed text it also ends with one. */
  predicate MemoText(m: string) {
    |m| > 0 && NoLineTerminator(m) && !IsSpace(m[0]) && !IsSpace(m[|m| - 1])
  }

  predicate TipWellFormed(p: TipSyntax) {
    && |p.head| == 4 && ToUpper(p.head) == "/TIP"
    && Gap(p.gap1) && Word(p.username) && Gap(p.gap2) && IsDecimal(p.amount)
    && Gap(p.gap3) && Word(p.token)
    && (p.memo.Some? ==> Gap(p.memo.value.gap) && MemoText(p.memo.value.text))
  }

  function RenderMemo(m: Option<Memo>): string {
    match m
    case None => ""
    case Some(m) => m.gap + m.text
  }

  function RenderTip(p: TipSyntax): string {
    p.head + (p.gap1 + ((if p.at then "@" else "") + (p.username + (p.gap2 + (p.amount
      + (p.gap3 + (p.token + RenderMemo(p.memo))))))))
  }

  /** The regular expression applied to trimmed text: `None` when it does not
      match, otherwise the parts it matched. */
  function ParseTipSyntax(t: string): Option<TipSyntax>
    requires EndsTrimmed(t)
  {
    if |t| < 4 || ToUpper(t[..4]) != "/TIP" then None
    else
      var gap1 := TakeWhile(t[4..], IsSpace);
      if gap1 == "" then None
      else match ParseUserOn(DropWhile(t[4..], IsSpace))
        case None => None
        case Some(rest) =>
          var args := rest.2;
          Some(TipSyntax(t[..4], gap1, rest.0, rest.1, args.gap2, args.amount, args.gap3, args.token, args.memo))
  }

  /** `@?(\w+)` and the arguments after it. */
  function ParseUserOn(r1: string): Option<(bool, string, TipArguments)> {
    var at := |r1| > 0 && r1[0] == '@';
    match NameArgumentsOn(if at then r1[1..] else r1)
    case None => None
    case Some(rest) => Some((at, rest.0, rest.1))
  }

  /** `(\w+)` and the arguments after it. */
  function NameArgumentsOn(r2: string): Option<(string, TipArguments)> {
    var user := TakeWhile(r2, IsWordChar);
    if user == "" then None
    else match ParseTipArguments(DropWhile(r2, IsWordChar))
      case None => None
      case Some(args) => Some((user, args))
  }

  /** The part of a `/tip` match after the user name. */
  datatype TipArguments = TipArguments(gap2: string, amount: string, gap3: string, token: string, memo: Option<Memo>)

  function RenderTipArguments(a: TipArguments): string {
    a.gap2 + (a.amount + (a.gap3 + (a.token + RenderMemo(a.memo))))
  }

  predicate TipArgumentsWellFormed(a: TipArguments) {
    && Gap(a.gap2) && IsDecimal(a.amount) && Gap(a.gap3) && Word(a.token)
    && (a.memo.Some? ==> Gap(a.memo.value.gap) && MemoText(a.memo.value.text))
  }

  function ParseTipArguments(r3: string): Option<TipArguments> {
    var gap2 := TakeWhile(r3, IsSpace);
    if gap2 == "" then None
    else match ParseAmountOn(DropWhile(r3, IsSpace))
      case None => None
      case Some(rest) => Some(TipArguments(gap2, rest.0, rest.1, rest.2, rest.3))
  }

  /** `(\d+(?:\.\d+)?)\s+` and what follows it. */
  function ParseAmountOn(r4: string): Option<(string, string, string, Option<Memo>)> {
    var amount := TakeDecimal(r4);
    var r5 := DropDecimal(r4);
    var gap3 := TakeWhile(r5, IsSpace);
    if amount == "" || gap3 == "" then None
    else match ParseTokenOn(DropWhile(r5, IsSpace))
      case None => None
      case Some(rest) => Some((amount, gap3, rest.0, rest.1))
  }

  /** `(\w+)` and the optional memo after it. */
  function ParseTokenOn(r6: string): Option<(string, Option<Memo>)> {
    var token := TakeWhile(r6, IsWordChar);
    if token == "" then None
    else match ParseMemo(DropWhile(r6, IsWordChar))
      case None => None
      case Some(memo) => Some((token, memo))
  }

  /** `(?:\s+(.+))?$`: `Some(None)` when nothing is left, `Some(Some(m))` when a
      memo follows, `None` when the rest does not match. */
  function ParseMemo(r7: string): Option<Option<Memo>> {
    var gap4 := TakeWhile(r7, IsSpace);
    var memo := DropWhile(r7, IsSpace);
    if r7 == "" then Some(None)
    else if gap4 == "" || memo == "" || !NoLineTerminator(memo) then None
    else Some(Some(Memo(gap4, memo)))
  }

  lemma ParseMemoSound(r7: string)
    requires EndsTrimmed(r7) && ParseMemo(r7).Some?
    ensures RenderMemo(ParseMemo(r7).value) == r7
    ensures ParseMemo(r7).value.Some? ==>
      Gap(ParseMemo(r7).value.value.gap) && MemoText(ParseMemo(r7).value.value.text)
  {
    var memo := DropWhile(r7, IsSpace);
    if r7 != "" {
      assert memo[|memo| - 1] == r7[|r7| - 1];
    }
  }

  /** A suffix of trimmed text is trimmed at its end. */
  lemma EndsTrimmedSuffix(a: string, b: string)
    requires EndsTrimmed(a + b)
    ensures EndsTrimmed(b)
  {
    if b != [] {
      assert (a + b)[|a + b| - 1] == b[|b| - 1];
    }
  }

  lemma ParseTokenOnSound(r6: string)
    requires EndsTrimmed(r6) && ParseTokenOn(r6).Some?
    ensures Word(ParseTokenOn(r6).value.0)
    ensures var memo := ParseTokenOn(r6).value.1;
      memo.Some? ==> Gap(memo.value.gap) && MemoText(memo.value.text)
    ensures ParseTokenOn(r6).value.0 + RenderMemo(ParseTokenOn(r6).value.1) == r6
  {
    EndsTrimmedSuffix(TakeWhile(r6, IsWordChar), DropWhile(r6, IsWordChar));
    ParseMemoSound(DropWhile(r6, IsWordChar));
  }

  lemma ParseAmountOnSound(r4: string)
    requires EndsTrimmed(r4) && ParseAmountOn(r4).Some?
    ensures var p := ParseAmountOn(r4).value;
      && IsDecimal(p.0) && Gap(p.1) && Word(p.2)
      && (p.3.Some? ==> Gap(p.3.value.gap) && MemoText(p.3.value.text))
      && p.0 + (p.1 + (p.2 + RenderMemo(p.3))) == r4
  {
    var r5 := DropDecimal(r4);
    EndsTrimmedSuffix(TakeDecimal(r4), r5);
    EndsTrimmedSuffix(TakeWhile(r5, IsSpace), DropWhile(r5, IsSpace));
    ParseTokenOnSound(DropWhile(r5, IsSpace));
  }

  lemma ParseTipArgumentsSound(r3: string)
    requires EndsTrimmed(r3) && ParseTipArguments(r3).Some?
    ensures TipArgumentsWellFormed(ParseTipArguments(r3).value)
    ensures RenderTipArguments(ParseTipArguments(r3).value) == r3
  {
    EndsTrimmedSuffix(TakeWhile(r3, IsSpace), DropWhile(r3, IsSpace));
    ParseAmountOnSound(DropWhile(r3, IsSpace));
  }

  lemma ParseUserOnSound(r1: string)
    requires EndsTrimmed(r1) && ParseUserOn(r1).Some?
    ensures var p := ParseUserOn(r1).value;
      && Word(p.1) && TipArgumentsWellFormed(p.2)
      && (if p.0 then "@" else "") + (p.1 + RenderTipArguments(p.2)) == r1
  {
    var at := |r1| > 0 && r1[0] == '@';
    var r2 := if at then r1[1..] else r1;
    UserOnRest(r1);
    NameArgumentsOnSound(r2);
  }

  /** The text after the optional `@` ends as the whole does, and the name and
      arguments are read from it. */
  lemma UserOnRest(r1: string)
    requires EndsTrimmed(r1)
    ensures var at := |r1| > 0 && r1[0] == '@';
      var r2 := if at then r1[1..] else r1;
      && EndsTrimmed(r2) && r1 == (if at then "@" else "") + r2
      && ParseUserOn(r1) == (match NameArgumentsOn(r2)
           case None => None
           case Some(rest) => Some((at, rest.0, rest.1)))
  {
    if |r1| > 0 && r1[0] == '@' {
      assert r1 == "@" + r1[1..];
      EndsTrimmedSuffix("@", r1[1..]);
    }
  }

  /** The user name and the arguments after it render back to their text. */
  lemma NameArgumentsOnSound(r2: string)
    requires EndsTrimmed(r2) && NameArgumentsOn(r2).Some?
    ensures var p := NameArgumentsOn(r2).value;
      Word(p.0) && TipArgumentsWellFormed(p.1) && p.0 + RenderTipArguments(p.1) == r2
  {
    EndsTrimmedSuffix(TakeWhile(r2, IsWordChar), DropWhile(r2, IsWordChar));
    ParseTipArgumentsSound(DropWhile(r2, IsWordChar));
  }

  /** What the parser returns is a well-formed match of the whole text. */
  lemma ParseTipSound(t: string)
    requires EndsTrimmed(t) && ParseTipSyntax(t).Some?
    ensures TipWellFormed(ParseTipSyntax(t).value)
    ensures RenderTip(ParseTipSyntax(t).value) == t
  {
    var r0 := t[4..];
    var r1 := DropWhile(r0, IsSpace);
    SplitAt(t, 4);
    assert EndsTrimmed(r1) by {
      EndsTrimmedSuffix(t[..4], r0);
      EndsTrimmedSuffix(TakeWhile(r0, IsSpace), r1);
    }
    ParseUserOnSound(r1);
    var p := ParseTipSyntax(t).value;
    var rest := ParseUserOn(r1).value;
    assert p.memo == rest.2.memo;
    assert RenderTip(p) == t[..4] + (TakeWhile(r0, IsSpace) + r1);
  }

  lemma ParseMemoComplete(m: Option<Memo>)
    requires m.Some? ==> Gap(m.value.gap) && MemoText(m.value.text)
    ensures ParseMemo(RenderMemo(m)) == Some(m)
  {
    if m.Some? {
      TakeWhileOfConcat(m.value.gap, m.value.text, IsSpace);
    }
  }

  lemma ParseTokenOnComplete(token: string, memo: Option<Memo>)
    requires Word(token) && (memo.Some? ==> Gap(memo.value.gap) && MemoText(memo.value.text))
    ensures ParseTokenOn(token + RenderMemo(memo)) == Some((token, memo))
  {
    var x7 := RenderMemo(memo);
    assert x7 == [] || x7[0] == memo.value.gap[0];
    TakeWhileOfConcat(token, x7, IsWordChar);
    ParseMemoComplete(memo);
  }

  lemma ParseAmountOnComplete(amount: string, gap3: string, token: string, memo: Option<Memo>)
    requires IsDecimal(amount) && Gap(gap3)
    requires Word(token) && (memo.Some? ==> Gap(memo.value.gap) && MemoText(memo.value.text))
    ensures ParseAmountOn(amount + (gap3 + (token + RenderMemo(memo)))) == Some((amount, gap3, token, memo))
  {
    var x6 := token + RenderMemo(memo);
    var x5 := gap3 + x6;
    assert x5[0] == gap3[0];
    TakeDecimalOfConcat(amount, x5);
    assert x6[0] == token[0];
    TakeWhileOfConcat(gap3, x6, IsSpace);
    ParseTokenOnComplete(token, memo);
  }

  lemma ParseTipArgumentsComplete(a: TipArguments)
    requires TipArgumentsWellFormed(a)
    ensures ParseTipArguments(RenderTipArguments(a)) == Some(a)
  {
    var x4 := a.amount + (a.gap3 + (a.token + RenderMemo(a.memo)));
    DecimalEnds(a.amount);
    assert x4[0] == a.amount[0];
    TakeWhileOfConcat(a.gap2, x4, IsSpace);
    ParseAmountOnComplete(a.amount, a.gap3, a.token, a.memo);
  }

  lemma ParseUserOnComplete(at: bool, user: string, a: TipArguments)
    requires Word(user) && TipArgumentsWellFormed(a)
    ensures ParseUserOn((if at then "@" else "") + (user + RenderTipArguments(a))) == Some((at, user, a))
  {
    var x2 := user + RenderTipArguments(a);
    assert x2[0] == user[0];
    NameArgumentsOnComplete(user, a);
    UserOnPrefixed(at, x2);
  }

  /** The optional `@` is taken off, and what follows it is read as the name
      and the arguments. */
  lemma UserOnPrefixed(at: bool, x2: string)
    requires |x2| > 0 && x2[0] != '@'
    ensures ParseUserOn((if at then "@" else "") + x2)
      == match NameArgumentsOn(x2) case None => None case Some(rest) => Some((at, rest.0, rest.1))
  {
    if at {
      assert ("@" + x2)[1..] == x2;
    } else {
      assert "" + x2 == x2;
    }
  }

  /** A word and well-formed arguments are read back by `NameArgumentsOn`. */
  lemma NameArgumentsOnComplete(user: string, a: TipArguments)
    requires Word(user) && TipArgumentsWellFormed(a)
    ensures NameArgumentsOn(user + RenderTipArguments(a)) == Some((user, a))
  {
    var x3 := RenderTipArguments(a);
    var x2 := user + x3;
    assert TakeWhile(x2, IsWordChar) == user && DropWhile(x2, IsWordChar) == x3 by {
      assert x3[0] == a.gap2[0];
      TakeWhileOfConcat(user, x3, IsWordChar);
    }
    ParseTipArgumentsComplete(a);
  }

  /** Every well-formed match of trimmed text is found by the parser: together with
      `ParseTipSound`, text matches exactly when it is the rendering of a
      well-formed match, and then the parse is that match. */
  lemma ParseTipComplete(p: TipSyntax)
    requires TipWellFormed(p)
    ensures EndsTrimmed(RenderTip(p))
    ensures ParseTipSyntax(RenderTip(p)) == Some(p)
  {
    var a := TipArguments(p.gap2, p.amount, p.gap3, p.token, p.memo);
    var x1 := (if p.at then "@" else "") + (p.username + RenderTipArguments(a));
    var t := RenderTip(p);
    assert t == p.head + (p.gap1 + x1);
    assert t[..4] == p.head && t[4..] == p.gap1 + x1;
    assert EndsTrimmed(t) by {
      if p.memo.Some? {
        assert t[|t| - 1] == p.memo.value.text[|p.memo.value.text| - 1];
      } else {
        assert t[|t| - 1] == p.token[|p.token| - 1];
      }
    }
    assert x1[0] == '@' || x1[0] == p.username[0];
    TakeWhileOfConcat(p.gap1, x1, IsSpace);
    ParseUserOnComplete(p.at, p.username, a);
  }

  // ---------------------------------------------------------------------------
  // ^\/withdraw\s+(\w+)\s+(\d+(?:\.\d+)?)\s+(0x[a-fA-F0-9]{40})$ with the `i` flag

  /** `0x` followed by 40 hexadecimal digits; under the `i` flag the `x` may be
      upper case. */
  predicate AddressShape(a: string) {
    |a| == 42 && a[0] == '0' && (a[1] == 'x' || a[1] == 'X') && AllHex(a[2..])
  }

  datatype WithdrawSyntax = WithdrawSyntax(head: string, gap1: string, token: string, gap2: string,
                                           amount: string, gap3: string, address: string)

  predicate WithdrawWellFormed(p: WithdrawSyntax) {
    && |p.head| == 9 && ToUpper(p.head) == "/WITHDRAW"
    && Gap(p.gap1) && Word(p.token) && Gap(p.gap2) && IsDecimal(p.amount) && Gap(p.gap3)
    && AddressShape(p.address)
  }

  function RenderWithdraw(p: WithdrawSyntax): string {
    p.head + (p.gap1 + (p.token + (p.gap2 + (p.amount + (p.gap3 + p.address)))))
  }

  function ParseWithdrawSyntax(t: string): Option<WithdrawSyntax> {
    if |t| < 9 || ToUpper(t[..9]) != "/WITHDRAW" then None
    else
      var gap1 := TakeWhile(t[9..], IsSpace);
      if gap1 == "" then None
      else match ParseWithdrawTokenOn(DropWhile(t[9..], IsSpace))
        case None => None
        case Some(rest) => Some(WithdrawSyntax(t[..9], gap1, rest.0, rest.1, rest.2, rest.3, rest.4))
  }

  /** `(\w+)\s+` and what follows it. */
  function ParseWithdrawTokenOn(r1: string): Option<(string, string, string, string, string)> {
    var token := TakeWhile(r1, IsWordChar);
    var r2 := DropWhile(r1, IsWordChar);
    var gap2 := TakeWhile(r2, IsSpace);
    if token == "" || gap2 == "" then None
    else match ParseWithdrawAmountOn(DropWhile(r2, IsSpace))
      case None => None
      case Some(rest) => Some((token, gap2, rest.0, rest.1, rest.2))
  }

  /** The amount, the white space after it and the address that ends the text. */
  function ParseWithdrawAmountOn(r3: string): Option<(string, string, string)> {
    var amount := TakeDecimal(r3);
    var gap3 := TakeWhile(DropDecimal(r3), IsSpace);
    var address := DropWhile(DropDecimal(r3), IsSpace);
    if amount == "" || gap3 == "" || !AddressShape(address) then None
    else Some((amount, gap3, address))
  }

  lemma ParseWithdrawSound(t: string)
    requires ParseWithdrawSyntax(t).Some?
    ensures WithdrawWellFormed(ParseWithdrawSyntax(t).value)
    ensures RenderWithdraw(ParseWithdrawSyntax(t).value) == t
  {
    SplitAt(t, 9);
  }

  lemma ParseWithdrawAmountOnComplete(amount: string, gap3: string, address: string)
    requires IsDecimal(amount) && Gap(gap3) && AddressShape(address)
    ensures ParseWithdrawAmountOn(amount + (gap3 + address)) == Some((amount, gap3, address))
  {
    assert (gap3 + address)[0] == gap3[0];
    TakeDecimalOfConcat(amount, gap3 + address);
    TakeWhileOfConcat(gap3, address, IsSpace);
  }

  lemma ParseWithdrawTokenOnComplete(token: string, gap2: string, amount: string, gap3: string, address: string)
    requires Word(token) && Gap(gap2) && IsDecimal(amount) && Gap(gap3) && AddressShape(address)
    ensures ParseWithdrawTokenOn(token + (gap2 + (amount + (gap3 + address))))
         == Some((token, gap2, amount, gap3, address))
  {
    var x3 := amount + (gap3 + address);
    DecimalEnds(amount);
    assert x3[0] == amount[0];
    WithdrawTokenOnSplit(token, gap2, x3);
    ParseWithdrawAmountOnComplete(amount, gap3, address);
  }

  /** The token and the white space after it are taken whole, and the rest is
      read as the amount and the address. */
  lemma WithdrawTokenOnSplit(token: string, gap2: string, x3: string)
    requires Word(token) && Gap(gap2) && |x3| > 0 && !IsSpace(x3[0])
    ensures ParseWithdrawTokenOn(token + (gap2 + x3))
      == match ParseWithdrawAmountOn(x3)
         case None => None
         case Some(rest) => Some((token, gap2, rest.0, rest.1, rest.2))
  {
    var x2 := gap2 + x3;
    assert TakeWhile(token + x2, IsWordChar) == token && DropWhile(token + x2, IsWordChar) == x2 by {
      assert x2[0] == gap2[0];
      TakeWhileOfConcat(token, x2, IsWordChar);
    }
    assert TakeWhile(x2, IsSpace) == gap2 && DropWhile(x2, IsSpace) == x3 by {
      TakeWhileOfConcat(gap2, x3, IsSpace);
    }
  }

  /** Every well-formed match is found by the parser. */
  lemma ParseWithdrawComplete(p: WithdrawSyntax)
    requires WithdrawWellFormed(p)
    ensures ParseWithdrawSyntax(RenderWithdraw(p)) == Some(p)
  {
    var x1 := p.token + (p.gap2 + (p.amount + (p.gap3 + p.address)));
    var t := RenderWithdraw(p);
    assert t == p.head + (p.gap1 + x1);
    assert t[..9] == p.head && t[9..] == p.gap1 + x1;
    assert x1[0] == p.token[0];
    TakeWhileOfConcat(p.gap1, x1, IsSpace);
    ParseWithdrawTokenOnComplete(p.token, p.gap2, p.amount, p.gap3, p.address);
  }

  // ---------------------------------------------------------------------------
  // parseTipCommand and parseWithdrawCommand

  /** A `\w+` run holds no '@', so removing the first '@' leaves it as it is. */
  lemma WordHasNoAt(w: string)
    requires Word(w)
    ensures '@' !in w && ReplaceFirst(w, "@", "") == w
  {
    assert forall k :: 0 <= k < |w| ==> IsWordChar(w[k]);
    IndexOfAbsentChar(w, '@');
  }

  datatype TipCommand = TipCommand(username: string, amount: real, tokenSymbol: string,
                                   tokenAddress: string, message: string)

  const TipUsage: string := "Invalid format. Use: /tip @username amount TOKEN [message]"

  function MemoOf(p: TipSyntax): string {
    match p.memo
    case None => ""
    case Some(m) => m.text
  }

  /** The trimmed text must match the grammar; then its captures are validated. */
  function ParseTipCommand(text: string): (r: Result<TipCommand>)
    ensures ParseTipSyntax(Trim(text)).None? ==> r == Err(TipUsage)
    ensures ParseTipSyntax(Trim(text)).Some? ==>
      TipWellFormed(ParseTipSyntax(Trim(text)).value) && r == ValidateTipCaptures(ParseTipSyntax(Trim(text)).value)
  {
    match ParseTipSyntax(Trim(text))
    case None => Err(TipUsage)
    case Some(p) =>
      assert TipWellFormed(p) by { ParseTipSound(Trim(text)); }
      ValidateTipCaptures(p)
  }

  /** The user name, the amount, the token and the memo are validated in that
      order and the first failure is returned as the validator gave it. */
  function ValidateTipCaptures(p: TipSyntax): (r: Result<TipCommand>)
    requires TipWellFormed(p)
    ensures ValidateTelegramUsername(Some(p.username)).Err? ==> r == Err(ValidateTelegramUsername(Some(p.username)).error)
    ensures ValidateTelegramUsername(Some(p.username)).Ok? && ValidateAmount(Text(p.amount)).Err? ==>
      r == Err(ValidateAmount(Text(p.amount)).error)
    ensures (ValidateTelegramUsername(Some(p.username)).Ok? && ValidateAmount(Text(p.amount)).Ok?
             && ValidateTokenSymbol(Some(p.token)).Err?) ==> r == Err(ValidateTokenSymbol(Some(p.token)).error)
    ensures (ValidateTelegramUsername(Some(p.username)).Ok? && ValidateAmount(Text(p.amount)).Ok?
             && ValidateTokenSymbol(Some(p.token)).Ok? && ValidateMessage(Some(MemoOf(p))).Err?) ==>
      r == Err(ValidateMessage(Some(MemoOf(p))).error)
    ensures r.Ok? <==>
      ValidateTelegramUsername(Some(p.username)).Ok? && ValidateAmount(Text(p.amount)).Ok?
      && ValidateTokenSymbol(Some(p.token)).Ok? && ValidateMessage(Some(MemoOf(p))).Ok?
    ensures r.Ok? ==>
      && r.value.message == ValidateMessage(Some(MemoOf(p))).value
      && Some(r.value.tokenAddress) == SupportedAddress(ToUpper(p.token))
    ensures r.Ok? ==>
      && UsernameShape(r.value.username)
      && 0.0 < r.value.amount <= MaxTip && AtMost8Decimals(r.value.amount)
      && r.value.tokenSymbol in SupportedSymbols
      && Some(r.value.tokenAddress) == SupportedAddress(r.value.tokenSymbol)
      && |r.value.message| <= MaxMessageLength && '<' !in r.value.message && '>' !in r.value.message
    ensures r.Ok? ==>
      && r.value.username == p.username
      && Some(r.value.amount) == ParseFloat(p.amount)
      && r.value.tokenSymbol == ToUpper(p.token)
  {
    assert ReplaceFirst(p.username, "@", "") == p.username by { WordHasNoAt(p.username); }
    var username := ValidateTelegramUsername(Some(p.username));
    var amount := ValidateAmount(Text(p.amount));
    var token := ValidateTokenSymbol(Some(p.token));
    var message := ValidateMessage(Some(MemoOf(p)));
    if username.Err? then Err(username.error)
    else if amount.Err? then Err(amount.error)
    else if token.Err? then Err(token.error)
    else if message.Err? then Err(message.error)
    else Ok(TipCommand(username.value, amount.value, token.value.symbol, token.value.address, message.value))
  }

  /** A well-formed `/tip` command whose user name, amount, token and memo all
      pass their validators is accepted with exactly those values; the memo loses
      only its angle brackets. */
  lemma ParseTipAccepts(p: TipSyntax)
    requires TipWellFormed(p) && UsernameShape(p.username)
    requires 0.0 < DecimalValue(p.amount) <= MaxTip && AtMost8Decimals(DecimalValue(p.amount))
    requires ToUpper(p.token) in SupportedSymbols
    requires Utf16Length(MemoOf(p)) <= MaxMessageLength
    ensures ParseTipCommand(RenderTip(p)) ==
      Ok(TipCommand(p.username, DecimalValue(p.amount), ToUpper(p.token), SupportedAddress(ToUpper(p.token)).value,
                    Without(MemoOf(p), {'<', '>'})))
  {
    RenderedTipParses(p);
    AcceptedCaptures(p);
  }

  lemma RenderedTipParses(p: TipSyntax)
    requires TipWellFormed(p)
    ensures ParseTipSyntax(Trim(RenderTip(p))) == Some(p)
  {
    var t := RenderTip(p);
    ParseTipComplete(p);
    assert ToUpper(p.head)[0] == UpperChar(p.head[0]);
    assert t[0] == p.head[0];
    TrimOfTrimmed(t);
  }

  lemma AcceptedCaptures(p: TipSyntax)
    requires TipWellFormed(p) && UsernameShape(p.username)
    requires 0.0 < DecimalValue(p.amount) <= MaxTip && AtMost8Decimals(DecimalValue(p.amount))
    requires ToUpper(p.token) in SupportedSymbols
    requires Utf16Length(MemoOf(p)) <= MaxMessageLength
    ensures ValidateTipCaptures(p) ==
      Ok(TipCommand(p.username, DecimalValue(p.amount), ToUpper(p.token), SupportedAddress(ToUpper(p.token)).value,
                    Without(MemoOf(p), {'<', '>'})))
  {
    assert ValidateTelegramUsername(Some(p.username)) == Ok(p.username) by {
      WordHasNoAt(p.username);
    }
    assert ValidateAmount(Text(p.amount)) == Ok(DecimalValue(p.amount)) by {
      ValidateDecimalAmount(p.amount);
    }
    MemoAccepted(p);
  }

  /** A memo within the limit is accepted; being trimmed already, it only loses
      its angle brackets. */
  lemma MemoAccepted(p: TipSyntax)
    requires TipWellFormed(p) && Utf16Length(MemoOf(p)) <= MaxMessageLength
    ensures ValidateMessage(Some(MemoOf(p))) == Ok(Without(MemoOf(p), {'<', '>'}))
  {
    if p.memo.Some? {
      TrimOfTrimmed(p.memo.value.text);
    }
  }

  datatype WithdrawCommand = WithdrawCommand(tokenSymbol: string, tokenAddress: string, amount: real,
                                             address: string)

  const WithdrawUsage: string := "Invalid format. Use: /withdraw TOKEN amount 0x..."

  /** The validators `parseWithdrawCommand` runs on the captures: the token, then
      the amount, then the address; the first failure is returned unchanged. */
  function ValidateWithdrawCaptures(token: string, amount: string, address: string,
                                    checksum: string -> Option<string>): (r: Result<WithdrawCommand>)
    ensures ValidateTokenSymbol(Some(token)).Err? ==> r == Err(ValidateTokenSymbol(Some(token)).error)
    ensures ValidateTokenSymbol(Some(token)).Ok? && ValidateAmount(Text(amount)).Err? ==>
      r == Err(ValidateAmount(Text(amount)).error)
    ensures r.Ok? <==>
      ValidateTokenSymbol(Some(token)).Ok? && ValidateAmount(Text(amount)).Ok?
      && address != "" && checksum(address).Some?
    ensures r.Ok? ==>
      && Some(r.value.address) == checksum(address)
      && Some(r.value.amount) == ParseFloat(amount) && 0.0 < r.value.amount <= MaxTip
      && r.value.tokenSymbol == ToUpper(token) && r.value.tokenSymbol in SupportedSymbols
      && Some(r.value.tokenAddress) == SupportedAddress(r.value.tokenSymbol)
  {
    var tokenCheck := ValidateTokenSymbol(Some(token));
    var amountCheck := ValidateAmount(Text(amount));
    var addressCheck := ValidateEthereumAddress(Some(address), checksum);
    if tokenCheck.Err? then Err(tokenCheck.error)
    else if amountCheck.Err? then Err(amountCheck.error)
    else if addressCheck.Err? then Err(addressCheck.error)
    else Ok(WithdrawCommand(tokenCheck.value.symbol, tokenCheck.value.address, amountCheck.value, addressCheck.value))
  }

  /** The trimmed text must match the grammar; then the captures are validated. */
  function ParseWithdrawCommand(text: string, checksum: string -> Option<string>): (r: Result<WithdrawCommand>)
    ensures ParseWithdrawSyntax(Trim(text)).None? ==> r == Err(WithdrawUsage)
    ensures ParseWithdrawSyntax(Trim(text)).Some? ==>
      var p := ParseWithdrawSyntax(Trim(text)).value;
      r == ValidateWithdrawCaptures(p.token, p.amount, p.address, checksum)
  {
    match ParseWithdrawSyntax(Trim(text))
    case None => Err(WithdrawUsage)
    case Some(p) => ValidateWithdrawCaptures(p.token, p.amount, p.address, checksum)
  }
}
