/** The payment loop `/batchtip` (`src/bot/commands/batchtip.js`) and `/split`
    (`src/bot/commands/split.js`) share: look every recipient up by username,
    stopping at the first unknown one; then pay them one by one, recording one
    completed ledger row for each leg that went through and carrying on after a
    leg that failed. */
module Payout {
  import opened Wrappers
  import Users
  import Ledger
  import Chat

  // ---------------------------------------------------------------------------
  // Looking the recipients up

  datatype Lookup = AllFound(users: seq<Users.UserRow>) | Missing(username: string)

  /** `findByUsername` for each name in turn; the first name nobody has stops
      the lookup. */
  function FindAll(rows: seq<Users.UserRow>, names: seq<string>): (r: Lookup)
    ensures r.AllFound? <==> forall k :: 0 <= k < |names| ==> Users.FindByUsername(rows, names[k]).Some?
    ensures r.AllFound? ==>
      |r.users| == |names| && forall k :: 0 <= k < |names| ==> Users.FindByUsername(rows, names[k]) == Some(r.users[k])
    decreases |names|
  {
    if |names| == 0 then AllFound([])
    else
      var n := |names| - 1;
      assert forall k :: 0 <= k < n ==> names[..n][k] == names[k];
      match FindAll(rows, names[..n])
      case Missing(u) => Missing(u)
      case AllFound(us) =>
        match Users.FindByUsername(rows, names[n])
        case None => Missing(names[n])
        case Some(u) => AllFound(us + [u])
  }

  /** The lookup stops at the first unknown name: that is the name reported, and
      every name before it is registered. */
  lemma {:induction false} FindAllStopsAtFirst(rows: seq<Users.UserRow>, names: seq<string>)
    requires FindAll(rows, names).Missing?
    ensures exists k :: (0 <= k < |names| && names[k] == FindAll(rows, names).username
      && Users.FindByUsername(rows, names[k]).None?
      && forall j :: 0 <= j < k ==> Users.FindByUsername(rows, names[j]).Some?)
    decreases |names|
  {
    var n := |names| - 1;
    var init := names[..n];
    if FindAll(rows, init).Missing? {
      FindAllStopsAtFirst(rows, init);
      var k :| 0 <= k < |init| && init[k] == FindAll(rows, init).username
        && Users.FindByUsername(rows, init[k]).None?
        && forall j :: 0 <= j < k ==> Users.FindByUsername(rows, init[j]).Some?;
      assert names[k] == init[k];
      assert forall j :: 0 <= j < k ==> names[j] == init[j];
    } else {
      assert forall j :: 0 <= j < n ==> names[j] == init[j];
    }
  }

  /** Once a prefix of the names meets an unknown one, the whole lookup reports
      it. */
  lemma {:induction false} MissingPersists(rows: seq<Users.UserRow>, names: seq<string>, j: nat)
    requires j <= |names| && FindAll(rows, names[..j]).Missing?
    ensures FindAll(rows, names) == FindAll(rows, names[..j])
    decreases |names|
  {
    if j == |names| {
      assert names[..j] == names;
    } else {
      var n := |names| - 1;
      assert names[..n][..j] == names[..j];
      MissingPersists(rows, names[..n], j);
    }
  }

  /** The loop that fills `recipientUsers`, returning at the first unknown name. */
  method LookupRecipients(users: Users.UserTable, names: seq<string>) returns (r: Lookup)
    ensures r == FindAll(users.rows, names)
  {
    var found: seq<Users.UserRow> := [];
    var i := 0;
    while i < |names|
      invariant i <= |names|
      invariant FindAll(users.rows, names[..i]) == AllFound(found)
    {
      assert names[..i + 1][..i] == names[..i];
      var u := Users.FindByUsername(users.rows, names[i]);
      if u.None? {
        MissingPersists(users.rows, names, i + 1);
        return Missing(names[i]);
      }
      found := found + [u.value];
      i := i + 1;
    }
    assert names[..i] == names;
    r := AllFound(found);
  }

  // ---------------------------------------------------------------------------
  // Paying

  /** What the loop pays: `amount` of `token` on `network` to each of `payees`,
      whose usernames are `names`, with the ledger message `message`. */
  datatype Plan = Plan(names: seq<string>, payees: seq<Users.UserRow>, amount: real, token: string,
                       network: string, message: string)

  datatype LegResult = Success(username: string, txHash: string) | Failure(username: string, error: string)

  function ResultOf(name: string, leg: Chat.Leg): LegResult {
    match leg
    case Paid(h) => Success(name, h)
    case LegFailed(e) => Failure(name, e)
  }

  /** `results` after the first `n` legs, `leg(k)` being the answer of leg `k`. */
  function Results(p: Plan, leg: nat -> Chat.Leg, n: nat): (r: seq<LegResult>)
    requires n <= |p.names|
    ensures |r| == n
    ensures forall k :: 0 <= k < n ==> r[k] == ResultOf(p.names[k], leg(k))
  {
    seq(n, k requires 0 <= k < n => ResultOf(p.names[k], leg(k)))
  }

  /** One more leg adds its result at the end. */
  lemma ResultsStep(p: Plan, leg: nat -> Chat.Leg, n: nat)
    requires n < |p.names|
    ensures Results(p, leg, n + 1) == Results(p, leg, n) + [ResultOf(p.names[n], leg(n))]
  {
  }

  /** A leg that went through adds its row, and its recipient when told. */
  lemma PaidStep(firstId: nat, senderId: string, p: Plan, leg: nat -> Chat.Leg, n: nat, notifySelf: bool, h: string)
    requires n < |p.payees| && leg(n) == Chat.Paid(h)
    ensures PaidCount(leg, n + 1) == PaidCount(leg, n) + 1
    ensures PaidRows(firstId, senderId, p, leg, n + 1)
      == PaidRows(firstId, senderId, p, leg, n) + [Ledger.RowOf(firstId + PaidCount(leg, n), LegTx(senderId, p, n, h))]
    ensures Notified(senderId, p, leg, n + 1, notifySelf)
      == Notified(senderId, p, leg, n, notifySelf)
         + (if notifySelf || p.payees[n].telegramId != senderId then [p.payees[n].telegramId] else [])
  {
  }

  /** A failed leg adds neither a row nor a recipient. */
  lemma FailedStep(firstId: nat, senderId: string, p: Plan, leg: nat -> Chat.Leg, n: nat, notifySelf: bool)
    requires n < |p.payees| && leg(n).LegFailed?
    ensures PaidCount(leg, n + 1) == PaidCount(leg, n)
    ensures PaidRows(firstId, senderId, p, leg, n + 1) == PaidRows(firstId, senderId, p, leg, n)
    ensures Notified(senderId, p, leg, n + 1, notifySelf) == Notified(senderId, p, leg, n, notifySelf)
  {
  }

  lemma AppendAssoc<T>(a: seq<T>, b: seq<T>, c: seq<T>)
    ensures (a + b) + c == a + (b + c)
  {
  }

  /** How many of the first `n` legs went through. */
  function PaidCount(leg: nat -> Chat.Leg, n: nat): nat
    decreases n
  {
    if n == 0 then 0 else PaidCount(leg, n - 1) + (if leg(n - 1).Paid? then 1 else 0)
  }

  /** The ledger entry of a leg that went through with hash `h`. */
  function LegTx(senderId: string, p: Plan, k: nat, h: string): Ledger.NewTx
    requires k < |p.payees|
  {
    Ledger.NewTx(senderId, p.payees[k].telegramId, p.amount, p.token, Some(p.network), Some(h),
                 Some(p.message), Some(Ledger.Completed))
  }

  /** The rows the first `n` legs add to the ledger, numbered from `firstId`: one
      completed row per leg that went through, none for a failed one. */
  function PaidRows(firstId: nat, senderId: string, p: Plan, leg: nat -> Chat.Leg, n: nat)
    : (r: seq<Ledger.TxRow>)
    requires n <= |p.payees|
    ensures |r| == PaidCount(leg, n)
    ensures forall i :: 0 <= i < |r| ==>
      && r[i].id == firstId + i && r[i].status == Ledger.Completed && r[i].senderId == senderId
      && r[i].amount == p.amount && r[i].token == p.token && r[i].network == Some(p.network)
      && r[i].message == Some(p.message)
    decreases n
  {
    if n == 0 then []
    else
      var before := PaidRows(firstId, senderId, p, leg, n - 1);
      match leg(n - 1)
      case Paid(h) => before + [Ledger.RowOf(firstId + |before|, LegTx(senderId, p, n - 1, h))]
      case LegFailed(_) => before
  }

  /** The ids told of their payment: each paid recipient, except the sender
      when `notifySelf` is false. */
  function Notified(senderId: string, p: Plan, leg: nat -> Chat.Leg, n: nat, notifySelf: bool): (r: seq<string>)
    requires n <= |p.payees|
    ensures !notifySelf ==> senderId !in r
    ensures |r| <= PaidCount(leg, n)
    decreases n
  {
    if n == 0 then []
    else
      var before := Notified(senderId, p, leg, n - 1, notifySelf);
      var payee := p.payees[n - 1].telegramId;
      if leg(n - 1).Paid? && (notifySelf || payee != senderId) then before + [payee] else before
  }

  /** A paid leg is in the ledger, to its payee, with its hash. */
  lemma {:induction false} PaidLegRecorded(firstId: nat, senderId: string, p: Plan, leg: nat -> Chat.Leg,
                                           n: nat, k: nat)
    requires k < n <= |p.payees| && leg(k).Paid?
    ensures exists i :: (0 <= i < |PaidRows(firstId, senderId, p, leg, n)|
      && PaidRows(firstId, senderId, p, leg, n)[i].recipientId == p.payees[k].telegramId
      && PaidRows(firstId, senderId, p, leg, n)[i].txHash == Some(leg(k).txHash))
    decreases n
  {
    var rows := PaidRows(firstId, senderId, p, leg, n);
    var before := PaidRows(firstId, senderId, p, leg, n - 1);
    if k == n - 1 {
      assert rows[|before|].recipientId == p.payees[k].telegramId;
    } else {
      PaidLegRecorded(firstId, senderId, p, leg, n - 1, k);
      var i :| 0 <= i < |before| && before[i].recipientId == p.payees[k].telegramId
        && before[i].txHash == Some(leg(k).txHash);
      assert rows[i] == before[i];
    }
  }

  // ---------------------------------------------------------------------------
  // The outcome

  /** `results.filter(r => r.success)`. */
  function Successful(r: seq<LegResult>): (s: seq<LegResult>)
    ensures forall x :: x in s ==> x.Success? && x in r
    decreases |r|
  {
    if |r| == 0 then []
    else Successful(r[..|r| - 1]) + (if r[|r| - 1].Success? then [r[|r| - 1]] else [])
  }

  /** `results.filter(r => !r.success)`. */
  function Unsuccessful(r: seq<LegResult>): (s: seq<LegResult>)
    ensures forall x :: x in s ==> x.Failure? && x in r
    decreases |r|
  {
    if |r| == 0 then []
    else Unsuccessful(r[..|r| - 1]) + (if r[|r| - 1].Failure? then [r[|r| - 1]] else [])
  }

  /** Every result is reported once, as a success or as a failure. */
  lemma {:induction false} Partition(r: seq<LegResult>)
    ensures |Successful(r)| + |Unsuccessful(r)| == |r|
    decreases |r|
  {
    if |r| > 0 {
      Partition(r[..|r| - 1]);
    }
  }

  /** The successes are exactly the legs that went through, as many as the rows
      the legs add to the ledger. */
  lemma {:induction false} SuccessesArePaid(p: Plan, leg: nat -> Chat.Leg, n: nat)
    requires n <= |p.names|
    ensures |Successful(Results(p, leg, n))| == PaidCount(leg, n)
    decreases n
  {
    if n > 0 {
      var r := Results(p, leg, n);
      assert r[..n - 1] == Results(p, leg, n - 1);
      SuccessesArePaid(p, leg, n - 1);
    }
  }

  /** What the error of every leg says as the handlers are written: they call
      `transactionManager.sendTransaction`, which neither `TransactionManager` nor
      the `WalletManager` it extends defines, so the call throws a `TypeError`
      that the leg's own `catch` records. */
  const MissingSendError: string := "transactionManager.sendTransaction is not a function"

  /** The answer of every leg as written. */
  function AsWrittenLeg(k: nat): Chat.Leg {
    Chat.LegFailed(MissingSendError)
  }

  /** As written, no leg of a batch tip or a split goes through: every result is
      a failure, no row is added and nobody is notified. */
  lemma {:induction false} NoLegPaysAsWritten(firstId: nat, senderId: string, p: Plan, n: nat, notifySelf: bool)
    requires n <= |p.names| && n <= |p.payees|
    ensures PaidCount(AsWrittenLeg, n) == 0
    ensures PaidRows(firstId, senderId, p, AsWrittenLeg, n) == []
    ensures Notified(senderId, p, AsWrittenLeg, n, notifySelf) == []
    ensures |Successful(Results(p, AsWrittenLeg, n))| == 0
    ensures forall k :: 0 <= k < n ==> Results(p, AsWrittenLeg, n)[k] == Failure(p.names[k], MissingSendError)
    decreases n
  {
    if n > 0 {
      NoLegPaysAsWritten(firstId, senderId, p, n - 1, notifySelf);
    }
    SuccessesArePaid(p, AsWrittenLeg, n);
  }

  /** The loop over `recipientUsers`: one transfer per payee, a ledger row for
      each that went through, a failure recorded for each that threw. */
  method PayLegs(ledger: Ledger.LedgerTable, senderId: string, p: Plan, leg: nat -> Chat.Leg, notifySelf: bool)
    returns (results: seq<LegResult>, notified: seq<string>)
    requires ledger.Valid() && |p.names| == |p.payees|
    modifies ledger
    ensures ledger.Valid()
    ensures results == Results(p, leg, |p.payees|)
    ensures notified == Notified(senderId, p, leg, |p.payees|, notifySelf)
    ensures ledger.rows == old(ledger.rows) + PaidRows(old(ledger.nextId), senderId, p, leg, |p.payees|)
    ensures ledger.nextId == old(ledger.nextId) + PaidCount(leg, |p.payees|)
  {
    results := [];
    notified := [];
    var i := 0;
    while i < |p.payees|
      invariant i <= |p.payees|
      invariant ledger.Valid()
      invariant results == Results(p, leg, i)
      invariant notified == Notified(senderId, p, leg, i, notifySelf)
      invariant ledger.rows == old(ledger.rows) + PaidRows(old(ledger.nextId), senderId, p, leg, i)
      invariant ledger.nextId == old(ledger.nextId) + PaidCount(leg, i)
    {
      results, notified := PayLeg(ledger, senderId, p, leg, notifySelf, i, results, notified,
                                  old(ledger.rows), old(ledger.nextId));
      i := i + 1;
    }
  }

  /** Leg `i` of the loop of `payLegs`: its result, its ledger row when it
      went through, and its recipient when told. */
  method PayLeg(ledger: Ledger.LedgerTable, senderId: string, p: Plan, leg: nat -> Chat.Leg, notifySelf: bool,
                i: nat, results: seq<LegResult>, notified: seq<string>, ghost rows0: seq<Ledger.TxRow>, ghost firstId: nat)
    returns (results': seq<LegResult>, notified': seq<string>)
    requires ledger.Valid() && |p.names| == |p.payees| && i < |p.payees|
    requires results == Results(p, leg, i) && notified == Notified(senderId, p, leg, i, notifySelf)
    requires ledger.rows == rows0 + PaidRows(firstId, senderId, p, leg, i)
    requires ledger.nextId == firstId + PaidCount(leg, i)
    modifies ledger
    ensures ledger.Valid()
    ensures results' == Results(p, leg, i + 1) && notified' == Notified(senderId, p, leg, i + 1, notifySelf)
    ensures ledger.rows == rows0 + PaidRows(firstId, senderId, p, leg, i + 1)
    ensures ledger.nextId == firstId + PaidCount(leg, i + 1)
  {
    ResultsStep(p, leg, i);
    match leg(i) {
      case Paid(h) =>
        PaidStep(firstId, senderId, p, leg, i, notifySelf, h);
        var id := ledger.Create(LegTx(senderId, p, i, h));
        AppendAssoc(rows0, PaidRows(firstId, senderId, p, leg, i), [Ledger.RowOf(id, LegTx(senderId, p, i, h))]);
        results' := results + [Success(p.names[i], h)];
        if notifySelf || p.payees[i].telegramId != senderId {
          notified' := notified + [p.payees[i].telegramId];
        } else {
          notified' := notified;
          assert notified + [] == notified;
        }
      case LegFailed(e) =>
        FailedStep(firstId, senderId, p, leg, i, notifySelf);
        results' := results + [Failure(p.names[i], e)];
        notified' := notified;
    }
  }
}
