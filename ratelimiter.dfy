/** The admission control of `src/bot/middleware/rateLimiter.js`: two
    points-per-window counters (one for tips, one for every command) and the
    per-user, per-day map of the amount tipped so far. */
module RateLimiting {
  import opened Wrappers
  import Constants
  import Text

  // ---------------------------------------------------------------------------
  // The points-per-window counter (the `RateLimiterMemory` objects)

  /** One key's fixed window: the points consumed in it and when it ends (ms). */
  datatype Window = Window(consumed: nat, expiresAt: int)

  /** A counter's configuration: points allowed per window and its length. */
  datatype Limiter = Limiter(points: nat, durationMs: nat)

  /** 10 tip points per 3600 s (`RATE_LIMIT_MAX` per `RATE_LIMIT_WINDOW`). */
  const TipLimiter: Limiter := Limiter(Constants.RateLimitMax, Constants.RateLimitWindowMs)

  /** 60 command points per 60 s. */
  const CommandLimiter: Limiter := Limiter(60, 60000)

  /** The window after one more point is consumed at time `now`: an absent or
      ended window is replaced by a fresh one holding this point. */
  function Charge(w: Option<Window>, now: int, lim: Limiter): (r: Window)
    ensures r.consumed >= 1 && r.expiresAt >= now
    ensures lim.durationMs > 0 ==> r.expiresAt > now
    ensures w.Some? && now < w.value.expiresAt ==> r == Window(w.value.consumed + 1, w.value.expiresAt)
  {
    if w.None? || now >= w.value.expiresAt then Window(1, now + lim.durationMs)
    else Window(w.value.consumed + 1, w.value.expiresAt)
  }

  function Lookup(windows: map<string, Window>, key: string): Option<Window> {
    if key in windows then Some(windows[key]) else None
  }

  /** The counters after `consume(key)`: the point is charged even when the
      consume is refused. */
  function AfterConsume(windows: map<string, Window>, key: string, now: int, lim: Limiter): (r: map<string, Window>)
    ensures key in r && r[key] == Charge(Lookup(windows, key), now, lim)
    ensures forall k :: k != key ==> Lookup(r, k) == Lookup(windows, k)
  {
    windows[key := Charge(Lookup(windows, key), now, lim)]
  }

  /** `None` when `consume(key)` resolves; otherwise the `msBeforeNext` it is
      rejected with: the time left in the window. */
  function Refusal(windows: map<string, Window>, key: string, now: int, lim: Limiter): (r: Option<nat>)
    ensures r.None? <==> Charge(Lookup(windows, key), now, lim).consumed <= lim.points
    ensures r.Some? ==> r.value == Charge(Lookup(windows, key), now, lim).expiresAt - now
  {
    var w := Charge(Lookup(windows, key), now, lim);
    if w.consumed <= lim.points then None else Some(w.expiresAt - now)
  }

  /** `Math.round(msBeforeNext / 1000) || 1`: the seconds to wait, rounded half
      up, and never 0. */
  function RetryAfter(msBeforeNext: nat): (s: nat)
    ensures s >= 1
    ensures msBeforeNext >= 500 ==> s * 1000 - 500 <= msBeforeNext < s * 1000 + 500
    ensures msBeforeNext < 500 ==> s == 1
  {
    var rounded := (msBeforeNext + 500) / 1000;
    if rounded == 0 then 1 else rounded
  }

  /** The number of consumes, at the times in `nows`, that resolve. */
  function AllowedCount(windows: map<string, Window>, key: string, nows: seq<int>, lim: Limiter): nat
    decreases |nows|
  {
    if |nows| == 0 then 0
    else
      (if Refusal(windows, key, nows[0], lim).None? then 1 else 0)
      + AllowedCount(AfterConsume(windows, key, nows[0], lim), key, nows[1..], lim)
  }

  /** Within one window a key gets at most `points` consumes, counting those it
      already had: every consume before the window ends adds one point, and a
      consume resolves only while the total is at most `points`. */
  lemma {:induction false} AtMostPointsPerWindow(windows: map<string, Window>, key: string, nows: seq<int>, lim: Limiter)
    requires key in windows
    requires forall i :: 0 <= i < |nows| ==> nows[i] < windows[key].expiresAt
    ensures windows[key].consumed >= lim.points ==> AllowedCount(windows, key, nows, lim) == 0
    ensures windows[key].consumed < lim.points ==>
      AllowedCount(windows, key, nows, lim) <= lim.points - windows[key].consumed
    decreases |nows|
  {
    if |nows| > 0 {
      var next := AfterConsume(windows, key, nows[0], lim);
      assert next[key] == Window(windows[key].consumed + 1, windows[key].expiresAt);
      AtMostPointsPerWindow(next, key, nows[1..], lim);
    }
  }

  // ---------------------------------------------------------------------------
  // Answers

  datatype Admission = Allowed | Denied(error: string, retryAfter: nat)

  const CommandLimited: string := "Too many commands. Please slow down."

  function Admit(refusal: Option<nat>, error: string): (a: Admission)
    ensures a.Allowed? <==> refusal.None?
    ensures a.Denied? ==> a.error == error && a.retryAfter == RetryAfter(refusal.value)
  {
    match refusal
    case None => Allowed
    case Some(ms) => Denied(error, RetryAfter(ms))
  }

  /** The daily cap's answer; the rendered text of the refusal shows `remaining`. */
  datatype DailyDecision = DailyAllowed(dailyTotal: real) | DailyDenied(remaining: real)

  const MaxDaily: real := Constants.MaxDailyAmount

  /** The tracker key of a user on a day (`new Date().toDateString()`). */
  function DailyKey(id: string, today: string): string {
    id + "_" + today
  }

  /** Ids carry no '_', so the key tells user and day apart: a write under one
      user's key for one day never touches another user's or another day's. */
  lemma DailyKeyInjective(id1: string, today1: string, id2: string, today2: string)
    requires '_' !in id1 && '_' !in id2
    requires DailyKey(id1, today1) == DailyKey(id2, today2)
    ensures id1 == id2 && today1 == today2
  {
    var k := DailyKey(id1, today1);
    FirstSeparator(id1, today1);
    FirstSeparator(id2, today2);
    assert id1 == k[..|id1|] == id2;
    assert today1 == k[|id1| + 1..] == today2;
  }

  /** The first '_' of a key is the one after the id. */
  lemma FirstSeparator(id: string, today: string)
    requires '_' !in id
    ensures Text.IndexOfChar(DailyKey(id, today), '_') == Some(|id|)
  {
    var k := DailyKey(id, today);
    assert k[..|id|] == id;
    assert k[|id|] == '_';
  }

  /** `dailyTipTracker.get(key) || 0`. */
  function DailyTotal(tracker: map<string, real>, key: string): real {
    if key in tracker then tracker[key] else 0.0
  }

  /** The cap decision: allowed exactly when the total so far plus the amount is
      at most 500; a refusal reports what is left. */
  function DailyCheck(tracker: map<string, real>, key: string, amount: real): (d: DailyDecision)
    ensures d.DailyAllowed? <==> DailyTotal(tracker, key) + amount <= MaxDaily
    ensures d.DailyAllowed? ==> d.dailyTotal == DailyTotal(tracker, key) + amount
    ensures d.DailyDenied? ==> d.remaining == MaxDaily - DailyTotal(tracker, key) && d.remaining < amount
  {
    var total := DailyTotal(tracker, key) + amount;
    if total > MaxDaily then DailyDenied(MaxDaily - DailyTotal(tracker, key)) else DailyAllowed(total)
  }

  /** The tracker after the check: the new total is stored only when allowed. */
  function DailyAfter(tracker: map<string, real>, key: string, amount: real): (r: map<string, real>)
    ensures DailyCheck(tracker, key, amount).DailyDenied? ==> r == tracker
    ensures DailyCheck(tracker, key, amount).DailyAllowed? ==>
      key in r && r[key] == DailyTotal(tracker, key) + amount && r[key] <= MaxDaily
    ensures forall k :: k != key ==> (k in r <==> k in tracker) && (k in r ==> r[k] == tracker[k])
  {
    match DailyCheck(tracker, key, amount)
    case DailyDenied(_) => tracker
    case DailyAllowed(total) => tracker[key := total]
  }

  /** No user's daily total ever exceeds the cap. */
  ghost predicate UnderCap(tracker: map<string, real>) {
    forall k :: k in tracker ==> tracker[k] <= MaxDaily
  }

  lemma DailyAfterKeepsCap(tracker: map<string, real>, key: string, amount: real)
    requires UnderCap(tracker)
    ensures UnderCap(DailyAfter(tracker, key, amount))
  {
  }

  /** Positive tips accumulate: a sequence of allowed checks on one key sums the
      amounts, and the sum stays within the cap. */
  function DailyAfterAll(tracker: map<string, real>, key: string, amounts: seq<real>): map<string, real>
    decreases |amounts|
  {
    if |amounts| == 0 then tracker
    else DailyAfterAll(DailyAfter(tracker, key, amounts[0]), key, amounts[1..])
  }

  function Sum(xs: seq<real>): real
    decreases |xs|
  {
    if |xs| == 0 then 0.0 else xs[0] + Sum(xs[1..])
  }

  lemma {:induction false} DailyTotalsAccumulate(tracker: map<string, real>, key: string, amounts: seq<real>)
    requires DailyTotal(tracker, key) + Sum(amounts) <= MaxDaily
    requires forall i :: 0 <= i < |amounts| ==> amounts[i] >= 0.0
    ensures DailyTotal(DailyAfterAll(tracker, key, amounts), key) == DailyTotal(tracker, key) + Sum(amounts)
    decreases |amounts|
  {
    if |amounts| > 0 {
      SumNonNegative(amounts[1..]);
      var next := DailyAfter(tracker, key, amounts[0]);
      assert DailyTotal(next, key) == DailyTotal(tracker, key) + amounts[0];
      DailyTotalsAccumulate(next, key, amounts[1..]);
    }
  }

  lemma {:induction false} SumNonNegative(xs: seq<real>)
    requires forall i :: 0 <= i < |xs| ==> xs[i] >= 0.0
    ensures Sum(xs) >= 0.0
    decreases |xs|
  {
    if |xs| > 0 {
      SumNonNegative(xs[1..]);
    }
  }

  // ---------------------------------------------------------------------------
  // The limiter object

  class RateLimiter {
    var tipWindows: map<string, Window>
    var commandWindows: map<string, Window>
    var dailyTipTracker: map<string, real>

    ghost predicate Valid()
      reads this
    {
      UnderCap(dailyTipTracker)
    }

    constructor()
      ensures Valid()
      ensures tipWindows == map[] && commandWindows == map[] && dailyTipTracker == map[]
    {
      tipWindows := map[];
      commandWindows := map[];
      dailyTipTracker := map[];
    }

    /** `checkTipRateLimit`: consume one tip point. */
    method CheckTipRateLimit(id: string, now: int) returns (a: Admission)
      modifies this
      ensures a == Admit(Refusal(old(tipWindows), id, now, TipLimiter), Constants.RateLimited)
      ensures tipWindows == AfterConsume(old(tipWindows), id, now, TipLimiter)
      ensures commandWindows == old(commandWindows) && dailyTipTracker == old(dailyTipTracker)
    {
      var refusal := Refusal(tipWindows, id, now, TipLimiter);
      tipWindows := AfterConsume(tipWindows, id, now, TipLimiter);
      a := Admit(refusal, Constants.RateLimited);
    }

    /** `checkCommandRateLimit`: consume one command point. */
    method CheckCommandRateLimit(id: string, now: int) returns (a: Admission)
      modifies this
      ensures a == Admit(Refusal(old(commandWindows), id, now, CommandLimiter), CommandLimited)
      ensures commandWindows == AfterConsume(old(commandWindows), id, now, CommandLimiter)
      ensures tipWindows == old(tipWindows) && dailyTipTracker == old(dailyTipTracker)
    {
      var refusal := Refusal(commandWindows, id, now, CommandLimiter);
      commandWindows := AfterConsume(commandWindows, id, now, CommandLimiter);
      a := Admit(refusal, CommandLimited);
    }

    /** `checkDailyTipLimit`: stores the new total under today's key when the cap
      allows it; a refusal changes nothing. The 24-hour timer that deletes the
      entry is not modelled. */
    method CheckDailyTipLimit(id: string, amount: real, today: string) returns (d: DailyDecision)
      requires Valid()
      modifies this
      ensures Valid()
      ensures d == DailyCheck(old(dailyTipTracker), DailyKey(id, today), amount)
      ensures dailyTipTracker == DailyAfter(old(dailyTipTracker), DailyKey(id, today), amount)
      ensures tipWindows == old(tipWindows) && commandWindows == old(commandWindows)
    {
      var key := DailyKey(id, today);
      var current := if key in dailyTipTracker then dailyTipTracker[key] else 0.0;
      var newTotal := current + amount;
      if newTotal > MaxDaily {
        d := DailyDenied(MaxDaily - current);
      } else {
        dailyTipTracker := dailyTipTracker[key := newTotal];
        d := DailyAllowed(newTotal);
      }
    }

    /** `middleware`: the command counter first, whose refusal is returned before
      any tip point is consumed; the tip counter only for tip commands. */
    method Middleware(id: string, commandType: string, now: int) returns (a: Admission)
      modifies this
      ensures commandWindows == AfterConsume(old(commandWindows), id, now, CommandLimiter)
      ensures dailyTipTracker == old(dailyTipTracker)
      ensures Refusal(old(commandWindows), id, now, CommandLimiter).Some? ==>
        a == Admit(Refusal(old(commandWindows), id, now, CommandLimiter), CommandLimited)
        && tipWindows == old(tipWindows)
      ensures Refusal(old(commandWindows), id, now, CommandLimiter).None? && commandType == "tip" ==>
        a == Admit(Refusal(old(tipWindows), id, now, TipLimiter), Constants.RateLimited)
        && tipWindows == AfterConsume(old(tipWindows), id, now, TipLimiter)
      ensures Refusal(old(commandWindows), id, now, CommandLimiter).None? && commandType != "tip" ==>
        a == Allowed && tipWindows == old(tipWindows)
    {
      a := CheckCommandRateLimit(id, now);
      if a.Denied? {
        return;
      }
      if commandType == "tip" {
        a := CheckTipRateLimit(id, now);
      }
    }

    /** `reset`: forgets both counters of the user and the user's entry for today. */
    method Reset(id: string, today: string)
      requires Valid()
      modifies this
      ensures Valid()
      ensures tipWindows == old(tipWindows) - {id}
      ensures commandWindows == old(commandWindows) - {id}
      ensures dailyTipTracker == old(dailyTipTracker) - {DailyKey(id, today)}
    {
      tipWindows := tipWindows - {id};
      commandWindows := commandWindows - {id};
      dailyTipTracker := dailyTipTracker - {DailyKey(id, today)};
    }
  }
}
