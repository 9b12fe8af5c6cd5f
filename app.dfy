/** `CryptoTipBot` of `src/index.js`: every command handler runs behind the
    general rate limit unless the bot is shutting down, and a plain message
    that reads like a tip is rewritten into a `/tip` command and handled as
    one. The clock is an input; the handlers themselves are modelled in their
    own modules, and here only whether one is started. */
module TelegramApp {
  import opened Wrappers
  import opened Text
  import RateLimiting
  import NaturalLanguage
  import Formatter

  /** What `handleWithRateLimit` does with a message. */
  datatype Dispatch =
      /** The bot is shutting down: nothing is done and nothing is sent. */
    | Ignored
      /** The limiter refused: its error is sent as the reply. */
    | Limited(error: string)
      /** The handler is started. */
    | Dispatched

  /** The decision of `handleWithRateLimit` for the shutdown flag and the
      middleware's answer (which is only asked for when the flag is not set). */
  function Gate(shuttingDown: bool, admission: RateLimiting.Admission): (d: Dispatch)
    ensures shuttingDown ==> d == Ignored
    ensures !shuttingDown ==> (d == Dispatched <==> admission.Allowed?)
    ensures d.Limited? ==> admission.Denied? && d.error == admission.error
  {
    if shuttingDown then Ignored
    else match admission
      case Allowed => Dispatched
      case Denied(error, _) => Limited(error)
  }

  /** The general limit a handler runs behind: the command counter alone, since
      the middleware is asked with its default command type. */
  function GeneralAdmission(commandWindows: map<string, RateLimiting.Window>, id: string, now: int): RateLimiting.Admission {
    RateLimiting.Admit(RateLimiting.Refusal(commandWindows, id, now, RateLimiting.CommandLimiter), RateLimiting.CommandLimited)
  }

  /** Only a refusal of the command counter keeps a handler from running, and its
      reply is the command limiter's message. */
  lemma GeneralGate(commandWindows: map<string, RateLimiting.Window>, id: string, now: int)
    ensures var d := Gate(false, GeneralAdmission(commandWindows, id, now));
      && (d == Dispatched <==> RateLimiting.Refusal(commandWindows, id, now, RateLimiting.CommandLimiter).None?)
      && (d.Limited? ==> d.error == RateLimiting.CommandLimited)
      && d != Ignored
  {
  }

  const CrashText: string := "Something went wrong. Please try again."

  /** The reply `handleWithRateLimit` itself sends: the limiter's error when it
      refused, the generic apology when the started handler threw, and nothing
      otherwise (the handler sends its own replies). */
  function GateReply(d: Dispatch, handlerThrew: bool): (r: Option<string>)
    ensures d.Ignored? ==> r.None?
    ensures d.Limited? ==> r == Some(d.error)
    ensures d.Dispatched? ==> (r.Some? <==> handlerThrew)
    ensures d.Dispatched? && handlerThrew ==> r.value == "❌ " + CrashText
  {
    match d
    case Ignored => None
    case Limited(error) => Some(error)
    case Dispatched => if handlerThrew then Some(Formatter.FormatError(Formatter.JsString(CrashText))) else None
  }

  /** The `message` listener: a message without text, or one starting with '/',
      is left to the command handlers; any other is rewritten when one of the
      natural-language patterns matches. */
  function Reroute(text: Option<string>): (r: Option<string>)
    ensures r.Some? ==> text.Some? && !StartsWith(text.value, "/")
    ensures text.Some? && !StartsWith(text.value, "/") ==> r == NaturalLanguage.NaturalLanguageTip(text.value)
  {
    match text
    case None => None
    case Some(t) => if StartsWith(t, "/") then None else NaturalLanguage.NaturalLanguageTip(t)
  }

  /** A rewritten message is a command, so the listener never rewrites it again. */
  lemma RerouteOnce(text: Option<string>)
    requires Reroute(text).Some?
    ensures StartsWith(Reroute(text).value, "/") && Reroute(Reroute(text)).None?
  {
    var t := text.value;
    var r := Reroute(text).value;
    assert r == NaturalLanguage.Rewrite(NaturalLanguage.FirstHit(NaturalLanguage.Attempts(t)).value.captures);
    NaturalLanguage.RewriteIsCommand(NaturalLanguage.FirstHit(NaturalLanguage.Attempts(t)).value.captures);
    CommandLeftAlone(r);
  }

  /** A command is left to the command handlers. */
  lemma CommandLeftAlone(s: string)
    requires StartsWith(s, "/")
    ensures Reroute(Some(s)).None?
  {
  }

  /** The check of the `message` listener, then `parseNaturalLanguage`. */
  method Rewritten(text: Option<string>) returns (tip: Option<string>)
    ensures tip == Reroute(text)
  {
    if text.None? || StartsWith(text.value, "/") {
      return None;
    }
    tip := NaturalLanguage.ParseNaturalLanguage(text.value);
  }

  class CryptoTipBot {
    var isShuttingDown: bool
    const limiter: RateLimiting.RateLimiter

    constructor(limiter: RateLimiting.RateLimiter)
      ensures !isShuttingDown && this.limiter == limiter
    {
      isShuttingDown := false;
      this.limiter := limiter;
    }

    /** `gracefulShutdown`: sets the flag; stopping the polling, the other
        servers and the database is not modelled. */
    method GracefulShutdown()
      modifies this
      ensures isShuttingDown
    {
      isShuttingDown := true;
    }

    /** `handleWithRateLimit` for a message from `id` at time `now`. */
    method HandleWithRateLimit(id: string, now: int) returns (d: Dispatch)
      modifies limiter
      ensures d == Gate(isShuttingDown, GeneralAdmission(old(limiter.commandWindows), id, now))
      ensures isShuttingDown ==> unchanged(limiter)
      ensures !isShuttingDown ==>
        && limiter.commandWindows == RateLimiting.AfterConsume(old(limiter.commandWindows), id, now, RateLimiting.CommandLimiter)
        && limiter.tipWindows == old(limiter.tipWindows) && limiter.dailyTipTracker == old(limiter.dailyTipTracker)
    {
      if isShuttingDown {
        return Ignored;
      }
      var admission := limiter.Middleware(id, "general", now);
      if admission.Denied? {
        return Limited(admission.error);
      }
      d := Dispatched;
    }

    /** The `message` listener: the rewrite, when there is one, and what the rate
        limited `handleTip` call on it does. */
    method OnMessage(text: Option<string>, id: string, now: int) returns (tip: Option<string>, d: Dispatch)
      modifies limiter
      ensures tip == Reroute(text)
      ensures tip.None? ==> d == Ignored && unchanged(limiter)
      ensures tip.Some? ==> d == Gate(isShuttingDown, GeneralAdmission(old(limiter.commandWindows), id, now))
      ensures tip.Some? && !isShuttingDown ==>
        limiter.commandWindows == RateLimiting.AfterConsume(old(limiter.commandWindows), id, now, RateLimiting.CommandLimiter)
      ensures limiter.tipWindows == old(limiter.tipWindows) && limiter.dailyTipTracker == old(limiter.dailyTipTracker)
    {
      tip := Rewritten(text);
      d := DispatchRewrite(tip, id, now);
    }

    /** What happens to the rewrite: nothing when there is none, the rate
        limited dispatch when there is one. */
    method DispatchRewrite(tip: Option<string>, id: string, now: int) returns (d: Dispatch)
      modifies limiter
      ensures tip.None? ==> d == Ignored && unchanged(limiter)
      ensures tip.Some? ==> d == Gate(isShuttingDown, GeneralAdmission(old(limiter.commandWindows), id, now))
      ensures tip.Some? && !isShuttingDown ==>
        limiter.commandWindows == RateLimiting.AfterConsume(old(limiter.commandWindows), id, now, RateLimiting.CommandLimiter)
      ensures limiter.tipWindows == old(limiter.tipWindows) && limiter.dailyTipTracker == old(limiter.dailyTipTracker)
    {
      d := Ignored;
      if tip.Some? {
        d := HandleWithRateLimit(id, now);
      }
    }
  }

  /** Once the flag is set, no message is handled: every call is ignored and
      the limiter is not consulted. */
  method ShutdownIsFinal(bot: CryptoTipBot, id: string, now: int) returns (d: Dispatch)
    modifies bot, bot.limiter
    ensures d == Ignored && unchanged(bot.limiter)
  {
    bot.GracefulShutdown();
    d := bot.HandleWithRateLimit(id, now);
  }
}
