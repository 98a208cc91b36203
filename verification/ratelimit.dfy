/** The per-user limiter as the handler sees it. Its bucket algorithm lives
    in an external library; the model keeps only the configuration the
    handler gives it and the outcome of one `consume` call, which the
    dispatcher receives as an input. */
module RateLimit {
  import opened Wrappers
  import Decimal
  import Constants

  /** `points` permits per `durationSeconds` window, per key. */
  datatype LimiterConfig = LimiterConfig(points: nat, durationSeconds: nat)

  /** The limiter the handler builds: one request per `requestDelayMinutes`. */
  function LimiterFor(requestDelayMinutes: nat): LimiterConfig {
    LimiterConfig(1, requestDelayMinutes * 60)
  }

  /** The answer of `limiter.consume(userId)`: the permit was granted, or the
      call rejected with the key's consumed points and the milliseconds until
      the next permit. */
  datatype ConsumeOutcome = Granted | Rejected(consumedPoints: int, msBeforeNext: int)

  /** A rejection reports a wait that is positive and no longer than the
      window; this is what the library promises, not something the handler
      checks. */
  predicate RejectionWithin(c: LimiterConfig, o: ConsumeOutcome) {
    o.Rejected? ==> 0 < o.msBeforeNext <= c.durationSeconds * 1000
  }

  /** `Math.round(ms / 1000)`: the nearest whole second, halves rounded up. */
  function RoundSeconds(ms: int): (s: int)
    ensures s * 1000 - 500 <= ms < s * 1000 + 500
  {
    (ms + 500) / 1000
  }

  /** Only one integer is within half a second of `ms` in that sense, so the
      contract of `RoundSeconds` pins it down. */
  lemma RoundSecondsUnique(ms: int, s: int)
    requires s * 1000 - 500 <= ms < s * 1000 + 500
    ensures s == RoundSeconds(ms)
  {
  }

  /** Whether a rejected user is told how long to wait. */
  predicate NotifiesRejection(consumedPoints: int, notifyLimit: bool) {
    consumedPoints < Constants.LimitRetryInfo && notifyLimit
  }

  const NoticePrefix: string := "You need to wait "
  const NoticeSuffix: string := " seconds before sending another message."

  /** The cooldown notice sent to a rejected user. */
  function CooldownNotice(seconds: int): string {
    NoticePrefix + Decimal.IntToDecimal(seconds) + NoticeSuffix
  }

  /** The notice is the fixed prefix, a numeral that reads back as
      `seconds`, and the fixed suffix. */
  lemma CooldownNoticeStatesSeconds(seconds: int)
    ensures var t := CooldownNotice(seconds);
      && |t| > |NoticePrefix| + |NoticeSuffix|
      && t[..|NoticePrefix|] == NoticePrefix
      && t[|t| - |NoticeSuffix|..] == NoticeSuffix
      && Decimal.ParseInt(t[|NoticePrefix|..|t| - |NoticeSuffix|]) == Some(seconds)
  {
    var t := CooldownNotice(seconds);
    var d := Decimal.IntToDecimal(seconds);
    assert t[|NoticePrefix|..|t| - |NoticeSuffix|] == d;
    Decimal.IntToDecimalRoundTrip(seconds);
  }

  /** Different waits give different notices. */
  lemma CooldownNoticeInjective(a: int, b: int)
    requires CooldownNotice(a) == CooldownNotice(b)
    ensures a == b
  {
    CooldownNoticeStatesSeconds(a);
    CooldownNoticeStatesSeconds(b);
  }

  /** When the limiter keeps its promise, the announced wait is between zero
      and the configured window, in seconds. */
  lemma NoticeWithinWindow(c: LimiterConfig, o: ConsumeOutcome)
    requires o.Rejected? && RejectionWithin(c, o)
    ensures 0 <= RoundSeconds(o.msBeforeNext) <= c.durationSeconds
  {
  }
}
