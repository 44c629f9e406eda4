/**
 * The `/timeout` command of `commands/timeout.js`: the eligibility chain, the
 * minutes-to-milliseconds conversion, the duration text and the result. The
 * direct message to the target is best effort and not part of this model.
 */
module Timeout {
  import opened Wrappers
  import opened Text
  import opened Embeds
  import Formatters
  import Moderation

  /** The bounds of the duration option, in minutes: one minute to 28 days. */
  const MinMinutes := 1
  const MaxMinutes := 40320

  const MinuteMs := 60000

  /** `duration * 60 * 1000`. */
  function DurationMs(minutes: int): (r: int)
    ensures r / MinuteMs == minutes && r % MinuteMs == 0
  {
    minutes * 60 * 1000
  }

  /** The longest timeout is exactly 28 days in milliseconds. */
  lemma DurationBounds(minutes: int)
    requires MinMinutes <= minutes <= MaxMinutes
    ensures MinuteMs <= DurationMs(minutes) <= 28 * 24 * 60 * MinuteMs
    ensures DurationMs(MaxMinutes) == 28 * 86400000
  {
  }

  /** `formatDuration(minutes)`: minutes below an hour, whole hours below a day, else whole days. */
  function FormatDuration(minutes: int): string {
    if minutes < 60 then IntToString(minutes) + " minute(s)"
    else if minutes < 1440 then IntToString(minutes / 60) + " hour(s)"
    else IntToString(minutes / 1440) + " day(s)"
  }

  /**
   * The unit and count `formatDuration` shows: the largest unit that fits,
   * rounded down, so the text never overstates the timeout and is short of it
   * by less than one unit.
   */
  lemma FormatDurationRoundsDown(minutes: int)
    requires minutes >= 0
    ensures var unit := if minutes < 60 then 1 else if minutes < 1440 then 60 else 1440;
      var n := minutes / unit;
      && FormatDuration(minutes) == IntToString(n) + (if unit == 1 then " minute(s)" else if unit == 60 then " hour(s)" else " day(s)")
      && n >= 0 && n * unit <= minutes < (n + 1) * unit
      && (unit == 60 ==> 1 <= n <= 23)
      && (unit == 1440 ==> n >= 1)
  {
  }

  const TimeoutColor := 0xFFA500

  /** The reply after a successful timeout; the thumbnail is left out. */
  function TimedOutEmbed(targetTag: string, targetId: string, minutes: int, callerTag: string, reason: string, untilMs: int): Embed {
    Embed(Some("\U{23F1}\U{FE0F} User Timed Out"), Some("**" + targetTag + "** has been timed out"), Some(TimeoutColor),
      [ Field("User ID", targetId, true),
        Field("Duration", FormatDuration(minutes), true),
        Field("Timed out by", callerTag, true),
        Field("Reason", reason, false),
        Field("Timeout ends", Formatters.FormatRelativeTime(untilMs), false) ],
      None, true)
  }

  const Wording := Moderation.Wording("timeout", "Timeout", "Moderate Members")

  /** What the command ends in: a refusal, or the timeout applied with its audit reason and the reply. */
  datatype Outcome =
    | Refused(reply: Embed)
    | TimedOut(durationMs: int, auditReason: string, reply: Embed)

  /**
   * `execute`: the chain with a member required; then the timeout of
   * `minutes` minutes from `now`, or 'Timeout Failed' with the message of a
   * `failure` Discord reports.
   */
  function Execute(
    hasPermission: bool, targetId: string, targetTag: string, target: Option<Moderation.TargetMember>,
    ctx: Moderation.Context, callerTag: string, minutes: int, reason: Option<string>, now: int, failure: Option<string>)
    : (o: Outcome)
    ensures var check := Moderation.Check(hasPermission, targetId, target, ctx, true);
      && (check.Some? ==> o == Refused(Moderation.RefusalEmbed(check.value, Wording)))
      && (check.None? && failure.Some? ==> o == Refused(ErrorEmbed("Timeout Failed", "Failed to timeout user: " + failure.value)))
      && (o.TimedOut? <==> check.None? && failure.None?)
    ensures o.TimedOut? ==>
      && o.durationMs == minutes * MinuteMs
      && o.auditReason == Moderation.AuditReason(Moderation.Reason(reason), "Timed out", callerTag)
      && o.reply == TimedOutEmbed(targetTag, targetId, minutes, callerTag, Moderation.Reason(reason), now + minutes * MinuteMs)
  {
    var check := Moderation.Check(hasPermission, targetId, target, ctx, true);
    if check.Some? then Refused(Moderation.RefusalEmbed(check.value, Wording))
    else
      var text := Moderation.Reason(reason);
      var ms := DurationMs(minutes);
      if failure.Some? then Refused(ErrorEmbed("Timeout Failed", "Failed to timeout user: " + failure.value))
      else TimedOut(ms, Moderation.AuditReason(text, "Timed out", callerTag), TimedOutEmbed(targetTag, targetId, minutes, callerTag, text, now + ms))
  }
}
