/**
 * The `/ban` command of `commands/ban.js`: the eligibility chain, which a
 * target who is not a member skips after the permission check (the ban then
 * goes by user id), the message-deletion window and the result. The direct
 * message to the target is best effort and not part of this model.
 */
module Ban {
  import opened Wrappers
  import opened Text
  import opened Embeds
  import Moderation

  /** The bounds of the delete_days option. */
  const MaxDeleteDays := 7

  /** `delete_days || 0`. */
  function DeleteDays(option: Option<int>): (r: int)
    ensures option.None? ==> r == 0
    ensures option.Some? ==> r == option.value
  {
    if option.Some? && option.value != 0 then option.value else 0
  }

  /** `deleteDays * 24 * 60 * 60`. */
  function DeleteMessageSeconds(days: int): (r: int)
    ensures r == days * 86400
  {
    days * 24 * 60 * 60
  }

  /** Within the option's range the window is at most a week, and a missing option deletes nothing. */
  lemma DeleteWindow(option: Option<int>)
    requires option.Some? ==> 0 <= option.value <= MaxDeleteDays
    ensures 0 <= DeleteMessageSeconds(DeleteDays(option)) <= 604800
    ensures option.None? ==> DeleteMessageSeconds(DeleteDays(option)) == 0
  {
  }

  const BanColor := 0xED4245

  /** The reply after a successful ban; the thumbnail is left out. */
  function BannedEmbed(targetTag: string, targetId: string, callerTag: string, reason: string, days: int): Embed {
    Embed(Some("\U{1F528} User Banned"), Some("**" + targetTag + "** has been banned from the server"), Some(BanColor),
      [ Field("User ID", targetId, true),
        Field("Banned by", callerTag, true),
        Field("Reason", reason, false),
        Field("Messages Deleted", IntToString(days) + " day(s)", true) ],
      None, true)
  }

  const Wording := Moderation.Wording("ban", "Ban", "Ban Members")

  /** What the command ends in: a refusal, or the ban of the user id with its options and the reply. */
  datatype Outcome =
    | Refused(reply: Embed)
    | Banned(userId: string, auditReason: string, deleteMessageSeconds: int, reply: Embed)

  /**
   * `execute`: the chain without a member required; then the ban by id, or
   * 'Ban Failed' with the message of a `failure` Discord reports.
   */
  function Execute(
    hasPermission: bool, targetId: string, targetTag: string, target: Option<Moderation.TargetMember>,
    ctx: Moderation.Context, callerTag: string, reason: Option<string>, deleteDays: Option<int>, failure: Option<string>)
    : (o: Outcome)
    ensures var check := Moderation.Check(hasPermission, targetId, target, ctx, false);
      && (check.Some? ==> o == Refused(Moderation.RefusalEmbed(check.value, Wording)))
      && (check.None? && failure.Some? ==> o == Refused(ErrorEmbed("Ban Failed", "Failed to ban user: " + failure.value)))
      && (o.Banned? <==> check.None? && failure.None?)
    ensures o.Banned? ==>
      && o.userId == targetId
      && o.auditReason == Moderation.AuditReason(Moderation.Reason(reason), "Banned", callerTag)
      && o.deleteMessageSeconds == DeleteDays(deleteDays) * 86400
      && o.reply == BannedEmbed(targetTag, targetId, callerTag, Moderation.Reason(reason), DeleteDays(deleteDays))
  {
    var text := Moderation.Reason(reason);
    var days := DeleteDays(deleteDays);
    var check := Moderation.Check(hasPermission, targetId, target, ctx, false);
    if check.Some? then Refused(Moderation.RefusalEmbed(check.value, Wording))
    else if failure.Some? then Refused(ErrorEmbed("Ban Failed", "Failed to ban user: " + failure.value))
    else Banned(targetId, Moderation.AuditReason(text, "Banned", callerTag), DeleteMessageSeconds(days),
      BannedEmbed(targetTag, targetId, callerTag, text, days))
  }

  /**
   * A permitted caller can always ban a user who is not a member, whatever
   * the ids and positions; a member target goes through the whole chain.
   */
  lemma NonMemberBypass(targetId: string, targetTag: string, ctx: Moderation.Context, callerTag: string,
                        reason: Option<string>, deleteDays: Option<int>)
    ensures Execute(true, targetId, targetTag, None, ctx, callerTag, reason, deleteDays, None).Banned?
    ensures Execute(true, ctx.callerId, targetTag, None, ctx, callerTag, reason, deleteDays, None).Banned?
  {
  }
}
