/**
 * The `/adminkick` command of `commands/adminkick.js`: the eligibility chain
 * with a member required, and the kick with its audit reason. The direct
 * message to the target is best effort and not part of this model.
 */
module AdminKick {
  import opened Wrappers
  import opened Embeds
  import Moderation

  const KickColor := 0xFFA500

  /** The reply after a successful kick; the thumbnail is left out. */
  function KickedEmbed(targetTag: string, targetId: string, callerTag: string, reason: string): Embed {
    Embed(Some("\U{1F462} User Kicked"), Some("**" + targetTag + "** has been kicked from the server"), Some(KickColor),
      [ Field("User ID", targetId, true),
        Field("Kicked by", callerTag, true),
        Field("Reason", reason, false) ],
      None, true)
  }

  const Wording := Moderation.Wording("kick", "Kick", "Kick Members")

  /** What the command ends in: a refusal, or the kick with its audit reason and the reply. */
  datatype Outcome =
    | Refused(reply: Embed)
    | Kicked(auditReason: string, reply: Embed)

  /**
   * `execute`: the chain with a member required; then the kick, or
   * 'Kick Failed' with the message of a `failure` Discord reports.
   */
  function Execute(
    hasPermission: bool, targetId: string, targetTag: string, target: Option<Moderation.TargetMember>,
    ctx: Moderation.Context, callerTag: string, reason: Option<string>, failure: Option<string>)
    : (o: Outcome)
    ensures var check := Moderation.Check(hasPermission, targetId, target, ctx, true);
      && (check.Some? ==> o == Refused(Moderation.RefusalEmbed(check.value, Wording)))
      && (check.None? && failure.Some? ==> o == Refused(ErrorEmbed("Kick Failed", "Failed to kick user: " + failure.value)))
      && (o.Kicked? <==> check.None? && failure.None?)
    ensures o.Kicked? ==>
      && o.auditReason == Moderation.AuditReason(Moderation.Reason(reason), "Kicked", callerTag)
      && o.reply == KickedEmbed(targetTag, targetId, callerTag, Moderation.Reason(reason))
  {
    var text := Moderation.Reason(reason);
    var check := Moderation.Check(hasPermission, targetId, target, ctx, true);
    if check.Some? then Refused(Moderation.RefusalEmbed(check.value, Wording))
    else if failure.Some? then Refused(ErrorEmbed("Kick Failed", "Failed to kick user: " + failure.value))
    else Kicked(Moderation.AuditReason(text, "Kicked", callerTag), KickedEmbed(targetTag, targetId, callerTag, text))
  }

  /** A target who is not a member is refused with 'User Not Found' once the permission check passes. */
  lemma NonMemberNotFound(targetId: string, targetTag: string, ctx: Moderation.Context, callerTag: string,
                          reason: Option<string>, failure: Option<string>)
    ensures Execute(true, targetId, targetTag, None, ctx, callerTag, reason, failure)
         == Refused(ErrorEmbed("User Not Found", "This user is not in the server!"))
  {
  }
}
