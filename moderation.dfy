/**
 * The eligibility chain shared by `commands/timeout.js`, `commands/ban.js`
 * and `commands/adminkick.js`. Each command checks, in this order: the
 * caller's Discord permission; that the target is a member of the server;
 * that the target is not the caller and not the server owner; that the
 * target's highest role is strictly below the caller's and the bot's; and
 * that Discord reports the target as actionable (moderatable, bannable or
 * kickable). Role positions are integers, higher meaning more senior.
 */
module Moderation {
  import opened Wrappers
  import opened Embeds

  /** What the checks read about a target who is a member. */
  datatype TargetMember = TargetMember(highestPosition: int, actionable: bool)

  /** The caller, the bot and the guild as the checks see them. */
  datatype Context = Context(callerId: string, callerPosition: int, botPosition: int, ownerId: string)

  /** The reasons a command refuses, in the order they are checked. */
  datatype Refusal = NoPermission | NotMember | SelfTarget | OwnerTarget | CallerOutranked | BotOutranked | NotActionable

  /** Every check on a member target passes. */
  predicate MemberChecksPass(targetId: string, t: TargetMember, ctx: Context) {
    && targetId != ctx.callerId && targetId != ctx.ownerId
    && t.highestPosition < ctx.callerPosition && t.highestPosition < ctx.botPosition
    && t.actionable
  }

  /**
   * The chain: none when every check passes, else the first failing one.
   * With `memberRequired` false (ban), a target who is not a member skips
   * every check after the permission.
   */
  function Check(hasPermission: bool, targetId: string, target: Option<TargetMember>, ctx: Context, memberRequired: bool)
    : (r: Option<Refusal>)
    ensures r.None? <==> hasPermission && (if target.Some? then MemberChecksPass(targetId, target.value, ctx) else !memberRequired)
    ensures r == Some(NoPermission) <==> !hasPermission
    ensures r == Some(NotMember) <==> hasPermission && target.None? && memberRequired
    ensures r == Some(SelfTarget) <==> hasPermission && target.Some? && targetId == ctx.callerId
    ensures r == Some(OwnerTarget) <==> hasPermission && target.Some? && targetId != ctx.callerId && targetId == ctx.ownerId
    ensures r == Some(CallerOutranked) <==>
      (hasPermission && target.Some? && targetId != ctx.callerId && targetId != ctx.ownerId
       && target.value.highestPosition >= ctx.callerPosition)
    ensures r == Some(BotOutranked) <==>
      (hasPermission && target.Some? && targetId != ctx.callerId && targetId != ctx.ownerId
       && target.value.highestPosition < ctx.callerPosition && target.value.highestPosition >= ctx.botPosition)
  {
    if !hasPermission then Some(NoPermission)
    else if target.None? then (if memberRequired then Some(NotMember) else None)
    else
      var t := target.value;
      if targetId == ctx.callerId then Some(SelfTarget)
      else if targetId == ctx.ownerId then Some(OwnerTarget)
      else if t.highestPosition >= ctx.callerPosition then Some(CallerOutranked)
      else if t.highestPosition >= ctx.botPosition then Some(BotOutranked)
      else if !t.actionable then Some(NotActionable)
      else None
  }

  /** A caller who outranks more, over a bot that outranks more, is never refused where a lower one was allowed. */
  lemma CheckMonotone(hasPermission: bool, targetId: string, target: Option<TargetMember>, ctx: Context, memberRequired: bool,
                      callerPosition: int, botPosition: int)
    requires Check(hasPermission, targetId, target, ctx, memberRequired).None?
    requires callerPosition >= ctx.callerPosition && botPosition >= ctx.botPosition
    ensures Check(hasPermission, targetId, target, ctx.(callerPosition := callerPosition, botPosition := botPosition), memberRequired).None?
  {
  }

  /** A target whose highest role ties the caller's is refused, when the earlier checks pass. */
  lemma TieRefused(targetId: string, t: TargetMember, ctx: Context, memberRequired: bool)
    requires targetId != ctx.callerId && targetId != ctx.ownerId
    requires t.highestPosition == ctx.callerPosition
    ensures Check(true, targetId, Some(t), ctx, memberRequired) == Some(CallerOutranked)
  {
  }

  /** The texts of one command: its verb ('timeout'), the verb capitalised, and the Discord permission it needs. */
  datatype Wording = Wording(verb: string, title: string, permission: string)

  /** The refusal replies, as each command words them. */
  function RefusalEmbed(r: Refusal, w: Wording): Embed {
    match r
    case NoPermission => ErrorEmbed("Permission Denied", "You need " + w.permission + " permission to use this command.")
    case NotMember => ErrorEmbed("User Not Found", "This user is not in the server!")
    case SelfTarget => ErrorEmbed("Invalid Target", "You cannot " + w.verb + " yourself!")
    case OwnerTarget => ErrorEmbed("Invalid Target", "You cannot " + w.verb + " the server owner!")
    case CallerOutranked => ErrorEmbed("Permission Denied", "You cannot " + w.verb + " someone with an equal or higher role!")
    case BotOutranked => ErrorEmbed("Bot Permission Error", "I cannot " + w.verb + " this user as their role is higher than mine!")
    case NotActionable => ErrorEmbed("Cannot " + w.title, "I do not have permission to " + w.verb + " this user!")
  }

  /** `reason || 'No reason provided'`. */
  function Reason(reason: Option<string>): (r: string)
    ensures r != ""
    ensures Truthy(reason) ==> r == reason.value
  {
    OrDefault(reason, "No reason provided")
  }

  /** The audit-log reason, `<reason> | <action> by <tag>`. */
  function AuditReason(reason: string, action: string, callerTag: string): string {
    reason + " | " + action + " by " + callerTag
  }
}
