/**
 * The `/unrole` command of `commands/unrole.js`: the same position checks as
 * `/role`, then the does-not-have check, and the role removed from the member.
 */
module Unrole {
  import opened Wrappers
  import opened Embeds
  import opened Role

  function Refused(r: Refusal, targetTag: string, role: RoleInfo): Embed {
    match r
    case UserNotFound => NotFound()
    case CallerTooLow => ErrorEmbed("Permission Denied", "You cannot remove a role equal or higher than your highest role!")
    case BotTooLow => ErrorEmbed("Bot Permission Denied", "I cannot remove this role because it is higher than my highest role!")
    case Unchanged => ErrorEmbed("Does Not Have Role", targetTag + " does not have the role **" + role.name + "**")
  }

  function Removed(targetTag: string, role: RoleInfo): Embed {
    SuccessEmbed("Role Removed", "\U{274C} Removed **" + role.name + "** from **" + targetTag + "**")
  }

  /**
   * `execute`: a missing member is refused; otherwise the chain decides, and
   * when it passes the member loses exactly that role, unless Discord reports
   * a `failure`.
   */
  method Execute(member: GuildMember?, targetTag: string, role: RoleInfo, callerPosition: int, botPosition: int, failure: Option<string>)
    returns (reply: Embed)
    modifies member
    ensures member == null ==> reply == NotFound()
    ensures member != null ==>
      var check := Check(true, role.id in old(member.roles), role, callerPosition, botPosition, false);
      && (check.Some? ==> reply == Refused(check.value, targetTag, role) && member.roles == old(member.roles))
      && (check.None? && failure.Some? ==>
            reply == ErrorEmbed("Action Failed", "Failed to remove role: " + failure.value) && member.roles == old(member.roles))
      && (check.None? && failure.None? ==> reply == Removed(targetTag, role) && member.roles == old(member.roles) - {role.id})
  {
    if member == null {
      return NotFound();
    }
    var check := Check(true, role.id in member.roles, role, callerPosition, botPosition, false);
    if check.Some? {
      return Refused(check.value, targetTag, role);
    }
    if failure.Some? {
      return ErrorEmbed("Action Failed", "Failed to remove role: " + failure.value);
    }
    member.roles := member.roles - {role.id};
    reply := Removed(targetTag, role);
  }

  /** The two commands never both pass for the same member and role: exactly one of them is refused as a no-op. */
  lemma ExactlyOneApplies(hasRole: bool, role: RoleInfo, callerPosition: int, botPosition: int)
    requires role.position < callerPosition && role.position < botPosition
    ensures Check(true, hasRole, role, callerPosition, botPosition, true).None?
        != Check(true, hasRole, role, callerPosition, botPosition, false).None?
  {
  }
}
