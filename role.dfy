/**
 * The `/role` command of `commands/role.js`: the position checks of the role
 * against the caller's and the bot's highest roles, the already-has check,
 * and the role added to the member.
 */
module Role {
  import opened Wrappers
  import opened Embeds

  /** A role as the checks see it. */
  datatype RoleInfo = RoleInfo(id: string, name: string, position: int)

  /** The reasons `/role` and `/unrole` refuse, in the order they are checked. */
  datatype Refusal = UserNotFound | CallerTooLow | BotTooLow | Unchanged

  /**
   * The chain: the member must exist; the role must lie strictly below the
   * caller's highest role, then strictly below the bot's; and the member must
   * not already have it (`adding`) or must have it (removing).
   */
  function Check(memberFound: bool, hasRole: bool, role: RoleInfo, callerPosition: int, botPosition: int, adding: bool)
    : (r: Option<Refusal>)
    ensures r.None? <==> memberFound && role.position < callerPosition && role.position < botPosition && hasRole != adding
    ensures r == Some(UserNotFound) <==> !memberFound
    ensures r == Some(CallerTooLow) <==> memberFound && role.position >= callerPosition
    ensures r == Some(BotTooLow) <==> memberFound && role.position < callerPosition && role.position >= botPosition
  {
    if !memberFound then Some(UserNotFound)
    else if role.position >= callerPosition then Some(CallerTooLow)
    else if role.position >= botPosition then Some(BotTooLow)
    else if hasRole == adding then Some(Unchanged)
    else None
  }

  /** A guild member: the ids of the roles it holds. */
  class GuildMember {
    var roles: set<string>

    constructor (roles: set<string>)
      ensures this.roles == roles
    {
      this.roles := roles;
    }
  }

  function NotFound(): Embed {
    ErrorEmbed("User Not Found", "This user is not in the server!")
  }

  function Refused(r: Refusal, targetTag: string, role: RoleInfo): Embed {
    match r
    case UserNotFound => NotFound()
    case CallerTooLow => ErrorEmbed("Permission Denied", "You cannot assign a role equal or higher than your highest role!")
    case BotTooLow => ErrorEmbed("Bot Permission Denied", "I cannot assign this role because it is higher than my highest role!")
    case Unchanged => ErrorEmbed("Already Has Role", targetTag + " already has the role **" + role.name + "**")
  }

  function Added(targetTag: string, role: RoleInfo): Embed {
    SuccessEmbed("Role Added", "\U{2705} Added **" + role.name + "** to **" + targetTag + "**")
  }

  /**
   * `execute`: a missing member (null) is refused; otherwise the chain decides,
   * and when it passes the member gains exactly that role, unless Discord
   * reports a `failure`, which leaves the roles as they were.
   */
  method Execute(member: GuildMember?, targetTag: string, role: RoleInfo, callerPosition: int, botPosition: int, failure: Option<string>)
    returns (reply: Embed)
    modifies member
    ensures member == null ==> reply == NotFound()
    ensures member != null ==>
      var check := Check(true, role.id in old(member.roles), role, callerPosition, botPosition, true);
      && (check.Some? ==> reply == Refused(check.value, targetTag, role) && member.roles == old(member.roles))
      && (check.None? && failure.Some? ==>
            reply == ErrorEmbed("Action Failed", "Failed to add role: " + failure.value) && member.roles == old(member.roles))
      && (check.None? && failure.None? ==> reply == Added(targetTag, role) && member.roles == old(member.roles) + {role.id})
  {
    if member == null {
      return NotFound();
    }
    var check := Check(true, role.id in member.roles, role, callerPosition, botPosition, true);
    if check.Some? {
      return Refused(check.value, targetTag, role);
    }
    if failure.Some? {
      return ErrorEmbed("Action Failed", "Failed to add role: " + failure.value);
    }
    member.roles := member.roles + {role.id};
    reply := Added(targetTag, role);
  }

  /** Adding is refused exactly when the member already holds the role (once the position checks pass). */
  lemma AlreadyHasRefused(role: RoleInfo, callerPosition: int, botPosition: int, hasRole: bool)
    requires role.position < callerPosition && role.position < botPosition
    ensures Check(true, hasRole, role, callerPosition, botPosition, true) == (if hasRole then Some(Unchanged) else None)
  {
  }
}
