/**
 * Permission checks of `utils/permissions.js`. The interaction is narrowed to
 * what the checks read: the caller's user id, whether it holds Administrator,
 * and the ids of the roles it has. The bot owner's id comes from the process
 * environment and may be unset.
 */
module Permissions {
  import opened Wrappers
  import opened GuildData

  /** The calling member, as the checks see it. */
  datatype Member = Member(userId: string, administrator: bool, roleIds: set<string>)

  /** `isOwner(userId)`: equal to the configured owner id; nobody is owner when it is unset. */
  predicate IsOwner(userId: string, ownerId: Option<string>) {
    ownerId.Some? && userId == ownerId.value
  }

  /** `isAdmin(interaction)`. */
  predicate IsAdmin(m: Member) {
    m.administrator
  }

  /** The guild has a (truthy) role id under `key` and the member has that role. */
  predicate HoldsConfiguredRole(m: Member, roles: map<string, string>, key: string) {
    Configured(roles, key) && roles[key] in m.roleIds
  }

  /** `isManager(interaction)`. */
  predicate IsManager(m: Member, roles: map<string, string>) {
    HoldsConfiguredRole(m, roles, "manager")
  }

  /** `isStaff(interaction)`. */
  predicate IsStaff(m: Member, roles: map<string, string>) {
    HoldsConfiguredRole(m, roles, "staff")
  }

  /** `hasManagerPerms(interaction)`: owner, administrator or manager. */
  predicate HasManagerPerms(m: Member, ownerId: Option<string>, roles: map<string, string>) {
    IsOwner(m.userId, ownerId) || IsAdmin(m) || IsManager(m, roles)
  }

  /** `hasStaffPerms(interaction)`: manager permissions or the staff role. */
  predicate HasStaffPerms(m: Member, ownerId: Option<string>, roles: map<string, string>) {
    HasManagerPerms(m, ownerId, roles) || IsStaff(m, roles)
  }

  /** `checkPremium(guildId)`: a premium guild whose expiry is unset or strictly later than `now`. */
  predicate CheckPremium(guild: Option<Guild>, now: int) {
    guild.Some? && guild.value.premium
    && (guild.value.premiumExpiresAt.None? || guild.value.premiumExpiresAt.value > now)
  }

  /** `requireSetup(interaction)`: the guild exists and its setup is completed. */
  predicate RequireSetup(guild: Option<Guild>) {
    guild.Some? && guild.value.setupCompleted
  }

  /** Staff permissions include manager permissions. */
  lemma ManagerPermsImplyStaffPerms(m: Member, ownerId: Option<string>, roles: map<string, string>)
    requires HasManagerPerms(m, ownerId, roles)
    ensures HasStaffPerms(m, ownerId, roles)
  {
  }

  /** The staff role alone gives staff permissions and not manager permissions. */
  lemma StaffRoleAloneIsStaffOnly(m: Member, ownerId: Option<string>, roles: map<string, string>)
    requires !IsOwner(m.userId, ownerId) && !m.administrator
    requires Configured(roles, "staff") && roles["staff"] in m.roleIds
    requires !Configured(roles, "manager") || roles["manager"] !in m.roleIds
    ensures HasStaffPerms(m, ownerId, roles)
    ensures !HasManagerPerms(m, ownerId, roles)
  {
  }

  /**
   * With no manager and no staff role configured, the roles a member holds
   * grant nothing: both permission levels reduce to owner or administrator.
   */
  lemma UnconfiguredRolesGrantNothing(m: Member, ownerId: Option<string>, roles: map<string, string>)
    requires !Configured(roles, "manager") && !Configured(roles, "staff")
    ensures HasManagerPerms(m, ownerId, roles) <==> IsOwner(m.userId, ownerId) || m.administrator
    ensures HasStaffPerms(m, ownerId, roles) <==> IsOwner(m.userId, ownerId) || m.administrator
  {
  }

  /** An unset owner id makes nobody the owner, whatever the user id. */
  lemma NoOwnerWhenUnset(userId: string)
    ensures !IsOwner(userId, None)
  {
  }

  /** Premium that holds at some instant held at every earlier instant. */
  lemma CheckPremiumEarlier(guild: Option<Guild>, earlier: int, later: int)
    requires earlier <= later && CheckPremium(guild, later)
    ensures CheckPremium(guild, earlier)
  {
  }

  /** Lifetime premium (no expiry) never lapses. */
  lemma LifetimePremiumNeverLapses(guild: Guild, now: int)
    requires guild.premium && guild.premiumExpiresAt.None?
    ensures CheckPremium(Some(guild), now)
  {
  }

  /** Completing the setup of an existing guild makes `requireSetup` pass; no record never passes. */
  lemma SetupCompletionPasses(guilds: map<string, Guild>, id: string)
    requires id in guilds
    ensures RequireSetup(GetGuild(guilds[id := guilds[id].(setupCompleted := true)], id))
    ensures !RequireSetup(GetGuild(guilds - {id}, id))
  {
  }
}
