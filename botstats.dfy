/**
 * The owner-only `/botstats` command of `commands/botstats.js`. The counts come
 * from the store's `getBotStats` and are a parameter, as are the process
 * uptime in whole seconds, the memory figure already rendered, and the
 * configured primary colour.
 */
module BotStats {
  import opened Wrappers
  import opened Text
  import opened Embeds
  import Permissions
  import Formatters

  /** What `getBotStats` returns. */
  datatype Stats = Stats(totalGuilds: int, premiumGuilds: int, totalUsers: int, totalCommandsUsed: int)

  datatype Reply = Refused(embed: Embed) | Shown(embed: Embed)

  /** The statistics embed. */
  function StatsEmbed(stats: Stats, uptimeSeconds: nat, memory: string, primaryColor: int): Embed {
    Embed(Some("\U{1F4CA} Bot Statistics"), None, Some(primaryColor),
      [ Field("Total Guilds", IntToString(stats.totalGuilds), true),
        Field("Premium Guilds", IntToString(stats.premiumGuilds), true),
        Field("Total Users", IntToString(stats.totalUsers), true),
        Field("Total Commands Used", IntToString(stats.totalCommandsUsed), true),
        Field("Uptime", Formatters.FormatUptime(uptimeSeconds), true),
        Field("Memory Usage", memory + " MB", true) ],
      None, true)
  }

  /** `/botstats` run by `callerId`: refused unless the caller is the owner. */
  function Execute(callerId: string, ownerId: Option<string>, stats: Stats, uptimeSeconds: nat, memory: string, primaryColor: int): (r: Reply)
    ensures r.Refused? <==> !Permissions.IsOwner(callerId, ownerId)
    ensures r.Refused? ==> r.embed == ErrorEmbed("Permission Denied", "This command is owner-only.")
    ensures r.Shown? ==> r.embed == StatsEmbed(stats, uptimeSeconds, memory, primaryColor)
  {
    if !Permissions.IsOwner(callerId, ownerId) then Refused(ErrorEmbed("Permission Denied", "This command is owner-only."))
    else Shown(StatsEmbed(stats, uptimeSeconds, memory, primaryColor))
  }

  /**
   * The uptime field reads 'Xd Yh Zm' with X the whole days, Y the whole hours
   * left over (0..23) and Z the whole minutes left over after those (0..59).
   */
  lemma UptimeField(stats: Stats, uptimeSeconds: nat, memory: string, primaryColor: int)
    ensures var d, h, m := uptimeSeconds / 86400, (uptimeSeconds % 86400) / 3600, (uptimeSeconds % 3600) / 60;
      && h < 24 && m < 60
      && StatsEmbed(stats, uptimeSeconds, memory, primaryColor).fields[4] == Field("Uptime", Formatters.UptimeText(d, h, m), true)
  {
    var r := Formatters.FormatUptime(uptimeSeconds);
    var d: nat, h: nat, m: nat :| h < 24 && m < 60
      && d * 86400 + h * 3600 + m * 60 <= uptimeSeconds < d * 86400 + h * 3600 + m * 60 + 60
      && r == Formatters.UptimeText(d, h, m);
    Formatters.UptimeSplitUnique(uptimeSeconds, d, h, m);
  }
}
