/**
 * The guild configuration record and the store operations the handlers call
 * on it. Only `createGuild` is defined in `database.js` (an upsert that sets
 * the name); `setPremium`, `setGuildChannel`, `setGuildRole` and
 * `updateGuildSetup` are called but never defined there, so they get the
 * semantics the handlers rely on: each updates one part of an existing guild
 * record and does nothing when there is none.
 */
module GuildData {
  import opened Wrappers

  /**
   * A guild record: premium flag and expiry (milliseconds since the epoch, or
   * none for lifetime premium), the setup flag, and the configured channel and
   * role ids by key ('history', 'awards', 'manager', ...).
   */
  datatype Guild = Guild(
    name: string,
    premium: bool,
    premiumExpiresAt: Option<int>,
    setupCompleted: bool,
    channels: map<string, string>,
    roles: map<string, string>)

  /** A record as `createGuild` first writes it: only the name is set. */
  function NewGuild(name: string): (g: Guild)
    ensures g.name == name && !g.premium && g.premiumExpiresAt.None? && !g.setupCompleted
    ensures g.channels == map[] && g.roles == map[]
  {
    Guild(name, false, None, false, map[], map[])
  }

  /** `getGuild(guildId)`: the record, or none when the guild was never created. */
  function GetGuild(guilds: map<string, Guild>, id: string): (r: Option<Guild>)
    ensures r.Some? <==> id in guilds
    ensures r.Some? ==> r.value == guilds[id]
  {
    if id in guilds then Some(guilds[id]) else None
  }

  /** A league record: its id and its display name (`league_name`). */
  datatype League = League(id: string, name: string)

  /** `getLeagueByAbbr(guildId, abbr)`: the guild's league under that (upper-case) abbreviation, if any. */
  function GetLeagueByAbbr(leagues: map<string, League>, abbr: string): (r: Option<League>)
    ensures r.Some? <==> abbr in leagues
    ensures r.Some? ==> r.value == leagues[abbr]
  {
    if abbr in leagues then Some(leagues[abbr]) else None
  }

  /** The configured value under `key` is present and non-empty (truthy). */
  predicate Configured(m: map<string, string>, key: string) {
    key in m && m[key] != ""
  }

  /** `setPremium(guildId, premium, expiresAt)` as a function of the stored guilds. */
  function WithPremium(guilds: map<string, Guild>, id: string, premium: bool, expiresAt: Option<int>): (r: map<string, Guild>)
    ensures id !in guilds ==> r == guilds
    ensures id in guilds ==> r == guilds[id := guilds[id].(premium := premium, premiumExpiresAt := expiresAt)]
  {
    if id in guilds then guilds[id := guilds[id].(premium := premium, premiumExpiresAt := expiresAt)] else guilds
  }

  /** Writing the same premium state twice is the same as writing it once. */
  lemma WithPremiumIdempotent(guilds: map<string, Guild>, id: string, premium: bool, expiresAt: Option<int>)
    ensures WithPremium(WithPremium(guilds, id, premium, expiresAt), id, premium, expiresAt) == WithPremium(guilds, id, premium, expiresAt)
  {
  }

  /** The stored guilds. */
  class GuildStore {
    var guilds: map<string, Guild>

    constructor (guilds: map<string, Guild>)
      ensures this.guilds == guilds
    {
      this.guilds := guilds;
    }

    /** `createGuild(guildId, name)`: an upsert that sets the name and keeps everything else. */
    method CreateGuild(id: string, name: string)
      modifies this
      ensures id in guilds
      ensures guilds == old(guilds)[id := if id in old(guilds) then old(guilds)[id].(name := name) else NewGuild(name)]
    {
      if id in guilds {
        guilds := guilds[id := guilds[id].(name := name)];
      } else {
        guilds := guilds[id := NewGuild(name)];
      }
    }

    /** `setPremium(guildId, premium, expiresAt)`. */
    method SetPremium(id: string, premium: bool, expiresAt: Option<int>)
      modifies this
      ensures guilds == WithPremium(old(guilds), id, premium, expiresAt)
    {
      if id in guilds {
        guilds := guilds[id := guilds[id].(premium := premium, premiumExpiresAt := expiresAt)];
      }
    }

    /** `setGuildChannel(guildId, key, channelId)`. */
    method SetGuildChannel(id: string, key: string, channelId: string)
      modifies this
      ensures id in old(guilds) ==> guilds == old(guilds)[id := old(guilds)[id].(channels := old(guilds)[id].channels[key := channelId])]
      ensures id !in old(guilds) ==> guilds == old(guilds)
    {
      if id in guilds {
        guilds := guilds[id := guilds[id].(channels := guilds[id].channels[key := channelId])];
      }
    }

    /** `setGuildRole(guildId, key, roleId)`. */
    method SetGuildRole(id: string, key: string, roleId: string)
      modifies this
      ensures id in old(guilds) ==> guilds == old(guilds)[id := old(guilds)[id].(roles := old(guilds)[id].roles[key := roleId])]
      ensures id !in old(guilds) ==> guilds == old(guilds)
    {
      if id in guilds {
        guilds := guilds[id := guilds[id].(roles := guilds[id].roles[key := roleId])];
      }
    }

    /** `updateGuildSetup(guildId, completed)`. */
    method UpdateGuildSetup(id: string, completed: bool)
      modifies this
      ensures id in old(guilds) ==> guilds == old(guilds)[id := old(guilds)[id].(setupCompleted := completed)]
      ensures id !in old(guilds) ==> guilds == old(guilds)
    {
      if id in guilds {
        guilds := guilds[id := guilds[id].(setupCompleted := completed)];
      }
    }
  }
}
