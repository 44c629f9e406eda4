/**
 * Premium state of `utils/premium.js`. The clock is the parameter `now`, in
 * milliseconds since the epoch, as are the stored expiry instants.
 */
module Premium {
  import opened Wrappers
  import opened GuildData
  import Permissions
  import Formatters

  /** Milliseconds in a day, `1000 * 60 * 60 * 24`. */
  const DayMs := 86400000

  /** `Math.ceil(a / b)` for a positive divisor. */
  function CeilDiv(a: int, b: int): (q: int)
    requires b > 0
    ensures (q - 1) * b < a <= q * b
  {
    var d := (-a) / b;
    assert b * d <= -a < b * d + b;
    -d
  }

  // ---------------------------------------------------------------------------
  // isPremiumGuild
  // ---------------------------------------------------------------------------

  /** What `isPremiumGuild` answers: premium, and an expiry that is unset or not before `now`. */
  predicate IsPremiumAt(guild: Option<Guild>, now: int) {
    guild.Some? && guild.value.premium
    && (guild.value.premiumExpiresAt.None? || !(guild.value.premiumExpiresAt.value < now))
  }

  /** The premium guild's expiry lies strictly before `now`: `isPremiumGuild` revokes it. */
  predicate Lapsed(guild: Option<Guild>, now: int) {
    guild.Some? && guild.value.premium
    && guild.value.premiumExpiresAt.Some? && guild.value.premiumExpiresAt.value < now
  }

  /** The stored guilds after `isPremiumGuild(guildId)` at `now`. */
  function AfterPremiumCheck(guilds: map<string, Guild>, id: string, now: int): (r: map<string, Guild>)
    ensures Lapsed(GetGuild(guilds, id), now) ==> r == WithPremium(guilds, id, false, None)
    ensures !Lapsed(GetGuild(guilds, id), now) ==> r == guilds
  {
    if Lapsed(GetGuild(guilds, id), now) then WithPremium(guilds, id, false, None) else guilds
  }

  /** `isPremiumGuild(guildId)`: answers and, on a lapsed premium, revokes it in the store. */
  method IsPremiumGuild(store: GuildStore, id: string, now: int) returns (b: bool)
    modifies store
    ensures b == IsPremiumAt(GetGuild(old(store.guilds), id), now)
    ensures store.guilds == AfterPremiumCheck(old(store.guilds), id, now)
  {
    var guild := GetGuild(store.guilds, id);
    if guild.None? || !guild.value.premium {
      return false;
    }
    if guild.value.premiumExpiresAt.Some? {
      if guild.value.premiumExpiresAt.value < now {
        store.SetPremium(id, false, None);
        return false;
      }
    }
    return true;
  }

  /**
   * The revocation keeps the answer stable: asking again at the same instant
   * gives the same answer and changes nothing more.
   */
  lemma PremiumCheckStable(guilds: map<string, Guild>, id: string, now: int)
    ensures IsPremiumAt(GetGuild(AfterPremiumCheck(guilds, id, now), id), now) == IsPremiumAt(GetGuild(guilds, id), now)
    ensures AfterPremiumCheck(AfterPremiumCheck(guilds, id, now), id, now) == AfterPremiumCheck(guilds, id, now)
  {
  }

  /** The revocation touches only the guild asked about. */
  lemma PremiumCheckLocal(guilds: map<string, Guild>, id: string, other: string, now: int)
    requires other != id
    ensures GetGuild(AfterPremiumCheck(guilds, id, now), other) == GetGuild(guilds, other)
  {
  }

  /**
   * `isPremiumGuild` and `checkPremium` agree except at the instant of expiry,
   * which the first still counts as premium and the second no longer does.
   */
  lemma PremiumChecksAgreeOffBoundary(guild: Option<Guild>, now: int)
    ensures IsPremiumAt(guild, now) != Permissions.CheckPremium(guild, now)
      <==> guild.Some? && guild.value.premium && guild.value.premiumExpiresAt == Some(now)
  {
  }

  // ---------------------------------------------------------------------------
  // getPremiumStatus
  // ---------------------------------------------------------------------------

  /** The object returned by `getPremiumStatus`. */
  datatype PremiumStatus = PremiumStatus(isPremium: bool, expiresAt: Option<int>, daysRemaining: Option<int>)

  /**
   * `getPremiumStatus(guildId)`: not premium without a premium record; no
   * expiry and no day count for lifetime premium; otherwise the expiry, the
   * number of started days left (negative once lapsed) and whether the expiry
   * is still ahead.
   */
  function GetPremiumStatus(guild: Option<Guild>, now: int): (s: PremiumStatus)
    ensures s.isPremium == Permissions.CheckPremium(guild, now)
    ensures s.expiresAt == (if guild.Some? && guild.value.premium then guild.value.premiumExpiresAt else None)
    ensures s.daysRemaining.Some? <==> s.expiresAt.Some?
    ensures s.daysRemaining.Some? ==>
      (s.daysRemaining.value - 1) * DayMs < s.expiresAt.value - now <= s.daysRemaining.value * DayMs
  {
    if guild.None? || !guild.value.premium then PremiumStatus(false, None, None)
    else if guild.value.premiumExpiresAt.None? then PremiumStatus(true, None, None)
    else
      var expiry := guild.value.premiumExpiresAt.value;
      PremiumStatus(expiry > now, Some(expiry), Some(CeilDiv(expiry - now, DayMs)))
  }

  /** A dated premium is active exactly while at least one (started) day remains. */
  lemma DaysRemainingPositiveIffActive(guild: Option<Guild>, now: int)
    requires GetPremiumStatus(guild, now).expiresAt.Some?
    ensures GetPremiumStatus(guild, now).daysRemaining.value > 0 <==> GetPremiumStatus(guild, now).isPremium
  {
    var s := GetPremiumStatus(guild, now);
    var d, gap := s.daysRemaining.value, s.expiresAt.value - now;
    if d > 0 {
      assert (d - 1) * DayMs >= 0;
    } else {
      assert d * DayMs <= 0;
    }
  }

  // ---------------------------------------------------------------------------
  // grantPremium / revokePremium
  // ---------------------------------------------------------------------------

  /** The expiry `grantPremium` stores: none without a duration, else `durationDays` days from `now`. */
  function GrantExpiry(durationDays: Option<int>, now: int): (r: Option<int>)
    ensures durationDays.None? ==> r.None?
    ensures durationDays.Some? ==> r == Some(now + durationDays.value * DayMs)
  {
    if durationDays.Some? then Some(now + durationDays.value * DayMs) else None
  }

  /** `grantPremium(guildId, durationDays)`: always succeeds and reports the stored expiry. */
  method GrantPremium(store: GuildStore, id: string, durationDays: Option<int>, now: int) returns (success: bool, expiresAt: Option<int>)
    modifies store
    ensures success
    ensures expiresAt == GrantExpiry(durationDays, now)
    ensures store.guilds == WithPremium(old(store.guilds), id, true, expiresAt)
  {
    expiresAt := None;
    if durationDays.Some? {
      expiresAt := Some(now + durationDays.value * DayMs);
    }
    store.SetPremium(id, true, expiresAt);
    success := true;
  }

  /**
   * After a grant to an existing guild, premium holds now exactly when the
   * grant is lifetime or for a positive number of days; a grant of zero days
   * expires at once.
   */
  lemma GrantActivates(guilds: map<string, Guild>, id: string, durationDays: Option<int>, now: int)
    requires id in guilds
    ensures var g := GetGuild(WithPremium(guilds, id, true, GrantExpiry(durationDays, now)), id);
      Permissions.CheckPremium(g, now) <==> durationDays.None? || durationDays.value > 0
  {
    if durationDays.Some? {
      var d := durationDays.value;
      if d > 0 {
        assert d * DayMs > 0;
      } else {
        assert d * DayMs <= 0;
      }
    }
  }

  /** `revokePremium(guildId)`: always succeeds. */
  method RevokePremium(store: GuildStore, id: string) returns (success: bool)
    modifies store
    ensures success
    ensures store.guilds == WithPremium(old(store.guilds), id, false, None)
  {
    store.SetPremium(id, false, None);
    success := true;
  }

  /** After a revocation no check counts the guild as premium, at any instant. */
  lemma RevokeDeactivates(guilds: map<string, Guild>, id: string, now: int)
    ensures !Permissions.CheckPremium(GetGuild(WithPremium(guilds, id, false, None), id), now)
    ensures !IsPremiumAt(GetGuild(WithPremium(guilds, id, false, None), id), now)
    ensures GetPremiumStatus(GetGuild(WithPremium(guilds, id, false, None), id), now) == PremiumStatus(false, None, None)
  {
  }

  // ---------------------------------------------------------------------------
  // formatPremiumExpiry
  // ---------------------------------------------------------------------------

  const LifetimeText := "Lifetime Premium"

  /** `formatPremiumExpiry(expiresAt)`: 'Lifetime Premium', or full-date markup of the expiry second. */
  function FormatPremiumExpiry(expiresAt: Option<int>): (r: string)
    ensures expiresAt.None? ==> r == LifetimeText
    ensures expiresAt.Some? ==> r == Formatters.FormatDate(expiresAt.value)
  {
    if expiresAt.None? then LifetimeText else Formatters.FormatDate(expiresAt.value)
  }

  /** A dated expiry never reads as lifetime, and two expiries read alike exactly when they share a second. */
  lemma FormatPremiumExpiryDistinguishes(a: int, b: int)
    ensures FormatPremiumExpiry(Some(a)) != LifetimeText
    ensures FormatPremiumExpiry(Some(a)) == FormatPremiumExpiry(Some(b)) <==> a / 1000 == b / 1000
  {
    assert FormatPremiumExpiry(Some(a))[0] == '<';
    Formatters.TimestampSameSecond(a, b, 'F');
  }
}
