/**
 * The `/award` command of `commands/award.js`: a manager gives one named
 * award for a league and season to one player. The award store is not defined
 * in `database.js`; it is given the semantics the handler relies on:
 * `addAward` stores the award and returns it, or returns nothing when the
 * player already holds that award for that league and season.
 */
module Award {
  import opened Wrappers
  import opened Text
  import opened Embeds
  import opened GuildData
  import Validation
  import RingAdd
  import opened Dispatcher

  /** A stored award. */
  datatype AwardRecord = AwardRecord(leagueId: string, userId: string, award: string, season: string, givenBy: string)

  /** The player already holds that award for that league and season. */
  predicate HasAward(awards: seq<AwardRecord>, leagueId: string, userId: string, award: string, season: string) {
    exists a :: a in awards && a.leagueId == leagueId && a.userId == userId && a.award == award && a.season == season
  }

  function AlreadyExists(userId: string, award: string, leagueName: string, season: string): Embed {
    ErrorEmbed("Award Already Exists",
      Mention(userId) + " already has the **" + award + "** award for **" + leagueName + " " + season + "**.")
  }

  /** The announcement in the awards channel. */
  function Announcement(award: string, leagueName: string, season: string, userId: string): Embed {
    SuccessEmbed("\U{1F3C6} " + award,
      "**" + leagueName + " - " + season + "**\n\nCongratulations to " + Mention(userId) + " for winning **" + award + "**!")
  }

  function AwardGiven(award: string, userId: string, leagueName: string, season: string): Embed {
    SuccessEmbed("Award Given",
      "Successfully gave **" + award + "** to " + Mention(userId) + " for **" + leagueName + " " + season + "**")
  }

  /** How the command ends. */
  datatype Outcome =
    | Denied
    | BadSeason
    | UnknownLeague(abbr: string)
    | Duplicate(league: League)
    | Given(league: League)

  /**
   * The decision of `execute`, in the source's order: manager permission,
   * then the sanitised season, then the league under the upper-cased
   * abbreviation, then the duplicate check of the store.
   */
  function Decide(
    awards: seq<AwardRecord>, isManager: bool, leagueOption: string, awardOption: Option<string>,
    seasonOption: Option<string>, userId: string, leagues: map<string, League>): (r: Outcome)
    ensures r.Denied? <==> !isManager
    ensures r.BadSeason? <==> isManager && !Validation.ValidateSeason(Some(Validation.SanitizeInput(seasonOption, 20)))
    ensures r.UnknownLeague? <==>
      (isManager && Validation.ValidateSeason(Some(Validation.SanitizeInput(seasonOption, 20))) && ToUpper(leagueOption) !in leagues)
    ensures r.UnknownLeague? ==> r.abbr == ToUpper(leagueOption)
    ensures (r.Duplicate? || r.Given?) ==> ToUpper(leagueOption) in leagues && r.league == leagues[ToUpper(leagueOption)]
    ensures r.Duplicate? || r.Given? ==>
      (r.Duplicate? <==> HasAward(awards, r.league.id, userId, Validation.SanitizeInput(awardOption, 100), Validation.SanitizeInput(seasonOption, 20)))
  {
    var season := Validation.SanitizeInput(seasonOption, 20);
    var abbr := ToUpper(leagueOption);
    if !isManager then Denied
    else if !Validation.ValidateSeason(Some(season)) then BadSeason
    else if abbr !in leagues then UnknownLeague(abbr)
    else if HasAward(awards, leagues[abbr].id, userId, Validation.SanitizeInput(awardOption, 100), season) then Duplicate(leagues[abbr])
    else Given(leagues[abbr])
  }

  /** The awards of one guild. */
  class AwardStore {
    var awards: seq<AwardRecord>

    constructor ()
      ensures awards == []
    {
      awards := [];
    }

    /** `addAward(...)`: stores the award unless the player already holds it. */
    method AddAward(leagueId: string, userId: string, award: string, season: string, givenBy: string) returns (added: bool)
      modifies this
      ensures added <==> !HasAward(old(awards), leagueId, userId, award, season)
      ensures added ==> awards == old(awards) + [AwardRecord(leagueId, userId, award, season, givenBy)]
      ensures !added ==> awards == old(awards)
    {
      if HasAward(awards, leagueId, userId, award, season) {
        return false;
      }
      awards := awards + [AwardRecord(leagueId, userId, award, season, givenBy)];
      added := true;
    }

    /**
     * `execute`: the refusals of `Decide` leave the store as it was and
     * announce nothing; a new award is stored once, announced when an awards
     * channel is configured, and confirmed. A configured channel Discord
     * rejects fails the command after the award is stored.
     */
    method Execute(
      isManager: bool, leagueOption: string, awardOption: Option<string>, seasonOption: Option<string>,
      userId: string, leagues: map<string, League>,
      channels: map<string, string>, visibleChannels: set<string>, callerId: string)
      returns (reply: Answer, announcement: Option<(string, Embed)>)
      modifies this
      ensures var award := Validation.SanitizeInput(awardOption, 100);
        var season := Validation.SanitizeInput(seasonOption, 20);
        var d := Decide(old(awards), isManager, leagueOption, awardOption, seasonOption, userId, leagues);
        && (d.Denied? ==> reply == Answered(ManagerDenied()))
        && (d.BadSeason? ==> reply == Answered(RingAdd.InvalidSeason()))
        && (d.UnknownLeague? ==> reply == Answered(RingAdd.LeagueNotFound(d.abbr)))
        && (d.Duplicate? ==> reply == Answered(AlreadyExists(userId, award, d.league.name, season)))
        && (!d.Given? ==> announcement.None? && awards == old(awards))
        && (d.Given? ==>
              var channel := RingAdd.AwardsChannel(channels, visibleChannels);
              && awards == old(awards) + [AwardRecord(d.league.id, userId, award, season, callerId)]
              && reply == (if channel.Rejected? then CommandFailed else Answered(AwardGiven(award, userId, d.league.name, season)))
              && announcement == (if channel.Posted? then Some((channel.channelId, Announcement(award, d.league.name, season, userId))) else None))
    {
      ghost var d := Decide(awards, isManager, leagueOption, awardOption, seasonOption, userId, leagues);
      if !isManager {
        assert d.Denied?;
        return Answered(ManagerDenied()), None;
      }
      var abbr := ToUpper(leagueOption);
      var award := Validation.SanitizeInput(awardOption, 100);
      var season := Validation.SanitizeInput(seasonOption, 20);
      if !Validation.ValidateSeason(Some(season)) {
        assert d.BadSeason?;
        return Answered(RingAdd.InvalidSeason()), None;
      }
      var league := GetLeagueByAbbr(leagues, abbr);
      if league.None? {
        assert d.UnknownLeague?;
        return Answered(RingAdd.LeagueNotFound(abbr)), None;
      }
      assert d.league == league.value;
      var added := AddAward(league.value.id, userId, award, season, callerId);
      if !added {
        assert d.Duplicate?;
        return Answered(AlreadyExists(userId, award, league.value.name, season)), None;
      }
      assert d.Given?;
      var channel := RingAdd.AwardsChannel(channels, visibleChannels);
      announcement := None;
      if channel.Rejected? {
        return CommandFailed, None;
      }
      if channel.Posted? {
        announcement := Some((channel.channelId, Announcement(award, league.value.name, season, userId)));
      }
      reply := Answered(AwardGiven(award, userId, league.value.name, season));
    }
  }

  /** After a successful award the player holds it, so giving it again is refused as a duplicate. */
  lemma SecondAwardIsDuplicate(
    awards: seq<AwardRecord>, leagueOption: string, awardOption: Option<string>, seasonOption: Option<string>,
    userId: string, leagues: map<string, League>, callerId: string)
    requires Decide(awards, true, leagueOption, awardOption, seasonOption, userId, leagues).Given?
    ensures var d := Decide(awards, true, leagueOption, awardOption, seasonOption, userId, leagues);
      var after := awards + [AwardRecord(d.league.id, userId, Validation.SanitizeInput(awardOption, 100), Validation.SanitizeInput(seasonOption, 20), callerId)];
      Decide(after, true, leagueOption, awardOption, seasonOption, userId, leagues).Duplicate?
  {
    var d := Decide(awards, true, leagueOption, awardOption, seasonOption, userId, leagues);
    var rec := AwardRecord(d.league.id, userId, Validation.SanitizeInput(awardOption, 100), Validation.SanitizeInput(seasonOption, 20), callerId);
    assert (awards + [rec])[|awards|] == rec;
  }
}
