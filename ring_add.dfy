/**
 * The `/ring-add` command of `commands/ring-add.js`: a manager grants a
 * championship ring for one league and season to up to ten players. The ring
 * store is not defined in `database.js`; it is given the semantics the handler
 * relies on: `addChampionshipRing` stores a ring and returns it, or returns
 * nothing when the player already holds a ring of that league and season.
 */
module RingAdd {
  import opened Wrappers
  import opened Text
  import opened Embeds
  import opened GuildData
  import Validation
  import opened Dispatcher

  /** A stored ring. */
  datatype RingRecord = RingRecord(leagueId: string, userId: string, season: string, opponent: string, awardedBy: string)

  /** The player already holds a ring of that league and season. */
  predicate HasRing(rings: seq<RingRecord>, leagueId: string, userId: string, season: string) {
    exists r :: r in rings && r.leagueId == leagueId && r.userId == userId && r.season == season
  }

  /** The present values among the player options, in order. */
  function Present(opts: seq<Option<string>>): (r: seq<string>)
    ensures |r| <= |opts|
    ensures forall p :: p in r <==> Some(p) in opts
  {
    if opts == [] then []
    else
      var last := opts[|opts| - 1];
      assert opts == opts[..|opts| - 1] + [last];
      Present(opts[..|opts| - 1]) + (if last.Some? then [last.value] else [])
  }

  /**
   * The players keep the options' order, repeats included: the selection
   * distributes over concatenation, and a single option contributes its value
   * exactly when it is present.
   */
  lemma {:induction false} PresentAppend(a: seq<Option<string>>, b: seq<Option<string>>)
    ensures Present(a + b) == Present(a) + Present(b)
    ensures |b| == 1 ==> Present(b) == if b[0].Some? then [b[0].value] else []
  {
    if b != [] {
      var init := b[..|b| - 1];
      assert (a + b)[..|a + b| - 1] == a + init;
      assert (a + b)[|a + b| - 1] == b[|b| - 1];
      PresentAppend(a, init);
    } else {
      assert a + b == a;
    }
  }

  /** The result line of a player who got the ring. */
  function GrantedLine(userId: string): string {
    "\U{2705} " + Mention(userId)
  }

  /** The result line of a player who already had it. */
  function AlreadyLine(userId: string): string {
    "\U{26A0}\U{FE0F} " + Mention(userId) + " (already has ring)"
  }

  /**
   * The grant loop over `players`: the rings after it and one result line
   * per player. Every player holds the ring afterwards; a player gets a new
   * ring exactly when neither the store nor an earlier player held it.
   */
  function Grant(rings: seq<RingRecord>, leagueId: string, players: seq<string>, season: string, opponent: string, grantedBy: string)
    : (r: (seq<RingRecord>, seq<string>))
    ensures |r.1| == |players|
    ensures rings <= r.0
    ensures forall u :: HasRing(r.0, leagueId, u, season) <==> HasRing(rings, leagueId, u, season) || u in players
    ensures forall k :: |rings| <= k < |r.0| ==> r.0[k].leagueId == leagueId && r.0[k].season == season && r.0[k].userId in players
  {
    if players == [] then (rings, [])
    else
      var init := players[..|players| - 1];
      var p := players[|players| - 1];
      assert players == init + [p];
      var prev := Grant(rings, leagueId, init, season, opponent, grantedBy);
      if HasRing(prev.0, leagueId, p, season) then (prev.0, prev.1 + [AlreadyLine(p)])
      else
        var added := prev.0 + [RingRecord(leagueId, p, season, opponent, grantedBy)];
        assert forall u :: HasRing(added, leagueId, u, season) <==> HasRing(prev.0, leagueId, u, season) || u == p by {
          forall u ensures HasRing(added, leagueId, u, season) <==> HasRing(prev.0, leagueId, u, season) || u == p {
            if u == p {
              assert added[|added| - 1] in added;
            }
          }
        }
        (added, prev.1 + [GrantedLine(p)])
  }

  /** The lines for a prefix of the players are a prefix of the lines. */
  lemma {:induction false} GrantPrefix(rings: seq<RingRecord>, leagueId: string, players: seq<string>, season: string, opponent: string, grantedBy: string, i: nat)
    requires i <= |players|
    ensures Grant(rings, leagueId, players[..i], season, opponent, grantedBy).1
         == Grant(rings, leagueId, players, season, opponent, grantedBy).1[..i]
  {
    if i < |players| {
      var init := players[..|players| - 1];
      assert init[..i] == players[..i];
      GrantPrefix(rings, leagueId, init, season, opponent, grantedBy, i);
    } else {
      assert players[..i] == players;
    }
  }

  /**
   * Line i is '✅ <@player>' exactly when the player held no ring of that
   * league and season and is not listed earlier; otherwise it is the
   * 'already has ring' line.
   */
  lemma GrantLine(rings: seq<RingRecord>, leagueId: string, players: seq<string>, season: string, opponent: string, grantedBy: string, i: nat)
    requires i < |players|
    ensures var isNew := !HasRing(rings, leagueId, players[i], season) && players[i] !in players[..i];
      Grant(rings, leagueId, players, season, opponent, grantedBy).1[i] == if isNew then GrantedLine(players[i]) else AlreadyLine(players[i])
  {
    GrantPrefix(rings, leagueId, players, season, opponent, grantedBy, i + 1);
    var upto := players[..i + 1];
    assert upto[..|upto| - 1] == players[..i];
    assert upto[|upto| - 1] == players[i];
  }

  // ---------------------------------------------------------------------------
  // Replies
  // ---------------------------------------------------------------------------

  function InvalidSeason(): Embed {
    ErrorEmbed("Invalid Season", "Season must be between 1-20 characters.")
  }

  function LeagueNotFound(abbr: string): Embed {
    ErrorEmbed("League Not Found", "League with abbreviation **" + abbr + "** does not exist.\nUse `/league-add` to create it first.")
  }

  function NoPlayers(): Embed {
    ErrorEmbed("No Players", "You must select at least one player.")
  }

  /** The announcement: the finals opponent only when one is given, then every player mentioned. */
  function Congratulations(ringEmoji: string, leagueName: string, season: string, opponent: string, players: seq<string>): Embed {
    var defeated := if opponent != "" then "\n\nDefeated **" + opponent + "** in the finals!" else "";
    SuccessEmbed(ringEmoji + " Championship Rings Awarded!",
      "**" + leagueName + " - " + season + " Champions**" + defeated + "\n\n" + Join(Mentions(players), ", "))
  }

  /** The final reply: the number of players, including those who already had the ring, then the result lines. */
  function RingsGranted(leagueName: string, season: string, count: nat, results: seq<string>): Embed {
    SuccessEmbed("Rings Granted",
      "Successfully granted rings to **" + NatToString(count) + "** player(s) for **" + leagueName + " " + season + "**!\n\n"
      + Join(results, "\n"))
  }

  /**
   * What becomes of the announcement: no awards channel is configured, it is
   * posted there, or Discord rejects the `channels.fetch` (a deleted or
   * hidden channel) or the `send`, which throws out of the handler.
   */
  datatype Announcing = NoChannel | Posted(channelId: string) | Rejected

  /** The announcement's fate, given the channels the bot can fetch and post to. */
  function AwardsChannel(channels: map<string, string>, visibleChannels: set<string>): (r: Announcing)
    ensures r.NoChannel? <==> !Configured(channels, "awards")
    ensures r.Posted? <==> Configured(channels, "awards") && channels["awards"] in visibleChannels
    ensures r.Posted? ==> r.channelId == channels["awards"]
  {
    if !Configured(channels, "awards") then NoChannel
    else if channels["awards"] in visibleChannels then Posted(channels["awards"])
    else Rejected
  }

  /** The collection loop over player1 .. player10: the selected players, in order. */
  method CollectPlayers(playerOptions: seq<Option<string>>) returns (players: seq<string>)
    ensures players == Present(playerOptions)
  {
    players := [];
    for i := 0 to |playerOptions|
      invariant players == Present(playerOptions[..i])
    {
      assert playerOptions[..i + 1][..i] == playerOptions[..i];
      var player := playerOptions[i];
      if player.Some? {
        players := players + [player.value];
      }
    }
    assert playerOptions[..|playerOptions|] == playerOptions;
  }

  // ---------------------------------------------------------------------------
  // The ring store and the command
  // ---------------------------------------------------------------------------

  /** The rings of one guild. */
  class RingStore {
    var rings: seq<RingRecord>

    constructor ()
      ensures rings == []
    {
      rings := [];
    }

    /** `addChampionshipRing(...)`: stores the ring unless the player already holds it. */
    method AddRing(leagueId: string, userId: string, season: string, opponent: string, grantedBy: string) returns (added: bool)
      modifies this
      ensures added <==> !HasRing(old(rings), leagueId, userId, season)
      ensures added ==> rings == old(rings) + [RingRecord(leagueId, userId, season, opponent, grantedBy)]
      ensures !added ==> rings == old(rings)
    {
      if HasRing(rings, leagueId, userId, season) {
        return false;
      }
      rings := rings + [RingRecord(leagueId, userId, season, opponent, grantedBy)];
      added := true;
    }

    /** The grant loop: one `addChampionshipRing` call and one result line per player, in order. */
    method GrantAll(leagueId: string, players: seq<string>, season: string, opponent: string, grantedBy: string)
      returns (results: seq<string>)
      modifies this
      ensures (rings, results) == Grant(old(rings), leagueId, players, season, opponent, grantedBy)
    {
      ghost var before := rings;
      results := [];
      for i := 0 to |players|
        invariant (rings, results) == Grant(before, leagueId, players[..i], season, opponent, grantedBy)
      {
        assert players[..i + 1][..i] == players[..i];
        var added := AddRing(leagueId, players[i], season, opponent, grantedBy);
        if added {
          results := results + [GrantedLine(players[i])];
        } else {
          results := results + [AlreadyLine(players[i])];
        }
      }
      assert players[..|players|] == players;
    }

    /**
     * `execute`: the checks in order (manager permission, season of 1-20
     * characters after sanitising, known league under the upper-cased
     * abbreviation, at least one player), then one ring per player, the
     * announcement when an awards channel is configured, and the summary. A
     * configured channel Discord rejects fails the command after the rings
     * are stored.
     */
    method Execute(
      isManager: bool, leagueOption: string, seasonOption: Option<string>, opponentOption: Option<string>,
      playerOptions: seq<Option<string>>, leagues: map<string, League>,
      channels: map<string, string>, visibleChannels: set<string>, callerId: string, ringEmoji: string)
      returns (reply: Answer, announcement: Option<(string, Embed)>)
      requires |playerOptions| == 10
      modifies this
      ensures var season := Validation.SanitizeInput(seasonOption, 20);
        var opponent := Validation.SanitizeInput(opponentOption, 100);
        var abbr := ToUpper(leagueOption);
        var players := Present(playerOptions);
        if !isManager then reply == Answered(ManagerDenied()) && announcement.None? && rings == old(rings)
        else if !Validation.ValidateSeason(Some(season)) then reply == Answered(InvalidSeason()) && announcement.None? && rings == old(rings)
        else if abbr !in leagues then reply == Answered(LeagueNotFound(abbr)) && announcement.None? && rings == old(rings)
        else if players == [] then reply == Answered(NoPlayers()) && announcement.None? && rings == old(rings)
        else
          var league := leagues[abbr];
          var g := Grant(old(rings), league.id, players, season, opponent, callerId);
          var channel := AwardsChannel(channels, visibleChannels);
          && rings == g.0
          && reply == (if channel.Rejected? then CommandFailed else Answered(RingsGranted(league.name, season, |players|, g.1)))
          && announcement == (if channel.Posted? then Some((channel.channelId, Congratulations(ringEmoji, league.name, season, opponent, players))) else None)
    {
      if !isManager {
        return Answered(ManagerDenied()), None;
      }
      var abbr := ToUpper(leagueOption);
      var season := Validation.SanitizeInput(seasonOption, 20);
      var opponent := Validation.SanitizeInput(opponentOption, 100);
      if !Validation.ValidateSeason(Some(season)) {
        return Answered(InvalidSeason()), None;
      }
      var league := GetLeagueByAbbr(leagues, abbr);
      if league.None? {
        return Answered(LeagueNotFound(abbr)), None;
      }
      var players := CollectPlayers(playerOptions);
      if |players| == 0 {
        return Answered(NoPlayers()), None;
      }
      reply, announcement := Finish(league.value, players, season, opponent, callerId, channels, visibleChannels, ringEmoji);
    }

    /**
     * The end of `execute`: grant the rings, announce them in a configured
     * awards channel, and reply; a rejected announcement throws after the
     * grants, so the dispatcher's failure text replaces the summary.
     */
    method Finish(
      league: League, players: seq<string>, season: string, opponent: string, callerId: string,
      channels: map<string, string>, visibleChannels: set<string>, ringEmoji: string)
      returns (reply: Answer, announcement: Option<(string, Embed)>)
      modifies this
      ensures var g := Grant(old(rings), league.id, players, season, opponent, callerId);
        var channel := AwardsChannel(channels, visibleChannels);
        && rings == g.0
        && reply == (if channel.Rejected? then CommandFailed else Answered(RingsGranted(league.name, season, |players|, g.1)))
        && announcement == (if channel.Posted? then Some((channel.channelId, Congratulations(ringEmoji, league.name, season, opponent, players))) else None)
    {
      var results := GrantAll(league.id, players, season, opponent, callerId);
      var channel := AwardsChannel(channels, visibleChannels);
      announcement := None;
      if channel.Rejected? {
        return CommandFailed, None;
      }
      if channel.Posted? {
        announcement := Some((channel.channelId, Congratulations(ringEmoji, league.name, season, opponent, players)));
      }
      reply := Answered(RingsGranted(league.name, season, |players|, results));
    }
  }
}
