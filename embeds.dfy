/**
 * The embed builders of `utils/embeds.js`, as plain records: a builder chain
 * becomes the construction of an `Embed` value, a conditional `setDescription`
 * or `addFields` a conditional part of that value.
 */
module Embeds {
  import opened Wrappers
  import opened Text
  import Formatters
  import LineupManager
  import Awards

  /** One embed field. `inline` is false when the source leaves it unset. */
  datatype Field = Field(name: string, value: string, inline: bool)

  /**
   * An embed: the parts a command sets. `timestamped` records a `setTimestamp()`
   * call, whose clock value is left out.
   */
  datatype Embed = Embed(
    title: Option<string>,
    description: Option<string>,
    color: Option<int>,
    fields: seq<Field>,
    footer: Option<string>,
    timestamped: bool)

  /** Discord blurple, `DEFAULT_COLOR`. */
  const DefaultColor := 0x5865F2

  const SuccessMark := "\U{2705} "
  const ErrorMark := "\U{274C} "
  const WarningMark := "\U{26A0}\U{FE0F} "

  /** `createEmbed(title, description)`. */
  function CreateEmbed(title: string, description: string): (e: Embed)
    ensures e.title == Some(title) && e.description == Some(description)
    ensures e.color == Some(DefaultColor) && e.fields == [] && e.footer.None? && e.timestamped
  {
    Embed(Some(title), Some(description), Some(DefaultColor), [], None, true)
  }

  /** `successEmbed(title, description)`: the title behind a check mark. */
  function SuccessEmbed(title: string, description: string): (e: Embed)
    ensures e == CreateEmbed(SuccessMark + title, description)
  {
    CreateEmbed(SuccessMark + title, description)
  }

  /** `errorEmbed(title, description)`: the title behind a cross mark. */
  function ErrorEmbed(title: string, description: string): (e: Embed)
    ensures e == CreateEmbed(ErrorMark + title, description)
  {
    CreateEmbed(ErrorMark + title, description)
  }

  /** `warningEmbed(title, description)`: the title behind a warning sign. */
  function WarningEmbed(title: string, description: string): (e: Embed)
    ensures e == CreateEmbed(WarningMark + title, description)
  {
    CreateEmbed(WarningMark + title, description)
  }

  /** The refusal every manager-only command replies with. */
  function ManagerDenied(): Embed {
    ErrorEmbed("Permission Denied", "You need Manager role or higher to use this command.")
  }

  /**
   * A status embed never passes for another kind, and its title and
   * description can be read back from it.
   */
  lemma StatusEmbedsDistinct(t1: string, d1: string, t2: string, d2: string)
    ensures SuccessEmbed(t1, d1) != ErrorEmbed(t2, d2)
    ensures SuccessEmbed(t1, d1) != WarningEmbed(t2, d2)
    ensures ErrorEmbed(t1, d1) != WarningEmbed(t2, d2)
    ensures SuccessEmbed(t1, d1) == SuccessEmbed(t2, d2) ==> t1 == t2 && d1 == d2
    ensures ErrorEmbed(t1, d1) == ErrorEmbed(t2, d2) ==> t1 == t2 && d1 == d2
    ensures WarningEmbed(t1, d1) == WarningEmbed(t2, d2) ==> t1 == t2 && d1 == d2
  {
    assert (SuccessMark + t1)[0] != (ErrorMark + t2)[0];
    assert (SuccessMark + t1)[0] != (WarningMark + t2)[0];
    assert (ErrorMark + t1)[0] != (WarningMark + t2)[0];
    if SuccessEmbed(t1, d1) == SuccessEmbed(t2, d2) {
      assert t1 == (SuccessMark + t1)[|SuccessMark|..];
      assert t2 == (SuccessMark + t2)[|SuccessMark|..];
    }
    if ErrorEmbed(t1, d1) == ErrorEmbed(t2, d2) {
      assert t1 == (ErrorMark + t1)[|ErrorMark|..];
      assert t2 == (ErrorMark + t2)[|ErrorMark|..];
    }
    if WarningEmbed(t1, d1) == WarningEmbed(t2, d2) {
      assert t1 == (WarningMark + t1)[|WarningMark|..];
      assert t2 == (WarningMark + t2)[|WarningMark|..];
    }
  }

  // ---------------------------------------------------------------------------
  // lineupEmbed
  // ---------------------------------------------------------------------------

  /**
   * `lineupEmbed(lineup)`: title '📋 name', the description only when the
   * lineup has a non-empty one, and a single Players field.
   */
  function LineupEmbed(lineup: LineupManager.Lineup): (e: Embed)
    ensures e.title == Some("\U{1F4CB} " + lineup.name)
    ensures e.description == if Truthy(lineup.description) then lineup.description else None
    ensures e.color == Some(DefaultColor) && e.timestamped && e.footer.None?
    ensures |e.fields| == 1 && e.fields[0].name == "Players"
    ensures e.fields[0].value == LineupManager.FormatLineupPlayers(lineup.players)
  {
    var players := lineup.players;
    var value :=
      if players.Some? && |players.value| > 0
      then Join(LineupManager.PlayerLines(players.value), "\n")
      else LineupManager.NoPlayersText;
    Embed(
      Some("\U{1F4CB} " + lineup.name),
      if Truthy(lineup.description) then lineup.description else None,
      Some(DefaultColor),
      [Field("Players", value, false)],
      None,
      true)
  }

  // ---------------------------------------------------------------------------
  // gametimeEmbed
  // ---------------------------------------------------------------------------

  /** `gametimeEmbed(league, gameTime, role)`: the game time as full-date markup of its second. */
  function GametimeEmbed(league: string, gameTimeMs: int, role: string): (e: Embed)
    ensures e.title == Some("\U{1F3AE} " + league + " Game Time")
    ensures e.description == Some("**Time:** " + Formatters.FormatDate(gameTimeMs))
    ensures e.footer == Some("Pinging: @" + role)
    ensures e.color == Some(DefaultColor) && e.fields == [] && e.timestamped
  {
    var seconds := IntToString(gameTimeMs / 1000);
    assert Formatters.FormatDate(gameTimeMs) == "<t:" + seconds + ":F>";
    assert "**Time:** " + ("<t:" + seconds + ":F>") == "**Time:** <t:" + seconds + ":F>";
    Embed(
      Some("\U{1F3AE} " + league + " Game Time"),
      Some("**Time:** <t:" + seconds + ":F>"),
      Some(DefaultColor),
      [],
      Some("Pinging: @" + role),
      true)
  }

  // ---------------------------------------------------------------------------
  // awardsEmbed
  // ---------------------------------------------------------------------------

  /** The `awards` argument: optional ring and award lists. */
  datatype UserAwards = UserAwards(rings: Option<seq<Awards.Ring>>, awards: Option<seq<Awards.Award>>)

  function RingLines(rings: seq<Awards.Ring>): (r: seq<string>)
    ensures |r| == |rings|
    ensures forall i :: 0 <= i < |rings| ==> r[i] == "\U{1F48D} " + rings[i].league + " " + rings[i].season
  {
    if rings == [] then [] else ["\U{1F48D} " + rings[0].league + " " + rings[0].season] + RingLines(rings[1..])
  }

  function AwardLines(awards: seq<Awards.Award>): (r: seq<string>)
    ensures |r| == |awards|
    ensures forall i :: 0 <= i < |awards| ==> r[i] == "\U{1F3C6} " + awards[i].award
  {
    if awards == [] then [] else ["\U{1F3C6} " + awards[0].award] + AwardLines(awards[1..])
  }

  /** `awards?.rings?.length` is truthy. */
  predicate HasRings(a: Option<UserAwards>) {
    a.Some? && a.value.rings.Some? && |a.value.rings.value| > 0
  }

  /** `awards?.awards?.length` is truthy. */
  predicate HasAwards(a: Option<UserAwards>) {
    a.Some? && a.value.awards.Some? && |a.value.awards.value| > 0
  }

  /**
   * `awardsEmbed(user, awards)`: 'No awards yet.' and no field when there is
   * nothing to show; otherwise a Rings field exactly when there are rings and
   * an Awards field exactly when there are awards, Rings first.
   */
  function AwardsEmbed(username: string, awards: Option<UserAwards>): (e: Embed)
    ensures e.title == Some("\U{1F3C6} " + username + "'s Awards")
    ensures !HasRings(awards) && !HasAwards(awards) ==> e.description == Some("No awards yet.") && e.fields == []
    ensures HasRings(awards) || HasAwards(awards) ==> e.description.None?
    ensures |e.fields| == (if HasRings(awards) then 1 else 0) + (if HasAwards(awards) then 1 else 0)
    ensures HasRings(awards) ==> e.fields[0] == Field("Rings", Join(RingLines(awards.value.rings.value), "\n"), false)
    ensures HasAwards(awards) ==> e.fields[|e.fields| - 1] == Field("Awards", Join(AwardLines(awards.value.awards.value), "\n"), false)
  {
    var base := Embed(Some("\U{1F3C6} " + username + "'s Awards"), None, Some(DefaultColor), [], None, true);
    if !HasRings(awards) && !HasAwards(awards) then
      base.(description := Some("No awards yet."))
    else
      var withRings :=
        if HasRings(awards) then base.(fields := base.fields + [Field("Rings", Join(RingLines(awards.value.rings.value), "\n"), false)])
        else base;
      if HasAwards(awards) then withRings.(fields := withRings.fields + [Field("Awards", Join(AwardLines(awards.value.awards.value), "\n"), false)])
      else withRings
  }
}
