/**
 * The `/gametime` command of `commands/gametime.js`: the manager gate, the
 * league lookup, the option list, the poll embed and its buttons, the stored
 * poll record and the premium-dependent confirmation. The direct messages to
 * the role members that premium guilds get are not part of this model.
 */
module Gametime {
  import opened Wrappers
  import opened Text
  import opened Embeds
  import opened GuildData
  import Permissions

  // ---------------------------------------------------------------------------
  // Option lists
  // ---------------------------------------------------------------------------

  /** The keycap that turns a digit into an emoji: U+FE0F then U+20E3. */
  const Keycap := "\U{FE0F}\U{20E3}"

  /** `${n}️⃣`, the numbered emoji of option n. */
  function NumberEmoji(n: nat): string {
    NatToString(n) + Keycap
  }

  /** The truthy values among the given options, in order. */
  function Given(opts: seq<Option<string>>): (r: seq<string>)
    ensures |r| <= |opts|
    ensures forall x :: x in r ==> x != "" && Some(x) in opts
  {
    if opts == [] then []
    else
      var last := opts[|opts| - 1];
      assert opts == opts[..|opts| - 1] + [last];
      Given(opts[..|opts| - 1]) + (if Truthy(last) then [last.value] else [])
  }

  /** The options of `a + b` are those of `a` followed by those of `b`. */
  lemma {:induction false} GivenAppend(a: seq<Option<string>>, b: seq<Option<string>>)
    ensures Given(a + b) == Given(a) + Given(b)
  {
    if b != [] {
      var init := b[..|b| - 1];
      assert (a + b)[..|a + b| - 1] == a + init;
      assert (a + b)[|a + b| - 1] == b[|b| - 1];
      GivenAppend(a, init);
    } else {
      assert a + b == a;
    }
  }

  /** Every truthy option is kept. */
  lemma {:induction false} GivenKeepsTruthy(opts: seq<Option<string>>, i: int)
    requires 0 <= i < |opts| && Truthy(opts[i])
    ensures opts[i].value in Given(opts)
  {
    var n := |opts| - 1;
    assert opts == opts[..n] + [opts[n]];
    if i < n {
      assert opts[..n][i] == opts[i];
      GivenKeepsTruthy(opts[..n], i);
    }
  }

  /** The one-element list of a present option, the empty list of a missing one. */
  lemma GivenSingle(o: Option<string>)
    ensures Given([o]) == if Truthy(o) then [o.value] else []
  {
    assert [o][..0] == [];
  }

  /** `timeOptions`: time1, then time2 and time3 each only when given. */
  function TimeOptions(time1: string, time2: Option<string>, time3: Option<string>): (r: seq<string>)
    ensures r == [time1] + Given([time2, time3])
    ensures 1 <= |r| <= 3 && r[0] == time1
  {
    GivenAppend([time2], [time3]);
    GivenSingle(time2);
    GivenSingle(time3);
    assert [time2] + [time3] == [time2, time3];
    var withSecond := if Truthy(time2) then [time1, time2.value] else [time1];
    if Truthy(time3) then withSecond + [time3.value] else withSecond
  }

  // ---------------------------------------------------------------------------
  // Buttons and the description
  // ---------------------------------------------------------------------------

  /** A poll button: its custom id, its label and its emoji. */
  datatype Button = Button(customId: string, text: string, emoji: string)

  /** `gametime_${index}`. */
  function ButtonId(index: nat): string {
    "gametime_" + NatToString(index)
  }

  /** The buttons: button i is `gametime_i`, whose text is option i, with emoji (i+1)️⃣. */
  function Buttons(options: seq<string>): (r: seq<Button>)
    ensures |r| == |options|
    ensures forall i :: 0 <= i < |options| ==> r[i] == Button(ButtonId(i), options[i], NumberEmoji(i + 1))
  {
    seq(|options|, i requires 0 <= i < |options| => Button(ButtonId(i), options[i], NumberEmoji(i + 1)))
  }

  /** Distinct buttons carry distinct custom ids, so a click names one option. */
  lemma ButtonIdsDistinct(options: seq<string>, i: int, j: int)
    requires 0 <= i < j < |options|
    ensures Buttons(options)[i].customId != Buttons(options)[j].customId
  {
    var p := "gametime_";
    if ButtonId(i) == ButtonId(j) {
      assert (p + NatToString(i))[|p|..] == NatToString(i);
      assert (p + NatToString(j))[|p|..] == NatToString(j);
      NatToStringInjective(i, j);
    }
  }

  /** The numbered line of option i: `(i+1)️⃣ option`. */
  function OptionLine(i: nat, option: string): string {
    NumberEmoji(i + 1) + " " + option
  }

  /** The numbered lines, in order. */
  function OptionLines(options: seq<string>): (r: seq<string>)
    ensures |r| == |options|
    ensures forall i :: 0 <= i < |options| ==> r[i] == OptionLine(i, options[i])
  {
    seq(|options|, i requires 0 <= i < |options| => OptionLine(i, options[i]))
  }

  const Question := "**Which time works best for you?**\n\n"

  /** The poll description: the role ping, the question, the numbered lines, and 'React below!'. */
  function PollDescription(roleId: string, options: seq<string>): string {
    RoleMention(roleId) + "\n\n" + Question + Join(OptionLines(options), "\n") + "\n\nReact below!"
  }

  /** The description lists every option on its own numbered line. */
  lemma PollDescriptionListsOptions(roleId: string, options: seq<string>, i: int)
    requires 0 <= i < |options|
    ensures Contains(PollDescription(roleId, options), OptionLine(i, options[i]))
  {
    var lines := OptionLines(options);
    JoinContains(lines, "\n", i);
    ContainsMiddle(RoleMention(roleId) + "\n\n" + Question, Join(lines, "\n"), "\n\nReact below!", lines[i]);
  }

  /** The poll embed. */
  function PollEmbed(leagueName: string, roleId: string, options: seq<string>): (e: Embed)
    ensures e.title == Some("\U{1F3AE} " + leagueName + " Game Time Poll")
    ensures e.description == Some(PollDescription(roleId, options))
    ensures e.color == Some(DefaultColor) && e.fields == [] && e.timestamped
  {
    Embed(Some("\U{1F3AE} " + leagueName + " Game Time Poll"), Some(PollDescription(roleId, options)),
      Some(DefaultColor), [], None, true)
  }

  // ---------------------------------------------------------------------------
  // Replies
  // ---------------------------------------------------------------------------

  function LeagueNotFound(abbr: string): Embed {
    ErrorEmbed("League Not Found", "League with abbreviation **" + abbr + "** does not exist.\nUse `/league-add` first.")
  }

  /** The ephemeral confirmation: its last line depends on premium. */
  function Created(leagueName: string, isPremium: bool): Embed {
    if isPremium then SuccessEmbed("Game Time Created", "Poll created for **" + leagueName + "**\n\U{2728} Premium: Players will be auto-DMed!")
    else SuccessEmbed("Game Time Created", "Poll created for **" + leagueName + "**\n\U{1F48E} Upgrade to Premium for auto-DM reminders!")
  }

  /** What the command sends: a refusal, or the poll with its buttons and the follow-up. */
  datatype PollReply =
    | Refused(reply: Embed)
    | Posted(content: string, embed: Embed, buttons: seq<Button>, followUp: Embed)

  // ---------------------------------------------------------------------------
  // The stored polls
  // ---------------------------------------------------------------------------

  /** `createGametime(guildId, leagueId, createdAt, messageId, channelId, roleId, createdBy)`. */
  datatype GametimeRecord = GametimeRecord(
    leagueId: string, createdAt: int, messageId: string, channelId: string, roleId: string, createdBy: string)

  /** The polls of one guild. */
  class GametimeStore {
    var records: seq<GametimeRecord>

    constructor ()
      ensures records == []
    {
      records := [];
    }

    /**
     * `execute`: refuses a caller without manager permission before anything
     * else, then an unknown league (its abbreviation upper-cased); otherwise
     * posts the poll, stores one record keyed by the poll's message id, and
     * confirms with the premium line of the guild at `now`.
     */
    method Execute(
      isManager: bool, leagueOption: string, leagues: map<string, League>, roleId: string,
      time1: string, time2: Option<string>, time3: Option<string>,
      guild: Option<Guild>, now: int, messageId: string, channelId: string, callerId: string)
      returns (reply: PollReply)
      modifies this
      ensures !isManager ==> reply == Refused(ManagerDenied()) && records == old(records)
      ensures isManager && ToUpper(leagueOption) !in leagues ==>
        reply == Refused(LeagueNotFound(ToUpper(leagueOption))) && records == old(records)
      ensures isManager && ToUpper(leagueOption) in leagues ==>
        var league := leagues[ToUpper(leagueOption)];
        var options := TimeOptions(time1, time2, time3);
        && reply == Posted(RoleMention(roleId), PollEmbed(league.name, roleId, options), Buttons(options),
                           Created(league.name, Permissions.CheckPremium(guild, now)))
        && records == old(records) + [GametimeRecord(league.id, now, messageId, channelId, roleId, callerId)]
    {
      if !isManager {
        return Refused(ManagerDenied());
      }
      var abbr := ToUpper(leagueOption);
      var league := GetLeagueByAbbr(leagues, abbr);
      if league.None? {
        return Refused(LeagueNotFound(abbr));
      }
      var options := [time1];
      if Truthy(time2) {
        options := options + [time2.value];
      }
      if Truthy(time3) {
        options := options + [time3.value];
      }
      assert options == TimeOptions(time1, time2, time3);
      var embed := PollEmbed(league.value.name, roleId, options);
      records := records + [GametimeRecord(league.value.id, now, messageId, channelId, roleId, callerId)];
      var isPremium := Permissions.CheckPremium(guild, now);
      reply := Posted(RoleMention(roleId), embed, Buttons(options), Created(league.value.name, isPremium));
    }
  }
}
