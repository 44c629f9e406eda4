/**
 * The `/times` command of `commands/times.js`: a manager posts up to five
 * time options to the channel, one numbered reaction per option.
 */
module Times {
  import opened Wrappers
  import opened Text
  import opened Embeds
  import Gametime

  /** The reaction emojis, '1️⃣' to '5️⃣'. */
  const Emojis: seq<string> := [
    "1\U{FE0F}\U{20E3}", "2\U{FE0F}\U{20E3}", "3\U{FE0F}\U{20E3}", "4\U{FE0F}\U{20E3}", "5\U{FE0F}\U{20E3}"]

  /** Reaction i is the numbered emoji of option i, as in the description lines. */
  lemma EmojisAreNumbered(i: int)
    requires 0 <= i < |Emojis|
    ensures Emojis[i] == Gametime.NumberEmoji(i + 1)
  {
    assert NatToString(i + 1) == [DigitChar(i + 1)];
  }

  const Question := "**Which time works best?**\n\n"

  /**
   * The description: the role ping, the custom message as its own paragraph
   * only when there is one, the question and the numbered lines.
   */
  function TimesDescription(roleId: string, customMessage: string, times: seq<string>): (r: string)
    ensures customMessage == "" ==> r == RoleMention(roleId) + "\n\n" + Question + Join(Gametime.OptionLines(times), "\n")
    ensures customMessage != "" ==>
      r == RoleMention(roleId) + "\n\n" + customMessage + "\n\n" + Question + Join(Gametime.OptionLines(times), "\n")
  {
    var paragraph := if customMessage != "" then "\n\n" + customMessage else "";
    RoleMention(roleId) + paragraph + "\n\n" + Question + Join(Gametime.OptionLines(times), "\n")
  }

  /** The embed posted to the channel. */
  function TimesEmbed(league: string, roleId: string, customMessage: string, times: seq<string>): Embed {
    Embed(Some("\U{1F3AE} " + league + " - Time Options"), Some(TimesDescription(roleId, customMessage, times)),
      Some(DefaultColor), [], None, true)
  }

  /** What the command does: a refusal, or the posted embed, the reactions added in order, and the reply. */
  datatype TimesReply =
    | Refused(reply: Embed)
    | Posted(embed: Embed, reactions: seq<string>, confirmation: string)

  /** time1 .. time5, in that order. */
  function TimeSlots(time1: string, time2: string, time3: Option<string>, time4: Option<string>, time5: Option<string>): seq<Option<string>> {
    [Some(time1), Some(time2), time3, time4, time5]
  }

  /**
   * `execute`: refuses a caller without manager permission before posting
   * anything; otherwise collects the given times in order, posts the embed
   * (league 'Game' and no message by default), adds emojis[i] for option i and
   * confirms.
   */
  method Execute(
    isManager: bool, roleId: string,
    time1: string, time2: string, time3: Option<string>, time4: Option<string>, time5: Option<string>,
    league: Option<string>, message: Option<string>)
    returns (r: TimesReply)
    ensures !isManager ==> r == Refused(ManagerDenied())
    ensures isManager ==>
      var times := Gametime.Given(TimeSlots(time1, time2, time3, time4, time5));
      r == Posted(TimesEmbed(OrDefault(league, "Game"), roleId, OrDefault(message, ""), times), Emojis[..|times|], "Time poll posted!")
  {
    if !isManager {
      return Refused(ManagerDenied());
    }
    var leagueName := OrDefault(league, "Game");
    var customMessage := OrDefault(message, "");
    var slots := TimeSlots(time1, time2, time3, time4, time5);
    var times := [];
    for i := 1 to 6
      invariant times == Gametime.Given(slots[..i - 1])
    {
      assert slots[..i][..i - 1] == slots[..i - 1];
      var time := slots[i - 1];
      if Truthy(time) {
        times := times + [time.value];
      }
    }
    assert slots[..5] == slots;
    var embed := TimesEmbed(leagueName, roleId, customMessage, times);
    var reactions := [];
    for i := 0 to |times|
      invariant reactions == Emojis[..i]
    {
      reactions := reactions + [Emojis[i]];
    }
    r := Posted(embed, reactions, "Time poll posted!");
  }

  /** With the two required times non-empty, the poll has two to five options, and they come first. */
  lemma TimesCount(time1: string, time2: string, time3: Option<string>, time4: Option<string>, time5: Option<string>)
    requires time1 != "" && time2 != ""
    ensures var times := Gametime.Given(TimeSlots(time1, time2, time3, time4, time5));
      2 <= |times| <= 5 && times[0] == time1 && times[1] == time2
  {
    var slots := TimeSlots(time1, time2, time3, time4, time5);
    assert slots == [Some(time1)] + [Some(time2)] + [time3, time4, time5];
    Gametime.GivenAppend([Some(time1)] + [Some(time2)], [time3, time4, time5]);
    Gametime.GivenAppend([Some(time1)], [Some(time2)]);
    Gametime.GivenSingle(Some(time1));
    Gametime.GivenSingle(Some(time2));
  }
}
