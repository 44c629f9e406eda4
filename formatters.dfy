/**
 * Text formatters of `utils/formatters.js`: Discord timestamp markup, uptime,
 * truncation, capitalisation and user lists. Dates are integer milliseconds
 * since the epoch.
 */
module Formatters {
  import opened Text

  // ---------------------------------------------------------------------------
  // Timestamp markup
  // ---------------------------------------------------------------------------

  /** `<t:N:style>` with `N = Math.floor(ms / 1000)`, the whole seconds of `ms`. */
  function Timestamp(ms: int, style: char): (r: string)
    ensures var n := ms / 1000;
      n * 1000 <= ms < n * 1000 + 1000 && r == "<t:" + IntToString(n) + [':', style, '>']
  {
    "<t:" + IntToString(ms / 1000) + [':', style, '>']
  }

  /** `formatDate`: full date and time. */
  function FormatDate(ms: int): (r: string)
    ensures r == Timestamp(ms, 'F')
  {
    Timestamp(ms, 'F')
  }

  /** `formatDateShort`: short date and time. */
  function FormatDateShort(ms: int): (r: string)
    ensures r == Timestamp(ms, 'f')
  {
    Timestamp(ms, 'f')
  }

  /** `formatRelativeTime`: relative time. */
  function FormatRelativeTime(ms: int): (r: string)
    ensures r == Timestamp(ms, 'R')
  {
    Timestamp(ms, 'R')
  }

  /** Two instants give the same markup exactly when they fall in the same second. */
  lemma TimestampSameSecond(a: int, b: int, style: char)
    ensures Timestamp(a, style) == Timestamp(b, style) <==> a / 1000 == b / 1000
  {
    if Timestamp(a, style) == Timestamp(b, style) {
      var s := Timestamp(a, style);
      assert IntToString(a / 1000) == s[3..|s| - 3];
      assert IntToString(b / 1000) == s[3..|s| - 3];
      IntToStringInjective(a / 1000, b / 1000);
    }
  }

  /** The three styles never produce the same markup. */
  lemma TimestampStylesDiffer(ms: int, s1: char, s2: char)
    requires s1 != s2
    ensures Timestamp(ms, s1) != Timestamp(ms, s2)
  {
    var t := Timestamp(ms, s1);
    assert t[|t| - 2] == s1;
  }

  // ---------------------------------------------------------------------------
  // Uptime
  // ---------------------------------------------------------------------------

  /**
   * `formatUptime(seconds)`: 'Xd Yh Zm' where X whole days, Y whole hours of the
   * remaining day (0..23) and Z whole minutes of the remaining hour (0..59)
   * account for all of `seconds` but the last partial minute.
   */
  function FormatUptime(seconds: nat): (r: string)
    ensures exists d: nat, h: nat, m: nat ::
      && h < 24 && m < 60
      && d * 86400 + h * 3600 + m * 60 <= seconds < d * 86400 + h * 3600 + m * 60 + 60
      && r == UptimeText(d, h, m)
  {
    var days := seconds / 86400;
    var hours := (seconds % 86400) / 3600;
    var minutes := (seconds % 3600) / 60;
    assert seconds % 3600 == (seconds % 86400) % 3600;
    UptimeText(days, hours, minutes)
  }

  function UptimeText(d: nat, h: nat, m: nat): string {
    NatToString(d) + "d " + NatToString(h) + "h " + NatToString(m) + "m"
  }

  /** The days, hours and minutes are determined by `seconds`: no other split is rendered. */
  lemma UptimeSplitUnique(seconds: nat, d: nat, h: nat, m: nat)
    requires h < 24 && m < 60
    requires d * 86400 + h * 3600 + m * 60 <= seconds < d * 86400 + h * 3600 + m * 60 + 60
    ensures d == seconds / 86400 && h == (seconds % 86400) / 3600 && m == (seconds % 3600) / 60
  {
    var q := seconds / 60;
    assert q == d * 1440 + h * 60 + m;
    assert seconds / 86400 == q / 1440;
    assert seconds % 3600 == (seconds % 86400) % 3600;
  }

  // ---------------------------------------------------------------------------
  // Truncation, capitalisation, user lists
  // ---------------------------------------------------------------------------

  /** The default `maxLength` of `truncateText`. */
  const DefaultTruncateLength := 100

  /**
   * `truncateText(text, maxLength)`: the text itself when it fits; otherwise
   * its first `maxLength - 3` characters (none when that is negative,
   * as `substring` clamps) followed by '...'.
   */
  function TruncateText(text: string, maxLength: int): (r: string)
    ensures |text| <= maxLength ==> r == text
    ensures |text| > maxLength ==> r == text[..if maxLength >= 3 then maxLength - 3 else 0] + "..."
  {
    if |text| <= maxLength then text
    else text[..if maxLength >= 3 then maxLength - 3 else 0] + "..."
  }

  /** A truncated text has exactly `maxLength` characters when `maxLength` is at least 3, and never more than three when it is less. */
  lemma TruncateTextLength(text: string, maxLength: int)
    ensures |TruncateText(text, maxLength)| <= if maxLength >= 3 then maxLength else 3
    ensures |text| > maxLength >= 3 ==> |TruncateText(text, maxLength)| == maxLength
  {
  }

  /** Truncating twice to the same length changes nothing more. */
  lemma TruncateTextIdempotent(text: string, maxLength: int)
    ensures TruncateText(TruncateText(text, maxLength), maxLength) == TruncateText(text, maxLength)
  {
  }

  /** `capitalizeFirst(s)`: the first character upper-cased, the rest unchanged. */
  function CapitalizeFirst(s: string): (r: string)
    ensures |r| == |s|
    ensures s != [] ==> r[0] == UpperChar(s[0]) && r[1..] == s[1..]
  {
    if s == [] then "" else [UpperChar(s[0])] + s[1..]
  }

  /** The default separator of `formatUserList`. */
  const DefaultUserListSeparator := ", "

  /** `formatUserList(users, separator)`: one mention per id, in order, joined by the separator. */
  function FormatUserList(users: seq<string>, separator: string): (r: string)
    ensures users == [] ==> r == ""
    ensures |users| == 1 ==> r == Mention(users[0])
  {
    Join(Mentions(users), separator)
  }

  /** Adding an id at the end appends the separator and its mention. */
  lemma FormatUserListSnoc(users: seq<string>, u: string, separator: string)
    requires users != []
    ensures FormatUserList(users + [u], separator) == FormatUserList(users, separator) + separator + Mention(u)
  {
    assert Mentions(users + [u]) == Mentions(users) + [Mention(u)];
    JoinSnoc(Mentions(users), Mention(u), separator);
  }

  /** The list is as long as the mentions plus one separator between neighbours. */
  lemma FormatUserListLength(users: seq<string>, separator: string)
    requires users != []
    ensures |FormatUserList(users, separator)| == TotalLength(Mentions(users)) + (|users| - 1) * |separator|
  {
    JoinLength(Mentions(users), separator);
  }
}
