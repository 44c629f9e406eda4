/** Input validators and the sanitiser of `utils/validation.js`. */
module Validation {
  import opened Wrappers
  import opened Text

  // ---------------------------------------------------------------------------
  // sanitizeInput
  // ---------------------------------------------------------------------------

  /** `s.slice(0, end)`: a negative `end` counts from the end of `s`. */
  function SlicePrefix(s: string, end: int): (r: string)
    ensures end >= 0 ==> r == s[..if end < |s| then end else |s|]
    ensures end < 0 ==> r == s[..if |s| + end > 0 then |s| + end else 0]
  {
    if end >= 0 then s[..if end < |s| then end else |s|]
    else s[..if |s| + end > 0 then |s| + end else 0]
  }

  /** `sanitizeInput(input, maxLength)`: '' for a missing or empty input, otherwise the trimmed input cut to `maxLength`. */
  function SanitizeInput(input: Option<string>, maxLength: int): (r: string)
    ensures !Truthy(input) ==> r == ""
    ensures Truthy(input) ==> r == SlicePrefix(Trim(input.value), maxLength)
  {
    if !Truthy(input) then "" else SlicePrefix(Trim(input.value), maxLength)
  }

  /** The default `maxLength` of `sanitizeInput`. */
  const DefaultMaxLength := 200

  /** The sanitised text is a prefix of the trimmed input and no longer than `maxLength`. */
  lemma SanitizeBounds(input: Option<string>, maxLength: nat)
    ensures var r := SanitizeInput(input, maxLength);
      |r| <= maxLength && (Truthy(input) ==> r <= Trim(input.value))
  {
  }

  /** Input without surrounding whitespace that already fits is returned unchanged. */
  lemma SanitizeUnchanged(s: string, maxLength: nat)
    requires |s| <= maxLength
    requires s != [] ==> !IsJsWhitespace(s[0]) && !IsJsWhitespace(s[|s| - 1])
    ensures SanitizeInput(Some(s), maxLength) == s
  {
    TrimUnchanged(s);
  }

  // ---------------------------------------------------------------------------
  // validateSeason
  // ---------------------------------------------------------------------------

  /** `validateSeason(season)` is truthy exactly for strings of 1 to 20 characters. */
  predicate ValidateSeason(season: Option<string>) {
    season.Some? && 1 <= |season.value| <= 20
  }

  // ---------------------------------------------------------------------------
  // Regular-expression validators
  // ---------------------------------------------------------------------------

  predicate IsHexDigit(c: char) {
    IsDigit(c) || 'a' <= c <= 'f' || 'A' <= c <= 'F'
  }

  /** `/^#[0-9A-F]{6}$/i`. */
  predicate IsValidHexColor(color: string) {
    |color| == 7 && color[0] == '#' && forall i :: 1 <= i < 7 ==> IsHexDigit(color[i])
  }

  /** `/^[A-Z0-9]{2,10}$/i`. */
  predicate IsValidLeagueAbbr(abbr: string) {
    2 <= |abbr| <= 10 && forall i :: 0 <= i < |abbr| ==> IsAsciiAlphanumeric(abbr[i])
  }

  /** The hour alternative `([0-1]?[0-9]|2[0-3])`. */
  predicate ValidHourText(h: string) {
    || (|h| == 1 && IsDigit(h[0]))
    || (|h| == 2 && (h[0] == '0' || h[0] == '1') && IsDigit(h[1]))
    || (|h| == 2 && h[0] == '2' && '0' <= h[1] <= '3')
  }

  /** The tail `\s?(AM|PM|am|pm)?`. */
  predicate ValidTimeSuffix(t: string) {
    var meridiems := ["AM", "PM", "am", "pm"];
    || t == ""
    || (|t| == 1 && IsJsWhitespace(t[0]))
    || t in meridiems
    || (|t| == 3 && IsJsWhitespace(t[0]) && t[1..] in meridiems)
  }

  /** The text matches the hour, minutes and suffix with the colon at index `k`. */
  predicate TimeMatchAt(time: string, k: nat) {
    && (k == 1 || k == 2)
    && k + 3 <= |time|
    && ValidHourText(time[..k])
    && time[k] == ':'
    && '0' <= time[k + 1] <= '5'
    && IsDigit(time[k + 2])
    && ValidTimeSuffix(time[k + 3..])
  }

  /** `/^([0-1]?[0-9]|2[0-3]):[0-5][0-9]\s?(AM|PM|am|pm)?$/`. */
  predicate IsValidTimeFormat(time: string) {
    TimeMatchAt(time, 1) || TimeMatchAt(time, 2)
  }

  // ---------------------------------------------------------------------------
  // What the validators accept
  // ---------------------------------------------------------------------------

  /** Upper- or lower-casing never changes whether a colour is valid (the `i` flag). */
  lemma HexColorCaseInsensitive(color: string)
    ensures IsValidHexColor(ToUpper(color)) <==> IsValidHexColor(color)
    ensures IsValidHexColor(ToLower(color)) <==> IsValidHexColor(color)
  {
    assert forall i :: 0 <= i < |color| ==> (IsHexDigit(UpperChar(color[i])) <==> IsHexDigit(color[i]));
    assert forall i :: 0 <= i < |color| ==> (IsHexDigit(LowerChar(color[i])) <==> IsHexDigit(color[i]));
  }

  /** Upper- or lower-casing never changes whether an abbreviation is valid (the `i` flag). */
  lemma LeagueAbbrCaseInsensitive(abbr: string)
    ensures IsValidLeagueAbbr(ToUpper(abbr)) <==> IsValidLeagueAbbr(abbr)
    ensures IsValidLeagueAbbr(ToLower(abbr)) <==> IsValidLeagueAbbr(abbr)
  {
    assert forall i :: 0 <= i < |abbr| ==> (IsAsciiAlphanumeric(UpperChar(abbr[i])) <==> IsAsciiAlphanumeric(abbr[i]));
    assert forall i :: 0 <= i < |abbr| ==> (IsAsciiAlphanumeric(LowerChar(abbr[i])) <==> IsAsciiAlphanumeric(abbr[i]));
  }

  /** The hour read from an accepted time. */
  function HourOf(time: string, k: nat): nat
    requires TimeMatchAt(time, k)
  {
    DigitsValue(time[..k])
  }

  /** The minutes read from an accepted time. */
  function MinuteOf(time: string, k: nat): nat
    requires TimeMatchAt(time, k)
  {
    DigitsValue(time[k + 1..k + 3])
  }

  /** Every accepted time reads as an hour in 0..23 and minutes in 0..59. */
  lemma AcceptedTimeInRange(time: string, k: nat)
    requires TimeMatchAt(time, k)
    ensures HourOf(time, k) <= 23
    ensures MinuteOf(time, k) <= 59
  {
    var h := time[..k];
    if k == 2 {
      assert h[..1][..0] == [];
      assert DigitsValue(h) == 10 * DigitsValue(h[..1]) + (h[1] as int - '0' as int);
    }
    var m := time[k + 1..k + 3];
    assert m[..1][..0] == [];
    assert DigitsValue(m) == 10 * DigitsValue(m[..1]) + (m[1] as int - '0' as int);
  }

  /** Two-digit rendering of a number below 100. */
  function TwoDigits(n: nat): (s: string)
    requires n < 100
    ensures |s| == 2
  {
    [DigitChar(n / 10), DigitChar(n % 10)]
  }

  /** Every hour 0..23 and minute 0..59, written 'H:MM' or 'HH:MM', with an optional space and AM/PM/am/pm, is accepted. */
  lemma EveryTimeAccepted(hour: nat, minute: nat, padded: bool, space: bool, suffix: string)
    requires hour <= 23 && minute <= 59
    requires suffix in ["", "AM", "PM", "am", "pm"]
    ensures var hh := if padded || hour >= 10 then TwoDigits(hour) else NatToString(hour);
      IsValidTimeFormat(hh + ":" + TwoDigits(minute) + (if space then " " else "") + suffix)
  {
    var hh := if padded || hour >= 10 then TwoDigits(hour) else NatToString(hour);
    var tail := (if space then " " else "") + suffix;
    var t := hh + ":" + TwoDigits(minute) + tail;
    var k := |hh|;
    assert t[..k] == hh;
    assert t[k + 3..] == tail;
    if !space {
      assert tail == suffix;
    } else if suffix == "" {
      assert tail == " ";
    } else {
      assert |tail| == 3 && tail[0] == ' ' && tail[1..] == suffix;
    }
    assert ValidTimeSuffix(tail);
    if |hh| == 2 {
      assert hh[0] == DigitChar(hour / 10);
    }
    assert TimeMatchAt(t, k);
  }

  /** Hours 24 and above are refused. */
  lemma LateHourRefused()
    ensures !IsValidTimeFormat("24:00")
    ensures !IsValidTimeFormat("7:60")
    ensures !IsValidTimeFormat("7:30 Pm")
  {
    assert "24:00"[..2] == "24";
    assert "7:60"[..1] == "7";
  }
}
