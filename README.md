# LockerRoom, modelled in Dafny

LockerRoom is a Discord bot for league teams. It keeps depth charts, player
contracts, lineups, game-time polls, championship rings and individual awards,
and it has a small set of moderation, owner and utility commands. This project
models the logic under the bot's slash-command handlers and `utils/` helpers,
with one Dafny module per source file:

- **Record keeping.** `/depthchart` (DepthChart), `/contract` (Contract),
  `/lineup` (Lineup), `/ring-add` (RingAdd), `/award` (Award), `/setup` (Setup)
  and `/gametime` (Gametime). Each store a command updates is a class with a
  `seq` or `map` field. Each handler is a method with the store in `modifies`.
  The method's contract states the reply and the new store for every guard the
  handler checks, in the handler's order.
- **Pure helpers.** Validation, Formatters, Attendance, Awards, LineupManager,
  Embeds, Permissions and Premium, plus Bold and BotStats.
- **Polls.** Gametime and Times: the option list, button ids, reactions and
  numbered lines.
- **Moderation decisions.** Moderation holds the eligibility chain shared by
  Timeout, Ban and AdminKick. Role and Unrole have their own chain.
- **Owner listing.** Guilds: a stable descending sort and pages of ten.

Shared pieces:

- Sorting: a stable insertion sort by an integer key, on sequences and in
  place on arrays.
- Text: ASCII case mapping, decimal rendering, `join`, ECMAScript `trim` and
  mentions.
- GuildData: the guild record and its store.
- Embeds: an embed as a plain record. A builder chain becomes a value, and a
  `setTimestamp()` call becomes a flag.
- Wrappers: `Option` and truthiness.
- Dispatcher: the answer of `index.js`, either the handler's embed or the
  '❌ Command failed.' text after a handler throws.

**Inputs.** Discord state arrives as parameters, named after what the handler
reads:

- whether the caller passes `hasManagerPerms` (the predicate itself is modelled
  in Permissions);
- role positions;
- whether a target is a member, and whether it is moderatable, bannable or
  kickable;
- the set of channels the bot can see, which for the awards channel means the
  channels `channels.fetch` resolves and the bot can post to;
- the set of users a fetch resolves;
- the clock `now` in milliseconds;
- the process uptime in seconds;
- the text `toLocaleString` produces (`formatCount`/`formatAmount`);
- the outcome of the guild-specific Discord calls (invite creation, failures).

A reply is the `Embed` (or text) the handler sends. Ephemerality is not
recorded.

**The persistence layer.** Its functions are referenced by `database.js` but
never defined there, so each store is given the semantics the handlers rely on.
These are assumptions of the model:

- `getDepthChart`/`getLineup`/`getPlayerContract`/`getLeagueByAbbr` find by
  key.
- `addPlayerToDepthChart` appends.
- `removePlayerFromDepthChart` and `removePlayerFromLineup` drop every entry of
  that user.
- `swapDepthChartPlayers(i, j)` exchanges two entries.
- `addPlayerToLineup` sets the user's position, appending a new user (edit calls
  it too).
- `createLineup` throws `DUPLICATE_LINEUP` on a taken name.
- `setPremium`, `setGuildChannel`, `setGuildRole` and `updateGuildSetup` change
  an existing guild only.
- `createGuild` upserts the name.
- `getLeagueByAbbr` returns one league record. `/gametime` reads its `_id` and
  `/ring-add` and `/award` read its `id`; the model takes both to be the same
  value, `League.id`. With the bare MongoDB driver a document has only `_id`,
  so the ring and award records would then carry no league at all.
- `addChampionshipRing` returns nothing when that (league, user, season)
  already has a ring.
- `addAward` returns nothing when that (league, user, award, season) already
  exists.

**An observation about `/setup`.** `/contract add` reads the `contract` channel
and tells the user to "run /setup" when it is missing. `/ring-add` and `/award`
read the `awards` channel. `/setup` never writes either key:
`Setup.SetupLeavesContractAndAwards` states this. The model follows the code.

**The three findings.** Each is modelled twice, as written and as intended:
- **`/depthchart promote` and `/lineup list`.** These handlers send the label
  and the bullet as the code writes them. `DepthChart.PromoteMovesUp` and
  `Lineup.ListLine` state the intended text.
- **`/contract add` and `/contract remove`.** As written, these fail before
  doing anything (`Contract.AddOrRemoveAsWritten`). The `ContractStore`
  methods model the handlers with the permission check they evidently
  intend.

## Model

| member | source | states |
|---|---|---|
| Validation.SanitizeInput | utils/validation.js:21-24 | '' for a missing or empty input; otherwise the trimmed input sliced to `maxLength`, a negative bound counting from the end as `slice` does |
| Validation.SanitizeBounds | utils/validation.js:21-24 | the sanitised text is a prefix of the trimmed input and at most `maxLength` long |
| Validation.SanitizeUnchanged | utils/validation.js:23 | input with no surrounding whitespace that fits is returned unchanged |
| Validation.HexColorCaseInsensitive | utils/validation.js:3-5 | the `i` flag: case mapping never changes acceptance of a colour |
| Validation.LeagueAbbrCaseInsensitive | utils/validation.js:26-29 | the `i` flag: case mapping never changes acceptance of an abbreviation |
| Validation.AcceptedTimeInRange | utils/validation.js:16-19 | every accepted time reads as hour 0..23 and minute 0..59 |
| Validation.EveryTimeAccepted | utils/validation.js:16-19 | conversely every hour 0..23 and minute 0..59, padded or not, with or without one space and AM/PM/am/pm, is accepted |
| Validation.LateHourRefused | utils/validation.js:18 | '24:00', '7:60' and the mixed-case suffix 'Pm' are refused |
| Formatters.Timestamp | utils/formatters.js:3-13 | `<t:N:style>` with N the floor of ms/1000 in decimal |
| Formatters.FormatDate | utils/formatters.js:3-5 | the 'F' timestamp markup |
| Formatters.FormatDateShort | utils/formatters.js:7-9 | the 'f' timestamp markup |
| Formatters.FormatRelativeTime | utils/formatters.js:11-13 | the 'R' timestamp markup |
| Formatters.TimestampSameSecond | utils/formatters.js:3-13 | two instants render alike exactly when they fall in the same second |
| Formatters.TimestampStylesDiffer | utils/formatters.js:3-13 | different styles never render alike |
| Formatters.FormatUptime | utils/formatters.js:15-20 | 'Xd Yh Zm' for some days, hours < 24 and minutes < 60 that account for all but the last partial minute |
| Formatters.UptimeSplitUnique | utils/formatters.js:16-18 | that split is unique: it is s div 86400, (s mod 86400) div 3600 and (s mod 3600) div 60 |
| Formatters.TruncateText | utils/formatters.js:22-25 | the text when it fits; otherwise its first maxLength-3 characters (none when negative) and '...' |
| Formatters.TruncateTextLength | utils/formatters.js:24 | the truncated text is exactly maxLength long when maxLength >= 3 |
| Formatters.TruncateTextIdempotent | utils/formatters.js:22-25 | truncating twice changes nothing more |
| Formatters.CapitalizeFirst | utils/formatters.js:27-29 | same length, first character upper-cased, the rest unchanged; empty stays empty |
| Formatters.FormatUserList | utils/formatters.js:31-33 | '' for no users, a single mention for one |
| Formatters.FormatUserListSnoc | utils/formatters.js:31-33 | one more user appends the separator and its mention, so mentions keep input order |
| Formatters.FormatUserListLength | utils/formatters.js:31-33 | length is the mentions plus one separator between neighbours |
| Text.Trim | utils/validation.js:23 | `trim` yields an infix of the input with no ECMAScript whitespace at either end, and everything it drops before and after that infix is whitespace |
| Text.ToUpper | commands/depthchart.js:148 | upper-cases exactly the ASCII lower-case letters, keeping the length |
| Text.ToUpperIdempotent | commands/gametime.js:53 | upper-casing an upper-cased abbreviation changes nothing |
| Text.NatToStringRoundTrip | commands/guilds.js:79-80 | the decimal rendering of a number reads back as that number |
| Text.JoinSnoc | utils/lineupManager.js:20 | `join` of one more part appends the separator and the part |
| Text.JoinContains | commands/gametime.js:84 | every part occurs in the join |
| Sorting.InsertionSortBy | utils/lineupManager.js:49-53 | the in-place sort leaves the array equal to the stable sort `SortBy` of its old contents |
| Sorting.SortByPermutes | utils/lineupManager.js:49-53 | the sort is a permutation of its input |
| Sorting.SortBySorted | utils/lineupManager.js:49-53 | after the sort the keys never decrease |
| Sorting.SortByStable | utils/lineupManager.js:49-53 | elements with equal keys keep their input order (ECMAScript's `sort` is stable) |
| LineupManager.PositionRank | utils/lineupManager.js:25-47 | ranks are 1..15 from the table, unknown positions 99 |
| LineupManager.RankIgnoresCase | utils/lineupManager.js:50-51 | the rank is looked up by lower-cased position |
| LineupManager.SortPlayersByPosition | utils/lineupManager.js:49-53 | sorts the passed array in place by rank and returns that same array |
| LineupManager.SortedPlayersProperties | utils/lineupManager.js:49-53 | the result is a permutation, nondecreasing in rank, and stable among equal ranks ('sub'/'backup' and unknown positions) |
| LineupManager.FindPosition | utils/lineupManager.js:9-13 | none iff no player has the id; otherwise the position of the first match |
| LineupManager.GetPlayerPosition | utils/lineupManager.js:9-13 | an absent or empty list gives none, as does no match |
| LineupManager.PlayerLines | utils/lineupManager.js:20 | one '**POS:** <@id>' line per player, in order |
| LineupManager.FormatLineupPlayers | utils/lineupManager.js:15-21 | the placeholder for a missing or empty list, otherwise the player lines joined by newlines |
| LineupManager.FormatLineupPlayersPlaceholderIff | utils/lineupManager.js:16-18 | the placeholder appears exactly when there is no player |
| LineupManager.FormatLineupPlayersSnoc | utils/lineupManager.js:20 | one more player appends one line at the end |
| LineupManager.IsLineupFullMonotone | utils/lineupManager.js:61-63 | a full lineup stays full with one more player and for every smaller limit |
| LineupManager.NoPlayerListNeverFull | utils/lineupManager.js:62 | without a player list a lineup is never full, even for limit 0 |
| Attendance.WithResponse | utils/attendance.js:11-19 | the records with that response, no more than the input |
| Attendance.WithResponseAppend | utils/attendance.js:11-19 | a bucket keeps input order: it distributes over concatenation, and one record is kept exactly when it has that response |
| Attendance.GroupAttendanceByResponse | utils/attendance.js:4-22 | the one-pass loop builds exactly the three filtered buckets |
| Attendance.BucketCounts | utils/attendance.js:11-19 | a record is in the bucket of its response as often as in the input, and in no other |
| Attendance.BucketsPartition | utils/attendance.js:4-22 | the three buckets and the unknown responses together are as long as the input |
| Attendance.BucketsBounded | utils/attendance.js:4-22 | the buckets together never hold more than the input |
| Attendance.FormatBucket | utils/attendance.js:25-35 | 'None yet' for an empty bucket, otherwise the mentions joined by ', ' |
| Attendance.FormatBucketNoneIff | utils/attendance.js:25-35 | 'None yet' appears exactly for an empty bucket |
| Attendance.FormatAttendanceEmbed | utils/attendance.js:24-43 | one text per bucket and totalResponses the sum of the bucket sizes |
| Attendance.TotalResponsesCountsKnown | utils/attendance.js:41 | the total is the input length minus the unknown responses |
| Attendance.PollEmbed.UpdateGametimeMessage | utils/attendance.js:45-56 | overwrites only the values of fields 0, 1 and 2, with attending, maybe and not attending; fails with fewer than three fields |
| Awards.FormatRingDisplay | utils/awards.js:4-6 | the ring line, with ' (vs X)' only for an opponent |
| Awards.AwardDisplaySeasons | utils/awards.js:8-10 | an award line ends with its season, and two lines for the same award and league are equal exactly when their seasons are |
| Awards.CountTotal | utils/awards.js:12-18 | 0 for a missing list, else its length |
| Awards.AddToFacts | utils/awards.js:24-28 | one push adds the item to its league's bucket only, creating the key when new |
| Awards.GroupedByPartitions | utils/awards.js:20-42 | each bucket is its league's items in input order, the keys are exactly the leagues present, and bucket sizes sum to the input length |
| Awards.GroupByLeague | utils/awards.js:20-42 | the reduce loop builds that grouping; a missing list gives {} |
| Awards.GenerateAwardSummary | utils/awards.js:44-64 | the placeholder for no rings and no awards; otherwise the ring line, a newline only between the two, and the award line |
| Awards.SummaryPlaceholderIff | utils/awards.js:48-50 | the placeholder appears exactly when both counts are 0 |
| Awards.PluralIff | utils/awards.js:55-60 | the plural 's' appears exactly when the count exceeds one |
| Embeds.CreateEmbed | utils/embeds.js:7-13 | title, description, default colour 0x5865F2, timestamp, no fields |
| Embeds.StatusEmbedsDistinct | utils/embeds.js:16-26 | the three kinds never coincide, and each determines its title and description |
| Embeds.LineupEmbed | utils/embeds.js:46-64 | description only for a truthy description; one 'Players' field with the player lines or the placeholder |
| Embeds.GametimeEmbed | utils/embeds.js:67-74 | the game time as 'F' markup of its second and the footer 'Pinging: @role' |
| Embeds.RingLines | utils/embeds.js:91 | one '💍 league season' line per ring |
| Embeds.AwardLines | utils/embeds.js:98 | one '🏆 award' line per award |
| Embeds.AwardsEmbed | utils/embeds.js:77-103 | 'No awards yet.' and no fields when both lists are empty or missing; otherwise a Rings field iff rings, an Awards field iff awards, Rings first |
| GuildData.NewGuild | utils/premium.js:7 | a new guild has no premium, no expiry, no setup and no configuration |
| GuildData.GetGuild | utils/permissions.js:40-41 | the record iff the guild was created |
| GuildData.GetLeagueByAbbr | commands/gametime.js:60-61 | the league iff one is stored under the abbreviation |
| GuildData.WithPremium | utils/premium.js:14 | `setPremium` changes only the premium state of an existing guild |
| GuildData.WithPremiumIdempotent | utils/premium.js:74-77 | writing the same premium state twice equals writing it once |
| GuildData.GuildStore.CreateGuild | commands/setup.js:56 | upserts the name, keeping the rest of an existing guild |
| GuildData.GuildStore.SetPremium | utils/premium.js:14 | the store after `setPremium` |
| GuildData.GuildStore.SetGuildChannel | commands/setup.js:80-95 | one channel key of an existing guild |
| GuildData.GuildStore.SetGuildRole | commands/setup.js:98-113 | one role key of an existing guild |
| GuildData.GuildStore.UpdateGuildSetup | commands/setup.js:116 | the setup flag of an existing guild |
| Permissions.ManagerPermsImplyStaffPerms | utils/permissions.js:32-37 | manager permissions give staff permissions |
| Permissions.StaffRoleAloneIsStaffOnly | utils/permissions.js:18-37 | the staff role alone gives staff and not manager permissions |
| Permissions.UnconfiguredRolesGrantNothing | utils/permissions.js:12-30 | with neither role configured both levels reduce to owner or administrator |
| Permissions.NoOwnerWhenUnset | utils/permissions.js:4-6 | an unset owner id makes nobody owner |
| Permissions.CheckPremiumEarlier | utils/permissions.js:39-50 | premium at an instant holds at every earlier one |
| Permissions.LifetimePremiumNeverLapses | utils/permissions.js:45 | premium without expiry holds at every instant |
| Permissions.SetupCompletionPasses | utils/permissions.js:52-55 | a completed setup passes `requireSetup`; a missing guild never does |
| Premium.CeilDiv | utils/premium.js:42 | `Math.ceil(a / b)` is the q with (q-1)·b < a ≤ q·b |
| Premium.AfterPremiumCheck | utils/premium.js:10-16 | a lapsed premium is revoked (flag false, no expiry); anything else changes nothing |
| Premium.IsPremiumGuild | utils/premium.js:5-20 | answers premium-and-expiry-not-before-now and leaves the store as AfterPremiumCheck says |
| Premium.PremiumCheckStable | utils/premium.js:5-20 | asking again at the same instant gives the same answer and writes nothing more |
| Premium.PremiumCheckLocal | utils/premium.js:14 | the revocation touches only the guild asked about |
| Premium.PremiumChecksAgreeOffBoundary | utils/premium.js:12 | `isPremiumGuild` and `checkPremium` disagree exactly when the expiry equals now |
| Premium.GetPremiumStatus | utils/premium.js:22-49 | {false, null, null}, {true, null, null} for lifetime, or the expiry with daysRemaining the ceiling of the remaining days and isPremium iff expiry > now |
| Premium.DaysRemainingPositiveIffActive | utils/premium.js:42-45 | a dated premium is active exactly while daysRemaining > 0 |
| Premium.GrantExpiry | utils/premium.js:63-68 | no expiry without a duration, else now plus that many days |
| Premium.GrantPremium | utils/premium.js:62-72 | stores premium with that expiry and reports success |
| Premium.GrantActivates | utils/premium.js:62-72 | after a grant premium holds iff lifetime or a positive number of days |
| Premium.RevokePremium | utils/premium.js:74-77 | stores no premium and no expiry and reports success |
| Premium.RevokeDeactivates | utils/premium.js:74-77 | after a revocation no check counts the guild as premium |
| Premium.FormatPremiumExpiry | utils/premium.js:79-83 | 'Lifetime Premium' for no expiry, else the 'F' markup |
| Premium.FormatPremiumExpiryDistinguishes | utils/premium.js:79-83 | a dated expiry never reads as lifetime; two read alike iff same second |
| DepthChart.PlayersOf | commands/depthchart.js:206 | an absent player list reads as empty |
| DepthChart.IndexOf | commands/depthchart.js:294 | `findIndex`: -1 iff absent, otherwise the first index of the user |
| DepthChart.IndexOfUnique | commands/depthchart.js:294 | without repeats the index of an element is its position |
| DepthChart.Swap | commands/depthchart.js:308 | the two entries trade places, the rest and the multiset are unchanged |
| DepthChart.SwapKeepsNoDuplicates | commands/depthchart.js:308-369 | a swap keeps a chart free of repeats |
| DepthChart.Without | commands/depthchart.js:250 | the user is gone and every other user occurs as before |
| DepthChart.SnocNoDuplicates | commands/depthchart.js:204 | appending a new user keeps the chart free of repeats |
| DepthChart.WithoutFacts | commands/depthchart.js:244-250 | removal of a listed user shortens the chart by one |
| DepthChart.PromoteLabelAsWritten | commands/depthchart.js:310-316 | the promotion label as written: ABBR(i+2) → ABBR(i+1) |
| DepthChart.DemoteLabel | commands/depthchart.js:371-377 | ABBR(i+1) → ABBR(i+2) |
| DepthChart.PromoteLabelAsWrittenIsOffByOne | commands/depthchart.js:310-316 | for a player moving from 2nd to 1st the written label starts '**QB3' and the corrected one '**QB2', so the two differ |
| DepthChart.PromoteMovesUp | commands/depthchart.js:294-316 | a promotion moves the player up one place and the corrected label names its 1-based places before and after |
| DepthChart.DemoteMovesDown | commands/depthchart.js:355-377 | a demotion moves the player down one place and the label names its places before and after |
| DepthChart.ListingEmptyIff | commands/depthchart.js:411-424 | the listing is empty (so '• No players found' is shown) iff no player resolves |
| DepthChart.ListingPrefix | commands/depthchart.js:413-420 | the text only grows along the loop |
| DepthChart.ListingShowsPosition | commands/depthchart.js:413-420 | every resolvable player appears at its list index + 1, skipped users not renumbering the rest |
| DepthChart.DepthChartStore.Create | commands/depthchart.js:139-175 | refused without manager perms; the upper-cased abbreviation refused when taken; otherwise a new empty chart |
| DepthChart.DepthChartStore.Add | commands/depthchart.js:177-221 | refuses a missing chart or a listed user; otherwise appends and reports position previous length + 1 |
| DepthChart.DepthChartStore.Remove | commands/depthchart.js:223-265 | refuses a missing chart or an unlisted user; otherwise removes only that user |
| DepthChart.DepthChartStore.Promote | commands/depthchart.js:267-326 | refuses an empty chart, an absent user or the top player; otherwise swaps i and i-1, replying with the label as written |
| DepthChart.DepthChartStore.Demote | commands/depthchart.js:328-387 | refuses an empty chart, an absent user or the last player; otherwise swaps i and i+1 |
| DepthChart.DepthChartStore.Post | commands/depthchart.js:389-442 | not found, the empty-chart reply, or the chart embed with the listing or '• No players found' |
| DepthChart.DepthChartStore.Delete | commands/depthchart.js:444-479 | drops the chart and reports how many players it had |
| Contract.FindContract | commands/contract.js:107 | none iff no contract of that user, else one of theirs |
| Contract.WithoutUser | commands/contract.js:240 | the contracts of every other user |
| Contract.SnocOnePerUser | commands/contract.js:107-156 | appending for a user without a contract keeps one contract per user |
| Contract.WithoutUserOnePerUser | commands/contract.js:240 | removal keeps one contract per user |
| Contract.WithoutUserKeepsOthers | commands/contract.js:240 | removal leaves every other user's contract as it was |
| Contract.FindAppend | commands/contract.js:156 | lookup after an appended contract |
| Contract.ContractEmbed | commands/contract.js:114-150 | the announcement with its eight fields, Paid always '❌ **NO**' |
| Contract.WithPaid | commands/contract.js:274-276 | the contracts with that paid flag, no more than the input |
| Contract.WithPaidAppend | commands/contract.js:274-276 | the selection keeps input order: it distributes over concatenation, and one contract is kept exactly when its flag is the one wanted |
| Contract.Filtered | commands/contract.js:258-277 | 'unpaid' keeps the unpaid, 'paid' the paid, anything else everything |
| Contract.PaidSplit | commands/contract.js:272-277 | the paid and unpaid selections split the contracts |
| Contract.TotalsSplitListed | commands/contract.js:290-305 | each listed contract adds its amount to exactly one total |
| Contract.SelectionHasOneTotal | commands/contract.js:273-305 | a selection by flag has nothing in the other total |
| Contract.UnresolvedAddNothing | commands/contract.js:290-305 | contracts whose user cannot be fetched add no text and nothing to either total |
| Contract.AddOrRemoveAsWritten | commands/contract.js:73 | as written `hasCoachPerms` is undefined, so add and remove throw before any step and the dispatcher answers '❌ Command failed.' |
| Contract.AddAsWrittenStoresNothing | index.js:61-88 | as written, the add stores nothing and replies only the failure text |
| Contract.ContractStore.Add | commands/contract.js:72-202 | refused without coach perms; no configured contract channel, then a missing channel, are refused before the existing-contract check; otherwise an unpaid contract with upper-cased position and default terms is appended and announced |
| Contract.ContractStore.Append | commands/contract.js:107-166 | a user who already has a contract is refused and nothing changes; otherwise exactly the new contract is appended, one per user kept, and announced |
| Contract.ContractStore.Remove | commands/contract.js:204-255 | refuses a user without a contract; otherwise removes exactly that contract |
| Contract.ContractStore.Post | commands/contract.js:257-332 | 'No Contracts' for none or none after filtering; otherwise the listed text, the paid and unpaid totals of listed contracts and the count of all filtered ones |
| Contract.ContractStore.Tally | commands/contract.js:287-305 | the loop builds the listed text and the unpaid and paid totals |
| Lineup.Matching | commands/lineup.js:115-116 | exactly the lineups whose name contains the text ignoring case |
| Lineup.MatchingAppend | commands/lineup.js:115-116 | the suggestions keep the lineups' order: the selection distributes over concatenation, and one lineup is kept exactly when its name matches |
| Lineup.Choices | commands/lineup.js:118-121 | one choice per lineup with its name as label and value |
| Lineup.Autocomplete | commands/lineup.js:107-124 | [] without lineups; at most 25 choices, the first 25 matches |
| Lineup.AutocompleteSound | commands/lineup.js:115-121 | every suggestion names a matching lineup, and all matches are suggested when at most 25 |
| Lineup.EmptyTextMatchesAll | commands/lineup.js:116 | an empty text matches every lineup |
| Lineup.Gate | commands/lineup.js:130-137 | a refusal iff the subcommand is create/add/remove/edit/delete/post and the caller is not a manager |
| Lineup.GateOpenings | commands/lineup.js:130-137 | view and list are open to all; a manager passes every subcommand |
| Lineup.UpsertFacts | commands/lineup.js:212-253 | after the upsert the user has the position, every other user keeps theirs, a new user is appended at the end and a listed one is updated in place |
| Lineup.RemovePlayer | commands/lineup.js:232 | the user no longer has a position |
| Lineup.RemovePlayerKeepsOthers | commands/lineup.js:232 | every other user's position is unchanged |
| Lineup.BulletIsMisdecoded | commands/lineup.js:285 | the written bullet is the UTF-8 bytes of U+2022 read as Windows-1252 |
| Lineup.ListLine | commands/lineup.js:285 | '• **name**', with ' - description' only for a truthy description |
| Lineup.ListLineDiffersInBullet | commands/lineup.js:285 | the written line differs from the corrected one exactly in the bullet |
| Lineup.ListLines | commands/lineup.js:285 | one corrected line per lineup, in order |
| Lineup.ListLinesAsWritten | commands/lineup.js:285 | one line per lineup, in order: the corrected line with the written bullet in its place |
| Lineup.IndexOfName | commands/lineup.js:201 | the lookup by name: -1 iff no lineup has that name |
| Lineup.LineupStore.Create | commands/lineup.js:168-193 | name sanitised to 50, description to 200; a taken name gives 'Lineup Exists'; otherwise a new empty lineup |
| Lineup.LineupStore.SetPosition | commands/lineup.js:196-253 | lineup name sanitised to 200, position to 50 and upper-cased; upsert only into an existing lineup |
| Lineup.LineupStore.Add | commands/lineup.js:195-217 | not found, or the upsert and 'Player Added' |
| Lineup.LineupStore.Edit | commands/lineup.js:239-258 | the same store change as add, with 'Position Updated' |
| Lineup.LineupStore.Remove | commands/lineup.js:219-237 | not found, or the user removed |
| Lineup.LineupStore.View | commands/lineup.js:260-273 | not found, or the lineup embed |
| Lineup.LineupStore.List | commands/lineup.js:275-290 | 'No Lineups' for none, else the lines with the written bullet joined by newlines |
| Lineup.LineupStore.Delete | commands/lineup.js:292-309 | not found, or the lineup removed and the others kept |
| Lineup.LineupStore.Post | commands/lineup.js:311-331 | not found, or the lineup embed sent to the chosen channel or the current one |
| Lineup.DeleteKeepsUniqueNames | commands/lineup.js:304 | deleting a lineup keeps names unique |
| Gametime.Given | commands/gametime.js:75-76 | the truthy options, in order |
| Gametime.GivenAppend | commands/gametime.js:74-76 | the options of a concatenation are those of each part in turn |
| Gametime.GivenKeepsTruthy | commands/gametime.js:75-76 | every truthy option is kept |
| Gametime.TimeOptions | commands/gametime.js:74-76 | time1, then time2 and time3 only when given: 1 to 3 entries, time1 first |
| Gametime.Buttons | commands/gametime.js:91-97 | button i has id 'gametime_i', label option i and emoji (i+1)️⃣ |
| Gametime.ButtonIdsDistinct | commands/gametime.js:93 | distinct buttons have distinct ids |
| Gametime.OptionLines | commands/gametime.js:84 | one '(i+1)️⃣ option' line per option, in order |
| Gametime.PollDescriptionListsOptions | commands/gametime.js:81-86 | every option's numbered line occurs in the description |
| Gametime.PollEmbed | commands/gametime.js:79-88 | the poll title, description and default colour |
| Gametime.GametimeStore.Execute | commands/gametime.js:39-138 | permission first, then the upper-cased league lookup; only then the poll is sent and exactly one record is stored under the reply's message id, with a follow-up depending on premium |
| Times.EmojisAreNumbered | commands/times.js:73 | reaction i is the numbered emoji of option i |
| Times.TimesDescription | commands/times.js:66 | the custom paragraph appears only when non-empty |
| Times.Execute | commands/times.js:43-82 | a permission failure posts nothing; otherwise the given times in order, one reaction per option from the emoji list, league defaulting to 'Game' and 'Time poll posted!' |
| Times.TimesCount | commands/times.js:14-61 | with the two required times, 2 to 5 options |
| RingAdd.Present | commands/ring-add.js:97-103 | exactly the given players, no more than the options |
| RingAdd.PresentAppend | commands/ring-add.js:97-103 | the players keep option order, repeats included: the selection distributes over concatenation, and one option contributes its value exactly when present |
| RingAdd.Grant | commands/ring-add.js:112-132 | one line per player; the new records are exactly the grants; a player gets a ring iff not already holding one |
| RingAdd.GrantPrefix | commands/ring-add.js:112-132 | granting to more players extends the results and the records |
| RingAdd.GrantLine | commands/ring-add.js:112-132 | line i is ✅ iff the player had no ring and was not earlier in the list |
| RingAdd.AwardsChannel | commands/ring-add.js:142-147 | no channel iff none is configured; posted to the configured channel iff Discord resolves it; rejected otherwise, since `channels.fetch` throws rather than returning nothing |
| RingAdd.CollectPlayers | commands/ring-add.js:97-103 | the loop collects player1..player10, skipping absent ones |
| RingAdd.RingStore.AddRing | commands/ring-add.js:115-123 | adds a record iff that ring is not yet held |
| RingAdd.RingStore.GrantAll | commands/ring-add.js:112-132 | the store and lines after the per-player loop |
| RingAdd.RingStore.Execute | commands/ring-add.js:66-155 | permission, then season validity, then league, then players; the final count is every player, including those who already had the ring; a rejected awards channel keeps the grants and answers the dispatcher's failure text |
| RingAdd.RingStore.Finish | commands/ring-add.js:112-153 | the store after the grants; the announcement in a resolved awards channel; the reply with the result lines, or the failure text when the channel is rejected |
| Award.Decide | commands/award.js:31-78 | permission, then season, then league, then the duplicate check, in that order |
| Award.AwardStore.AddAward | commands/award.js:63-72 | adds a record iff not already present |
| Award.AwardStore.Execute | commands/award.js:29-99 | award sanitised to 100, season to 20, league upper-cased; a duplicate yields 'Award Already Exists' and no announcement; the announcement only in a resolved awards channel; a rejected channel keeps the award and answers the failure text |
| Award.SecondAwardIsDuplicate | commands/award.js:73-78 | giving the same award twice makes the second a duplicate |
| Setup.Keys | commands/setup.js:80-113 | the keys the slots write |
| Setup.Summary | commands/setup.js:77-113 | one summary line per given option, in slot order |
| Setup.WrittenLeavesOthers | commands/setup.js:80-113 | a key no slot names is left unchanged |
| Setup.WrittenSlot | commands/setup.js:80-113 | each given slot writes exactly its key |
| Setup.WrittenSnoc | commands/setup.js:80-113 | one more slot writes one more key |
| Setup.SummarySnoc | commands/setup.js:80-113 | one more given slot adds one line at the end |
| Setup.Apply | commands/setup.js:80-95 | one given option writes its key and pushes its line |
| Setup.ApplyAll | commands/setup.js:80-113 | the writes and lines of a block of options |
| Setup.Configure | commands/setup.js:69-121 | 'No Changes' and no writes when no option is given; otherwise channels, then roles, then setup completed |
| Setup.Execute | commands/setup.js:50-127 | the guild is upserted before the options check; the store and reply as AfterSetup says |
| Setup.Run | commands/setup.js:56-121 | the record is upserted first; with no option 'No Changes' and nothing else written; otherwise the configuration |
| Setup.SetupLeavesContractAndAwards | commands/setup.js:80-95 | setup never writes the contract or awards channel |
| Setup.ChannelKeys | commands/setup.js:80-95 | the channel options write 'history', 'league_log', 'sign_request' and 'offer_accept', all different |
| Setup.RoleKeys | commands/setup.js:98-113 | the role options write four different keys |
| Moderation.Check | commands/timeout.js:27-87 | the refusals in order: permission, not a member, self, owner, target role ≥ caller's, ≥ bot's, not actionable |
| Moderation.CheckMonotone | commands/timeout.js:27-87 | more permission or position never adds a refusal |
| Moderation.TieRefused | commands/adminkick.js:59-72 | an equal role position is refused |
| Moderation.Reason | commands/timeout.js:36 | 'No reason provided' for a missing or empty reason |
| Timeout.DurationMs | commands/timeout.js:90 | minutes × 60000 |
| Timeout.DurationBounds | commands/timeout.js:90 | a duration of 1..40320 minutes is 60000..2419200000 ms |
| Timeout.FormatDurationRoundsDown | commands/timeout.js:94-98 | minutes below 60, floor hours below 1440, else floor days |
| Timeout.Execute | commands/timeout.js:27-146 | the check chain, the failure reply, or the timeout with its duration, audit reason and embed |
| Ban.DeleteDays | commands/ban.js:36 | delete_days defaults to 0 |
| Ban.DeleteMessageSeconds | commands/ban.js:112 | days × 86400 |
| Ban.DeleteWindow | commands/ban.js:112 | within the option's 0..7 the window is 0..604800 seconds |
| Ban.Execute | commands/ban.js:27-136 | checks with the non-member bypass, the failure reply, or the ban |
| Ban.NonMemberBypass | commands/ban.js:39-48 | a non-member is banned whatever the hierarchy checks would have said |
| AdminKick.Execute | commands/adminkick.js:21-124 | the chain with members required, the failure reply, or the kick with audit reason '<reason> \| Kicked by <tag>' |
| AdminKick.NonMemberNotFound | commands/adminkick.js:32-40 | a non-member gives 'User Not Found' |
| Role.Check | commands/role.js:25-52 | not a member, then role ≥ caller's, then ≥ bot's, then already has it |
| Role.Execute | commands/role.js:25-68 | refusals change nothing; otherwise exactly that role is added |
| Role.AlreadyHasRefused | commands/role.js:49-52 | a holder of the role is refused whatever the positions allow |
| Unrole.Execute | commands/unrole.js:25-68 | refusals change nothing; otherwise exactly that role is removed |
| Unrole.ExactlyOneApplies | commands/unrole.js:49-58 | of add and remove, exactly one passes the have-role check |
| Guilds.Entries | commands/guilds.js:32-66 | at most one entry per cached guild |
| Guilds.EntriesListProcessed | commands/guilds.js:32-66 | every guild processed without error is listed, and nothing else |
| Guilds.TotalCountsSkipped | commands/guilds.js:63-80 | 'Total Members' counts listed and skipped guilds alike |
| Guilds.ChunksFlatten | commands/guilds.js:72-75 | the chunks put back together are the list |
| Guilds.ChunksShape | commands/guilds.js:72-75 | every chunk has 1..10 entries, all but the last exactly 10, and there are ⌈n/10⌉ |
| Guilds.ListingShape | commands/guilds.js:69-75 | the pages list each processed guild once, largest first, ties in cache order |
| Guilds.CollectEntries | commands/guilds.js:32-66 | the first loop builds the entries |
| Guilds.ChunkList | commands/guilds.js:72-75 | the stepping loop builds the chunks |
| Guilds.BuildPages | commands/guilds.js:77-99 | one embed per chunk, titled and footed '(k+1)/total' |
| Guilds.SumMembers | commands/guilds.js:80 | the reduce over the whole cache |
| Guilds.Execute | commands/guilds.js:11-107 | owner-only; 'No Guilds' for an empty cache; otherwise the pages of the sorted listing |
| Bold.Utf16 | commands/bold.js:19-23 | `fromCodePoint`: one unit below U+10000, else a high and a low surrogate |
| Bold.Utf16RoundTrip | commands/bold.js:19-23 | the surrogate pair decodes back to its code point |
| Bold.BoldRanges | commands/bold.js:18-23 | A-Z map onto U+1D400..U+1D419, a-z onto U+1D41A..U+1D433, 0-9 onto U+1D7CE..U+1D7D7, in order; other units are kept |
| Bold.MapUnitShape | commands/bold.js:15-26 | an alphanumeric becomes the surrogate pair of its bold form; any other unit, including a surrogate half, passes through |
| Bold.BoldifyAppend | commands/bold.js:15-26 | the mapping works unit by unit, preserving order |
| Bold.BoldifyLength | commands/bold.js:15-26 | each letter or digit adds one code unit |
| Bold.BoldifyKeepsOthers | commands/bold.js:15-26 | input without ASCII letters or digits is returned unchanged |
| Bold.BoldIsNotInvertible | commands/bold.js:15-26 | 'A' and an already bold 'A' give the same output |
| BotStats.Execute | commands/botstats.js:13-42 | owner-only; otherwise the statistics embed |
| BotStats.UptimeField | commands/botstats.js:45-50 | the uptime field is 'Xd Yh Zm' with days s div 86400, hours (s mod 86400) div 3600 < 24 and minutes (s mod 3600) div 60 < 60, the same text as utils/formatters.js |

## Left out

- I/O and the platform: Discord replies, deferrals, ephemeral flags, direct
  messages (the gametime premium DM fan-out, the ring and award DMs), the
  interim 'Setting up...' reply, thumbnails and the catch-all error branches of
  the handlers. A failed Discord call appears only where it changes the reply
  (timeout, ban, kick, role, unrole, and the `/ring-add` and `/award`
  announcements, which fail the whole command).
- `index.js`, `test-login.js` and `database.js` plumbing. Only the dispatcher's
  failure reply is used, for the `/contract` finding and the rejected awards
  channel.
- `config.json` is not part of this model. The ring and trophy emojis and the
  primary colour are parameters.
- Commands outside the core: league management, premium commands, DM and voice
  fan-out, random numbers, coin flips, static embeds and single API calls.
- `isValidURL`, `parseTimeString`, `formatNumber`/`toLocaleString` (a
  parameter), `getPremiumFeatures`, `getPremiumPrice`, `validateLineupExists`
  and `getLineupPlayerCount`. These are foreign parsers or configuration reads,
  or single store reads.
- Text.ToUpper: models ASCII case mapping only, not full Unicode case mapping.
- Text.ToLower: lower-cases ASCII letters only, where `toLowerCase` maps every
  Unicode letter ('É' to 'é', the Kelvin sign U+212A to 'k').
- Lineup.Matching: matches names through Text.ToLower. For non-ASCII text the
  source may suggest a lineup the model does not (typed 'é' against 'Équipe').
- LineupManager.SortPlayersByPosition: ranks positions through Text.ToLower.
  A position that lower-cases to a table entry only by Unicode case mapping
  ('STREA' followed by U+212A becomes 'streak', rank 4) ranks 99 here.
- Formatters.CapitalizeFirst: upper-cases the first character by ASCII case mapping only, as Text.ToUpper does.
- LineupManager.PositionRank: ranks every position missing from the table 99. The source looks positions up in a plain object, so 'constructor' and '__proto__' find `Object.prototype` members instead. Their `|| 99` then does not apply, the comparator yields NaN, and such players end up in an order the engine chooses.
- Premium.GrantExpiry: models `setDate` as 86400000 ms per day and ignores
  daylight-saving changes.
- JavaScript lengths count UTF-16 units; every string here is a sequence of
  code points. Only Bold works on code units, where surrogates matter.
- The order of keys in a JavaScript object: integer-like league names would be
  listed first.
- Awards.GroupByLeague: groups every league name into its own bucket. The
  source reduces into a plain `{}`. There a league named after an
  `Object.prototype` member ('constructor', 'toString', 'valueOf',
  'hasOwnProperty', '__proto__' and the like) finds that member, so the
  `push` throws a TypeError.
- The `/depthchart` autocomplete and the contract announcement buttons.
- GuildData.GuildStore.CreateGuild: does not store the `createdAt: new Date()` that `createGuild` writes, because no handler reads it. The time an embed's `setTimestamp()` stamps is a flag, not a value. `/gametime` does store `now` as the poll's `createdAt`.
- BotStats.Execute: the uptime is whole seconds. `process.uptime()` is
  fractional, which the floors make irrelevant. The memory figure
  (`toFixed` of a float) is an input text.
- Guilds.Execute: a cache in which every guild fails processing gives an empty
  page list. The source then sends `[undefined]`, whose effect is not modelled.
- Discord-enforced option ranges (the minimum and maximum of integer options)
  are assumed, not checked.

## Findings

| source | as written | input that shows it | evidently intended | confidence | as-written member | corrected member |
|---|---|---|---|---|---|---|
| commands/depthchart.js:310-316 | the promotion reply labels the move ABBR(i+2) → ABBR(i+1) | promoting the second player of 'QB' says '**QB3** → **QB2**' | ABBR(i+1) → ABBR(i): 'QB2 → QB1' | high, not executed | DepthChart.PromoteLabelAsWrittenIsOffByOne | DepthChart.PromoteMovesUp |
| commands/contract.js:3, 73, 205 | `hasCoachPerms` is imported from utils/permissions.js, which does not export it, so add and remove throw | any `/contract add` or `/contract remove` | a staff-level check guarding the handlers | high, not executed | Contract.AddAsWrittenStoresNothing | Contract.ContractStore.Add |
| commands/lineup.js:285 | the list bullet is the three characters 'â€¢' | `/lineup list` with one lineup | the bullet '•' (U+2022), whose UTF-8 bytes read as Windows-1252 give those characters | high, not executed | Lineup.BulletIsMisdecoded | Lineup.ListLine |
