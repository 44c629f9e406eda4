/**
 * The `/depthchart` command of `commands/depthchart.js`: named, ordered player
 * lists of one guild, keyed by abbreviation. The caller's manager permission
 * and the set of user ids the client can resolve are parameters; every
 * handler returns the embed it replies with.
 */
module DepthChart {
  import opened Wrappers
  import opened Text
  import opened Embeds

  /** A stored depth chart: its name and its players' user ids, top first. */
  datatype Chart = Chart(name: string, players: Option<seq<string>>)

  /** The players of a chart, an absent list read as empty (`depthChart.players?.length || 0`). */
  function PlayersOf(c: Chart): (r: seq<string>)
    ensures c.players.Some? ==> r == c.players.value
    ensures c.players.None? ==> r == []
  {
    c.players.GetOr([])
  }

  /** No user occurs twice. */
  predicate NoDuplicates(s: seq<string>) {
    forall i, j :: 0 <= i < j < |s| ==> s[i] != s[j]
  }

  // ---------------------------------------------------------------------------
  // The list operations
  // ---------------------------------------------------------------------------

  /** `players.findIndex(p => p.userId === u)`: the first index of `u`, or -1. */
  function IndexOf(s: seq<string>, u: string): (r: int)
    ensures -1 <= r < |s|
    ensures r == -1 <==> u !in s
    ensures r >= 0 ==> s[r] == u && forall j :: 0 <= j < r ==> s[j] != u
  {
    if s == [] then -1
    else if s[0] == u then 0
    else
      var r := IndexOf(s[1..], u);
      if r == -1 then -1 else r + 1
  }

  /** In a list without repeats, the index of an element is its only position. */
  lemma IndexOfUnique(s: seq<string>, i: int)
    requires NoDuplicates(s) && 0 <= i < |s|
    ensures IndexOf(s, s[i]) == i
  {
  }

  /** `swapDepthChartPlayers(..., i, j)`: the players at `i` and `j` trade places. */
  function Swap(s: seq<string>, i: int, j: int): (r: seq<string>)
    requires 0 <= i < |s| && 0 <= j < |s|
    ensures |r| == |s| && r[i] == s[j] && r[j] == s[i]
    ensures forall k :: 0 <= k < |s| && k != i && k != j ==> r[k] == s[k]
    ensures multiset(r) == multiset(s)
  {
    s[i := s[j]][j := s[i]]
  }

  /** A swap adds and loses no player, so it keeps a list free of repeats. */
  lemma SwapKeepsNoDuplicates(s: seq<string>, i: int, j: int)
    requires 0 <= i < |s| && 0 <= j < |s| && NoDuplicates(s)
    ensures NoDuplicates(Swap(s, i, j))
  {
    var r := Swap(s, i, j);
    forall a, b | 0 <= a < b < |r| ensures r[a] != r[b] {
      var a' := if a == i then j else if a == j then i else a;
      var b' := if b == i then j else if b == j then i else b;
      assert r[a] == s[a'] && r[b] == s[b'] && a' != b';
    }
  }

  /** `removePlayerFromDepthChart(..., u)`: every entry of `u` goes, the others keep their order. */
  function Without(s: seq<string>, u: string): (r: seq<string>)
    ensures u !in r
    ensures forall x :: x != u ==> multiset(r)[x] == multiset(s)[x]
    ensures |r| <= |s|
  {
    if s == [] then []
    else
      var last := s[|s| - 1];
      assert s == s[..|s| - 1] + [last];
      Without(s[..|s| - 1], u) + (if last == u then [] else [last])
  }

  /** Appending a new element keeps a list free of repeats. */
  lemma SnocNoDuplicates(s: seq<string>, x: string)
    requires NoDuplicates(s) && x !in s
    ensures NoDuplicates(s + [x])
  {
  }

  /** Removal of a present, unrepeated user shortens the list by exactly one and keeps it free of repeats. */
  lemma {:induction false} WithoutFacts(s: seq<string>, u: string)
    requires NoDuplicates(s)
    ensures NoDuplicates(Without(s, u))
    ensures u in s ==> |Without(s, u)| == |s| - 1
    ensures u !in s ==> Without(s, u) == s
  {
    if s != [] {
      var init, last := s[..|s| - 1], s[|s| - 1];
      assert s == init + [last];
      assert NoDuplicates(init);
      assert last !in init;
      WithoutFacts(init, u);
      var w := Without(init, u);
      if last != u {
        assert multiset(w)[last] == 0;
        SnocNoDuplicates(w, last);
      }
    }
  }

  // ---------------------------------------------------------------------------
  // Move labels
  // ---------------------------------------------------------------------------

  /** `**ABBR{from}** → **ABBR{to}**`. */
  function MoveLabel(abbr: string, from: int, to: int): string {
    "**" + abbr + IntToString(from) + "** \U{2192} **" + abbr + IntToString(to) + "**"
  }

  /**
   * The promotion label as written: with `newPosition = i` and
   * `oldPosition = i + 1` it prints `oldPosition + 1` → `newPosition + 1`,
   * one more than the player's 1-based positions before and after.
   */
  function PromoteLabelAsWritten(abbr: string, i: int): (r: string)
    ensures r == MoveLabel(abbr, i + 2, i + 1)
  {
    var newPosition := i;
    var oldPosition := i + 1;
    MoveLabel(abbr, oldPosition + 1, newPosition + 1)
  }

  /** The promotion label as intended: from 1-based position `i + 1` up to `i`. */
  function PromoteLabel(abbr: string, i: int): string {
    MoveLabel(abbr, i + 1, i)
  }

  /** The demotion label: from 1-based position `i + 1` down to `i + 2`. */
  function DemoteLabel(abbr: string, i: int): (r: string)
    ensures r == MoveLabel(abbr, i + 1, i + 2)
  {
    var newPosition := i + 2;
    var oldPosition := i + 1;
    MoveLabel(abbr, oldPosition, newPosition)
  }

  /**
   * Promoting the second player of 'QB' announces QB3 → QB2, though the
   * player moves from QB2 to QB1.
   */
  lemma PromoteLabelAsWrittenIsOffByOne()
    ensures IndexOf(Swap(["a", "b"], 1, 0), "b") == 0
    ensures PromoteLabelAsWritten("QB", 1)[..5] == "**QB3"
    ensures PromoteLabel("QB", 1)[..5] == "**QB2"
    ensures PromoteLabelAsWritten("QB", 1) != PromoteLabel("QB", 1)
  {
    LabelStart("QB", 3, 2);
    LabelStart("QB", 2, 1);
    assert PromoteLabelAsWritten("QB", 1)[4] != PromoteLabel("QB", 1)[4];
  }

  /** A label from a one-digit position starts with `**`, the abbreviation and that digit. */
  lemma LabelStart(abbr: string, from: nat, to: int)
    requires from < 10
    ensures |MoveLabel(abbr, from, to)| > |abbr| + 2
    ensures MoveLabel(abbr, from, to)[..|abbr| + 3] == "**" + abbr + [DigitChar(from)]
  {
    var rest := "** \U{2192} **" + abbr + IntToString(to) + "**";
    assert MoveLabel(abbr, from, to) == ("**" + abbr + [DigitChar(from)]) + rest;
  }

  /**
   * A promotion moves the player up one place and the corrected label names
   * its 1-based positions before and after.
   */
  lemma PromoteMovesUp(s: seq<string>, u: string, abbr: string)
    requires NoDuplicates(s) && IndexOf(s, u) > 0
    ensures var i := IndexOf(s, u); var r := Swap(s, i, i - 1);
      IndexOf(r, u) == i - 1 && r[i] == s[i - 1]
      && PromoteLabel(abbr, i) == MoveLabel(abbr, IndexOf(s, u) + 1, IndexOf(r, u) + 1)
  {
    var i := IndexOf(s, u);
    SwapKeepsNoDuplicates(s, i, i - 1);
    IndexOfUnique(Swap(s, i, i - 1), i - 1);
  }

  /** A demotion moves the player down one place and the label names its positions before and after. */
  lemma DemoteMovesDown(s: seq<string>, u: string, abbr: string)
    requires NoDuplicates(s) && 0 <= IndexOf(s, u) < |s| - 1
    ensures var i := IndexOf(s, u); var r := Swap(s, i, i + 1);
      IndexOf(r, u) == i + 1 && r[i] == s[i + 1]
      && DemoteLabel(abbr, i) == MoveLabel(abbr, IndexOf(s, u) + 1, IndexOf(r, u) + 1)
  {
    var i := IndexOf(s, u);
    SwapKeepsNoDuplicates(s, i, i + 1);
    IndexOfUnique(Swap(s, i, i + 1), i + 1);
  }

  // ---------------------------------------------------------------------------
  // The posted listing
  // ---------------------------------------------------------------------------

  /** One line of the posted chart: `**ABBR{n}:** <@id>` and a newline. */
  function PostLine(abbr: string, n: int, userId: string): string {
    "**" + abbr + IntToString(n) + ":** " + Mention(userId) + "\n"
  }

  /**
   * The text the loop has built after the first `n` players: a line for each
   * resolvable player, numbered by its place in the chart.
   */
  function Listing(abbr: string, players: seq<string>, resolvable: set<string>, n: nat): string
    requires n <= |players|
  {
    if n == 0 then ""
    else
      var line := if players[n - 1] in resolvable then PostLine(abbr, n, players[n - 1]) else "";
      Listing(abbr, players, resolvable, n - 1) + line
  }

  /** The listing is empty exactly when none of the players can be resolved. */
  lemma {:induction false} ListingEmptyIff(abbr: string, players: seq<string>, resolvable: set<string>, n: nat)
    requires n <= |players|
    ensures Listing(abbr, players, resolvable, n) == "" <==> forall i :: 0 <= i < n ==> players[i] !in resolvable
  {
    if n > 0 {
      ListingEmptyIff(abbr, players, resolvable, n - 1);
    }
  }

  /** A listing is a prefix of every longer one. */
  lemma {:induction false} ListingPrefix(abbr: string, players: seq<string>, resolvable: set<string>, m: nat, n: nat)
    requires m <= n <= |players|
    ensures |Listing(abbr, players, resolvable, m)| <= |Listing(abbr, players, resolvable, n)|
    ensures Listing(abbr, players, resolvable, n)[..|Listing(abbr, players, resolvable, m)|] == Listing(abbr, players, resolvable, m)
  {
    if m < n {
      ListingPrefix(abbr, players, resolvable, m, n - 1);
    }
  }

  /**
   * Every resolvable player is listed under its own position in the chart:
   * skipped players leave gaps in the numbering instead of renumbering the rest.
   */
  lemma ListingShowsPosition(abbr: string, players: seq<string>, resolvable: set<string>, i: nat)
    requires i < |players| && players[i] in resolvable
    ensures Contains(Listing(abbr, players, resolvable, |players|), PostLine(abbr, i + 1, players[i]))
  {
    var line := PostLine(abbr, i + 1, players[i]);
    var before := Listing(abbr, players, resolvable, i);
    var upto := Listing(abbr, players, resolvable, i + 1);
    var all := Listing(abbr, players, resolvable, |players|);
    assert upto == before + line;
    ListingPrefix(abbr, players, resolvable, i + 1, |players|);
    assert all[..|upto|] == upto;
    assert all[|before|..|before| + |line|] == upto[|before|..] == line;
    assert InfixAt(all, line, |before|);
  }

  // ---------------------------------------------------------------------------
  // Replies
  // ---------------------------------------------------------------------------

  function PermissionDenied(): Embed {
    ErrorEmbed("Permission Denied", "You need Manager role or higher!")
  }

  function NotFound(abbr: string): Embed {
    ErrorEmbed("Not Found", "Depth chart **" + abbr + "** doesn't exist!")
  }

  function NotInChart(userId: string, abbr: string): Embed {
    ErrorEmbed("Not Found", Mention(userId) + " is not in **" + abbr + "** depth chart!")
  }

  function EmptyChart(abbr: string): Embed {
    ErrorEmbed("Empty", "**" + abbr + "** depth chart is empty!")
  }

  function Created(name: string, abbr: string): Embed {
    SuccessEmbed("\U{1F4CA} Depth Chart Created", "Created **" + name + "** (" + abbr + ")\n\nUse `/depthchart add` to add players!")
  }

  function AlreadyExists(abbr: string): Embed {
    ErrorEmbed("Already Exists", "Depth chart **" + abbr + "** already exists!\n\nUse `/depthchart delete` to remove it first.")
  }

  function AlreadyAdded(userId: string, abbr: string): Embed {
    ErrorEmbed("Already Added", Mention(userId) + " is already in **" + abbr + "** depth chart!")
  }

  function Added(userId: string, name: string, abbr: string, position: int): Embed {
    SuccessEmbed("\U{2705} Player Added",
      "Added " + Mention(userId) + " to **" + name + "**\n**Position:** " + abbr + IntToString(position) + "\n\nUse `/depthchart post` to view!")
  }

  function Removed(userId: string, name: string): Embed {
    SuccessEmbed("\U{1F5D1}\U{FE0F} Player Removed", "Removed " + Mention(userId) + " from **" + name + "**")
  }

  function AlreadyAtTop(userId: string, abbr: string): Embed {
    ErrorEmbed("Already at Top", Mention(userId) + " is already **" + abbr + "1** (top of depth chart)!")
  }

  function Promoted(userId: string, moveText: string): Embed {
    SuccessEmbed("\U{2B06}\U{FE0F} Player Promoted", Mention(userId) + " moved up!\n" + moveText)
  }

  function AlreadyAtBottom(userId: string): Embed {
    ErrorEmbed("Already at Bottom", Mention(userId) + " is already at the bottom!")
  }

  function Demoted(userId: string, moveText: string): Embed {
    SuccessEmbed("\U{2B07}\U{FE0F} Player Demoted", Mention(userId) + " moved down!\n" + moveText)
  }

  function EmptyPost(name: string): Embed {
    ErrorEmbed("Empty", "**" + name + "** depth chart is empty!\n\nUse `/depthchart add` to add players.")
  }

  const NoPlayersFound := "\U{2022} No players found"

  /** The posted chart: title 'name:', the listing, the default colour and the guild footer. */
  function ChartEmbed(name: string, text: string, guildName: string): Embed {
    Embed(Some(name + ":"), Some(text), Some(DefaultColor), [], Some(guildName + " \U{2022} Depth Chart"), true)
  }

  function Deleted(name: string, abbr: string, count: nat): Embed {
    SuccessEmbed("\U{1F5D1}\U{FE0F} Depth Chart Deleted",
      "Deleted **" + name + "** (" + abbr + ") and all " + NatToString(count) + " players.")
  }

  // ---------------------------------------------------------------------------
  // The store and the handlers
  // ---------------------------------------------------------------------------

  /** The depth charts of one guild, by abbreviation. */
  class DepthChartStore {
    var charts: map<string, Chart>

    /** No chart lists a player twice. */
    ghost predicate Valid()
      reads this
    {
      forall k :: k in charts ==> NoDuplicates(PlayersOf(charts[k]))
    }

    constructor ()
      ensures charts == map[] && Valid()
    {
      charts := map[];
    }

    /** `handleCreate`: a new, empty chart under the upper-cased abbreviation unless one exists. */
    method Create(isManager: bool, name: string, abbreviation: string) returns (reply: Embed)
      requires Valid()
      modifies this
      ensures Valid()
      ensures !isManager ==> reply == PermissionDenied() && charts == old(charts)
      ensures isManager && ToUpper(abbreviation) in old(charts) ==>
        reply == AlreadyExists(ToUpper(abbreviation)) && charts == old(charts)
      ensures isManager && ToUpper(abbreviation) !in old(charts) ==>
        reply == Created(name, ToUpper(abbreviation)) && charts == old(charts)[ToUpper(abbreviation) := Chart(name, Some([]))]
    {
      if !isManager {
        return PermissionDenied();
      }
      var abbr := ToUpper(abbreviation);
      if abbr in charts {
        return AlreadyExists(abbr);
      }
      charts := charts[abbr := Chart(name, Some([]))];
      reply := Created(name, abbr);
    }

    /** `handleAdd`: appends a player not yet in the chart and reports its 1-based position. */
    method Add(isManager: bool, abbreviation: string, userId: string) returns (reply: Embed)
      requires Valid()
      modifies this
      ensures Valid()
      ensures !isManager ==> reply == PermissionDenied() && charts == old(charts)
      ensures isManager && abbreviation !in old(charts) ==> reply == NotFound(abbreviation) && charts == old(charts)
      ensures isManager && abbreviation in old(charts) && userId in PlayersOf(old(charts)[abbreviation]) ==>
        reply == AlreadyAdded(userId, abbreviation) && charts == old(charts)
      ensures isManager && abbreviation in old(charts) && userId !in PlayersOf(old(charts)[abbreviation]) ==>
        var c := old(charts)[abbreviation];
        && charts == old(charts)[abbreviation := c.(players := Some(PlayersOf(c) + [userId]))]
        && reply == Added(userId, c.name, abbreviation, |PlayersOf(c)| + 1)
    {
      if !isManager {
        return PermissionDenied();
      }
      if abbreviation !in charts {
        return NotFound(abbreviation);
      }
      var c := charts[abbreviation];
      var players := PlayersOf(c);
      if userId in players {
        return AlreadyAdded(userId, abbreviation);
      }
      var position := |players| + 1;
      charts := charts[abbreviation := c.(players := Some(players + [userId]))];
      reply := Added(userId, c.name, abbreviation, position);
    }

    /** `handleRemove`: takes a listed player out of the chart. */
    method Remove(isManager: bool, abbreviation: string, userId: string) returns (reply: Embed)
      requires Valid()
      modifies this
      ensures Valid()
      ensures !isManager ==> reply == PermissionDenied() && charts == old(charts)
      ensures isManager && abbreviation !in old(charts) ==> reply == NotFound(abbreviation) && charts == old(charts)
      ensures isManager && abbreviation in old(charts) && userId !in PlayersOf(old(charts)[abbreviation]) ==>
        reply == NotInChart(userId, abbreviation) && charts == old(charts)
      ensures isManager && abbreviation in old(charts) && userId in PlayersOf(old(charts)[abbreviation]) ==>
        var c := old(charts)[abbreviation];
        && charts == old(charts)[abbreviation := c.(players := Some(Without(PlayersOf(c), userId)))]
        && |PlayersOf(charts[abbreviation])| == |PlayersOf(c)| - 1
        && reply == Removed(userId, c.name)
    {
      if !isManager {
        return PermissionDenied();
      }
      if abbreviation !in charts {
        return NotFound(abbreviation);
      }
      var c := charts[abbreviation];
      if userId !in PlayersOf(c) {
        return NotInChart(userId, abbreviation);
      }
      WithoutFacts(PlayersOf(c), userId);
      charts := charts[abbreviation := c.(players := Some(Without(PlayersOf(c), userId)))];
      reply := Removed(userId, c.name);
    }

    /**
     * `handlePromote`: swaps the player with the one above it and announces
     * the move with the label as written, one place too low on both sides.
     */
    method Promote(isManager: bool, abbreviation: string, userId: string) returns (reply: Embed)
      requires Valid()
      modifies this
      ensures Valid()
      ensures !isManager ==> reply == PermissionDenied() && charts == old(charts)
      ensures isManager && abbreviation !in old(charts) ==> reply == NotFound(abbreviation) && charts == old(charts)
      ensures isManager && abbreviation in old(charts) ==>
        var s := PlayersOf(old(charts)[abbreviation]);
        var i := IndexOf(s, userId);
        && (s == [] ==> reply == EmptyChart(abbreviation) && charts == old(charts))
        && (s != [] && i == -1 ==> reply == NotInChart(userId, abbreviation) && charts == old(charts))
        && (s != [] && i == 0 ==> reply == AlreadyAtTop(userId, abbreviation) && charts == old(charts))
        && (i > 0 ==>
             && charts == old(charts)[abbreviation := old(charts)[abbreviation].(players := Some(Swap(s, i, i - 1)))]
             && reply == Promoted(userId, PromoteLabelAsWritten(abbreviation, i)))
    {
      if !isManager {
        return PermissionDenied();
      }
      if abbreviation !in charts {
        return NotFound(abbreviation);
      }
      var c := charts[abbreviation];
      var s := PlayersOf(c);
      if |s| == 0 {
        return EmptyChart(abbreviation);
      }
      var i := IndexOf(s, userId);
      if i == -1 {
        return NotInChart(userId, abbreviation);
      }
      if i == 0 {
        return AlreadyAtTop(userId, abbreviation);
      }
      SwapKeepsNoDuplicates(s, i, i - 1);
      charts := charts[abbreviation := c.(players := Some(Swap(s, i, i - 1)))];
      reply := Promoted(userId, PromoteLabelAsWritten(abbreviation, i));
    }

    /** `handleDemote`: swaps the player with the one below it. */
    method Demote(isManager: bool, abbreviation: string, userId: string) returns (reply: Embed)
      requires Valid()
      modifies this
      ensures Valid()
      ensures !isManager ==> reply == PermissionDenied() && charts == old(charts)
      ensures isManager && abbreviation !in old(charts) ==> reply == NotFound(abbreviation) && charts == old(charts)
      ensures isManager && abbreviation in old(charts) ==>
        var s := PlayersOf(old(charts)[abbreviation]);
        var i := IndexOf(s, userId);
        && (s == [] ==> reply == EmptyChart(abbreviation) && charts == old(charts))
        && (s != [] && i == -1 ==> reply == NotInChart(userId, abbreviation) && charts == old(charts))
        && (s != [] && i == |s| - 1 ==> reply == AlreadyAtBottom(userId) && charts == old(charts))
        && (0 <= i < |s| - 1 ==>
             && charts == old(charts)[abbreviation := old(charts)[abbreviation].(players := Some(Swap(s, i, i + 1)))]
             && reply == Demoted(userId, DemoteLabel(abbreviation, i)))
    {
      if !isManager {
        return PermissionDenied();
      }
      if abbreviation !in charts {
        return NotFound(abbreviation);
      }
      var c := charts[abbreviation];
      var s := PlayersOf(c);
      if |s| == 0 {
        return EmptyChart(abbreviation);
      }
      var i := IndexOf(s, userId);
      if i == -1 {
        return NotInChart(userId, abbreviation);
      }
      if i == |s| - 1 {
        return AlreadyAtBottom(userId);
      }
      SwapKeepsNoDuplicates(s, i, i + 1);
      charts := charts[abbreviation := c.(players := Some(Swap(s, i, i + 1)))];
      reply := Demoted(userId, DemoteLabel(abbreviation, i));
    }

    /**
     * `handlePost`: open to everyone; lists the resolvable players under
     * their chart positions, or '• No players found' when none resolves.
     */
    method Post(abbreviation: string, resolvable: set<string>, guildName: string) returns (reply: Embed)
      ensures abbreviation !in charts ==> reply == NotFound(abbreviation)
      ensures abbreviation in charts && PlayersOf(charts[abbreviation]) == [] ==> reply == EmptyPost(charts[abbreviation].name)
      ensures abbreviation in charts && PlayersOf(charts[abbreviation]) != [] ==>
        var c := charts[abbreviation];
        var text := Listing(abbreviation, PlayersOf(c), resolvable, |PlayersOf(c)|);
        reply == ChartEmbed(c.name, if text == "" then NoPlayersFound else text, guildName)
    {
      if abbreviation !in charts {
        return NotFound(abbreviation);
      }
      var c := charts[abbreviation];
      var players := PlayersOf(c);
      if |players| == 0 {
        return EmptyPost(c.name);
      }
      var text := "";
      var i := 0;
      while i < |players|
        invariant 0 <= i <= |players|
        invariant text == Listing(abbreviation, players, resolvable, i)
      {
        if players[i] in resolvable {
          text := text + PostLine(abbreviation, i + 1, players[i]);
        }
        i := i + 1;
      }
      if text == "" {
        text := NoPlayersFound;
      }
      reply := ChartEmbed(c.name, text, guildName);
    }

    /** `handleDelete`: drops the chart and reports how many players it had. */
    method Delete(isManager: bool, abbreviation: string) returns (reply: Embed)
      requires Valid()
      modifies this
      ensures Valid()
      ensures !isManager ==> reply == PermissionDenied() && charts == old(charts)
      ensures isManager && abbreviation !in old(charts) ==> reply == NotFound(abbreviation) && charts == old(charts)
      ensures isManager && abbreviation in old(charts) ==>
        var c := old(charts)[abbreviation];
        charts == old(charts) - {abbreviation} && reply == Deleted(c.name, abbreviation, |PlayersOf(c)|)
    {
      if !isManager {
        return PermissionDenied();
      }
      if abbreviation !in charts {
        return NotFound(abbreviation);
      }
      var c := charts[abbreviation];
      charts := charts - {abbreviation};
      reply := Deleted(c.name, abbreviation, |PlayersOf(c)|);
    }
  }
}
