/**
 * Lineup helpers of `utils/lineupManager.js`: the position-order sort, the
 * player lookup, the player listing and the fullness test.
 */
module LineupManager {
  import opened Wrappers
  import opened Text
  import Sorting

  /** One lineup entry: a Discord user id and the position text stored for them. */
  datatype Player = Player(userId: string, position: string)

  /** A stored lineup; `players` is absent on a record that never had any. */
  datatype Lineup = Lineup(name: string, description: Option<string>, players: Option<seq<Player>>, createdBy: string)

  /** The players of a lineup, an absent list read as empty. */
  function PlayersOf(l: Lineup): (r: seq<Player>)
    ensures l.players.Some? ==> r == l.players.value
    ensures l.players.None? ==> r == []
  {
    l.players.GetOr([])
  }

  // ---------------------------------------------------------------------------
  // sortPlayersByPosition
  // ---------------------------------------------------------------------------

  /** The league's position order; a position not in the table ranks 99. */
  function PositionRank(lowered: string): (r: int)
    ensures 1 <= r <= 15 || r == 99
  {
    if lowered == "qb" then 1
    else if lowered == "ol" then 2
    else if lowered == "te" then 3
    else if lowered == "streak" then 4
    else if lowered == "fold" then 5
    else if lowered == "los" then 6
    else if lowered == "short" then 7
    else if lowered == "deep" then 8
    else if lowered == "mlb" then 9
    else if lowered == "de" then 10
    else if lowered == "fs" then 11
    else if lowered == "flex" then 12
    else if lowered == "sub" || lowered == "backup" then 13
    else if lowered == "coach" then 14
    else if lowered == "manager" then 15
    else 99
  }

  /** The sort key of a player: the rank of its lower-cased position. */
  function Rank(p: Player): int {
    PositionRank(ToLower(p.position))
  }

  /** The rank ignores the case of the position. */
  lemma RankIgnoresCase(p: Player, q: Player)
    requires ToLower(p.position) == ToLower(q.position)
    ensures Rank(p) == Rank(q)
  {
  }

  /**
   * `sortPlayersByPosition(players)`: sorts the array in place by rank, keeping
   * the order of equal ranks, and returns that same array.
   */
  method SortPlayersByPosition(players: array<Player>) returns (r: array<Player>)
    modifies players
    ensures r == players
    ensures players[..] == Sorting.SortBy(old(players[..]), Rank)
  {
    Sorting.InsertionSortBy(players, Rank);
    r := players;
  }

  /**
   * What the sort promises: the same players, ranks nondecreasing, and players
   * of one rank (such as 'sub' and 'backup', or all unknown positions) in
   * their original order.
   */
  lemma SortedPlayersProperties(players: seq<Player>)
    ensures multiset(Sorting.SortBy(players, Rank)) == multiset(players)
    ensures Sorting.SortedBy(Sorting.SortBy(players, Rank), Rank)
    ensures forall k :: Sorting.WithKey(Sorting.SortBy(players, Rank), Rank, k) == Sorting.WithKey(players, Rank, k)
  {
    Sorting.SortByPermutes(players, Rank);
    Sorting.SortBySorted(players, Rank);
    forall k ensures Sorting.WithKey(Sorting.SortBy(players, Rank), Rank, k) == Sorting.WithKey(players, Rank, k) {
      Sorting.SortByStable(players, Rank, k);
    }
  }

  // ---------------------------------------------------------------------------
  // getPlayerPosition
  // ---------------------------------------------------------------------------

  /** `i` is the index of the first player with `userId`. */
  predicate FirstWith(players: seq<Player>, userId: string, i: int) {
    0 <= i < |players| && players[i].userId == userId && forall j :: 0 <= j < i ==> players[j].userId != userId
  }

  /** The position of the first player with `userId`; none for an absent or empty list or no match. */
  function FindPosition(players: seq<Player>, userId: string): (r: Option<string>)
    ensures r.None? <==> forall i :: 0 <= i < |players| ==> players[i].userId != userId
    ensures r.Some? ==> exists i :: FirstWith(players, userId, i) && r.value == players[i].position
  {
    if players == [] then None
    else if players[0].userId == userId then
      assert FirstWith(players, userId, 0);
      Some(players[0].position)
    else
      var r := FindPosition(players[1..], userId);
      if r.Some? then
        var i :| FirstWith(players[1..], userId, i) && r.value == players[1..][i].position;
        assert FirstWith(players, userId, i + 1);
        r
      else
        r
  }

  /** `getPlayerPosition(lineup, userId)`. */
  function GetPlayerPosition(lineup: Lineup, userId: string): (r: Option<string>)
    ensures r == FindPosition(PlayersOf(lineup), userId)
  {
    if lineup.players.None? || |lineup.players.value| == 0 then None
    else FindPosition(lineup.players.value, userId)
  }

  // ---------------------------------------------------------------------------
  // formatLineupPlayers
  // ---------------------------------------------------------------------------

  const NoPlayersText := "No players added yet."

  /** `**POS:** <@id>`. */
  function PlayerLine(p: Player): string {
    "**" + p.position + ":** " + Mention(p.userId)
  }

  function PlayerLines(players: seq<Player>): (r: seq<string>)
    ensures |r| == |players|
    ensures forall i :: 0 <= i < |players| ==> r[i] == PlayerLine(players[i])
  {
    if players == [] then [] else [PlayerLine(players[0])] + PlayerLines(players[1..])
  }

  /** `formatLineupPlayers(players)`: the placeholder for no players, otherwise one line per player in order. */
  function FormatLineupPlayers(players: Option<seq<Player>>): (r: string)
    ensures players.None? || players.value == [] ==> r == NoPlayersText
    ensures players.Some? && players.value != [] ==> r == Join(PlayerLines(players.value), "\n")
  {
    if players.None? || |players.value| == 0 then NoPlayersText
    else Join(PlayerLines(players.value), "\n")
  }

  /** The placeholder is shown exactly when there is no player. */
  lemma FormatLineupPlayersPlaceholderIff(players: Option<seq<Player>>)
    ensures FormatLineupPlayers(players) == NoPlayersText <==> players.None? || players.value == []
  {
    if players.Some? && players.value != [] {
      var lines := PlayerLines(players.value);
      JoinStartsWith(lines, "\n");
      assert FormatLineupPlayers(players)[0] == '*';
    }
  }

  /** Adding a player at the end adds one line at the end. */
  lemma FormatLineupPlayersSnoc(players: seq<Player>, p: Player)
    requires players != []
    ensures FormatLineupPlayers(Some(players + [p])) == FormatLineupPlayers(Some(players)) + "\n" + PlayerLine(p)
  {
    assert PlayerLines(players + [p]) == PlayerLines(players) + [PlayerLine(p)];
    JoinSnoc(PlayerLines(players), PlayerLine(p), "\n");
  }

  // ---------------------------------------------------------------------------
  // isLineupFull
  // ---------------------------------------------------------------------------

  /** The default `maxPlayers` of `isLineupFull`. */
  const DefaultMaxPlayers := 15

  /** `isLineupFull(lineup, maxPlayers)`: the lineup has a player list with at least `maxPlayers` entries. */
  predicate IsLineupFull(lineup: Lineup, maxPlayers: int) {
    lineup.players.Some? && |lineup.players.value| >= maxPlayers
  }

  /** A full lineup stays full when a player is added, and is full for every smaller limit. */
  lemma IsLineupFullMonotone(lineup: Lineup, maxPlayers: int, smaller: int, p: Player)
    requires IsLineupFull(lineup, maxPlayers)
    requires smaller <= maxPlayers
    ensures IsLineupFull(lineup, smaller)
    ensures IsLineupFull(lineup.(players := Some(lineup.players.value + [p])), maxPlayers)
  {
  }

  /** A lineup without a player list is never full, even for a limit of 0. */
  lemma NoPlayerListNeverFull(lineup: Lineup, maxPlayers: int)
    requires lineup.players.None?
    ensures !IsLineupFull(lineup, maxPlayers)
  {
  }
}
