/**
 * Award and ring helpers of `utils/awards.js`: counts, grouping by league,
 * the summary text and the one-line displays. The ring and trophy emojis come
 * from the bot's configuration file, which is not part of this model, so they
 * are parameters.
 */
module Awards {
  import opened Wrappers
  import opened Text

  /** A championship ring as stored: league, season and the optional finals opponent. */
  datatype Ring = Ring(league: string, season: string, opponent: Option<string>)

  /** An individual award as stored. */
  datatype Award = Award(award: string, league: string, season: string)

  /** `config.emojis.ring` and `config.emojis.trophy`. */
  datatype Emojis = Emojis(ring: string, trophy: string)

  // ---------------------------------------------------------------------------
  // Displays and counts
  // ---------------------------------------------------------------------------

  /** `formatRingDisplay(ring)`: '<ring> **league** - season', plus ' (vs X)' only when an opponent is given. */
  function FormatRingDisplay(ring: Ring, emojis: Emojis): (r: string)
    ensures var head := emojis.ring + " **" + ring.league + "** - " + ring.season;
      && (!Truthy(ring.opponent) ==> r == head)
      && (Truthy(ring.opponent) ==> r == head + " (vs " + ring.opponent.value + ")")
  {
    emojis.ring + " **" + ring.league + "** - " + ring.season
      + (if Truthy(ring.opponent) then " (vs " + ring.opponent.value + ")" else "")
  }

  /** `formatAwardDisplay(award)`: '<trophy> **award** - league season'. */
  function FormatAwardDisplay(award: Award, emojis: Emojis): string {
    emojis.trophy + " **" + award.award + "** - " + award.league + " " + award.season
  }

  /**
   * An award line ends with the season, and two lines for the same award and
   * league are the same exactly when the seasons are.
   */
  lemma AwardDisplaySeasons(a: Award, b: Award, emojis: Emojis)
    requires a.award == b.award && a.league == b.league
    ensures var r := FormatAwardDisplay(a, emojis); |r| >= |a.season| && r[|r| - |a.season|..] == a.season
    ensures FormatAwardDisplay(a, emojis) == FormatAwardDisplay(b, emojis) <==> a.season == b.season
  {
    var head := emojis.trophy + " **" + a.award + "** - " + a.league + " ";
    assert FormatAwardDisplay(a, emojis) == head + a.season;
    assert FormatAwardDisplay(b, emojis) == head + b.season;
    assert (head + a.season)[|head|..] == a.season;
    assert (head + b.season)[|head|..] == b.season;
  }

  /** `countTotalRings` and `countTotalAwards`: 0 for a missing list, otherwise its length. */
  function CountTotal<T>(items: Option<seq<T>>): (n: nat)
    ensures items.None? ==> n == 0
    ensures items.Some? ==> n == |items.value|
  {
    if items.Some? then |items.value| else 0
  }

  // ---------------------------------------------------------------------------
  // getRingsByLeague / getAwardsByLeague
  // ---------------------------------------------------------------------------

  /**
   * The accumulator object, as its entries in insertion order: a league name
   * and the items of that league.
   */
  type Groups<T> = seq<(string, seq<T>)>

  /** `acc[k] ||= []; acc[k].push(x)`. */
  function AddTo<T>(g: Groups<T>, k: string, x: T): Groups<T> {
    if g == [] then [(k, [x])]
    else if g[0].0 == k then [(k, g[0].1 + [x])] + g[1..]
    else [g[0]] + AddTo(g[1..], k, x)
  }

  /** The reduce of the source, as a function of the input list. */
  function GroupedBy<T>(items: seq<T>, league: T -> string): Groups<T> {
    if items == [] then []
    else AddTo(GroupedBy(items[..|items| - 1], league), league(items[|items| - 1]), items[|items| - 1])
  }

  /** `acc[k]`, or no items when there is no such entry. */
  function Bucket<T>(g: Groups<T>, k: string): seq<T> {
    if g == [] then [] else if g[0].0 == k then g[0].1 else Bucket(g[1..], k)
  }

  function Keys<T>(g: Groups<T>): set<string> {
    if g == [] then {} else {g[0].0} + Keys(g[1..])
  }

  predicate DistinctKeys<T>(g: Groups<T>) {
    forall i, j :: 0 <= i < j < |g| ==> g[i].0 != g[j].0
  }

  function TotalSize<T>(g: Groups<T>): nat {
    if g == [] then 0 else |g[0].1| + TotalSize(g[1..])
  }

  /** The items of one league, in input order. */
  function InLeague<T>(items: seq<T>, league: T -> string, k: string): seq<T> {
    if items == [] then []
    else InLeague(items[..|items| - 1], league, k) + (if league(items[|items| - 1]) == k then [items[|items| - 1]] else [])
  }

  /** The set of leagues that occur in the input. */
  function LeaguesOf<T>(items: seq<T>, league: T -> string): set<string> {
    if items == [] then {} else LeaguesOf(items[..|items| - 1], league) + {league(items[|items| - 1])}
  }

  lemma {:induction false} AddToFacts<T>(g: Groups<T>, k: string, x: T)
    ensures forall k' :: Bucket(AddTo(g, k, x), k') == if k' == k then Bucket(g, k) + [x] else Bucket(g, k')
    ensures Keys(AddTo(g, k, x)) == Keys(g) + {k}
    ensures TotalSize(AddTo(g, k, x)) == TotalSize(g) + 1
    ensures DistinctKeys(g) ==> DistinctKeys(AddTo(g, k, x))
  {
    if g != [] && g[0].0 != k {
      AddToFacts(g[1..], k, x);
      var r := AddTo(g, k, x);
      assert r[1..] == AddTo(g[1..], k, x);
      if DistinctKeys(g) {
        assert DistinctKeys(g[1..]) by {
          forall i, j | 0 <= i < j < |g[1..]| ensures g[1..][i].0 != g[1..][j].0 {
            assert g[1..][i] == g[i + 1] && g[1..][j] == g[j + 1];
          }
        }
        forall i, j | 0 <= i < j < |r| ensures r[i].0 != r[j].0 {
          if i == 0 {
            assert r[j].0 in Keys(r[1..]) by { KeyInKeys(r[1..], j - 1); }
            assert g[0].0 !in Keys(g[1..]) by { KeyNotInKeys(g); }
          } else {
            assert r[i] == r[1..][i - 1] && r[j] == r[1..][j - 1];
          }
        }
      }
    } else if g != [] {
      var r := AddTo(g, k, x);
      assert r[1..] == g[1..];
      if DistinctKeys(g) {
        forall i, j | 0 <= i < j < |r| ensures r[i].0 != r[j].0 {
          if i == 0 {
            assert g[j].0 != g[0].0;
          } else {
            assert r[i] == g[i] && r[j] == g[j];
          }
        }
      }
    }
  }

  lemma {:induction false} KeyInKeys<T>(g: Groups<T>, i: nat)
    requires i < |g|
    ensures g[i].0 in Keys(g)
  {
    if i > 0 {
      KeyInKeys(g[1..], i - 1);
    }
  }

  lemma {:induction false} KeyNotInKeys<T>(g: Groups<T>)
    requires g != [] && DistinctKeys(g)
    ensures g[0].0 !in Keys(g[1..])
  {
    forall i | 0 <= i < |g[1..]| ensures g[1..][i].0 != g[0].0 {
      assert g[1..][i] == g[i + 1];
    }
    AbsentKey(g[1..], g[0].0);
  }

  lemma {:induction false} AbsentKey<T>(g: Groups<T>, k: string)
    requires forall i :: 0 <= i < |g| ==> g[i].0 != k
    ensures k !in Keys(g)
  {
    if g != [] {
      forall i | 0 <= i < |g[1..]| ensures g[1..][i].0 != k {
        assert g[1..][i] == g[i + 1];
      }
      AbsentKey(g[1..], k);
    }
  }

  /**
   * The grouping puts every item in its league's bucket in input order, has
   * one entry per league that occurs and no other, never repeats a league, and
   * its buckets hold as many items as the input.
   */
  lemma {:induction false} GroupedByPartitions<T>(items: seq<T>, league: T -> string)
    ensures forall k :: Bucket(GroupedBy(items, league), k) == InLeague(items, league, k)
    ensures Keys(GroupedBy(items, league)) == LeaguesOf(items, league)
    ensures DistinctKeys(GroupedBy(items, league))
    ensures TotalSize(GroupedBy(items, league)) == |items|
  {
    if items != [] {
      var init, x := items[..|items| - 1], items[|items| - 1];
      GroupedByPartitions(init, league);
      AddToFacts(GroupedBy(init, league), league(x), x);
    }
  }

  /**
   * `getRingsByLeague(rings)` and `getAwardsByLeague(awards)`: the loop of the
   * reduce, starting from the empty object; a missing or empty list gives no entry.
   */
  method GroupByLeague<T>(items: Option<seq<T>>, league: T -> string) returns (acc: Groups<T>)
    ensures items.None? ==> acc == []
    ensures items.Some? ==> acc == GroupedBy(items.value, league)
  {
    acc := [];
    if items.None? || |items.value| == 0 {
      return;
    }
    var s := items.value;
    var i := 0;
    while i < |s|
      invariant 0 <= i <= |s|
      invariant acc == GroupedBy(s[..i], league)
    {
      assert s[..i + 1][..i] == s[..i];
      acc := AddTo(acc, league(s[i]), s[i]);
      i := i + 1;
    }
    assert s[..i] == s;
  }

  function RingLeague(r: Ring): string { r.league }
  function AwardLeague(a: Award): string { a.league }

  // ---------------------------------------------------------------------------
  // generateAwardSummary
  // ---------------------------------------------------------------------------

  const NoAwardsSummary := "No awards or rings yet. Keep grinding!"

  /** '<emoji> **n** noun' with the plural 's' exactly when `n > 1`. */
  function CountLine(emoji: string, n: nat, noun: string): string {
    emoji + " **" + NatToString(n) + "** " + noun + (if n > 1 then "s" else "")
  }

  /** `generateAwardSummary(rings, awards)`. */
  function GenerateAwardSummary(rings: Option<seq<Ring>>, awards: Option<seq<Award>>, emojis: Emojis): (r: string)
    ensures var nr, na := CountTotal(rings), CountTotal(awards);
      && (nr == 0 && na == 0 ==> r == NoAwardsSummary)
      && (nr > 0 && na == 0 ==> r == CountLine(emojis.ring, nr, "Championship Ring"))
      && (nr == 0 && na > 0 ==> r == CountLine(emojis.trophy, na, "Individual Award"))
      && (nr > 0 && na > 0 ==> r == CountLine(emojis.ring, nr, "Championship Ring") + "\n" + CountLine(emojis.trophy, na, "Individual Award"))
  {
    var totalRings := CountTotal(rings);
    var totalAwards := CountTotal(awards);
    if totalRings == 0 && totalAwards == 0 then NoAwardsSummary
    else
      var summary := if totalRings > 0 then CountLine(emojis.ring, totalRings, "Championship Ring") else "";
      if totalAwards > 0 then
        (if summary != "" then summary + "\n" else summary) + CountLine(emojis.trophy, totalAwards, "Individual Award")
      else summary
  }

  /** The placeholder summary appears exactly when there is neither a ring nor an award. */
  lemma SummaryPlaceholderIff(rings: Option<seq<Ring>>, awards: Option<seq<Award>>, emojis: Emojis)
    ensures GenerateAwardSummary(rings, awards, emojis) == NoAwardsSummary <==> CountTotal(rings) == 0 && CountTotal(awards) == 0
  {
    var r := GenerateAwardSummary(rings, awards, emojis);
    if CountTotal(rings) > 0 || CountTotal(awards) > 0 {
      // every count line ends in a letter, the placeholder in '!'
      assert r[|r| - 1] != '!';
    }
  }

  /** A count line ends in the plural 's' exactly when the count exceeds one. */
  lemma PluralIff(emoji: string, n: nat, noun: string)
    requires noun != [] && noun[|noun| - 1] != 's'
    ensures var l := CountLine(emoji, n, noun); l[|l| - 1] == 's' <==> n > 1
  {
  }
}
